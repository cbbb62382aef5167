/** posts/context_processors.py: the trending tags shown on every page. */
module PostsContext {
  import opened Base
  import opened PostsModels

  /** `timedelta(days=1)` in seconds. */
  const Window: int := 86400
  const TrendingLimit: nat := 5

  datatype TrendingTag = TrendingTag(tag: Tag, numPosts: nat)

  function NumPostsKey(t: TrendingTag): int { t.numPosts }

  /** `Count('posts')` after the filter on the same relation: the tag's posts
      created at or after `threshold`. */
  function NumPosts(t: Tag, links: set<TagLink>, posts: seq<Post>, threshold: int): nat
  {
    Count(posts, RecentWith(t, links, threshold))
  }

  /** A post tagged `t` and created at or after `threshold`. */
  function RecentWith(t: Tag, links: set<TagLink>, threshold: int): Post -> bool
  {
    (p: Post) => TagLink(p.id, t.id) in links && p.createdAt >= threshold
  }

  function Annotated(tags: seq<Tag>, links: set<TagLink>, posts: seq<Post>, threshold: int): (r: seq<TrendingTag>)
    ensures |r| == |tags|
    ensures forall i :: 0 <= i < |r| ==> r[i] == TrendingTag(tags[i], NumPosts(tags[i], links, posts, threshold))
  {
    seq(|tags|, i requires 0 <= i < |tags| => TrendingTag(tags[i], NumPosts(tags[i], links, posts, threshold)))
  }

  predicate HasRecentPost(t: TrendingTag) { t.numPosts > 0 }

  /** `trending_tags_processor` at time `now`: tags with a post in the last
      24 hours (the inner join of the filter), by that count, top five. */
  function TrendingTags(tags: seq<Tag>, links: set<TagLink>, posts: seq<Post>, now: int): seq<TrendingTag>
  {
    Take(SortDesc(Filter(Annotated(tags, links, posts, now - Window), HasRecentPost), NumPostsKey), TrendingLimit)
  }

  /** At most five tags, by recent post count, each a real tag with its count
      of posts from the window and at least one such post; a tag left out
      while it has recent posts ranks no higher than every tag shown. */
  lemma TrendingTagsSpec(tags: seq<Tag>, links: set<TagLink>, posts: seq<Post>, now: int)
    ensures |TrendingTags(tags, links, posts, now)| <= TrendingLimit
    ensures SortedDesc(TrendingTags(tags, links, posts, now), NumPostsKey)
    ensures forall e :: e in TrendingTags(tags, links, posts, now) ==>
      e.tag in tags && e.numPosts == NumPosts(e.tag, links, posts, now - Window) && e.numPosts > 0
    ensures forall t :: t in tags && NumPosts(t, links, posts, now - Window) > 0 &&
                        TrendingTag(t, NumPosts(t, links, posts, now - Window)) !in TrendingTags(tags, links, posts, now) ==>
      |TrendingTags(tags, links, posts, now)| == TrendingLimit &&
      forall e :: e in TrendingTags(tags, links, posts, now) ==> e.numPosts >= NumPosts(t, links, posts, now - Window)
  {
    var all := Annotated(tags, links, posts, now - Window);
    var recent := Filter(all, HasRecentPost);
    var sorted := SortDesc(recent, NumPostsKey);
    SortDescSorted(recent, NumPostsKey);
    TakeSorted(sorted, NumPostsKey, TrendingLimit);
    forall e | e in TrendingTags(tags, links, posts, now)
      ensures e.tag in tags && e.numPosts == NumPosts(e.tag, links, posts, now - Window) && e.numPosts > 0
    {
      assert e in multiset(sorted);
      assert e in recent;
      var i :| 0 <= i < |all| && all[i] == e;
    }
    forall t | t in tags && NumPosts(t, links, posts, now - Window) > 0 &&
               TrendingTag(t, NumPosts(t, links, posts, now - Window)) !in TrendingTags(tags, links, posts, now)
      ensures |TrendingTags(tags, links, posts, now)| == TrendingLimit
      ensures forall e :: e in TrendingTags(tags, links, posts, now) ==> e.numPosts >= NumPosts(t, links, posts, now - Window)
    {
      var x := TrendingTag(t, NumPosts(t, links, posts, now - Window));
      var i :| 0 <= i < |tags| && tags[i] == t;
      assert all[i] == x;
      FilterKeeps(all, HasRecentPost, x);
      assert x in multiset(sorted);
      TakeSortedTop(sorted, NumPostsKey, TrendingLimit, x);
    }
  }

  /** Only the window counts: a post created before it changes nothing. */
  lemma OldPostIgnored(tags: seq<Tag>, links: set<TagLink>, posts: seq<Post>, p: Post, now: int)
    requires p.createdAt < now - Window
    ensures TrendingTags(tags, links, posts + [p], now) == TrendingTags(tags, links, posts, now)
  {
    forall t | t in tags ensures NumPosts(t, links, posts + [p], now - Window) == NumPosts(t, links, posts, now - Window) {
      var recent := RecentWith(t, links, now - Window);
      FilterAppend(posts, [p], recent);
      assert !recent(p);
      assert Filter([p], recent) == [] by {
        assert [p][1..] == [];
      }
      assert Filter(posts + [p], recent) == Filter(posts, recent);
    }
    var a1 := Annotated(tags, links, posts + [p], now - Window);
    var a0 := Annotated(tags, links, posts, now - Window);
    forall i | 0 <= i < |tags| ensures a1[i] == a0[i] {
      assert tags[i] in tags;
    }
    assert a1 == a0;
  }
}
