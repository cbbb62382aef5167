/** posts/views.py: the home feed. */
module PostsViews {
  import opened Base
  import opened PostsModels

  predicate IsPublic(p: Post) { p.privacy == Public }

  /** `HomePageView.get_queryset`: the public posts, newest first. The view
      ignores who is asking, so the feed takes no viewer. */
  function HomeFeed(posts: seq<Post>): seq<Post>
  {
    SortDesc(Filter(posts, IsPublic), CreatedAtKey)
  }

  /** The feed holds every public post, each as often as in the table, and
      nothing else, newest first. */
  lemma HomeFeedSpec(posts: seq<Post>)
    ensures forall p :: p in HomeFeed(posts) <==> p in posts && p.privacy == Public
    ensures forall p :: multiset(HomeFeed(posts))[p] == if p.privacy == Public then multiset(posts)[p] else 0
    ensures forall i, j :: 0 <= i < j < |HomeFeed(posts)| ==> HomeFeed(posts)[i].createdAt >= HomeFeed(posts)[j].createdAt
  {
    forall p ensures multiset(HomeFeed(posts))[p] == if p.privacy == Public then multiset(posts)[p] else 0 {
      FilterMultiset(posts, IsPublic, p);
    }
    forall p ensures p in HomeFeed(posts) <==> p in posts && p.privacy == Public {
      assert p in HomeFeed(posts) <==> p in multiset(HomeFeed(posts));
      assert p in posts <==> p in multiset(posts);
    }
    SortDescSorted(Filter(posts, IsPublic), CreatedAtKey);
  }
}
