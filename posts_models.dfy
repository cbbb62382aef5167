/** posts/models.py: posts, comments, reactions, and the Tag and Report
    records that the signals and the dashboard use; the table operations the
    views perform on them. */
module PostsModels {
  import opened Base
  import opened ContentTypes

  /** `PRIVACY_CHOICES`. */
  datatype Privacy = Public | Friends | Private

  const DefaultPrivacy: Privacy := Public

  datatype Post = Post(
    id: nat,
    author: nat,
    content: string,
    privacy: Privacy,
    createdAt: int,
    sharedFrom: Option<nat>)

  datatype Comment = Comment(
    id: nat,
    author: nat,
    post: nat,
    content: string,
    createdAt: int,
    parent: Option<nat>)

  /** `Reaction.REACTION_CHOICES`. */
  datatype ReactionKind = Like | Love | Haha | Wow | Sad | Angry

  const AllReactionKinds: seq<ReactionKind> := [Like, Love, Haha, Wow, Sad, Angry]

  /** A reaction on any content object (generic foreign key). */
  datatype Reaction = Reaction(id: nat, user: nat, kind: ReactionKind, target: ContentRef)

  /** The Tag record the hashtag signal and the trending list use; its
      declaration is not among the model files, only its `name` is read. */
  datatype Tag = Tag(id: nat, name: string)

  /** One row of the post/tag many-to-many table. */
  datatype TagLink = TagLink(post: nat, tag: nat)

  datatype ReportStatus = ReportPending | ReportIgnored

  /** The Report record the dashboard moderates; deleted with its post. */
  datatype Report = Report(id: nat, status: ReportStatus, post: nat, createdAt: int, reporter: nat)

  function PostRef(postId: nat): ContentRef { ContentRef(PostContent, postId) }

  // ------------------------------------------------------------ orderings

  function CreatedAtKey(p: Post): int { p.createdAt }

  /** `Post.Meta.ordering = ['-created_at']`. */
  function NewestFirst(posts: seq<Post>): seq<Post> { SortDesc(posts, CreatedAtKey) }

  function CommentAgeKey(c: Comment): int { -c.createdAt }

  /** `Comment.Meta.ordering = ['created_at']`. */
  function OldestFirst(comments: seq<Comment>): seq<Comment> { SortDesc(comments, CommentAgeKey) }

  lemma DefaultOrderings(posts: seq<Post>, comments: seq<Comment>)
    ensures multiset(NewestFirst(posts)) == multiset(posts)
    ensures forall i, j :: 0 <= i < j < |posts| ==> NewestFirst(posts)[i].createdAt >= NewestFirst(posts)[j].createdAt
    ensures multiset(OldestFirst(comments)) == multiset(comments)
    ensures forall i, j :: 0 <= i < j < |comments| ==> OldestFirst(comments)[i].createdAt <= OldestFirst(comments)[j].createdAt
  {
    SortDescSorted(posts, CreatedAtKey);
    SortDescSorted(comments, CommentAgeKey);
  }

  // ------------------------------------------------------------ reactions

  function ReactionsOn(reactions: seq<Reaction>, target: ContentRef): seq<Reaction>
  {
    Filter(reactions, (r: Reaction) => r.target == target)
  }

  function CountOfKind(rs: seq<Reaction>, k: ReactionKind): nat
  {
    Count(rs, (r: Reaction) => r.kind == k)
  }

  datatype KindCount = KindCount(kind: ReactionKind, count: nat)

  function CountKey(kc: KindCount): int { kc.count }

  /** The grouped count of line 29 before it drops empty groups and orders them. */
  function KindCounts(rs: seq<Reaction>): seq<KindCount>
  {
    [KindCount(Like, CountOfKind(rs, Like)), KindCount(Love, CountOfKind(rs, Love)),
     KindCount(Haha, CountOfKind(rs, Haha)), KindCount(Wow, CountOfKind(rs, Wow)),
     KindCount(Sad, CountOfKind(rs, Sad)), KindCount(Angry, CountOfKind(rs, Angry))]
  }

  predicate Present(kc: KindCount) { kc.count > 0 }

  /** What the query makes of the per-type counts: the non-zero ones, highest
      count first. */
  function Ranked(all: seq<KindCount>): seq<KindCount>
  {
    SortDesc(Filter(all, Present), CountKey)
  }

  /** `Post.get_reaction_stats`: an ordered dict from reaction type to count.
      GROUP BY yields only the types present. */
  function ReactionStats(reactions: seq<Reaction>, postId: nat): seq<KindCount>
  {
    Ranked(KindCounts(ReactionsOn(reactions, PostRef(postId))))
  }

  lemma {:induction false} KindCountsTotal(rs: seq<Reaction>)
    ensures CountOfKind(rs, Like) + CountOfKind(rs, Love) + CountOfKind(rs, Haha)
          + CountOfKind(rs, Wow) + CountOfKind(rs, Sad) + CountOfKind(rs, Angry) == |rs|
  {
    if rs != [] {
      KindCountsTotal(rs[1..]);
    }
  }

  /** The six per-type counts hold each type once, with its true count. */
  lemma KindCountsShape(on: seq<Reaction>)
    ensures forall k :: KindCount(k, CountOfKind(on, k)) in KindCounts(on)
    ensures forall x :: x in KindCounts(on) ==> x.count == CountOfKind(on, x.kind)
    ensures forall x, y :: x in KindCounts(on) && y in KindCounts(on) && x.kind == y.kind ==> x == y
  {
    var all := KindCounts(on);
    forall k ensures KindCount(k, CountOfKind(on, k)) in all {
      assert k == Like || k == Love || k == Haha || k == Wow || k == Sad || k == Angry;
    }
  }

  /** No entry of the per-type counts occurs twice. */
  lemma KindCountsOnce(on: seq<Reaction>)
    ensures forall x :: multiset(KindCounts(on))[x] <= 1
  {
    var all := KindCounts(on);
    assert forall i, j :: 0 <= i < j < |all| ==> all[i].kind != all[j].kind;
    NoRepeatsOnce(all);
  }

  lemma KindCountsSum(on: seq<Reaction>)
    ensures SumBy(KindCounts(on), CountKey) == |on|
  {
    var all := KindCounts(on);
    assert SumBy(all[5..], CountKey) == all[5].count by {
      assert all[5..][1..] == [];
    }
    assert SumBy(all[4..], CountKey) == all[4].count + all[5].count by {
      assert all[4..][1..] == all[5..];
    }
    assert SumBy(all[3..], CountKey) == all[3].count + all[4].count + all[5].count by {
      assert all[3..][1..] == all[4..];
    }
    assert SumBy(all[2..], CountKey) == all[2].count + all[3].count + all[4].count + all[5].count by {
      assert all[2..][1..] == all[3..];
    }
    assert SumBy(all[1..], CountKey) == all[1].count + all[2].count + all[3].count + all[4].count + all[5].count by {
      assert all[1..][1..] == all[2..];
    }
    KindCountsTotal(on);
  }

  /** Exactly the non-zero entries survive. */
  lemma RankedEntries(all: seq<KindCount>)
    ensures forall x :: x in Ranked(all) <==> x in all && x.count > 0
  {
    forall x ensures x in Ranked(all) <==> x in all && x.count > 0 {
      FilterMultiset(all, Present, x);
      assert x in Ranked(all) <==> x in multiset(Ranked(all));
      assert x in all <==> x in multiset(all);
    }
  }

  /** Entries that are unique and determined by their type stay so. */
  lemma RankedKindsDistinct(all: seq<KindCount>)
    requires forall x :: multiset(all)[x] <= 1
    requires forall x, y :: x in all && y in all && x.kind == y.kind ==> x == y
    ensures forall i, j :: 0 <= i < j < |Ranked(all)| ==> Ranked(all)[i].kind != Ranked(all)[j].kind
  {
    var st := Ranked(all);
    RankedEntries(all);
    forall i, j | 0 <= i < j < |st| ensures st[i].kind != st[j].kind {
      if st[i].kind == st[j].kind {
        assert st[i] in st && st[j] in st;
        TwiceInMultiset(st, i, j);
        FilterMultiset(all, Present, st[i]);
      }
    }
  }

  /** Ordering and dropping zero counts keep the total. */
  lemma RankedSortedSum(all: seq<KindCount>)
    ensures SortedDesc(Ranked(all), CountKey)
    ensures SumBy(Ranked(all), CountKey) == SumBy(all, CountKey)
  {
    var present := Filter(all, Present);
    SortDescSorted(present, CountKey);
    SumBySortDesc(present, CountKey, CountKey);
    SumByFilter(all, Present, CountKey);
  }

  /** The reaction types that are keys of a stats list. */
  function KindsOf(stats: seq<KindCount>): set<ReactionKind>
  {
    set x | x in stats :: x.kind
  }

  /** A type is a key of the stats exactly when the post has a reaction of it. */
  lemma StatsKeys(on: seq<Reaction>)
    ensures forall k :: k in KindsOf(Ranked(KindCounts(on))) <==> CountOfKind(on, k) > 0
  {
    var stats := Ranked(KindCounts(on));
    KindCountsShape(on);
    RankedEntries(KindCounts(on));
    forall k ensures k in KindsOf(stats) <==> CountOfKind(on, k) > 0 {
      var kc := KindCount(k, CountOfKind(on, k));
      if CountOfKind(on, k) > 0 {
        assert kc in stats;
      }
    }
  }

  /** Each key of the stats maps to its type's count. */
  lemma StatsCounts(on: seq<Reaction>)
    ensures forall i :: 0 <= i < |Ranked(KindCounts(on))| ==>
              Ranked(KindCounts(on))[i].count == CountOfKind(on, Ranked(KindCounts(on))[i].kind)
  {
    var stats := Ranked(KindCounts(on));
    KindCountsShape(on);
    RankedEntries(KindCounts(on));
    forall i | 0 <= i < |stats| ensures stats[i].count == CountOfKind(on, stats[i].kind) {
      assert stats[i] in stats;
    }
  }

  /** No type appears twice among the keys. */
  lemma StatsKindsDistinct(on: seq<Reaction>)
    ensures forall i, j :: 0 <= i < j < |Ranked(KindCounts(on))| ==>
              Ranked(KindCounts(on))[i].kind != Ranked(KindCounts(on))[j].kind
  {
    KindCountsShape(on);
    KindCountsOnce(on);
    RankedKindsDistinct(KindCounts(on));
  }

  /** Ordered by count, and the counts add up to the number of reactions. */
  lemma StatsSortedSum(on: seq<Reaction>)
    ensures SortedDesc(Ranked(KindCounts(on)), CountKey)
    ensures SumBy(Ranked(KindCounts(on)), CountKey) == |on|
  {
    RankedSortedSum(KindCounts(on));
    KindCountsSum(on);
  }

  /** The stats dict: its keys are exactly the reaction types present on the
      post, each once, each with its count; the counts add up to the post's
      reaction total; keys come in non-increasing count order. */
  lemma ReactionStatsSpec(reactions: seq<Reaction>, postId: nat)
    ensures forall k :: k in KindsOf(ReactionStats(reactions, postId)) <==> CountOfKind(ReactionsOn(reactions, PostRef(postId)), k) > 0
    ensures forall i :: 0 <= i < |ReactionStats(reactions, postId)| ==>
              ReactionStats(reactions, postId)[i].count == CountOfKind(ReactionsOn(reactions, PostRef(postId)), ReactionStats(reactions, postId)[i].kind)
    ensures forall i, j :: 0 <= i < j < |ReactionStats(reactions, postId)| ==>
              ReactionStats(reactions, postId)[i].kind != ReactionStats(reactions, postId)[j].kind
    ensures SortedDesc(ReactionStats(reactions, postId), CountKey)
    ensures SumBy(ReactionStats(reactions, postId), CountKey) == |ReactionsOn(reactions, PostRef(postId))|
  {
    var on := ReactionsOn(reactions, PostRef(postId));
    StatsKeys(on);
    StatsCounts(on);
    StatsKindsDistinct(on);
    StatsSortedSum(on);
  }

  /** `unique_together = ('user', 'content_type', 'object_id')`. */
  ghost predicate OneReactionPerTarget(reactions: seq<Reaction>)
  {
    forall i, j :: 0 <= i < |reactions| && 0 <= j < |reactions| && i != j ==>
      (reactions[i].user, reactions[i].target) != (reactions[j].user, reactions[j].target)
  }

  lemma OnePerTargetTail(reactions: seq<Reaction>)
    requires reactions != [] && OneReactionPerTarget(reactions)
    ensures OneReactionPerTarget(reactions[1..])
  {
    var rest := reactions[1..];
    forall i, j | 0 <= i < |rest| && 0 <= j < |rest| && i != j
      ensures (rest[i].user, rest[i].target) != (rest[j].user, rest[j].target)
    {
      assert rest[i] == reactions[i + 1] && rest[j] == reactions[j + 1];
    }
  }

  lemma OnePerTargetCons(x: Reaction, rest: seq<Reaction>)
    requires OneReactionPerTarget(rest)
    requires forall y :: y in rest ==> (y.user, y.target) != (x.user, x.target)
    ensures OneReactionPerTarget([x] + rest)
  {
    var all := [x] + rest;
    forall i, j | 0 <= i < |all| && 0 <= j < |all| && i != j
      ensures (all[i].user, all[i].target) != (all[j].user, all[j].target)
    {
      if i == 0 {
        assert all[j] == rest[j - 1];
      } else if j == 0 {
        assert all[i] == rest[i - 1];
      } else {
        assert all[i] == rest[i - 1] && all[j] == rest[j - 1];
      }
    }
  }

  /** Removing reactions keeps `unique_together` on (user, target). */
  lemma {:induction false} FilterOnePerTarget(reactions: seq<Reaction>, p: Reaction -> bool)
    requires OneReactionPerTarget(reactions)
    ensures OneReactionPerTarget(Filter(reactions, p))
  {
    if reactions != [] {
      var rest := reactions[1..];
      OnePerTargetTail(reactions);
      FilterOnePerTarget(rest, p);
      if p(reactions[0]) {
        forall y | y in Filter(rest, p)
          ensures (y.user, y.target) != (reactions[0].user, reactions[0].target)
        {
          var j :| 0 <= j < |rest| && rest[j] == y;
          assert reactions[j + 1] == y;
        }
        OnePerTargetCons(reactions[0], Filter(rest, p));
      }
    }
  }

  function Reactors(reactions: seq<Reaction>, target: ContentRef): set<nat>
  {
    set r | r in reactions && r.target == target :: r.user
  }

  /** Under the uniqueness constraint a target's reaction total is the number
      of distinct users who reacted to it. */
  lemma {:induction false} ReactionTotalIsReactorCount(reactions: seq<Reaction>, target: ContentRef)
    requires OneReactionPerTarget(reactions)
    ensures |ReactionsOn(reactions, target)| == |Reactors(reactions, target)|
  {
    if reactions != [] {
      var rest := reactions[1..];
      assert OneReactionPerTarget(rest) by {
        forall i, j | 0 <= i < |rest| && 0 <= j < |rest| && i != j
          ensures (rest[i].user, rest[i].target) != (rest[j].user, rest[j].target)
        {
          assert rest[i] == reactions[i + 1] && rest[j] == reactions[j + 1];
        }
      }
      ReactionTotalIsReactorCount(rest, target);
      var r0 := reactions[0];
      if r0.target == target {
        forall j | 0 <= j < |rest| && rest[j].target == target
          ensures rest[j].user != r0.user
        {
          assert rest[j] == reactions[j + 1];
        }
        assert r0.user !in Reactors(rest, target);
        assert Reactors(reactions, target) == Reactors(rest, target) + {r0.user} by {
          forall u | u in Reactors(reactions, target) ensures u in Reactors(rest, target) + {r0.user} {
            var r :| r in reactions && r.target == target && r.user == u;
            if r != r0 { assert r in rest; }
          }
        }
      } else {
        assert Reactors(reactions, target) == Reactors(rest, target) by {
          forall u | u in Reactors(reactions, target) ensures u in Reactors(rest, target) {
            var r :| r in reactions && r.target == target && r.user == u;
            assert r != r0;
            assert r in rest;
          }
        }
      }
    }
  }

  // ------------------------------------------------------------ the table

  function PostIds(posts: seq<Post>): set<nat> { set p | p in posts :: p.id }

  function TagIds(tags: seq<Tag>): set<nat> { set t | t in tags :: t.id }

  function FindPost(posts: seq<Post>, id: nat): (r: Option<Post>)
    ensures r.Some? ==> r.value in posts && r.value.id == id
    ensures r.None? ==> id !in PostIds(posts)
  {
    if posts == [] then None
    else if posts[0].id == id then Some(posts[0])
    else FindPost(posts[1..], id)
  }

  function FindComment(comments: seq<Comment>, id: nat): (r: Option<Comment>)
    ensures r.Some? ==> r.value in comments && r.value.id == id
    ensures r.None? ==> forall c :: c in comments ==> c.id != id
  {
    if comments == [] then None
    else if comments[0].id == id then Some(comments[0])
    else FindComment(comments[1..], id)
  }

  function FindTagByName(tags: seq<Tag>, name: string): (r: Option<Tag>)
    ensures r.Some? ==> r.value in tags && r.value.name == name
    ensures r.None? ==> forall t :: t in tags ==> t.name != name
  {
    if tags == [] then None
    else if tags[0].name == name then Some(tags[0])
    else FindTagByName(tags[1..], name)
  }

  function ReportIndex(reports: seq<Report>, id: nat): (r: Option<nat>)
    ensures r.Some? ==> r.value < |reports| && reports[r.value].id == id
    ensures r.None? ==> forall x :: x in reports ==> x.id != id
  {
    if reports == [] then None
    else if reports[0].id == id then Some(0)
    else match ReportIndex(reports[1..], id)
      case None => None
      case Some(k) => Some(k + 1)
  }

  /** The links that belong to posts other than `postId`. */
  function OtherLinks(links: set<TagLink>, postId: nat): set<TagLink>
  {
    set l | l in links && l.post != postId
  }

  /** The tag ids linked to a post. */
  function TagsOf(links: set<TagLink>, postId: nat): set<nat>
  {
    set l | l in links && l.post == postId :: l.tag
  }

  /** Deleting a post: `shared_from` of its shares is set to NULL. */
  function PostsWithout(posts: seq<Post>, id: nat): seq<Post>
  {
    var kept := Filter(posts, (p: Post) => p.id != id);
    seq(|kept|, i requires 0 <= i < |kept| => Unshared(kept[i], id))
  }

  /** A post as it is once post `id` is gone: a share of `id` loses its
      `shared_from`. */
  function Unshared(q: Post, id: nat): Post
  {
    if q.sharedFrom == Some(id) then q.(sharedFrom := None) else q
  }

  /** After deleting post `id`, the posts left are exactly the other posts,
      with `shared_from` cleared on the shares of `id`. */
  lemma PostsWithoutMembers(posts: seq<Post>, id: nat)
    ensures forall p :: p in PostsWithout(posts, id) <==>
      exists q :: q in posts && q.id != id && p == Unshared(q, id)
  {
    var kept := Filter(posts, (p: Post) => p.id != id);
    var r := PostsWithout(posts, id);
    forall p | p in r ensures exists q :: q in posts && q.id != id && p == Unshared(q, id) {
      var i :| 0 <= i < |r| && r[i] == p;
      assert kept[i] in kept;
    }
    forall q | q in posts && q.id != id ensures Unshared(q, id) in r {
      FilterKeeps(posts, (p: Post) => p.id != id, q);
      var i :| 0 <= i < |kept| && kept[i] == q;
      assert r[i] == Unshared(q, id);
    }
  }

  function CommentIds(comments: seq<Comment>): set<nat> { set c | c in comments :: c.id }

  /** One step of the `parent` cascade: the comments that reply to one in `ids`. */
  function RepliesTo(comments: seq<Comment>, ids: set<nat>): set<nat>
  {
    set c | c in comments && c.parent.Some? && c.parent.value in ids :: c.id
  }

  /** No reply to a comment in `ids` lies outside `ids`. */
  ghost predicate ClosedUnderReplies(comments: seq<Comment>, ids: set<nat>)
  {
    RepliesTo(comments, ids) <= ids
  }

  /** `on_delete=CASCADE` on `Comment.parent`, followed until nothing more is
      reached: `ids` and every comment that replies to one of them, directly
      or through other replies. */
  function CascadeReplies(comments: seq<Comment>, ids: set<nat>): (r: set<nat>)
    requires ids <= CommentIds(comments)
    ensures ids <= r <= CommentIds(comments)
    ensures ClosedUnderReplies(comments, r)
    decreases |CommentIds(comments) - ids|
  {
    var next := ids + RepliesTo(comments, ids);
    if next == ids then ids
    else
      ProperSubsetSmaller(CommentIds(comments) - next, CommentIds(comments) - ids);
      CascadeReplies(comments, next)
  }

  /** The cascade reaches nothing it need not: every set closed under replies
      that holds `ids` holds the whole cascade. */
  lemma {:induction false} CascadeLeast(comments: seq<Comment>, ids: set<nat>, s: set<nat>)
    requires ids <= CommentIds(comments)
    requires ids <= s && ClosedUnderReplies(comments, s)
    ensures CascadeReplies(comments, ids) <= s
    decreases |CommentIds(comments) - ids|
  {
    var next := ids + RepliesTo(comments, ids);
    if next != ids {
      forall x | x in RepliesTo(comments, ids) ensures x in s {
        var c :| c in comments && c.parent.Some? && c.parent.value in ids && c.id == x;
        assert x in RepliesTo(comments, s);
      }
      ProperSubsetSmaller(CommentIds(comments) - next, CommentIds(comments) - ids);
      CascadeLeast(comments, next, s);
    }
  }

  /** The ids of the comments that deleting post `postId` removes: those on
      the post and every reply below them. */
  function DeletedComments(comments: seq<Comment>, postId: nat): set<nat>
  {
    CascadeReplies(comments, set c | c in comments && c.post == postId :: c.id)
  }

  function CommentsWithout(comments: seq<Comment>, postId: nat): seq<Comment>
  {
    Filter(comments, (c: Comment) => c.id !in DeletedComments(comments, postId))
  }

  /** After deleting post `postId`, the comments left are exactly those the
      cascade does not reach: none is on the post and none replies to a
      removed comment. */
  lemma CommentsWithoutMembers(comments: seq<Comment>, postId: nat)
    ensures forall c :: c in CommentsWithout(comments, postId) <==>
      c in comments && c.id !in DeletedComments(comments, postId)
    ensures forall c :: c in CommentsWithout(comments, postId) ==>
      c.post != postId && (c.parent.Some? ==> c.parent.value !in DeletedComments(comments, postId))
  {
    var gone := DeletedComments(comments, postId);
    forall c | c in comments && c.id !in gone ensures c in CommentsWithout(comments, postId) {
      FilterKeeps(comments, (c: Comment) => c.id !in gone, c);
    }
    forall c | c in CommentsWithout(comments, postId)
      ensures c.post != postId && (c.parent.Some? ==> c.parent.value !in gone)
    {
      assert c in comments && c.id !in gone;
      assert c.parent.Some? && c.parent.value in gone ==> c.id in RepliesTo(comments, gone);
    }
  }

  /** Only the cascade goes: a set of comment ids that holds the post's
      comments and is closed under replies holds every removed comment. */
  lemma DeletedCommentsLeast(comments: seq<Comment>, postId: nat, s: set<nat>)
    requires forall c :: c in comments && c.post == postId ==> c.id in s
    requires ClosedUnderReplies(comments, s)
    ensures DeletedComments(comments, postId) <= s
  {
    CascadeLeast(comments, set c | c in comments && c.post == postId :: c.id, s);
  }

  function ReactionsWithout(reactions: seq<Reaction>, postId: nat): seq<Reaction>
  {
    Filter(reactions, (r: Reaction) => r.target != PostRef(postId))
  }

  function ReportsWithout(reports: seq<Report>, postId: nat): seq<Report>
  {
    Filter(reports, (x: Report) => x.post != postId)
  }

  /** The post's reports go with it and every other report stays. */
  lemma ReportsWithoutMembers(reports: seq<Report>, postId: nat)
    ensures forall x :: x in ReportsWithout(reports, postId) <==> x in reports && x.post != postId
  {
    forall x | x in reports && x.post != postId ensures x in ReportsWithout(reports, postId) {
      FilterKeeps(reports, (x: Report) => x.post != postId, x);
    }
  }

  /** The report table's foreign key: every report points at a post. */
  ghost predicate ReportsPointAtPosts(reports: seq<Report>, posts: seq<Post>)
  {
    forall x :: x in reports ==> x.post in PostIds(posts)
  }

  /** Deleting a post and its reports keeps every report pointing at a post. */
  lemma ReportsFollowPosts(posts: seq<Post>, reports: seq<Report>, id: nat)
    requires ReportsPointAtPosts(reports, posts)
    ensures ReportsPointAtPosts(ReportsWithout(reports, id), PostsWithout(posts, id))
  {
    var after := PostsWithout(posts, id);
    ReportsWithoutMembers(reports, id);
    PostsWithoutMembers(posts, id);
    forall x | x in ReportsWithout(reports, id) ensures x.post in PostIds(after) {
      var q :| q in posts && q.id == x.post;
      assert Unshared(q, id) in after;
    }
  }

  ghost predicate TagNamesUnique(tags: seq<Tag>)
  {
    forall i, j :: 0 <= i < |tags| && 0 <= j < |tags| && tags[i].name == tags[j].name ==> i == j
  }

  /** Tag names and ids are unique, ids stay below the next one handed out,
      and every tag link points at a tag. */
  ghost predicate TagsValid(tags: seq<Tag>, nextTagId: nat, tagLinks: set<TagLink>)
  {
    && TagNamesUnique(tags)
    && (forall i :: 0 <= i < |tags| ==> tags[i].id < nextTagId)
    && (forall i, j :: 0 <= i < j < |tags| ==> tags[i].id < tags[j].id)
    && (forall l :: l in tagLinks ==> l.tag in TagIds(tags))
  }

  /** Dropping tag links keeps the tag table valid. */
  lemma FewerLinksValid(tags: seq<Tag>, nextTagId: nat, links: set<TagLink>, fewer: set<TagLink>)
    requires TagsValid(tags, nextTagId, links) && fewer <= links
    ensures TagsValid(tags, nextTagId, fewer)
  { }

  /** The invariant of the post store, on the values of its fields. */
  ghost predicate StoreValid(posts: seq<Post>, reactions: seq<Reaction>, tags: seq<Tag>,
                             tagLinks: set<TagLink>, reports: seq<Report>, nextTagId: nat)
  {
    TagsValid(tags, nextTagId, tagLinks) && ReportsPointAtPosts(reports, posts) && OneReactionPerTarget(reactions)
  }

  /** Deleting a post with its cascade keeps the store's invariant. */
  lemma DeleteKeepsValid(posts: seq<Post>, reactions: seq<Reaction>, tags: seq<Tag>,
                         tagLinks: set<TagLink>, reports: seq<Report>, nextTagId: nat, id: nat)
    requires StoreValid(posts, reactions, tags, tagLinks, reports, nextTagId)
    ensures StoreValid(PostsWithout(posts, id), ReactionsWithout(reactions, id), tags,
                       OtherLinks(tagLinks, id), ReportsWithout(reports, id), nextTagId)
  {
    FewerLinksValid(tags, nextTagId, tagLinks, OtherLinks(tagLinks, id));
    ReportsFollowPosts(posts, reports, id);
    FilterOnePerTarget(reactions, (r: Reaction) => r.target != PostRef(id));
  }

  class PostStore {
    var posts: seq<Post>
    var comments: seq<Comment>
    var reactions: seq<Reaction>
    var tags: seq<Tag>
    var tagLinks: set<TagLink>
    var reports: seq<Report>
    var nextTagId: nat

    /** Tag names and ids are unique, every tag link points at a tag, every
        report points at a post (its foreign key cascades), and a user has at
        most one reaction per object (`unique_together`). */
    ghost predicate Valid()
      reads this
    {
      StoreValid(posts, reactions, tags, tagLinks, reports, nextTagId)
    }

    constructor ()
      ensures Valid()
      ensures posts == [] && comments == [] && reactions == [] && tags == [] && tagLinks == {} && reports == []
    {
      posts, comments, reactions, tags, tagLinks, reports := [], [], [], [], {}, [];
      nextTagId := 1;
    }

    /** `Tag.objects.get_or_create(name=name)`. */
    method GetOrCreateTag(name: string) returns (t: Tag)
      requires Valid()
      modifies this`tags, this`nextTagId
      ensures Valid()
      ensures t in tags && t.name == name
      ensures (exists u :: u in old(tags) && u.name == name) ==> tags == old(tags) && t in old(tags)
      ensures (forall u :: u in old(tags) ==> u.name != name) ==>
        t == Tag(old(nextTagId), name) && tags == old(tags) + [t]
    {
      var found := FindTagByName(tags, name);
      if found.Some? {
        t := found.value;
      } else {
        t := Tag(nextTagId, name);
        assert TagIds(old(tags)) <= TagIds(old(tags) + [t]);
        tags := tags + [t];
        nextTagId := nextTagId + 1;
      }
    }

    /** `post.tags.clear()`. */
    method ClearTags(postId: nat)
      requires Valid()
      modifies this`tagLinks
      ensures Valid()
      ensures tagLinks == OtherLinks(old(tagLinks), postId)
    {
      tagLinks := OtherLinks(tagLinks, postId);
    }

    /** `post.tags.add(tag)`: a no-op when the link exists. */
    method AddTag(postId: nat, tagId: nat)
      requires Valid() && tagId in TagIds(tags)
      modifies this`tagLinks
      ensures Valid()
      ensures tagLinks == old(tagLinks) + {TagLink(postId, tagId)}
    {
      tagLinks := tagLinks + {TagLink(postId, tagId)};
    }

    /** `report.save()` after a status change of the row at index `k`. */
    method SetReportStatus(k: nat, status: ReportStatus)
      requires Valid() && k < |reports|
      modifies this`reports
      ensures Valid()
      ensures reports == old(reports)[k := old(reports)[k].(status := status)]
    {
      assert reports[k] in reports;
      reports := reports[k := reports[k].(status := status)];
    }

    /** `post.delete()` and what it cascades to: the post's comments,
        reactions (a generic relation), reports and tag links go; shares of
        it lose their `shared_from`. */
    method DeletePost(id: nat)
      requires Valid()
      modifies this`posts, this`comments, this`reactions, this`reports, this`tagLinks
      ensures Valid()
      ensures posts == PostsWithout(old(posts), id)
      ensures comments == CommentsWithout(old(comments), id)
      ensures reactions == ReactionsWithout(old(reactions), id)
      ensures reports == ReportsWithout(old(reports), id)
      ensures tagLinks == OtherLinks(old(tagLinks), id)
    {
      DeleteKeepsValid(posts, reactions, tags, tagLinks, reports, nextTagId, id);
      var ps, rs, xs := PostsWithout(posts, id), ReactionsWithout(reactions, id), ReportsWithout(reports, id);
      var links := OtherLinks(tagLinks, id);
      posts, reactions, reports, tagLinks := ps, rs, xs, links;
      comments := CommentsWithout(comments, id);
    }
  }
}
