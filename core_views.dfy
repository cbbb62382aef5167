/** core/views.py: the landing page after login, the moderation dashboard
    and the report handler. */
module CoreViews {
  import opened Base
  import opened AccountsModels
  import opened PostsModels

  // -------------------------------------------------- redirect_after_login

  datatype Landing = AdminDashboardPage | HomeFeedPage

  /** Superusers land on the dashboard, everyone else on the home feed. */
  function RedirectAfterLogin(u: User): (r: Landing)
    ensures r == AdminDashboardPage <==> u.isSuperuser
    ensures r == HomeFeedPage <==> !u.isSuperuser
  {
    if u.isSuperuser then AdminDashboardPage else HomeFeedPage
  }

  // ------------------------------------------------------- admin_dashboard

  const DayLength: int := 86400
  const DashboardDays: nat := 7
  const TopLimit: nat := 5

  /** The calendar day of a timestamp in seconds, as a day number. */
  function Day(t: int): int { t / DayLength }

  /** The seven days ending today, oldest first. */
  function DashboardDates(today: int): (r: seq<int>)
    ensures |r| == DashboardDays
    ensures r[DashboardDays - 1] == today
    ensures forall j :: 0 <= j < DashboardDays - 1 ==> r[j + 1] == r[j] + 1
    ensures forall j :: 0 <= j < DashboardDays ==> today - 6 <= r[j] <= today
  {
    seq(DashboardDays, j requires 0 <= j < DashboardDays => today - (DashboardDays - 1 - j))
  }

  function JoinedOn(day: int): User -> bool
  {
    (u: User) => Day(u.dateJoined) == day
  }

  /** `User.objects.filter(date_joined__date=date).count()`. */
  function DayCount(users: seq<User>): int -> nat
  {
    (day: int) => Count(users, JoinedOn(day))
  }

  /** The `user_counts` loop: one count per date, in the order of `dates`. */
  method UserCounts(users: seq<User>, dates: seq<int>) returns (counts: seq<nat>)
    ensures counts == MapSeq(dates, DayCount(users))
  {
    counts := [];
    for i := 0 to |dates|
      invariant counts == MapSeq(dates[..i], DayCount(users))
    {
      assert dates[..i + 1][..i] == dates[..i];
      counts := counts + [Count(users, JoinedOn(dates[i]))];
    }
    assert dates[..|dates|] == dates;
  }

  /** One count per dashboard date, each the number of users who joined on
      that day. */
  lemma UserCountsSpec(users: seq<User>, today: int)
    ensures |MapSeq(DashboardDates(today), DayCount(users))| == DashboardDays
    ensures forall j :: 0 <= j < DashboardDays ==>
      MapSeq(DashboardDates(today), DayCount(users))[j] == |Filter(users, JoinedOn(DashboardDates(today)[j]))|
  {
    MapSeqPointwise(DashboardDates(today), DayCount(users));
  }

  /** A user annotated with `num_posts`. */
  datatype UserRank = UserRank(user: User, numPosts: nat)

  function ByAuthor(uid: nat): Post -> bool
  {
    (p: Post) => p.author == uid
  }

  function RankUser(posts: seq<Post>): User -> UserRank
  {
    (u: User) => UserRank(u, Count(posts, ByAuthor(u.id)))
  }

  function NumPostsKey(r: UserRank): int { r.numPosts }

  /** `annotate(num_posts=Count('posts')).order_by('-num_posts')[:5]`, with
      ties kept in table order. */
  function TopUsers(users: seq<User>, posts: seq<Post>): seq<UserRank>
  {
    Take(SortDesc(MapSeq(users, RankUser(posts)), NumPostsKey), TopLimit)
  }

  /** `top_users`: at most five users with their true post counts, most
      posts first; a user left out has no more posts than any listed one,
      and then five users are listed. */
  lemma TopUsersSpec(users: seq<User>, posts: seq<Post>)
    ensures |TopUsers(users, posts)| == Min(|users|, TopLimit)
    ensures SortedDesc(TopUsers(users, posts), NumPostsKey)
    ensures forall r :: r in TopUsers(users, posts) ==> r.user in users && r.numPosts == Count(posts, ByAuthor(r.user.id))
    ensures forall u :: u in users && RankUser(posts)(u) !in TopUsers(users, posts) ==>
      |TopUsers(users, posts)| == TopLimit
      && forall r :: r in TopUsers(users, posts) ==> r.numPosts >= Count(posts, ByAuthor(u.id))
  {
    var ranks := MapSeq(users, RankUser(posts));
    var sorted := SortDesc(ranks, NumPostsKey);
    MapSeqPointwise(users, RankUser(posts));
    SortDescSorted(ranks, NumPostsKey);
    TakeSorted(sorted, NumPostsKey, TopLimit);
    forall r | r in TopUsers(users, posts) ensures r.user in users && r.numPosts == Count(posts, ByAuthor(r.user.id)) {
      assert r in multiset(sorted);
      var i :| 0 <= i < |ranks| && ranks[i] == r;
    }
    forall u | u in users && RankUser(posts)(u) !in TopUsers(users, posts)
      ensures |TopUsers(users, posts)| == TopLimit
      ensures forall r :: r in TopUsers(users, posts) ==> r.numPosts >= Count(posts, ByAuthor(u.id))
    {
      MapSeqMember(users, RankUser(posts), u);
      assert RankUser(posts)(u) in multiset(sorted);
      TakeSortedTop(sorted, NumPostsKey, TopLimit, RankUser(posts)(u));
    }
  }

  /** `p.reactions.count()`. */
  function ReactionCount(reactions: seq<Reaction>): Post -> int
  {
    (p: Post) => |ReactionsOn(reactions, PostRef(p.id))|
  }

  /** `sorted(Post.objects.all(), key=reaction count, reverse=True)[:5]`;
      the query set comes newest first (`Meta.ordering`) and the sort is
      stable, so ties stay newest first. */
  function TopPosts(posts: seq<Post>, reactions: seq<Reaction>): seq<Post>
  {
    Take(SortDesc(NewestFirst(posts), ReactionCount(reactions)), TopLimit)
  }

  /** `top_posts`: at most five posts, most reactions first; a post left out
      has no more reactions than any listed one, and then five are listed;
      posts with equally many reactions keep the newest-first order. */
  lemma TopPostsSpec(posts: seq<Post>, reactions: seq<Reaction>)
    ensures |TopPosts(posts, reactions)| == Min(|posts|, TopLimit)
    ensures SortedDesc(TopPosts(posts, reactions), ReactionCount(reactions))
    ensures forall p :: p in TopPosts(posts, reactions) ==> p in posts
    ensures forall p :: p in posts && p !in TopPosts(posts, reactions) ==>
      |TopPosts(posts, reactions)| == TopLimit
      && forall q :: q in TopPosts(posts, reactions) ==> ReactionCount(reactions)(q) >= ReactionCount(reactions)(p)
    ensures forall k :: WithKey(SortDesc(NewestFirst(posts), ReactionCount(reactions)), ReactionCount(reactions), k)
                     == WithKey(NewestFirst(posts), ReactionCount(reactions), k)
  {
    var sorted := SortDesc(NewestFirst(posts), ReactionCount(reactions));
    SortDescSorted(NewestFirst(posts), ReactionCount(reactions));
    TakeSorted(sorted, ReactionCount(reactions), TopLimit);
    forall p | p in TopPosts(posts, reactions) ensures p in posts {
      assert p in multiset(sorted);
      assert p in multiset(NewestFirst(posts));
    }
    forall p | p in posts && p !in TopPosts(posts, reactions)
      ensures |TopPosts(posts, reactions)| == TopLimit
      ensures forall q :: q in TopPosts(posts, reactions) ==> ReactionCount(reactions)(q) >= ReactionCount(reactions)(p)
    {
      assert p in multiset(NewestFirst(posts));
      assert p in multiset(sorted);
      TakeSortedTop(sorted, ReactionCount(reactions), TopLimit, p);
    }
    forall k ensures WithKey(sorted, ReactionCount(reactions), k) == WithKey(NewestFirst(posts), ReactionCount(reactions), k) {
      SortDescStable(NewestFirst(posts), ReactionCount(reactions), k);
    }
  }

  predicate IsPending(x: Report) { x.status == ReportPending }

  function ReportCreatedKey(x: Report): int { x.createdAt }

  /** `Report.objects.filter(status='PENDING').order_by('-created_at')`. */
  function PendingReports(reports: seq<Report>): seq<Report>
  {
    SortDesc(Filter(reports, IsPending), ReportCreatedKey)
  }

  /** `pending_reports`: exactly the pending reports, each as often as in
      the table, newest first. */
  lemma PendingReportsSpec(reports: seq<Report>)
    ensures forall x :: x in PendingReports(reports) <==> x in reports && x.status == ReportPending
    ensures forall x :: multiset(PendingReports(reports))[x] == if x.status == ReportPending then multiset(reports)[x] else 0
    ensures SortedDesc(PendingReports(reports), ReportCreatedKey)
  {
    forall x ensures multiset(PendingReports(reports))[x] == if x.status == ReportPending then multiset(reports)[x] else 0 {
      FilterMultiset(reports, IsPending, x);
    }
    SortDescSorted(Filter(reports, IsPending), ReportCreatedKey);
  }

  /** The dashboard context. Dates are day numbers; their `dd/mm`
      rendering is display text. */
  datatype Dashboard = Dashboard(
    dates: seq<int>,
    userCounts: seq<nat>,
    totalPosts: nat,
    totalComments: nat,
    totalReactions: nat,
    topUsers: seq<UserRank>,
    topPosts: seq<Post>,
    pendingReports: seq<Report>)

  /** `user_passes_test(lambda u: u.is_superuser)` sends everyone else,
      signed in or not, to the login page. */
  datatype DashboardResponse = DashboardPage(context: Dashboard) | LoginRedirect

  predicate IsSuperuser(actor: Option<User>) { actor.Some? && actor.value.isSuperuser }

  /** `admin_dashboard` at time `now`. */
  method AdminDashboard(db: PostStore, users: seq<User>, actor: Option<User>, now: int) returns (r: DashboardResponse)
    ensures !IsSuperuser(actor) ==> r == LoginRedirect
    ensures IsSuperuser(actor) ==> r.DashboardPage?
    ensures r.DashboardPage? ==>
      && r.context.dates == DashboardDates(Day(now))
      && r.context.userCounts == MapSeq(DashboardDates(Day(now)), DayCount(users))
      && r.context.totalPosts == |db.posts|
      && r.context.totalComments == |db.comments|
      && r.context.totalReactions == |db.reactions|
      && r.context.topUsers == TopUsers(users, db.posts)
      && r.context.topPosts == TopPosts(db.posts, db.reactions)
      && r.context.pendingReports == PendingReports(db.reports)
  {
    if !IsSuperuser(actor) {
      return LoginRedirect;
    }
    var dates := DashboardDates(Day(now));
    var counts := UserCounts(users, dates);
    r := DashboardPage(Dashboard(dates, counts, |db.posts|, |db.comments|, |db.reactions|,
      TopUsers(users, db.posts), TopPosts(db.posts, db.reactions), PendingReports(db.reports)));
  }

  // --------------------------------------------------------- handle_report

  datatype ReportMessage = PostDeletedMessage | ReportIgnoredMessage

  /** The JSON success reply, the decorators' refusals, the 404, and the
      error raised when `msg` was never assigned. */
  datatype ReportResponse =
    | Handled(message: ReportMessage)
    | LoginRequired
    | MethodNotAllowed
    | ReportNotFound
    | ServerError

  /** `handle_report`: superusers only, POST only, the report must exist;
      'delete' deletes the reported post and, by the cascade, the report
      with it; 'ignore' marks the report IGNORED and keeps the post; any
      other action changes nothing and ends in an error. */
  method HandleReport(db: PostStore, actor: Option<User>, isPost: bool, reportId: nat, action: Option<string>)
    returns (r: ReportResponse)
    requires db.Valid()
    modifies db`posts, db`comments, db`reactions, db`reports, db`tagLinks
    ensures db.Valid()
    ensures !IsSuperuser(actor) ==> r == LoginRequired && unchanged(db)
    ensures IsSuperuser(actor) && !isPost ==> r == MethodNotAllowed && unchanged(db)
    ensures IsSuperuser(actor) && isPost && ReportIndex(old(db.reports), reportId).None? ==>
      r == ReportNotFound && unchanged(db)
    ensures IsSuperuser(actor) && isPost && ReportIndex(old(db.reports), reportId).Some? ==>
      var x := old(db.reports)[ReportIndex(old(db.reports), reportId).value];
      if action == Some("delete") then
        && r == Handled(PostDeletedMessage)
        && db.posts == PostsWithout(old(db.posts), x.post)
        && db.comments == CommentsWithout(old(db.comments), x.post)
        && db.reactions == ReactionsWithout(old(db.reactions), x.post)
        && db.reports == ReportsWithout(old(db.reports), x.post)
        && db.tagLinks == OtherLinks(old(db.tagLinks), x.post)
        && x !in db.reports
      else if action == Some("ignore") then
        && r == Handled(ReportIgnoredMessage)
        && db.reports == old(db.reports)[ReportIndex(old(db.reports), reportId).value := x.(status := ReportIgnored)]
        && db.posts == old(db.posts) && db.comments == old(db.comments)
        && db.reactions == old(db.reactions) && db.tagLinks == old(db.tagLinks)
      else
        r == ServerError && unchanged(db)
  {
    if !IsSuperuser(actor) {
      return LoginRequired;
    }
    if !isPost {
      return MethodNotAllowed;
    }
    var k := ReportIndex(db.reports, reportId);
    if k.None? {
      return ReportNotFound;
    }
    var x := db.reports[k.value];
    if action == Some("delete") {
      db.DeletePost(x.post);
      ReportsWithoutMembers(old(db.reports), x.post);
      r := Handled(PostDeletedMessage);
    } else if action == Some("ignore") {
      db.SetReportStatus(k.value, ReportIgnored);
      r := Handled(ReportIgnoredMessage);
    } else {
      r := ServerError;
    }
  }
}
