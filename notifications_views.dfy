/** notifications/views.py: the notification page, the grouped JSON feed
    behind the bell icon, and the click-through redirect. */
module NotificationsViews {
  import opened Base
  import opened ContentTypes
  import opened AccountsModels
  import opened PostsModels
  import opened NotificationsModels
  import ChatModels

  function ForRecipient(user: nat): Notification -> bool
  {
    (n: Notification) => n.recipient == user
  }

  /** `Meta.ordering = ['-timestamp']`. */
  function TimestampKey(n: Notification): int { n.timestamp }

  /** `filter(recipient=user, is_read=False)`. */
  function UnreadFor(user: nat): Notification -> bool
  {
    (n: Notification) => n.recipient == user && !n.isRead
  }

  /** The ids of the user's unread notifications. */
  function UnreadIds(rows: seq<Notification>, user: nat): set<nat>
  {
    set n | n in rows && n.recipient == user && !n.isRead :: n.id
  }

  // ------------------------------------------------ notification_list_view

  /** `notification_list_view`: the ids of the unread notifications are
      taken first, then they are all marked read. The listed query set is
      evaluated when the page renders, after the update, so it shows the
      rows as updated; `unreadIds` is what still tells the page which ones
      were new. */
  method NotificationListView(table: NotificationTable, user: nat)
    returns (notifications: seq<Notification>, unreadIds: set<nat>)
    requires table.Valid()
    modifies table
    ensures table.Valid() && table.nextId == old(table.nextId)
    ensures unreadIds == UnreadIds(old(table.rows), user)
    ensures table.rows == MarkedRead(old(table.rows), unreadIds)
    ensures notifications == SortDesc(Filter(table.rows, ForRecipient(user)), TimestampKey)
  {
    unreadIds := UnreadIds(table.rows, user);
    table.MarkRead(unreadIds);
    notifications := SortDesc(Filter(table.rows, ForRecipient(user)), TimestampKey);
  }

  /** What the list view does to the table: `unreadIds` are exactly the
      user's unread rows, every row of the user is read afterwards (so the
      list shows no unread row), and nobody else's row changes. */
  lemma ListViewSpec(rows: seq<Notification>, user: nat)
    requires IdsIncreasing(rows)
    ensures forall n :: n in rows && n.recipient == user ==> (n.id in UnreadIds(rows, user) <==> !n.isRead)
    ensures forall i :: 0 <= i < |rows| && rows[i].recipient == user ==>
      MarkedRead(rows, UnreadIds(rows, user))[i] == rows[i].(isRead := true)
    ensures forall i :: 0 <= i < |rows| && rows[i].recipient != user ==>
      MarkedRead(rows, UnreadIds(rows, user))[i] == rows[i]
    ensures forall n :: n in Filter(MarkedRead(rows, UnreadIds(rows, user)), ForRecipient(user)) ==> n.isRead
  {
    var after := MarkedRead(rows, UnreadIds(rows, user));
    forall n | n in rows && n.recipient == user && n.id in UnreadIds(rows, user) ensures !n.isRead {
      var m :| m in rows && m.recipient == user && !m.isRead && m.id == n.id;
      var i :| 0 <= i < |rows| && rows[i] == n;
      var j :| 0 <= j < |rows| && rows[j] == m;
      assert i == j;
    }
    forall i | 0 <= i < |rows| && rows[i].recipient != user ensures after[i] == rows[i] {
      forall j | 0 <= j < |rows| && rows[j].recipient == user ensures rows[j].id != rows[i].id {
        assert i != j;
      }
      assert rows[i].id !in UnreadIds(rows, user);
    }
    forall n | n in Filter(after, ForRecipient(user)) ensures n.isRead {
      var i :| 0 <= i < |after| && after[i] == n;
      assert rows[i] in rows;
    }
  }

  // ------------------------------------------------------ get_notifications

  const FeedLimit: nat := 15

  /** The user's notifications, newest first, sliced to fifteen. Rows with
      equal timestamps keep table order. */
  function RecentNotifications(rows: seq<Notification>, user: nat): seq<Notification>
  {
    Take(SortDesc(Filter(rows, ForRecipient(user)), TimestampKey), FeedLimit)
  }

  /** `n.target` for a message notification, or None when the target is
      unset or its message row is gone (the generic relation then yields
      None). */
  function TargetMessage(ms: seq<ChatModels.Message>, target: Option<ContentRef>): (r: Option<ChatModels.Message>)
    ensures r.Some? ==> r.value in ms && target == Some(ContentRef(MessageContent, r.value.id))
  {
    match target
    case Some(ContentRef(MessageContent, id)) => ChatModels.FindMessage(ms, id)
    case _ => None
  }

  /** `n.target.conversation_id`, when the target resolves. */
  function ConversationOf(ms: seq<ChatModels.Message>, n: Notification): Option<nat>
  {
    match TargetMessage(ms, n.target)
    case Some(m) => Some(m.conversation)
    case None => None
  }

  /** A MESSAGE notification whose message sits in conversation `c`. */
  function InConversation(ms: seq<ChatModels.Message>, c: nat): Notification -> bool
  {
    (n: Notification) => n.kind == Message && ConversationOf(ms, n) == Some(c)
  }

  function MessagesIn(s: seq<Notification>, ms: seq<ChatModels.Message>, c: nat): seq<Notification>
  {
    Filter(s, InConversation(ms, c))
  }

  predicate NotMessage(n: Notification) { n.kind != Message }

  /** One entry of `message_groups`. */
  datatype Group = Group(conversation: nat, latest: Notification, count: nat, isRead: bool)

  /** The dictionary `message_groups`, in insertion order, and the list
      `other_notifications`. */
  datatype Buckets = Buckets(groups: seq<Group>, others: seq<Notification>)

  function GroupConversations(gs: seq<Group>): set<nat> { set g | g in gs :: g.conversation }

  function GroupIndex(gs: seq<Group>, c: nat): (r: Option<nat>)
    ensures r.Some? ==> r.value < |gs| && gs[r.value].conversation == c
    ensures r.None? ==> c !in GroupConversations(gs)
  {
    if gs == [] then None
    else if gs[0].conversation == c then Some(0)
    else match GroupIndex(gs[1..], c)
      case None => None
      case Some(k) => Some(k + 1)
  }

  /** The dictionary update for a MESSAGE notification of conversation `c`. */
  function Counted(gs: seq<Group>, c: nat, n: Notification): seq<Group>
  {
    match GroupIndex(gs, c)
    case None => gs + [Group(c, n, 1, n.isRead)]
    case Some(k) => gs[k := gs[k].(count := gs[k].count + 1, isRead := gs[k].isRead && n.isRead)]
  }

  /** One iteration of the first loop of `get_notifications`. */
  function Absorb(b: Buckets, n: Notification, ms: seq<ChatModels.Message>): Buckets
  {
    if n.kind != Message then b.(others := b.others + [n])
    else match ConversationOf(ms, n)
      case None => b
      case Some(c) => b.(groups := Counted(b.groups, c, n))
  }

  /** The buckets after the loop has seen every notification of `s`. */
  function Bucketed(s: seq<Notification>, ms: seq<ChatModels.Message>): Buckets
  {
    if s == [] then Buckets([], []) else Absorb(Bucketed(s[..|s| - 1], ms), s[|s| - 1], ms)
  }

  /** A group summarises exactly the MESSAGE notifications of its
      conversation: the first of them, how many there are, and whether all
      of them are read. */
  ghost predicate GroupMatches(g: Group, s: seq<Notification>, ms: seq<ChatModels.Message>)
  {
    var f := MessagesIn(s, ms, g.conversation);
    && f != []
    && g.latest == f[0]
    && g.count == |f|
    && (g.isRead <==> forall n :: n in f ==> n.isRead)
  }

  /** The meaning of the buckets for the notifications `s`: one group per
      conversation that some resolvable MESSAGE notification points into,
      each summarising that conversation's notifications, and every other
      kind of notification kept, in order. MESSAGE notifications whose
      target does not resolve are dropped. */
  ghost predicate BucketsOf(b: Buckets, s: seq<Notification>, ms: seq<ChatModels.Message>)
  {
    && GroupsDistinct(b.groups)
    && GroupsMatch(b.groups, s, ms)
    && GroupsCover(b.groups, s, ms)
    && b.others == Filter(s, NotMessage)
  }

  ghost predicate GroupsDistinct(gs: seq<Group>)
  {
    forall k, l :: 0 <= k < l < |gs| ==> gs[k].conversation != gs[l].conversation
  }

  ghost predicate GroupsMatch(gs: seq<Group>, s: seq<Notification>, ms: seq<ChatModels.Message>)
  {
    forall k :: 0 <= k < |gs| ==> GroupMatches(gs[k], s, ms)
  }

  ghost predicate GroupsCover(gs: seq<Group>, s: seq<Notification>, ms: seq<ChatModels.Message>)
  {
    forall n :: n in s && n.kind == Message && ConversationOf(ms, n).Some? ==>
      ConversationOf(ms, n).value in GroupConversations(gs)
  }

  lemma MessagesInAppend(s: seq<Notification>, x: Notification, ms: seq<ChatModels.Message>, c: nat)
    ensures MessagesIn(s + [x], ms, c)
         == MessagesIn(s, ms, c) + (if x.kind == Message && ConversationOf(ms, x) == Some(c) then [x] else [])
  {
    FilterAppend(s, [x], InConversation(ms, c));
  }

  /** A notification that is not a resolvable MESSAGE leaves the groups as
      they are. */
  lemma AbsorbSkips(b: Buckets, s: seq<Notification>, x: Notification, ms: seq<ChatModels.Message>)
    requires BucketsOf(b, s, ms)
    requires !(x.kind == Message && ConversationOf(ms, x).Some?)
    ensures BucketsOf(Absorb(b, x, ms), s + [x], ms)
  {
    var b' := Absorb(b, x, ms);
    assert b'.groups == b.groups;
    FilterAppend(s, [x], NotMessage);
    forall k | 0 <= k < |b.groups| ensures GroupMatches(b'.groups[k], s + [x], ms) {
      MessagesInAppend(s, x, ms, b.groups[k].conversation);
    }
  }

  /** A MESSAGE notification of a conversation not seen yet opens a group. */
  lemma AbsorbOpens(b: Buckets, s: seq<Notification>, x: Notification, ms: seq<ChatModels.Message>, c: nat)
    requires BucketsOf(b, s, ms)
    requires x.kind == Message && ConversationOf(ms, x) == Some(c) && GroupIndex(b.groups, c).None?
    ensures BucketsOf(Absorb(b, x, ms), s + [x], ms)
  {
    var g := Group(c, x, 1, x.isRead);
    assert Absorb(b, x, ms) == Buckets(b.groups + [g], b.others);
    OpenedDistinct(b.groups, g);
    NoMessagesYet(b.groups, s, ms, c);
    OpenedMatch(b.groups, s, x, ms, c);
    OpenedCover(b.groups, s, x, ms, c);
    FilterAppend(s, [x], NotMessage);
  }

  lemma OpenedCover(gs: seq<Group>, s: seq<Notification>, x: Notification, ms: seq<ChatModels.Message>, c: nat)
    requires GroupsCover(gs, s, ms) && ConversationOf(ms, x) == Some(c)
    ensures GroupsCover(gs + [Group(c, x, 1, x.isRead)], s + [x], ms)
  {
    var gs' := gs + [Group(c, x, 1, x.isRead)];
    assert GroupConversations(gs') == GroupConversations(gs) + {c};
  }

  lemma OpenedDistinct(gs: seq<Group>, g: Group)
    requires GroupsDistinct(gs) && g.conversation !in GroupConversations(gs)
    ensures GroupsDistinct(gs + [g])
  {
    forall k | 0 <= k < |gs| ensures gs[k].conversation != g.conversation {
      assert gs[k] in gs;
    }
  }

  lemma NoMessagesYet(gs: seq<Group>, s: seq<Notification>, ms: seq<ChatModels.Message>, c: nat)
    requires GroupsCover(gs, s, ms) && c !in GroupConversations(gs)
    ensures MessagesIn(s, ms, c) == []
  {
    assert forall n :: n in s ==> !InConversation(ms, c)(n);
    FilterNone(s, InConversation(ms, c));
  }

  lemma OpenedMatch(gs: seq<Group>, s: seq<Notification>, x: Notification, ms: seq<ChatModels.Message>, c: nat)
    requires GroupsMatch(gs, s, ms) && c !in GroupConversations(gs)
    requires x.kind == Message && ConversationOf(ms, x) == Some(c) && MessagesIn(s, ms, c) == []
    ensures GroupsMatch(gs + [Group(c, x, 1, x.isRead)], s + [x], ms)
  {
    var gs' := gs + [Group(c, x, 1, x.isRead)];
    MessagesInAppend(s, x, ms, c);
    forall k | 0 <= k < |gs| ensures GroupMatches(gs'[k], s + [x], ms) {
      assert gs[k] in gs;
      MessagesInAppend(s, x, ms, gs[k].conversation);
    }
  }

  /** A MESSAGE notification of a conversation already seen joins its group. */
  lemma AbsorbJoins(b: Buckets, s: seq<Notification>, x: Notification, ms: seq<ChatModels.Message>, c: nat, k: nat)
    requires BucketsOf(b, s, ms)
    requires x.kind == Message && ConversationOf(ms, x) == Some(c) && GroupIndex(b.groups, c) == Some(k)
    ensures BucketsOf(Absorb(b, x, ms), s + [x], ms)
  {
    JoinedDistinct(b, x, ms, c, k);
    JoinedMatch(b, s, x, ms, c, k);
    JoinedCover(b, s, x, ms, c, k);
    FilterAppend(s, [x], NotMessage);
  }

  lemma JoinedDistinct(b: Buckets, x: Notification, ms: seq<ChatModels.Message>, c: nat, k: nat)
    requires GroupsDistinct(b.groups)
    requires x.kind == Message && ConversationOf(ms, x) == Some(c) && GroupIndex(b.groups, c) == Some(k)
    ensures GroupsDistinct(Absorb(b, x, ms).groups)
  {
    var gs := b.groups;
    var gs' := Absorb(b, x, ms).groups;
    assert gs' == gs[k := gs[k].(count := gs[k].count + 1, isRead := gs[k].isRead && x.isRead)];
    forall i, j | 0 <= i < j < |gs'| ensures gs'[i].conversation != gs'[j].conversation {
      assert gs'[i].conversation == gs[i].conversation && gs'[j].conversation == gs[j].conversation;
    }
  }

  lemma JoinedCover(b: Buckets, s: seq<Notification>, x: Notification, ms: seq<ChatModels.Message>, c: nat, k: nat)
    requires GroupsCover(b.groups, s, ms)
    requires x.kind == Message && ConversationOf(ms, x) == Some(c) && GroupIndex(b.groups, c) == Some(k)
    ensures GroupsCover(Absorb(b, x, ms).groups, s + [x], ms)
  {
    var gs := b.groups;
    var gs' := Absorb(b, x, ms).groups;
    assert gs' == gs[k := gs[k].(count := gs[k].count + 1, isRead := gs[k].isRead && x.isRead)];
    forall d | d in GroupConversations(gs) ensures d in GroupConversations(gs') {
      var h :| h in gs && h.conversation == d;
      var l :| 0 <= l < |gs| && gs[l] == h;
      assert gs'[l].conversation == d;
    }
    assert gs'[k] in gs';
  }

  lemma JoinedMatch(b: Buckets, s: seq<Notification>, x: Notification, ms: seq<ChatModels.Message>, c: nat, k: nat)
    requires GroupsMatch(b.groups, s, ms) && GroupsDistinct(b.groups)
    requires x.kind == Message && ConversationOf(ms, x) == Some(c) && GroupIndex(b.groups, c) == Some(k)
    ensures GroupsMatch(Absorb(b, x, ms).groups, s + [x], ms)
  {
    var gs := b.groups;
    assert Absorb(b, x, ms).groups == gs[k := gs[k].(count := gs[k].count + 1, isRead := gs[k].isRead && x.isRead)];
    JoinedMatchAt(gs, s, x, ms, k);
  }

  lemma JoinedMatchAt(gs: seq<Group>, s: seq<Notification>, x: Notification, ms: seq<ChatModels.Message>, k: nat)
    requires GroupsMatch(gs, s, ms) && GroupsDistinct(gs) && k < |gs|
    requires x.kind == Message && ConversationOf(ms, x) == Some(gs[k].conversation)
    ensures GroupsMatch(gs[k := gs[k].(count := gs[k].count + 1, isRead := gs[k].isRead && x.isRead)], s + [x], ms)
  {
    var gs' := gs[k := gs[k].(count := gs[k].count + 1, isRead := gs[k].isRead && x.isRead)];
    var c := gs[k].conversation;
    MessagesInAppend(s, x, ms, c);
    assert GroupMatches(gs[k], s, ms);
    assert (MessagesIn(s, ms, c) + [x])[0] == MessagesIn(s, ms, c)[0];
    assert GroupMatches(gs'[k], s + [x], ms);
    forall l | 0 <= l < |gs| && l != k ensures GroupMatches(gs'[l], s + [x], ms) {
      assert gs'[l] == gs[l] && GroupMatches(gs[l], s, ms);
      MessagesInAppend(s, x, ms, gs[l].conversation);
    }
  }

  /** One loop iteration keeps the meaning of the buckets. */
  lemma AbsorbKeeps(b: Buckets, s: seq<Notification>, x: Notification, ms: seq<ChatModels.Message>)
    requires BucketsOf(b, s, ms)
    ensures BucketsOf(Absorb(b, x, ms), s + [x], ms)
  {
    if x.kind == Message && ConversationOf(ms, x).Some? {
      var c := ConversationOf(ms, x).value;
      match GroupIndex(b.groups, c)
      case None => AbsorbOpens(b, s, x, ms, c);
      case Some(k) => AbsorbJoins(b, s, x, ms, c, k);
    } else {
      AbsorbSkips(b, s, x, ms);
    }
  }

  /** The first loop of `get_notifications` computes buckets with the
      meaning `BucketsOf`. */
  lemma {:induction false} BucketedSpec(s: seq<Notification>, ms: seq<ChatModels.Message>)
    ensures BucketsOf(Bucketed(s, ms), s, ms)
  {
    if s != [] {
      var init := s[..|s| - 1];
      BucketedSpec(init, ms);
      AbsorbKeeps(Bucketed(init, ms), init, s[|s| - 1], ms);
      assert init + [s[|s| - 1]] == s;
    }
  }

  /** The wording of an entry: the message-group sentence depends only on
      the count (one message or several), the others on the type; types the
      view has no sentence for get an empty text. The quoted excerpt of the
      target's content is display text and is not modelled. */
  datatype NotificationText =
    | NewMessages(count: nat)
    | FriendRequestText
    | FriendAcceptText
    | PostReactionText
    | PostCommentText
    | CommentReactionText
    | MessageReactionText
    | NoText

  function TextFor(kind: NotificationType): (r: NotificationText)
    ensures r == NoText <==> kind in {PostLike, Message, AddedToGroup, GroupInviteRequest}
    ensures r != NoText ==> !r.NewMessages?
  {
    match kind
    case FriendRequest => FriendRequestText
    case FriendAccept => FriendAcceptText
    case PostReaction => PostReactionText
    case PostComment => PostCommentText
    case CommentReaction => CommentReactionText
    case MessageReaction => MessageReactionText
    case _ => NoText
  }

  /** One JSON object of the feed. The timestamp is sent formatted to the
      minute, which is also what the final sort parses back: `minute`. */
  datatype FeedEntry = FeedEntry(id: nat, text: NotificationText, sender: nat, minute: int, isRead: bool)

  function Minute(t: int): int { t / 60 }

  function MinuteKey(e: FeedEntry): int { e.minute }

  function GroupEntry(g: Group): FeedEntry
  {
    FeedEntry(g.latest.id, NewMessages(g.count), g.latest.sender, Minute(g.latest.timestamp), g.isRead)
  }

  function OtherEntry(n: Notification): FeedEntry
  {
    FeedEntry(n.id, TextFor(n.kind), n.sender, Minute(n.timestamp), n.isRead)
  }

  /** The group entries, then the other entries, stably sorted newest
      minute first. */
  function Feed(b: Buckets): seq<FeedEntry>
  {
    SortDesc(MapSeq(b.groups, GroupEntry) + MapSeq(b.others, OtherEntry), MinuteKey)
  }

  /** `get_notifications`: the feed of the fifteen newest notifications and
      the number of all unread ones. */
  method GetNotifications(table: NotificationTable, ms: seq<ChatModels.Message>, user: nat)
    returns (data: seq<FeedEntry>, totalUnread: nat)
    ensures data == Feed(Bucketed(RecentNotifications(table.rows, user), ms))
    ensures totalUnread == Count(table.rows, UnreadFor(user))
  {
    var recent := RecentNotifications(table.rows, user);
    totalUnread := Count(table.rows, UnreadFor(user));
    var groups, others := GroupRecent(recent, ms);
    data := FeedEntries(groups, others);
    data := SortDesc(data, MinuteKey);
  }

  /** The first loop: sort the notifications into message groups and the
      rest. */
  method GroupRecent(recent: seq<Notification>, ms: seq<ChatModels.Message>)
    returns (groups: seq<Group>, others: seq<Notification>)
    ensures Buckets(groups, others) == Bucketed(recent, ms)
  {
    groups, others := [], [];
    for i := 0 to |recent|
      invariant Buckets(groups, others) == Bucketed(recent[..i], ms)
    {
      assert recent[..i + 1][..i] == recent[..i];
      var n := recent[i];
      if n.kind == Message {
        var conv := ConversationOf(ms, n);
        if conv.Some? {
          groups := CountInGroup(groups, conv.value, n);
        }
      } else {
        others := others + [n];
      }
    }
    assert recent[..|recent|] == recent;
  }

  /** The body of the first loop for a MESSAGE notification of conversation
      `c`: open the group on first sight with count 0, count the
      notification, and clear the group's read flag when it is unread. */
  method CountInGroup(groups: seq<Group>, c: nat, n: Notification) returns (groups': seq<Group>)
    ensures groups' == Counted(groups, c, n)
  {
    var k := GroupIndex(groups, c);
    groups' := groups;
    if k.None? {
      groups' := groups' + [Group(c, n, 0, n.isRead)];
      k := Some(|groups'| - 1);
    }
    groups' := groups'[k.value := groups'[k.value].(count := groups'[k.value].count + 1)];
    if !n.isRead {
      groups' := groups'[k.value := groups'[k.value].(isRead := false)];
    }
  }

  /** The second and third loops: one entry per group, then one per other
      notification. */
  method FeedEntries(groups: seq<Group>, others: seq<Notification>) returns (data: seq<FeedEntry>)
    ensures data == MapSeq(groups, GroupEntry) + MapSeq(others, OtherEntry)
  {
    data := [];
    for k := 0 to |groups|
      invariant data == MapSeq(groups[..k], GroupEntry)
    {
      assert groups[..k + 1][..k] == groups[..k];
      data := data + [GroupEntry(groups[k])];
    }
    assert groups[..|groups|] == groups;
    for k := 0 to |others|
      invariant data == MapSeq(groups, GroupEntry) + MapSeq(others[..k], OtherEntry)
    {
      assert others[..k + 1][..k] == others[..k];
      data := data + [OtherEntry(others[k])];
    }
    assert others[..|others|] == others;
  }

  /** The feed: the user's fifteen newest notifications are read, newest
      first; each conversation's group names its newest notification; every
      notification of another type has its own entry and so does every
      group, with nothing else in the feed; the feed is ordered by minute,
      newest first. */
  lemma GetNotificationsSpec(rows: seq<Notification>, ms: seq<ChatModels.Message>, user: nat)
    ensures |RecentNotifications(rows, user)| <= FeedLimit
    ensures forall n :: n in RecentNotifications(rows, user) ==> n in rows && n.recipient == user
    ensures SortedDesc(RecentNotifications(rows, user), TimestampKey)
    ensures forall n :: n in rows && n.recipient == user && n !in RecentNotifications(rows, user) ==>
      && |RecentNotifications(rows, user)| == FeedLimit
      && forall m :: m in RecentNotifications(rows, user) ==> m.timestamp >= n.timestamp
    ensures BucketsOf(Bucketed(RecentNotifications(rows, user), ms), RecentNotifications(rows, user), ms)
    ensures forall k, n ::
      (&& 0 <= k < |Bucketed(RecentNotifications(rows, user), ms).groups|
       && n in MessagesIn(RecentNotifications(rows, user), ms, Bucketed(RecentNotifications(rows, user), ms).groups[k].conversation))
      ==> Bucketed(RecentNotifications(rows, user), ms).groups[k].latest.timestamp >= n.timestamp
    ensures forall n :: n in RecentNotifications(rows, user) && n.kind != Message ==>
      OtherEntry(n) in Feed(Bucketed(RecentNotifications(rows, user), ms))
    ensures forall g :: g in Bucketed(RecentNotifications(rows, user), ms).groups ==>
      GroupEntry(g) in Feed(Bucketed(RecentNotifications(rows, user), ms))
    ensures |Feed(Bucketed(RecentNotifications(rows, user), ms))|
      == |Bucketed(RecentNotifications(rows, user), ms).groups| + Count(RecentNotifications(rows, user), NotMessage)
    ensures SortedDesc(Feed(Bucketed(RecentNotifications(rows, user), ms)), MinuteKey)
  {
    RecentSpec(rows, user);
    BucketedSpec(RecentNotifications(rows, user), ms);
    LatestIsNewest(RecentNotifications(rows, user), ms);
    FeedSpec(RecentNotifications(rows, user), ms);
  }

  /** The slice the feed reads: at most fifteen of the user's rows, newest
      first, and no row of the user's that it leaves out is newer than any
      row it keeps. */
  lemma RecentSpec(rows: seq<Notification>, user: nat)
    ensures |RecentNotifications(rows, user)| <= FeedLimit
    ensures forall n :: n in RecentNotifications(rows, user) ==> n in rows && n.recipient == user
    ensures SortedDesc(RecentNotifications(rows, user), TimestampKey)
    ensures forall n :: n in rows && n.recipient == user && n !in RecentNotifications(rows, user) ==>
      && |RecentNotifications(rows, user)| == FeedLimit
      && forall m :: m in RecentNotifications(rows, user) ==> m.timestamp >= n.timestamp
  {
    forall n | n in rows && n.recipient == user && n !in RecentNotifications(rows, user)
      ensures |RecentNotifications(rows, user)| == FeedLimit
      ensures forall m :: m in RecentNotifications(rows, user) ==> m.timestamp >= n.timestamp
    {
      FilterSortTakeTop(rows, ForRecipient(user), TimestampKey, FeedLimit, n);
    }
    var sorted := SortDesc(Filter(rows, ForRecipient(user)), TimestampKey);
    SortDescSorted(Filter(rows, ForRecipient(user)), TimestampKey);
    TakeSorted(sorted, TimestampKey, FeedLimit);
    forall n | n in RecentNotifications(rows, user) ensures n in rows && n.recipient == user {
      assert n in multiset(sorted);
    }
  }

  /** On newest-first input, a group's notification is the newest of its
      conversation. */
  lemma LatestIsNewest(s: seq<Notification>, ms: seq<ChatModels.Message>)
    requires SortedDesc(s, TimestampKey)
    ensures forall k, n ::
      (0 <= k < |Bucketed(s, ms).groups| && n in MessagesIn(s, ms, Bucketed(s, ms).groups[k].conversation))
      ==> Bucketed(s, ms).groups[k].latest.timestamp >= n.timestamp
  {
    var gs := Bucketed(s, ms).groups;
    BucketedSpec(s, ms);
    forall k | 0 <= k < |gs|
      ensures forall n :: n in MessagesIn(s, ms, gs[k].conversation) ==> gs[k].latest.timestamp >= n.timestamp
    {
      var f := MessagesIn(s, ms, gs[k].conversation);
      FilterSorted(s, InConversation(ms, gs[k].conversation), TimestampKey);
      assert GroupMatches(gs[k], s, ms);
      forall n | n in f ensures f[0].timestamp >= n.timestamp {
        var j :| 0 <= j < |f| && f[j] == n;
      }
    }
  }

  /** Every group and every notification of another type has its entry,
      there is nothing else, and the feed is sorted by minute. */
  lemma FeedSpec(s: seq<Notification>, ms: seq<ChatModels.Message>)
    ensures forall n :: n in s && n.kind != Message ==> OtherEntry(n) in Feed(Bucketed(s, ms))
    ensures forall g :: g in Bucketed(s, ms).groups ==> GroupEntry(g) in Feed(Bucketed(s, ms))
    ensures |Feed(Bucketed(s, ms))| == |Bucketed(s, ms).groups| + Count(s, NotMessage)
    ensures SortedDesc(Feed(Bucketed(s, ms)), MinuteKey)
  {
    FeedCoversAll(s, ms);
    FeedShape(s, ms);
  }

  lemma FeedCoversAll(s: seq<Notification>, ms: seq<ChatModels.Message>)
    ensures forall n :: n in s && n.kind != Message ==> OtherEntry(n) in Feed(Bucketed(s, ms))
    ensures forall g :: g in Bucketed(s, ms).groups ==> GroupEntry(g) in Feed(Bucketed(s, ms))
  {
    var b := Bucketed(s, ms);
    OthersFiltered(s, ms);
    forall n | n in s && n.kind != Message ensures OtherEntry(n) in Feed(b) {
      FilterKeeps(s, NotMessage, n);
      MapSeqMember(b.others, OtherEntry, n);
      InFeed(b, OtherEntry(n));
    }
    forall g | g in b.groups ensures GroupEntry(g) in Feed(b) {
      MapSeqMember(b.groups, GroupEntry, g);
      InFeed(b, GroupEntry(g));
    }
  }

  lemma OthersFiltered(s: seq<Notification>, ms: seq<ChatModels.Message>)
    ensures Bucketed(s, ms).others == Filter(s, NotMessage)
  {
    BucketedSpec(s, ms);
  }

  /** Sorting keeps every entry of either part. */
  lemma InFeed(b: Buckets, e: FeedEntry)
    requires e in MapSeq(b.groups, GroupEntry) || e in MapSeq(b.others, OtherEntry)
    ensures e in Feed(b)
  {
    var all := MapSeq(b.groups, GroupEntry) + MapSeq(b.others, OtherEntry);
    assert e in multiset(all);
  }

  lemma FeedShape(s: seq<Notification>, ms: seq<ChatModels.Message>)
    ensures |Feed(Bucketed(s, ms))| == |Bucketed(s, ms).groups| + Count(s, NotMessage)
    ensures SortedDesc(Feed(Bucketed(s, ms)), MinuteKey)
  {
    var b := Bucketed(s, ms);
    var all := MapSeq(b.groups, GroupEntry) + MapSeq(b.others, OtherEntry);
    BucketedSpec(s, ms);
    MapSeqPointwise(b.groups, GroupEntry);
    MapSeqPointwise(b.others, OtherEntry);
    SortDescSorted(all, MinuteKey);
  }

  // -------------------------------------------------- redirect_notification

  /** Where the redirect sends the browser. Profiles are addressed by the
      user's id (the URL carries the unique username). */
  datatype Destination =
    | FriendRequestsPage
    | ProfilePage(user: nat)
    | PostOnProfile(author: nat, post: nat)
    | ConversationDetail(conversation: nat)
    | HomePage

  /** `NotFound` is the 404 of `get_object_or_404`; `ServerError` is the
      exception raised when a comment's post row is missing. */
  datatype RedirectOutcome = Redirect(to: Destination) | NotFound | ServerError

  function TargetUser(users: seq<User>, target: Option<ContentRef>): (r: Option<User>)
    ensures r.Some? ==> r.value in users && target == Some(ContentRef(UserContent, r.value.id))
  {
    match target
    case Some(ContentRef(UserContent, id)) => FindUser(users, id)
    case _ => None
  }

  function TargetPost(posts: seq<Post>, target: Option<ContentRef>): (r: Option<Post>)
    ensures r.Some? ==> r.value in posts && target == Some(ContentRef(PostContent, r.value.id))
  {
    match target
    case Some(ContentRef(PostContent, id)) => FindPost(posts, id)
    case _ => None
  }

  function TargetComment(comments: seq<Comment>, target: Option<ContentRef>): (r: Option<Comment>)
    ensures r.Some? ==> r.value in comments && target == Some(ContentRef(CommentContent, r.value.id))
  {
    match target
    case Some(ContentRef(CommentContent, id)) => FindComment(comments, id)
    case _ => None
  }

  /** The chain of `if`s after the notification has been marked read. A
      friend request always goes to the request list; the other types go to
      their target when it still exists, and to the home page otherwise. */
  function Route(n: Notification, users: seq<User>, posts: seq<Post>, comments: seq<Comment>,
                 ms: seq<ChatModels.Message>): (r: RedirectOutcome)
    ensures r != NotFound
    ensures n.kind == FriendRequest <==> r == Redirect(FriendRequestsPage)
    ensures r.Redirect? && r.to.ProfilePage? ==>
      n.kind == FriendAccept && n.target == Some(ContentRef(UserContent, r.to.user))
      && FindUser(users, r.to.user).Some?
    ensures r.Redirect? && r.to.PostOnProfile? ==>
      (n.kind == PostReaction || n.kind == PostComment || n.kind == CommentReaction)
      && FindPost(posts, r.to.post).Some? && FindPost(posts, r.to.post).value.author == r.to.author
    ensures r.Redirect? && r.to.ConversationDetail? ==>
      n.kind == MessageReaction
      && (exists m :: m in ms && m.conversation == r.to.conversation && n.target == Some(ContentRef(MessageContent, m.id)))
    ensures r == ServerError ==> n.kind == CommentReaction && TargetComment(comments, n.target).Some?
    ensures (n.kind == FriendAccept && TargetUser(users, n.target).Some?) ==> r.Redirect? && r.to.ProfilePage?
    ensures (n.kind == PostReaction || n.kind == PostComment) && TargetPost(posts, n.target).Some? ==>
      r == Redirect(PostOnProfile(TargetPost(posts, n.target).value.author, TargetPost(posts, n.target).value.id))
    ensures n.kind == MessageReaction && TargetMessage(ms, n.target).Some? ==>
      r == Redirect(ConversationDetail(TargetMessage(ms, n.target).value.conversation))
  {
    if n.kind == FriendRequest then Redirect(FriendRequestsPage)
    else if n.kind == FriendAccept && TargetUser(users, n.target).Some? then
      Redirect(ProfilePage(TargetUser(users, n.target).value.id))
    else if (n.kind == PostReaction || n.kind == PostComment) && TargetPost(posts, n.target).Some? then
      var p := TargetPost(posts, n.target).value;
      assert FindPost(posts, p.id) == Some(p);
      Redirect(PostOnProfile(p.author, p.id))
    else if n.kind == CommentReaction && TargetComment(comments, n.target).Some? then
      match FindPost(posts, TargetComment(comments, n.target).value.post)
      case Some(p) => Redirect(PostOnProfile(p.author, p.id))
      case None => ServerError
    else if n.kind == MessageReaction && TargetMessage(ms, n.target).Some? then
      Redirect(ConversationDetail(TargetMessage(ms, n.target).value.conversation))
    else Redirect(HomePage)
  }

  /** The index of notification `pk` when it belongs to `actor`
      (`get_object_or_404(Notification, pk=pk, recipient=request.user)`). */
  function OwnIndex(rows: seq<Notification>, pk: nat, actor: nat): (r: Option<nat>)
    ensures r.Some? ==> r.value < |rows| && rows[r.value].id == pk && rows[r.value].recipient == actor
    ensures r.None? ==> forall n :: n in rows && n.id == pk ==> n.recipient != actor
  {
    if rows == [] then None
    else if rows[0].id == pk && rows[0].recipient == actor then Some(0)
    else match OwnIndex(rows[1..], pk, actor)
      case None => None
      case Some(k) => Some(k + 1)
  }

  function ConversationMessageIds(ms: seq<ChatModels.Message>, c: nat): set<nat>
  {
    set m | m in ms && m.conversation == c :: m.id
  }

  /** The notification points at a message row of conversation `c`. */
  predicate TargetsConversation(ms: seq<ChatModels.Message>, n: Notification, c: nat)
  {
    n.target.Some? && n.target.value.kind == MessageContent
    && n.target.value.objectId in ConversationMessageIds(ms, c)
  }

  /** The rows the MESSAGE branch marks read: the actor's unread MESSAGE
      notifications about any message of the conversation. */
  function ConversationNotificationIds(rows: seq<Notification>, ms: seq<ChatModels.Message>, actor: nat, c: nat): set<nat>
  {
    set n | n in rows && n.recipient == actor && n.kind == Message && TargetsConversation(ms, n, c) && !n.isRead :: n.id
  }

  /** Opening a conversation from a notification reads all of the actor's
      message notifications for that conversation, the clicked one among
      them, and touches no other row. */
  lemma MarkConversationSpec(rows: seq<Notification>, ms: seq<ChatModels.Message>, actor: nat, c: nat, n: Notification)
    requires IdsIncreasing(rows)
    requires n.kind == Message && ConversationOf(ms, n) == Some(c)
    ensures TargetsConversation(ms, n, c)
    ensures forall i ::
      (0 <= i < |rows| && rows[i].recipient == actor && rows[i].kind == Message && TargetsConversation(ms, rows[i], c))
      ==> MarkedRead(rows, ConversationNotificationIds(rows, ms, actor, c))[i].isRead
    ensures forall i ::
      (0 <= i < |rows| && !(rows[i].recipient == actor && rows[i].kind == Message && TargetsConversation(ms, rows[i], c)))
      ==> MarkedRead(rows, ConversationNotificationIds(rows, ms, actor, c))[i] == rows[i]
  {
    var ids := ConversationNotificationIds(rows, ms, actor, c);
    var m := TargetMessage(ms, n.target).value;
    assert m.id in ConversationMessageIds(ms, c);
    forall i | 0 <= i < |rows| && !(rows[i].recipient == actor && rows[i].kind == Message
      && TargetsConversation(ms, rows[i], c))
      ensures MarkedRead(rows, ids)[i] == rows[i]
    {
      forall j | 0 <= j < |rows| && rows[j].recipient == actor && rows[j].kind == Message
        && TargetsConversation(ms, rows[j], c)
        ensures rows[j].id != rows[i].id
      {
        assert i != j;
      }
      assert rows[i].id !in ids;
    }
    forall i | 0 <= i < |rows| && rows[i].recipient == actor && rows[i].kind == Message
      && TargetsConversation(ms, rows[i], c)
      ensures MarkedRead(rows, ids)[i].isRead
    {
      if !rows[i].isRead {
        assert rows[i] in rows;
      }
    }
  }

  /** The other branch marks only the clicked row read. */
  lemma MarkOneSpec(rows: seq<Notification>, k: nat)
    requires IdsIncreasing(rows) && k < |rows|
    ensures MarkedRead(rows, {rows[k].id})[k] == rows[k].(isRead := true)
    ensures forall i :: 0 <= i < |rows| && i != k ==> MarkedRead(rows, {rows[k].id})[i] == rows[i]
  {
  }

  /** Whether the clicked notification opens a conversation. */
  function OpensConversation(ms: seq<ChatModels.Message>, n: Notification): Option<nat>
  {
    if n.kind == Message then ConversationOf(ms, n) else None
  }

  /** `redirect_notification`: 404 unless the notification exists and is the
      actor's; a MESSAGE notification whose message still exists marks the
      whole conversation's notifications read and opens the conversation;
      any other notification is marked read and routed by `Route`. */
  method RedirectNotification(table: NotificationTable, users: seq<User>, posts: seq<Post>,
                              comments: seq<Comment>, ms: seq<ChatModels.Message>, actor: nat, pk: nat)
    returns (r: RedirectOutcome)
    requires table.Valid()
    modifies table
    ensures table.Valid() && table.nextId == old(table.nextId)
    ensures OwnIndex(old(table.rows), pk, actor).None? ==> r == NotFound && table.rows == old(table.rows)
    ensures OwnIndex(old(table.rows), pk, actor).Some? ==>
      var n := old(table.rows)[OwnIndex(old(table.rows), pk, actor).value];
      match OpensConversation(ms, n)
      case Some(c) =>
        r == Redirect(ConversationDetail(c))
        && table.rows == MarkedRead(old(table.rows), ConversationNotificationIds(old(table.rows), ms, actor, c))
      case None =>
        r == Route(n, users, posts, comments, ms) && table.rows == MarkedRead(old(table.rows), {pk})
    ensures OwnIndex(old(table.rows), pk, actor).Some? ==>
      r != NotFound && table.rows[OwnIndex(old(table.rows), pk, actor).value].isRead
  {
    var k := OwnIndex(table.rows, pk, actor);
    if k.None? {
      return NotFound;
    }
    var n := table.rows[k.value];
    if n.kind == Message && ConversationOf(ms, n).Some? {
      var c := ConversationOf(ms, n).value;
      MarkConversationSpec(table.rows, ms, actor, c, n);
      table.MarkRead(ConversationNotificationIds(table.rows, ms, actor, c));
      return Redirect(ConversationDetail(c));
    }
    table.MarkRead({pk});
    r := Route(n, users, posts, comments, ms);
  }
}
