/** notifications/models.py: the notification record and its table. */
module NotificationsModels {
  import opened Base
  import opened ContentTypes

  /** The union of the model's `NOTIFICATION_TYPES` and the types the views
      test for (FRIEND_ACCEPT, POST_REACTION and MESSAGE_REACTION are not in
      the model's choices). */
  datatype NotificationType =
    | FriendRequest
    | FriendAccept
    | PostLike
    | PostReaction
    | PostComment
    | CommentReaction
    | Message
    | MessageReaction
    | AddedToGroup
    | GroupInviteRequest

  datatype Notification = Notification(
    id: nat,
    recipient: nat,
    sender: nat,
    kind: NotificationType,
    isRead: bool,
    timestamp: int,
    target: Option<ContentRef>)

  /** The kind of object each notification type points at, as the views read
      it back (a friend request targets the edge, an acceptance the user, a
      message notification the message, ...). Group notifications are created
      outside this core and are left unconstrained. */
  predicate ExpectedTarget(t: NotificationType, k: ContentKind)
  {
    match t
    case FriendRequest => k == FriendshipContent
    case FriendAccept => k == UserContent
    case PostLike | PostReaction | PostComment => k == PostContent
    case CommentReaction => k == CommentContent
    case Message | MessageReaction => k == MessageContent
    case AddedToGroup | GroupInviteRequest => true
  }

  predicate WellKinded(n: Notification)
  {
    n.target.Some? ==> ExpectedTarget(n.kind, n.target.value.kind)
  }

  /** ids are auto-increment primary keys, so the table is in id order. */
  ghost predicate IdsIncreasing(rows: seq<Notification>)
  {
    forall i, j :: 0 <= i < j < |rows| ==> rows[i].id < rows[j].id
  }

  /** `Notification.objects.filter(id__in=ids).update(is_read=True)`. */
  function MarkedRead(rows: seq<Notification>, ids: set<nat>): (r: seq<Notification>)
    ensures |r| == |rows|
    ensures forall i :: 0 <= i < |rows| ==> r[i].isRead == (rows[i].isRead || rows[i].id in ids)
    ensures forall i :: 0 <= i < |rows| ==> r[i].(isRead := rows[i].isRead) == rows[i]
    ensures forall i :: 0 <= i < |rows| && rows[i].id !in ids ==> r[i] == rows[i]
  {
    seq(|rows|, i requires 0 <= i < |rows| => if rows[i].id in ids then rows[i].(isRead := true) else rows[i])
  }

  class NotificationTable {
    var rows: seq<Notification>
    var nextId: nat

    ghost predicate Valid()
      reads this
    {
      && IdsIncreasing(rows)
      && (forall i :: 0 <= i < |rows| ==> rows[i].id < nextId)
      && (forall i :: 0 <= i < |rows| ==> WellKinded(rows[i]))
    }

    constructor ()
      ensures Valid() && rows == [] && nextId == 1
    {
      rows := [];
      nextId := 1;
    }

    /** `Notification.objects.create(...)`: a new row, unread (the field
        default), stamped with the current time. */
    method Create(recipient: nat, sender: nat, kind: NotificationType, target: Option<ContentRef>, now: int)
      returns (n: Notification)
      requires Valid()
      requires target.Some? ==> ExpectedTarget(kind, target.value.kind)
      modifies this
      ensures Valid()
      ensures n == Notification(old(nextId), recipient, sender, kind, false, now, target)
      ensures rows == old(rows) + [n] && nextId == old(nextId) + 1
    {
      n := Notification(nextId, recipient, sender, kind, false, now, target);
      rows := rows + [n];
      nextId := nextId + 1;
    }

    /** A bulk `update(is_read=True)` on the rows whose id is in `ids`. */
    method MarkRead(ids: set<nat>)
      requires Valid()
      modifies this
      ensures Valid()
      ensures rows == MarkedRead(old(rows), ids) && nextId == old(nextId)
    {
      rows := MarkedRead(rows, ids);
    }
  }
}
