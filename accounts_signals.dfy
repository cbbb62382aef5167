/** accounts/signals.py: the friend-request notification fan-out. */
module AccountsSignals {
  import opened Base
  import opened ContentTypes
  import opened AccountsModels
  import opened NotificationsModels

  /** Whether the `post_save` handler fires for this save (line 13). */
  predicate NotifiesOnSave(instance: Friendship, created: bool)
  {
    created && instance.status == Pending
  }

  /** `create_friend_request_notification`, run after every save of a
      Friendship; `created` is the signal's flag, `now` the clock. */
  method OnFriendshipSaved(table: NotificationTable, instance: Friendship, created: bool, now: int)
    returns (made: Option<Notification>)
    requires table.Valid()
    modifies table
    ensures table.Valid()
    ensures made.Some? <==> NotifiesOnSave(instance, created)
    ensures made.Some? ==>
      && table.rows == old(table.rows) + [made.value]
      && made.value.id == old(table.nextId)
      && made.value.recipient == instance.toUser
      && made.value.sender == instance.fromUser
      && made.value.kind == FriendRequest
      && made.value.target == Some(ContentRef(FriendshipContent, instance.id))
      && !made.value.isRead
      && made.value.timestamp == now
    ensures made.None? ==> table.rows == old(table.rows) && table.nextId == old(table.nextId)
  {
    if created && instance.status == Pending {
      var n := table.Create(instance.toUser, instance.fromUser, FriendRequest,
                            Some(ContentRef(FriendshipContent, instance.id)), now);
      made := Some(n);
    } else {
      made := None;
    }
  }
}
