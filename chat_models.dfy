/** chat/models.py: conversations and messages, and the table operations
    the chat views perform on them. */
module ChatModels {
  import opened Base

  datatype ConversationType = PrivateConversation | GroupConversation

  const DefaultConversationType: ConversationType := PrivateConversation

  /** `lastMessage` is the denormalised reference that `on_delete=SET_NULL`
      clears when its message goes. */
  datatype Conversation = Conversation(
    id: nat,
    kind: ConversationType,
    name: Option<string>,
    admin: Option<nat>,
    participants: set<nat>,
    updatedAt: int,
    lastMessage: Option<nat>)

  /** `sender` is a non-null foreign key. */
  datatype Message = Message(
    id: nat,
    conversation: nat,
    sender: nat,
    text: string,
    timestamp: int)

  function ConversationIndex(cs: seq<Conversation>, id: nat): (r: Option<nat>)
    ensures r.Some? ==> r.value < |cs| && cs[r.value].id == id
    ensures r.None? ==> forall c :: c in cs ==> c.id != id
  {
    if cs == [] then None
    else if cs[0].id == id then Some(0)
    else match ConversationIndex(cs[1..], id)
      case None => None
      case Some(k) => Some(k + 1)
  }

  function MessageIndex(ms: seq<Message>, id: nat): (r: Option<nat>)
    ensures r.Some? ==> r.value < |ms| && ms[r.value].id == id
    ensures r.None? ==> forall m :: m in ms ==> m.id != id
  {
    if ms == [] then None
    else if ms[0].id == id then Some(0)
    else match MessageIndex(ms[1..], id)
      case None => None
      case Some(k) => Some(k + 1)
  }

  function FindMessage(ms: seq<Message>, id: nat): (r: Option<Message>)
    ensures r.Some? ==> r.value in ms && r.value.id == id
    ensures r.None? ==> forall m :: m in ms ==> m.id != id
  {
    match MessageIndex(ms, id)
    case None => None
    case Some(k) => Some(ms[k])
  }

  function ConversationIds(cs: seq<Conversation>): set<nat> { set c | c in cs :: c.id }

  function MessageIds(ms: seq<Message>): set<nat> { set m | m in ms :: m.id }

  /** `message.delete()`: the row goes, and every conversation whose
      `last_message` was that row gets NULL. */
  function WithoutMessage(ms: seq<Message>, id: nat): (r: seq<Message>)
    ensures forall m :: m in r <==> m in ms && m.id != id
  {
    var r := Filter(ms, (m: Message) => m.id != id);
    assert forall m :: m in ms && m.id != id ==> m in r by {
      forall m | m in ms && m.id != id ensures m in r {
        FilterKeeps(ms, (m: Message) => m.id != id, m);
      }
    }
    r
  }

  function ClearLastMessage(cs: seq<Conversation>, id: nat): (r: seq<Conversation>)
    ensures |r| == |cs|
    ensures forall k :: 0 <= k < |r| ==> r[k].lastMessage != Some(id)
    ensures forall k :: 0 <= k < |cs| ==> r[k].(lastMessage := cs[k].lastMessage) == cs[k]
    ensures forall k :: 0 <= k < |cs| && cs[k].lastMessage != Some(id) ==> r[k] == cs[k]
  {
    seq(|cs|, k requires 0 <= k < |cs| =>
      if cs[k].lastMessage == Some(id) then cs[k].(lastMessage := None) else cs[k])
  }

  ghost predicate ConversationIdsIncreasing(cs: seq<Conversation>)
  {
    forall i, j :: 0 <= i < j < |cs| ==> cs[i].id < cs[j].id
  }

  ghost predicate MessageIdsIncreasing(ms: seq<Message>)
  {
    forall i, j :: 0 <= i < j < |ms| ==> ms[i].id < ms[j].id
  }

  class ChatStore {
    var conversations: seq<Conversation>
    var messages: seq<Message>
    var nextConversationId: nat
    var nextMessageId: nat

    /** Auto-increment keys, the message-to-conversation foreign key, and the
        last-message reference that never dangles. */
    ghost predicate Valid()
      reads this
    {
      && ConversationIdsIncreasing(conversations)
      && MessageIdsIncreasing(messages)
      && (forall k :: 0 <= k < |conversations| ==> conversations[k].id < nextConversationId)
      && (forall k :: 0 <= k < |messages| ==> messages[k].id < nextMessageId)
      && (forall k :: 0 <= k < |messages| ==> messages[k].conversation in ConversationIds(conversations))
      && (forall k :: 0 <= k < |conversations| && conversations[k].lastMessage.Some? ==>
            conversations[k].lastMessage.value in MessageIds(messages))
    }

    constructor ()
      ensures Valid()
      ensures conversations == [] && messages == [] && nextConversationId == 1 && nextMessageId == 1
    {
      conversations, messages := [], [];
      nextConversationId, nextMessageId := 1, 1;
    }

    /** `Conversation.objects.create()` followed by `participants.add(...)`:
        a private conversation with no message yet. */
    method CreateConversation(participants: set<nat>, now: int) returns (c: Conversation)
      requires Valid()
      modifies this
      ensures Valid()
      ensures c == Conversation(old(nextConversationId), DefaultConversationType, None, None, participants, now, None)
      ensures conversations == old(conversations) + [c] && nextConversationId == old(nextConversationId) + 1
      ensures messages == old(messages) && nextMessageId == old(nextMessageId)
    {
      c := Conversation(nextConversationId, DefaultConversationType, None, None, participants, now, None);
      assert c.id !in ConversationIds(conversations);
      conversations := conversations + [c];
      nextConversationId := nextConversationId + 1;
      assert forall k :: 0 <= k < |messages| ==> messages[k].conversation in ConversationIds(conversations) by {
        assert ConversationIds(old(conversations)) <= ConversationIds(conversations);
      }
    }

    /** `message.save()` for a new message. */
    method CreateMessage(conversation: nat, sender: nat, text: string, now: int) returns (m: Message)
      requires Valid()
      requires conversation in ConversationIds(conversations)
      modifies this
      ensures Valid()
      ensures m == Message(old(nextMessageId), conversation, sender, text, now)
      ensures messages == old(messages) + [m] && nextMessageId == old(nextMessageId) + 1
      ensures conversations == old(conversations) && nextConversationId == old(nextConversationId)
    {
      m := Message(nextMessageId, conversation, sender, text, now);
      messages := messages + [m];
      nextMessageId := nextMessageId + 1;
      assert MessageIds(old(messages)) <= MessageIds(messages);
    }

    /** `conversation.save()` after the view changed the row at index `k`. */
    method SaveConversation(k: nat, c: Conversation)
      requires Valid()
      requires k < |conversations| && c.id == conversations[k].id
      requires c.lastMessage.Some? ==> c.lastMessage.value in MessageIds(messages)
      modifies this
      ensures Valid()
      ensures conversations == old(conversations)[k := c]
      ensures messages == old(messages)
      ensures nextConversationId == old(nextConversationId) && nextMessageId == old(nextMessageId)
    {
      conversations := conversations[k := c];
      assert ConversationIds(old(conversations)) <= ConversationIds(conversations) by {
        forall x | x in ConversationIds(old(conversations)) ensures x in ConversationIds(conversations) {
          var d :| d in old(conversations) && d.id == x;
          var j :| 0 <= j < |old(conversations)| && old(conversations)[j] == d;
          assert conversations[j].id == x;
        }
      }
    }

    /** `message.save()` after the view changed the row at index `k`. */
    method SaveMessage(k: nat, m: Message)
      requires Valid()
      requires k < |messages| && m.id == messages[k].id && m.conversation == messages[k].conversation
      modifies this
      ensures Valid()
      ensures messages == old(messages)[k := m]
      ensures conversations == old(conversations)
      ensures nextConversationId == old(nextConversationId) && nextMessageId == old(nextMessageId)
    {
      messages := messages[k := m];
      assert MessageIds(old(messages)) <= MessageIds(messages) by {
        forall x | x in MessageIds(old(messages)) ensures x in MessageIds(messages) {
          var d :| d in old(messages) && d.id == x;
          var j :| 0 <= j < |old(messages)| && old(messages)[j] == d;
          assert messages[j].id == x;
        }
      }
    }

    /** `message.delete()`, with the SET_NULL cascade on `last_message`. */
    method DeleteMessage(id: nat)
      requires Valid()
      modifies this
      ensures Valid()
      ensures messages == WithoutMessage(old(messages), id)
      ensures conversations == ClearLastMessage(old(conversations), id)
      ensures nextConversationId == old(nextConversationId) && nextMessageId == old(nextMessageId)
    {
      DeleteKeepsMessagesValid(messages, id);
      DeleteKeepsConversationsValid(conversations, messages, id);
      messages := WithoutMessage(messages, id);
      conversations := ClearLastMessage(conversations, id);
    }
  }

  lemma DeleteKeepsMessagesValid(ms: seq<Message>, id: nat)
    requires MessageIdsIncreasing(ms)
    ensures MessageIdsIncreasing(WithoutMessage(ms, id))
    ensures forall m :: m in WithoutMessage(ms, id) ==> m in ms
  {
    FilterIncreasing(ms, (m: Message) => m.id != id);
  }

  /** Clearing `last_message` keeps each conversation's id, and no
      conversation is left pointing at the deleted message. */
  lemma DeleteKeepsConversationsValid(cs: seq<Conversation>, ms: seq<Message>, id: nat)
    requires forall k :: 0 <= k < |cs| && cs[k].lastMessage.Some? ==> cs[k].lastMessage.value in MessageIds(ms)
    ensures ConversationIds(ClearLastMessage(cs, id)) == ConversationIds(cs)
    ensures forall k :: 0 <= k < |cs| ==> ClearLastMessage(cs, id)[k].id == cs[k].id
    ensures forall k :: 0 <= k < |cs| && ClearLastMessage(cs, id)[k].lastMessage.Some? ==>
      ClearLastMessage(cs, id)[k].lastMessage.value in MessageIds(WithoutMessage(ms, id))
  {
    var r := ClearLastMessage(cs, id);
    forall x | x in ConversationIds(cs) ensures x in ConversationIds(r) {
      var d :| d in cs && d.id == x;
      var j :| 0 <= j < |cs| && cs[j] == d;
      assert r[j].id == x;
    }
    forall k | 0 <= k < |cs| && r[k].lastMessage.Some?
      ensures r[k].lastMessage.value in MessageIds(WithoutMessage(ms, id))
    {
      var x := r[k].lastMessage.value;
      assert x != id && x in MessageIds(ms);
      var d :| d in ms && d.id == x;
      assert d in WithoutMessage(ms, id);
    }
  }

  /** Filtering keeps the relative order of what it keeps, so increasing
      ids stay increasing. */
  lemma {:induction false} FilterIncreasing(s: seq<Message>, p: Message -> bool)
    requires MessageIdsIncreasing(s)
    ensures MessageIdsIncreasing(Filter(s, p))
  {
    if s != [] {
      var rest := Filter(s[1..], p);
      TailIncreasing(s);
      FilterIncreasing(s[1..], p);
      if p(s[0]) {
        HeadBelowTail(s, rest);
        ConsIncreasing(s[0], rest);
        assert Filter(s, p) == [s[0]] + rest;
      } else {
        assert Filter(s, p) == rest;
      }
    }
  }

  lemma TailIncreasing(s: seq<Message>)
    requires s != [] && MessageIdsIncreasing(s)
    ensures MessageIdsIncreasing(s[1..])
  {
    forall i, j | 0 <= i < j < |s[1..]| ensures s[1..][i].id < s[1..][j].id {
      assert s[1..][i] == s[i + 1] && s[1..][j] == s[j + 1];
    }
  }

  lemma HeadBelowTail(s: seq<Message>, rest: seq<Message>)
    requires s != [] && MessageIdsIncreasing(s)
    requires forall m :: m in rest ==> m in s[1..]
    ensures forall m :: m in rest ==> s[0].id < m.id
  {
    forall m | m in rest ensures s[0].id < m.id {
      var k :| 0 <= k < |s[1..]| && s[1..][k] == m;
      assert s[k + 1] == m;
    }
  }

  lemma ConsIncreasing(x: Message, rest: seq<Message>)
    requires MessageIdsIncreasing(rest)
    requires forall m :: m in rest ==> x.id < m.id
    ensures MessageIdsIncreasing([x] + rest)
  {
    var f := [x] + rest;
    forall i, j | 0 <= i < j < |f| ensures f[i].id < f[j].id {
      assert f[j] == rest[j - 1];
      if i == 0 {
        assert rest[j - 1] in rest;
      } else {
        assert f[i] == rest[i - 1];
      }
    }
  }
}
