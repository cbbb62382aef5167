/** chat/views.py: starting a conversation, the message API (send, delete,
    edit) and the two JSON lists (recent conversations, user search). The
    acting user is the logged-in `request.user`. */
module ChatViews {
  import opened Base
  import opened AccountsModels
  import opened ChatModels

  datatype HttpError = BadRequest | Forbidden | NotFound | ServerError

  /** What a chat view answers, without the rendering. */
  datatype ChatResponse =
    | RedirectConversationList
    | RedirectConversationDetail(conversationId: nat)
    | SentJson(messageId: nat, sender: nat, text: string, timestamp: int)
    | DeletedJson(messageId: nat)
    | EditedJson(messageId: nat, newText: string)
    | Failed(error: HttpError)

  /** A request body as `json.loads` sees it: not JSON at all, JSON that is
      not an object, or an object with or without a `text` string. */
  datatype JsonBody = InvalidJson | JsonNotObject | JsonObject(text: Option<string>)

  predicate HasBoth(c: Conversation, a: nat, b: nat)
  {
    a in c.participants && b in c.participants
  }

  /** `.filter(participants=a).filter(participants=b).first()`: the first row
      in primary-key order holding both users. */
  function FirstWithBoth(cs: seq<Conversation>, a: nat, b: nat): (r: Option<nat>)
    ensures r.Some? ==>
      && r.value < |cs| && HasBoth(cs[r.value], a, b)
      && forall k :: 0 <= k < r.value ==> !HasBoth(cs[k], a, b)
    ensures r.None? ==> forall k :: 0 <= k < |cs| ==> !HasBoth(cs[k], a, b)
  {
    if cs == [] then None
    else if HasBoth(cs[0], a, b) then Some(0)
    else match FirstWithBoth(cs[1..], a, b)
      case None => None
      case Some(k) => Some(k + 1)
  }

  /** With ids increasing along the table, the first match is the one with
      the lowest id. */
  lemma FirstWithBothLowest(cs: seq<Conversation>, a: nat, b: nat)
    requires ConversationIdsIncreasing(cs) && FirstWithBoth(cs, a, b).Some?
    ensures forall c :: c in cs && HasBoth(c, a, b) ==> cs[FirstWithBoth(cs, a, b).value].id <= c.id
  {
    var k := FirstWithBoth(cs, a, b).value;
    forall c | c in cs && HasBoth(c, a, b) ensures cs[k].id <= c.id {
      var j :| 0 <= j < |cs| && cs[j] == c;
      assert k <= j;
    }
  }

  /** `start_conversation_view(request, user_id=other)`: 404 for an unknown
      user, back to the list for oneself, else the existing conversation of
      the two or a new one whose participants are exactly the two. */
  method StartConversation(db: ChatStore, userIds: set<nat>, actor: nat, other: nat, now: int)
    returns (resp: ChatResponse)
    requires db.Valid()
    modifies db
    ensures db.Valid()
    ensures other !in userIds ==> resp == Failed(NotFound)
    ensures other in userIds && other == actor ==> resp == RedirectConversationList
    ensures other !in userIds || other == actor || FirstWithBoth(old(db.conversations), actor, other).Some? ==>
      db.conversations == old(db.conversations) && db.nextConversationId == old(db.nextConversationId)
    ensures other in userIds && other != actor && FirstWithBoth(old(db.conversations), actor, other).Some? ==>
      resp == RedirectConversationDetail(old(db.conversations)[FirstWithBoth(old(db.conversations), actor, other).value].id)
    ensures other in userIds && other != actor && FirstWithBoth(old(db.conversations), actor, other).None? ==>
      && db.conversations == old(db.conversations) +
           [Conversation(old(db.nextConversationId), DefaultConversationType, None, None, {actor, other}, now, None)]
      && db.nextConversationId == old(db.nextConversationId) + 1
      && resp == RedirectConversationDetail(old(db.nextConversationId))
    ensures db.messages == old(db.messages) && db.nextMessageId == old(db.nextMessageId)
  {
    if other !in userIds {
      return Failed(NotFound);
    }
    if other == actor {
      return RedirectConversationList;
    }
    var found := FirstWithBoth(db.conversations, actor, other);
    if found.Some? {
      return RedirectConversationDetail(db.conversations[found.value].id);
    }
    var conversation := db.CreateConversation({actor, other}, now);
    return RedirectConversationDetail(conversation.id);
  }

  /** The conversation `id` if `actor` takes part in it: the lookup of
      `get_object_or_404(Conversation, id=..., participants=request.user)`. */
  function ParticipantConversation(cs: seq<Conversation>, id: nat, actor: nat): (r: Option<nat>)
    ensures r.Some? ==> r.value < |cs| && cs[r.value].id == id && actor in cs[r.value].participants
    ensures ConversationIdsIncreasing(cs) ==> (r.Some? <==> exists c :: c in cs && c.id == id && actor in c.participants)
  {
    match ConversationIndex(cs, id)
    case None => None
    case Some(k) =>
      if actor in cs[k].participants then Some(k)
      else
        assert forall c :: c in cs && c.id == id && ConversationIdsIncreasing(cs) ==> c == cs[k] by {
          forall c | c in cs && c.id == id && ConversationIdsIncreasing(cs) ensures c == cs[k] {
            var j :| 0 <= j < |cs| && cs[j] == c;
            assert !(j < k) && !(k < j);
          }
        }
        None
  }

  /** `send_message_api`: only a POST from a participant with a valid form
      stores a message. `MessageForm` strips the text and requires it to be
      non-empty. The new message is from the actor, becomes the
      conversation's `last_message`, and `updated_at` moves to `now`. */
  method SendMessage(db: ChatStore, actor: nat, isPost: bool, conversationId: nat, text: string, now: int)
    returns (resp: ChatResponse)
    requires db.Valid()
    modifies db
    ensures db.Valid()
    ensures !isPost ==> resp == Failed(BadRequest)
    ensures isPost && ParticipantConversation(old(db.conversations), conversationId, actor).None? ==> resp == Failed(NotFound)
    ensures isPost && ParticipantConversation(old(db.conversations), conversationId, actor).Some? && Strip(text) == [] ==>
      resp == Failed(BadRequest)
    ensures !resp.SentJson? ==>
      db.conversations == old(db.conversations) && db.messages == old(db.messages)
      && db.nextMessageId == old(db.nextMessageId)
    ensures resp.SentJson? ==>
      isPost && ParticipantConversation(old(db.conversations), conversationId, actor).Some? && Strip(text) != []
      && var k := ParticipantConversation(old(db.conversations), conversationId, actor).value;
         var m := Message(old(db.nextMessageId), conversationId, actor, Strip(text), now);
         && db.messages == old(db.messages) + [m]
         && db.nextMessageId == old(db.nextMessageId) + 1
         && db.conversations == old(db.conversations)[k := old(db.conversations)[k].(lastMessage := Some(m.id), updatedAt := now)]
         && resp == SentJson(m.id, actor, m.text, now)
    ensures db.nextConversationId == old(db.nextConversationId)
  {
    if !isPost {
      return Failed(BadRequest);
    }
    var found := ParticipantConversation(db.conversations, conversationId, actor);
    if found.None? {
      return Failed(NotFound);
    }
    var k := found.value;
    var cleaned := Strip(text);
    if cleaned == [] {
      return Failed(BadRequest);
    }
    var conversation := db.conversations[k];
    assert conversation.id in ConversationIds(db.conversations);
    var message := db.CreateMessage(conversation.id, actor, cleaned, now);
    assert message.id in MessageIds(db.messages);
    db.SaveConversation(k, conversation.(lastMessage := Some(message.id), updatedAt := now));
    return SentJson(message.id, message.sender, message.text, message.timestamp);
  }

  /** `delete_message_api`: only a POST for an existing message by its own
      sender deletes it; anyone else gets 403 and the message stays. */
  method DeleteMessage(db: ChatStore, actor: nat, isPost: bool, messageId: nat) returns (resp: ChatResponse)
    requires db.Valid()
    modifies db
    ensures db.Valid()
    ensures !isPost ==> resp == Failed(BadRequest)
    ensures isPost && FindMessage(old(db.messages), messageId).None? ==> resp == Failed(NotFound)
    ensures isPost && FindMessage(old(db.messages), messageId).Some? ==>
      if FindMessage(old(db.messages), messageId).value.sender != actor then resp == Failed(Forbidden)
      else resp == DeletedJson(messageId)
    ensures resp.DeletedJson? ==>
      db.messages == WithoutMessage(old(db.messages), messageId)
      && db.conversations == ClearLastMessage(old(db.conversations), messageId)
    ensures !resp.DeletedJson? ==> db.messages == old(db.messages) && db.conversations == old(db.conversations)
    ensures db.nextConversationId == old(db.nextConversationId) && db.nextMessageId == old(db.nextMessageId)
  {
    if !isPost {
      return Failed(BadRequest);
    }
    var message := FindMessage(db.messages, messageId);
    if message.None? {
      return Failed(NotFound);
    }
    if message.value.sender != actor {
      return Failed(Forbidden);
    }
    db.DeleteMessage(messageId);
    return DeletedJson(messageId);
  }

  /** `data.get('text', '')` for an object body. */
  function TextOf(body: JsonBody): string
    requires body.JsonObject?
  {
    match body.text
    case None => ""
    case Some(t) => t
  }

  /** `edit_message_api`: only the sender may edit (checked before the body
      is read); a body that is not JSON is 400, one that is not an object
      fails in `data.get`; empty text is 400 and leaves the message as it
      was; any other text replaces the old text as sent. */
  method EditMessage(db: ChatStore, actor: nat, isPost: bool, messageId: nat, body: JsonBody) returns (resp: ChatResponse)
    requires db.Valid()
    modifies db
    ensures db.Valid()
    ensures !isPost ==> resp == Failed(BadRequest)
    ensures isPost && MessageIndex(old(db.messages), messageId).None? ==> resp == Failed(NotFound)
    ensures isPost && MessageIndex(old(db.messages), messageId).Some? ==>
      var k := MessageIndex(old(db.messages), messageId).value;
      if old(db.messages)[k].sender != actor then resp == Failed(Forbidden)
      else if body.InvalidJson? then resp == Failed(BadRequest)
      else if body.JsonNotObject? then resp == Failed(ServerError)
      else if TextOf(body) == [] then resp == Failed(BadRequest)
      else resp == EditedJson(messageId, TextOf(body))
           && db.messages == old(db.messages)[k := old(db.messages)[k].(text := TextOf(body))]
    ensures !resp.EditedJson? ==> db.messages == old(db.messages)
    ensures db.conversations == old(db.conversations)
    ensures db.nextConversationId == old(db.nextConversationId) && db.nextMessageId == old(db.nextMessageId)
  {
    if !isPost {
      return Failed(BadRequest);
    }
    var found := MessageIndex(db.messages, messageId);
    if found.None? {
      return Failed(NotFound);
    }
    var k := found.value;
    var message := db.messages[k];
    if message.sender != actor {
      return Failed(Forbidden);
    }
    if body.InvalidJson? {
      return Failed(BadRequest);
    }
    if body.JsonNotObject? {
      return Failed(ServerError);
    }
    var newText := TextOf(body);
    if newText != [] {
      db.SaveMessage(k, message.(text := newText));
      return EditedJson(messageId, newText);
    }
    return Failed(BadRequest);
  }

  // ------------------------------------------------ recent conversations

  const RecentLimit: nat := 10

  /** The prefix `api_get_conversations` puts before the viewer's own last message. */
  const OwnPrefix: string := "Bạn: "

  datatype ConversationSummary = ConversationSummary(conversationId: nat, otherParticipant: nat, lastMessage: string)

  function UpdatedKey(c: Conversation): int { c.updatedAt }

  function MineFilter(actor: nat): Conversation -> bool
  {
    (c: Conversation) => actor in c.participants
  }

  /** `request.user.conversations.order_by('-updated_at')[:10]`. */
  function RecentConversations(cs: seq<Conversation>, actor: nat): seq<Conversation>
  {
    Take(SortDesc(Filter(cs, MineFilter(actor)), UpdatedKey), RecentLimit)
  }

  /** Every last-message reference names a stored message (the foreign key). */
  ghost predicate LastMessagesResolve(cs: seq<Conversation>, ms: seq<Message>)
  {
    forall c :: c in cs && c.lastMessage.Some? ==> c.lastMessage.value in MessageIds(ms)
  }

  /** The preview text of lines 149-152. */
  function Preview(c: Conversation, ms: seq<Message>, actor: nat): string
  {
    match c.lastMessage
    case None => ""
    case Some(id) =>
      match FindMessage(ms, id)
      case None => ""
      case Some(m) => (if m.sender == actor then OwnPrefix else "") + m.text
  }

  function HasOther(actor: nat): Conversation -> bool
  {
    (c: Conversation) => c.participants - {actor} != {}
  }

  /** One loop iteration's entry; the other participant is the one with the
      lowest id (`.first()` on the participant set). */
  function SummaryOf(c: Conversation, ms: seq<Message>, actor: nat): ConversationSummary
    requires c.participants - {actor} != {}
  {
    ConversationSummary(c.id, MinOf(c.participants - {actor}), Preview(c, ms, actor))
  }

  /** The loop of lines 143-163 over `top`, as a value. */
  function Summaries(top: seq<Conversation>, ms: seq<Message>, actor: nat): seq<ConversationSummary>
  {
    if top == [] then []
    else
      var prev := Summaries(top[..|top| - 1], ms, actor);
      var c := top[|top| - 1];
      if c.participants - {actor} != {} then prev + [SummaryOf(c, ms, actor)] else prev
  }

  lemma {:induction false} SummariesFollowFilter(top: seq<Conversation>, ms: seq<Message>, actor: nat)
    ensures |Summaries(top, ms, actor)| == |Filter(top, HasOther(actor))|
    ensures forall i :: 0 <= i < |Summaries(top, ms, actor)| ==>
      Filter(top, HasOther(actor))[i].participants - {actor} != {} &&
      Summaries(top, ms, actor)[i] == SummaryOf(Filter(top, HasOther(actor))[i], ms, actor)
  {
    if top != [] {
      var init := top[..|top| - 1];
      var c := top[|top| - 1];
      SummariesFollowFilter(init, ms, actor);
      assert top == init + [c];
      FilterAppend(init, [c], HasOther(actor));
      assert [c][1..] == [];
    }
  }

  /** `api_get_conversations`. */
  method GetConversations(cs: seq<Conversation>, ms: seq<Message>, actor: nat) returns (data: seq<ConversationSummary>)
    ensures data == Summaries(RecentConversations(cs, actor), ms, actor)
  {
    var conversations := RecentConversations(cs, actor);
    data := [];
    for i := 0 to |conversations|
      invariant data == Summaries(conversations[..i], ms, actor)
    {
      var conv := conversations[i];
      assert conversations[..i + 1][..i] == conversations[..i];
      var others := conv.participants - {actor};
      if others == {} {
        continue;
      }
      var otherParticipant := MinOf(others);
      var lastMessageText := "";
      if conv.lastMessage.Some? {
        var m := FindMessage(ms, conv.lastMessage.value);
        if m.Some? {
          var senderPrefix := if m.value.sender == actor then OwnPrefix else "";
          lastMessageText := senderPrefix + m.value.text;
        }
      }
      data := data + [ConversationSummary(conv.id, otherParticipant, lastMessageText)];
    }
    assert conversations[..|conversations|] == conversations;
  }

  /** The recent list: at most ten entries, one per conversation of the
      viewer that has another participant, taken from the viewer's ten most
      recently updated conversations in that order; the other participant is a real other member;
      the preview is empty without a last message and otherwise is the text,
      prefixed with "Bạn: " exactly when the viewer sent it. */
  lemma GetConversationsSpec(cs: seq<Conversation>, ms: seq<Message>, actor: nat)
    requires LastMessagesResolve(cs, ms)
    ensures |Summaries(RecentConversations(cs, actor), ms, actor)| <= RecentLimit
    ensures forall c :: c in cs && actor in c.participants && c !in RecentConversations(cs, actor) ==>
      && |RecentConversations(cs, actor)| == RecentLimit
      && forall d :: d in RecentConversations(cs, actor) ==> d.updatedAt >= c.updatedAt
    ensures var listed := Filter(RecentConversations(cs, actor), HasOther(actor));
      && |Summaries(RecentConversations(cs, actor), ms, actor)| == |listed|
      && SortedDesc(listed, UpdatedKey)
      && forall i :: 0 <= i < |listed| ==>
           var s := Summaries(RecentConversations(cs, actor), ms, actor)[i];
           && listed[i] in cs && actor in listed[i].participants
           && s.conversationId == listed[i].id
           && s.otherParticipant in listed[i].participants && s.otherParticipant != actor
           && (listed[i].lastMessage.None? ==> s.lastMessage == "")
           && (listed[i].lastMessage.Some? ==>
                 exists m :: m in ms && m.id == listed[i].lastMessage.value &&
                   s.lastMessage == (if m.sender == actor then OwnPrefix + m.text else m.text))
  {
    RecentConversationsTop(cs, actor);
    var mine := Filter(cs, MineFilter(actor));
    var sorted := SortDesc(mine, UpdatedKey);
    var top := RecentConversations(cs, actor);
    var listed := Filter(top, HasOther(actor));
    SummariesFollowFilter(top, ms, actor);
    SortDescSorted(mine, UpdatedKey);
    TakeSorted(sorted, UpdatedKey, RecentLimit);
    FilterSorted(top, HasOther(actor), UpdatedKey);
    forall i | 0 <= i < |listed|
      ensures listed[i] in cs && actor in listed[i].participants
      ensures listed[i].lastMessage.Some? ==>
        exists m :: m in ms && m.id == listed[i].lastMessage.value &&
          Summaries(top, ms, actor)[i].lastMessage == (if m.sender == actor then OwnPrefix + m.text else m.text)
    {
      var c := listed[i];
      assert c in top;
      assert c in multiset(sorted);
      assert c in mine;
      if c.lastMessage.Some? {
        assert c.lastMessage.value in MessageIds(ms);
        var m := FindMessage(ms, c.lastMessage.value).value;
        assert m in ms && m.id == c.lastMessage.value;
      }
    }
  }

  /** The query reads the viewer's ten most recently updated conversations:
      one of theirs that it leaves out was updated no later than any it keeps. */
  lemma RecentConversationsTop(cs: seq<Conversation>, actor: nat)
    ensures forall c :: c in cs && actor in c.participants && c !in RecentConversations(cs, actor) ==>
      && |RecentConversations(cs, actor)| == RecentLimit
      && forall d :: d in RecentConversations(cs, actor) ==> d.updatedAt >= c.updatedAt
  {
    forall c | c in cs && actor in c.participants && c !in RecentConversations(cs, actor)
      ensures |RecentConversations(cs, actor)| == RecentLimit
      ensures forall d :: d in RecentConversations(cs, actor) ==> d.updatedAt >= c.updatedAt
    {
      FilterSortTakeTop(cs, MineFilter(actor), UpdatedKey, RecentLimit, c);
    }
  }

  // ------------------------------------------------------- user search

  const SearchLimit: nat := 10

  datatype UserHit = UserHit(userId: nat, username: string, fullName: string)

  /** `get_full_name()`: first and last name joined by a space, stripped. */
  function FullName(u: User): string
  {
    Strip(u.firstName + " " + u.lastName)
  }

  /** The `Q(...) | Q(...) | Q(...)` of lines 177-181, without the searcher. */
  function SearchFilter(query: string, actor: nat): User -> bool
  {
    (u: User) => (IContains(u.username, query) || IContains(u.firstName, query) || IContains(u.lastName, query))
                 && u.id != actor
  }

  /** The users the query set yields: at most ten, in table order. */
  function SearchMatches(users: seq<User>, actor: nat, q: string): seq<User>
  {
    var query := Strip(q);
    if query == [] then [] else Take(Filter(users, SearchFilter(query, actor)), SearchLimit)
  }

  /** One entry of the `data` list: `get_full_name() or username`. */
  function HitOf(u: User): UserHit
  {
    UserHit(u.id, u.username, if FullName(u) != [] then FullName(u) else u.username)
  }

  /** The `data` list built from the users found. */
  function Hits(us: seq<User>): seq<UserHit>
  {
    if us == [] then [] else Hits(us[..|us| - 1]) + [HitOf(us[|us| - 1])]
  }

  lemma {:induction false} HitsPointwise(us: seq<User>)
    ensures |Hits(us)| == |us|
    ensures forall i :: 0 <= i < |us| ==> Hits(us)[i] == HitOf(us[i])
  {
    if us != [] {
      var init := us[..|us| - 1];
      HitsPointwise(init);
      forall i | 0 <= i < |us| ensures Hits(us)[i] == HitOf(us[i]) {
        if i < |init| {
          assert Hits(us)[i] == Hits(init)[i];
          assert us[i] == init[i];
        }
      }
    }
  }

  /** `api_search_users` with the `q` parameter (empty when absent). */
  method SearchUsers(users: seq<User>, actor: nat, q: string) returns (data: seq<UserHit>)
    ensures data == Hits(SearchMatches(users, actor, q))
  {
    var query := Strip(q);
    if query == [] {
      return [];
    }
    var found := Take(Filter(users, SearchFilter(query, actor)), SearchLimit);
    data := [];
    for i := 0 to |found|
      invariant data == Hits(found[..i])
    {
      var user := found[i];
      assert found[..i + 1][..i] == found[..i];
      data := data + [HitOf(user)];
    }
    assert found[..|found|] == found;
  }

  /** A blank query finds nobody. Otherwise every hit is another user whose
      username, first or last name contains the stripped query ignoring
      case; there are at most ten, and if one such user is missing the list
      is full. The display name falls back to the username. */
  lemma SearchUsersSpec(users: seq<User>, actor: nat, q: string)
    ensures Strip(q) == [] ==> SearchMatches(users, actor, q) == []
    ensures |SearchMatches(users, actor, q)| <= SearchLimit
    ensures forall u :: u in SearchMatches(users, actor, q) ==>
      u in users && u.id != actor &&
      (IContains(u.username, Strip(q)) || IContains(u.firstName, Strip(q)) || IContains(u.lastName, Strip(q)))
    ensures forall u ::
      (&& u in users && u.id != actor && Strip(q) != []
       && (IContains(u.username, Strip(q)) || IContains(u.firstName, Strip(q)) || IContains(u.lastName, Strip(q)))
       && u !in SearchMatches(users, actor, q))
      ==> |SearchMatches(users, actor, q)| == SearchLimit
    ensures |Hits(SearchMatches(users, actor, q))| == |SearchMatches(users, actor, q)|
    ensures forall i :: 0 <= i < |SearchMatches(users, actor, q)| ==>
      Hits(SearchMatches(users, actor, q))[i].userId == SearchMatches(users, actor, q)[i].id
    ensures forall u: User :: u.username != [] ==> HitOf(u).fullName != []
  {
    HitsPointwise(SearchMatches(users, actor, q));
    var query := Strip(q);
    if query != [] {
      var matching := Filter(users, SearchFilter(query, actor));
      forall u | u in SearchMatches(users, actor, q)
        ensures u in users && SearchFilter(query, actor)(u)
      {
        assert u in matching;
      }
      forall u | u in users && SearchFilter(query, actor)(u) && u !in SearchMatches(users, actor, q)
        ensures |SearchMatches(users, actor, q)| == SearchLimit
      {
        FilterKeeps(users, SearchFilter(query, actor), u);
      }
    }
  }
}
