/** accounts/context_processors.py: the friends sidebar and the
    mutual-friend suggestions shown on every page. */
module AccountsContext {
  import opened Base
  import opened AccountsModels

  datatype Suggestion = Suggestion(user: User, mutualCount: nat)

  datatype SidebarContext = SidebarContext(sidebarFriends: seq<User>, suggestions: seq<Suggestion>)

  const SidebarSize: nat := 7
  const CandidatePool: nat := 20
  const SuggestionLimit: nat := 3

  /** Users the viewer has sent a still-pending request to (lines 51-54). */
  function SentRequestIds(edges: seq<Friendship>, u: nat): set<nat>
  {
    set e | e in edges && e.fromUser == u && e.status == Pending :: e.toUser
  }

  /** Lines 57-58: friends, pending outgoing requests, and the viewer. */
  function ExcludedIds(edges: seq<Friendship>, u: nat): set<nat>
  {
    FriendsOf(edges, u) + SentRequestIds(edges, u) + {u}
  }

  predicate IsCandidate(x: User, exclude: set<nat>)
  {
    x.id !in exclude && !x.isSuperuser
  }

  /** Line 63, with `order_by('?')` supplied as the shuffled user table. */
  function CandidatesExcluding(shuffled: seq<User>, exclude: set<nat>): (r: seq<User>)
    ensures |r| <= CandidatePool
    ensures forall x :: x in r ==> x in shuffled && IsCandidate(x, exclude)
  {
    Take(Filter(shuffled, (x: User) => IsCandidate(x, exclude)), CandidatePool)
  }

  function MutualCount(edges: seq<Friendship>, mine: set<nat>, x: nat): nat
  {
    |mine * FriendsOf(edges, x)|
  }

  /** The loop of lines 66-87: every candidate with at least one mutual friend,
      in candidate order, with that count. */
  function WithMutualFriends(candidates: seq<User>, mine: set<nat>, edges: seq<Friendship>): (r: seq<Suggestion>)
    ensures |r| <= |candidates|
    ensures forall s :: s in r ==>
      s.user in candidates && s.mutualCount == MutualCount(edges, mine, s.user.id) && s.mutualCount > 0
    ensures forall x :: x in candidates && MutualCount(edges, mine, x.id) > 0 ==>
      Suggestion(x, MutualCount(edges, mine, x.id)) in r
  {
    if candidates == [] then []
    else
      var init := candidates[..|candidates| - 1];
      var prev := WithMutualFriends(init, mine, edges);
      var x := candidates[|candidates| - 1];
      var c := MutualCount(edges, mine, x.id);
      assert candidates == init + [x];
      if c > 0 then prev + [Suggestion(x, c)] else prev
  }

  function MutualKey(s: Suggestion): int { s.mutualCount }

  /** Lines 45-92 as one value: sort by mutual count, highest first, keep three. */
  function SuggestionsFor(shuffled: seq<User>, edges: seq<Friendship>, u: nat): seq<Suggestion>
  {
    var candidates := CandidatesExcluding(shuffled, ExcludedIds(edges, u));
    Take(SortDesc(WithMutualFriends(candidates, FriendsOf(edges, u), edges), MutualKey), SuggestionLimit)
  }

  /** What a suggestion can and cannot be. */
  lemma SuggestionsSound(shuffled: seq<User>, edges: seq<Friendship>, u: nat)
    ensures |SuggestionsFor(shuffled, edges, u)| <= SuggestionLimit
    ensures SortedDesc(SuggestionsFor(shuffled, edges, u), MutualKey)
    ensures forall s :: s in SuggestionsFor(shuffled, edges, u) ==>
      && s.user in CandidatesExcluding(shuffled, ExcludedIds(edges, u))
      && s.user in shuffled
      && s.user.id != u
      && s.user.id !in FriendsOf(edges, u)
      && s.user.id !in SentRequestIds(edges, u)
      && !s.user.isSuperuser
      && s.mutualCount == |FriendsOf(edges, u) * FriendsOf(edges, s.user.id)|
      && s.mutualCount > 0
    ensures forall x ::
      (&& x in CandidatesExcluding(shuffled, ExcludedIds(edges, u))
       && MutualCount(edges, FriendsOf(edges, u), x.id) > 0
       && Suggestion(x, MutualCount(edges, FriendsOf(edges, u), x.id)) !in SuggestionsFor(shuffled, edges, u))
      ==> && |SuggestionsFor(shuffled, edges, u)| == SuggestionLimit
          && forall s :: s in SuggestionsFor(shuffled, edges, u) ==> s.mutualCount >= MutualCount(edges, FriendsOf(edges, u), x.id)
  {
    SuggestionsTop(shuffled, edges, u);
    var candidates := CandidatesExcluding(shuffled, ExcludedIds(edges, u));
    var w := WithMutualFriends(candidates, FriendsOf(edges, u), edges);
    var sorted := SortDesc(w, MutualKey);
    SortDescSorted(w, MutualKey);
    TakeSorted(sorted, MutualKey, SuggestionLimit);
    forall s | s in SuggestionsFor(shuffled, edges, u) ensures s in w {
      assert s in sorted;
      assert s in multiset(sorted);
    }
  }

  /** Top three: a candidate with a mutual friend that is not suggested is
      outranked by each of three suggestions. */
  lemma SuggestionsTop(shuffled: seq<User>, edges: seq<Friendship>, u: nat)
    ensures forall x ::
      (&& x in CandidatesExcluding(shuffled, ExcludedIds(edges, u))
       && MutualCount(edges, FriendsOf(edges, u), x.id) > 0
       && Suggestion(x, MutualCount(edges, FriendsOf(edges, u), x.id)) !in SuggestionsFor(shuffled, edges, u))
      ==> && |SuggestionsFor(shuffled, edges, u)| == SuggestionLimit
          && forall s :: s in SuggestionsFor(shuffled, edges, u) ==> s.mutualCount >= MutualCount(edges, FriendsOf(edges, u), x.id)
  {
    var candidates := CandidatesExcluding(shuffled, ExcludedIds(edges, u));
    var mine := FriendsOf(edges, u);
    var w := WithMutualFriends(candidates, mine, edges);
    forall x | x in candidates && MutualCount(edges, mine, x.id) > 0 &&
      Suggestion(x, MutualCount(edges, mine, x.id)) !in SuggestionsFor(shuffled, edges, u)
      ensures |SuggestionsFor(shuffled, edges, u)| == SuggestionLimit
      ensures forall s :: s in SuggestionsFor(shuffled, edges, u) ==> s.mutualCount >= MutualCount(edges, mine, x.id)
    {
      SortTakeTop(w, MutualKey, SuggestionLimit, Suggestion(x, MutualCount(edges, mine, x.id)));
    }
  }

  /** Someone who sent the viewer a request that is still pending is not
      excluded on that account: adding such an edge leaves the exclusion set
      as it was. */
  lemma IncomingRequestNotExcluded(edges: seq<Friendship>, e: Friendship, u: nat)
    requires e.toUser == u && e.fromUser != u && e.status == Pending
    ensures ExcludedIds(edges + [e], u) == ExcludedIds(edges, u)
  {
    PendingAddsNoFriend(edges, e, [], u);
    assert edges + [e] + [] == edges + [e];
    assert edges + [] == edges;
    assert SentRequestIds(edges + [e], u) == SentRequestIds(edges, u) by {
      forall y | y in SentRequestIds(edges + [e], u) ensures y in SentRequestIds(edges, u) {
        var f :| f in edges + [e] && f.fromUser == u && f.status == Pending && f.toUser == y;
        assert f != e;
        assert f in edges;
      }
    }
  }

  /** The candidate loop of lines 66-87. */
  method CollectSuggestions(candidates: seq<User>, myFriendIds: set<nat>, edges: seq<Friendship>)
    returns (suggestions: seq<Suggestion>)
    ensures suggestions == WithMutualFriends(candidates, myFriendIds, edges)
  {
    suggestions := [];
    for i := 0 to |candidates|
      invariant suggestions == WithMutualFriends(candidates[..i], myFriendIds, edges)
    {
      var stranger := candidates[i];
      assert candidates[..i + 1][..i] == candidates[..i];
      var strangerFriendIds := CollectFriendIds(edges, stranger.id);
      var mutualFriendsCount := |myFriendIds * strangerFriendIds|;
      if mutualFriendsCount > 0 {
        suggestions := suggestions + [Suggestion(stranger, mutualFriendsCount)];
      }
    }
    assert candidates[..|candidates|] == candidates;
  }

  /** A suggestion the sidebar may show to user `u`. */
  ghost predicate Suggestible(s: Suggestion, users: seq<User>, edges: seq<Friendship>, u: nat)
  {
    && s.user in users
    && s.user.id != u
    && s.user.id !in FriendsOf(edges, u)
    && s.user.id !in SentRequestIds(edges, u)
    && !s.user.isSuperuser
    && s.mutualCount == |FriendsOf(edges, u) * FriendsOf(edges, s.user.id)|
    && s.mutualCount > 0
  }

  /** `friends_sidebar_processor`. `current` is None for an anonymous
      request; `shuffledFriends` and `shuffledUsers` are the user table in the
      two random orders that `order_by('?')` produces. */
  method FriendsSidebar(
    current: Option<User>, users: seq<User>, edges: seq<Friendship>,
    shuffledFriends: seq<User>, shuffledUsers: seq<User>)
    returns (ctx: Option<SidebarContext>)
    requires multiset(shuffledFriends) == multiset(users)
    requires multiset(shuffledUsers) == multiset(users)
    ensures ctx.None? <==> current.None?
    ensures ctx.Some? ==>
      && ctx.value.sidebarFriends == Take(UsersWithIds(shuffledFriends, FriendsOf(edges, current.value.id)), SidebarSize)
      && ctx.value.suggestions == SuggestionsFor(shuffledUsers, edges, current.value.id)
    ensures ctx.Some? ==>
      && |ctx.value.sidebarFriends| <= SidebarSize
      && forall f :: f in ctx.value.sidebarFriends ==> f in users && f.id in FriendsOf(edges, current.value.id)
    ensures ctx.Some? ==>
      && |ctx.value.suggestions| <= SuggestionLimit
      && SortedDesc(ctx.value.suggestions, MutualKey)
      && forall s :: s in ctx.value.suggestions ==> Suggestible(s, users, edges, current.value.id)
  {
    if current.None? {
      return None;
    }
    var me := current.value;
    var myFriendIds := CollectFriendIds(edges, me.id);
    var sidebar := Take(UsersWithIds(shuffledFriends, myFriendIds), SidebarSize);
    forall f | f in sidebar ensures f in users {
      assert f in multiset(shuffledFriends);
    }

    var sentRequestIds := SentRequestIds(edges, me.id);
    var excludeIds := myFriendIds + sentRequestIds;
    excludeIds := excludeIds + {me.id};
    var candidates := CandidatesExcluding(shuffledUsers, excludeIds);

    var suggestions := CollectSuggestions(candidates, myFriendIds, edges);
    suggestions := SortDesc(suggestions, MutualKey);
    ctx := Some(SidebarContext(sidebar, Take(suggestions, SuggestionLimit)));

    SuggestionsSound(shuffledUsers, edges, me.id);
    forall s | s in ctx.value.suggestions ensures Suggestible(s, users, edges, me.id) {
      assert s.user in multiset(shuffledUsers);
    }
  }
}
