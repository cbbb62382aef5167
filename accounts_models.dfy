/** accounts/models.py: users, friendship edges and the friend set. */
module AccountsModels {
  import opened Base

  /** The fields of the custom user model that the core reads. Profile media
      and the password hash are not part of this model. */
  datatype User = User(
    id: nat,
    username: string,
    email: string,
    firstName: string,
    lastName: string,
    isSuperuser: bool,
    isActive: bool,
    dateJoined: int)

  datatype FriendshipStatus = Pending | Accepted

  /** The `default=` of the status field: a new edge is a pending request. */
  const DefaultFriendshipStatus: FriendshipStatus := Pending

  /** A directed edge: `fromUser` asked `toUser`. */
  datatype Friendship = Friendship(
    id: nat,
    fromUser: nat,
    toUser: nat,
    status: FriendshipStatus,
    createdAt: int)

  /** `unique_together = ('from_user', 'to_user')`: at most one edge per
      ORDERED pair. The reverse pair is a different key. */
  ghost predicate UniquePairs(edges: seq<Friendship>)
  {
    forall i, j :: 0 <= i < |edges| && 0 <= j < |edges| && i != j ==>
      (edges[i].fromUser, edges[i].toUser) != (edges[j].fromUser, edges[j].toUser)
  }

  /** Adding an edge for a new ordered pair keeps the pairs unique, and the
      reverse of an existing edge is such a pair: the constraint lets `a`
      ask `b` while `b` has already asked `a`. */
  lemma UniquePairsAdd(edges: seq<Friendship>, e: Friendship)
    requires UniquePairs(edges)
    requires forall f :: f in edges ==> (f.fromUser, f.toUser) != (e.fromUser, e.toUser)
    ensures UniquePairs(edges + [e])
    ensures e.fromUser != e.toUser ==>
      UniquePairs([e, Friendship(e.id + 1, e.toUser, e.fromUser, DefaultFriendshipStatus, e.createdAt)])
  {
    var all := edges + [e];
    forall i, j | 0 <= i < |all| && 0 <= j < |all| && i != j
      ensures (all[i].fromUser, all[i].toUser) != (all[j].fromUser, all[j].toUser)
    {
      if i == |edges| {
        assert all[j] in edges;
      } else if j == |edges| {
        assert all[i] in edges;
      }
    }
  }

  /** `id` is the primary key of the user table. */
  ghost predicate UserIdsUnique(users: seq<User>)
  {
    forall i, j :: 0 <= i < |users| && 0 <= j < |users| && users[i].id == users[j].id ==> i == j
  }

  function FindUser(users: seq<User>, id: nat): (r: Option<User>)
    ensures r.Some? ==> r.value in users && r.value.id == id
    ensures r.None? ==> forall u :: u in users ==> u.id != id
  {
    if users == [] then None
    else if users[0].id == id then Some(users[0])
    else FindUser(users[1..], id)
  }

  /** Whether `e` is an accepted edge with `u` at either end. */
  predicate AcceptedWith(e: Friendship, u: nat)
  {
    (e.fromUser == u || e.toUser == u) && e.status == Accepted
  }

  /** The end of `e` that is not `u` (line 44's conditional). */
  function OtherEnd(e: Friendship, u: nat): nat
  {
    if e.fromUser == u then e.toUser else e.fromUser
  }

  /** The ids that `get_friends(u)` collects. */
  function FriendsOf(edges: seq<Friendship>, u: nat): set<nat>
  {
    set e | e in edges && AcceptedWith(e, u) :: OtherEnd(e, u)
  }

  ghost predicate AcceptedEdge(edges: seq<Friendship>, a: nat, b: nat)
  {
    exists e :: e in edges && e.status == Accepted && e.fromUser == a && e.toUser == b
  }

  /** x is a friend of u exactly when an accepted edge joins them in either
      direction. */
  lemma FriendsIff(edges: seq<Friendship>, u: nat, x: nat)
    ensures x in FriendsOf(edges, u) <==> AcceptedEdge(edges, u, x) || AcceptedEdge(edges, x, u)
  {
    if AcceptedEdge(edges, u, x) {
      var e :| e in edges && e.status == Accepted && e.fromUser == u && e.toUser == x;
      assert OtherEnd(e, u) == x;
    } else if AcceptedEdge(edges, x, u) {
      var e :| e in edges && e.status == Accepted && e.fromUser == x && e.toUser == u;
      assert OtherEnd(e, u) == x;
    }
  }

  /** Friendship is symmetric although the edges are directed. */
  lemma FriendsSymmetric(edges: seq<Friendship>, a: nat, b: nat)
    ensures b in FriendsOf(edges, a) <==> a in FriendsOf(edges, b)
  {
    FriendsIff(edges, a, b);
    FriendsIff(edges, b, a);
  }

  /** A pending edge, wherever it sits in the table, contributes no friend. */
  lemma PendingAddsNoFriend(before: seq<Friendship>, e: Friendship, after: seq<Friendship>, u: nat)
    requires e.status == Pending
    ensures FriendsOf(before + [e] + after, u) == FriendsOf(before + after, u)
  {
    var all, rest := before + [e] + after, before + after;
    forall x | x in FriendsOf(all, u) ensures x in FriendsOf(rest, u) {
      var f :| f in all && AcceptedWith(f, u) && OtherEnd(f, u) == x;
      assert f in rest;
    }
    forall x | x in FriendsOf(rest, u) ensures x in FriendsOf(all, u) {
      var f :| f in rest && AcceptedWith(f, u) && OtherEnd(f, u) == x;
      assert f in all;
    }
  }

  /** The loop of lines 43-44: one id per accepted edge of u. */
  method CollectFriendIds(edges: seq<Friendship>, u: nat) returns (friendIds: set<nat>)
    ensures friendIds == FriendsOf(edges, u)
  {
    var friendships := Filter(edges, (e: Friendship) => AcceptedWith(e, u));
    friendIds := {};
    for i := 0 to |friendships|
      invariant friendIds == set e | e in friendships[..i] :: OtherEnd(e, u)
    {
      var f := friendships[i];
      assert friendships[..i + 1] == friendships[..i] + [f];
      ghost var step := set e | e in friendships[..i + 1] :: OtherEnd(e, u);
      assert step == friendIds + {OtherEnd(f, u)} by {
        forall y | y in step ensures y in friendIds + {OtherEnd(f, u)} {
          var e :| e in friendships[..i + 1] && OtherEnd(e, u) == y;
          if e != f {
            assert e in friendships[..i];
          }
        }
      }
      friendIds := friendIds + {if f.fromUser == u then f.toUser else f.fromUser};
    }
    assert friendships[..|friendships|] == friendships;
    forall x | x in FriendsOf(edges, u) ensures x in friendIds {
      var e :| e in edges && AcceptedWith(e, u) && OtherEnd(e, u) == x;
      FilterKeeps(edges, (e: Friendship) => AcceptedWith(e, u), e);
    }
  }

  /** The users whose id is in `ids`, in table order: `User.objects.filter(id__in=ids)`. */
  function UsersWithIds(users: seq<User>, ids: set<nat>): (r: seq<User>)
    ensures forall x :: x in r <==> x in users && x.id in ids
  {
    var r := Filter(users, (x: User) => x.id in ids);
    assert forall x :: x in users && x.id in ids ==> x in r by {
      forall x | x in users && x.id in ids ensures x in r {
        FilterKeeps(users, (x: User) => x.id in ids, x);
      }
    }
    r
  }

  /** `Friendship.get_friends(user)`. */
  method GetFriends(users: seq<User>, edges: seq<Friendship>, u: nat) returns (friends: seq<User>)
    ensures friends == UsersWithIds(users, FriendsOf(edges, u))
    ensures forall x :: x in friends <==>
      x in users && (AcceptedEdge(edges, u, x.id) || AcceptedEdge(edges, x.id, u))
  {
    var friendIds := CollectFriendIds(edges, u);
    friends := UsersWithIds(users, friendIds);
    forall x | x in users ensures x in friends <==> AcceptedEdge(edges, u, x.id) || AcceptedEdge(edges, x.id, u) {
      FriendsIff(edges, u, x.id);
    }
  }
}
