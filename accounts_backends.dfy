/** accounts/backends.py: log in with either a username or an e-mail address. */
module AccountsBackends {
  import opened Base
  import opened AccountsModels

  /** `Q(username=identifier) | Q(email=identifier)`. */
  predicate Matches(u: User, identifier: string)
  {
    u.username == identifier || u.email == identifier
  }

  /** The matching user with the smallest id: `order_by('id').first()`. */
  function LowestIdMatch(users: seq<User>, identifier: string): (r: Option<User>)
    ensures r.None? <==> forall u :: u in users ==> !Matches(u, identifier)
    ensures r.Some? ==>
      && r.value in users
      && Matches(r.value, identifier)
      && forall u :: u in users && Matches(u, identifier) ==> r.value.id <= u.id
  {
    if users == [] then None
    else
      var rest := LowestIdMatch(users[1..], identifier);
      if !Matches(users[0], identifier) then rest
      else if rest.Some? && rest.value.id < users[0].id then rest
      else Some(users[0])
  }

  /** `EmailOrUsernameBackend.authenticate`. `checkPassword` stands for
      `user.check_password` and `canAuthenticate` for
      `self.user_can_authenticate`; both are outside this model. */
  function Authenticate(
    users: seq<User>, identifier: string, password: string,
    checkPassword: (User, string) -> bool, canAuthenticate: User -> bool): (r: Option<User>)
    ensures (forall u :: u in users ==> !Matches(u, identifier)) ==> r.None?
    ensures r.Some? ==>
      && r.value in users
      && Matches(r.value, identifier)
      && (forall u :: u in users && Matches(u, identifier) ==> r.value.id <= u.id)
      && checkPassword(r.value, password)
      && canAuthenticate(r.value)
  {
    var matches := Filter(users, (u: User) => Matches(u, identifier));
    var user :=
      if |matches| == 0 then None                 // User.DoesNotExist
      else if |matches| == 1 then Some(matches[0]) // get() found exactly one
      else LowestIdMatch(matches, identifier);     // MultipleObjectsReturned
    assert forall u :: u in users && Matches(u, identifier) ==> u in matches by {
      forall u | u in users && Matches(u, identifier) ensures u in matches {
        FilterKeeps(users, (u: User) => Matches(u, identifier), u);
      }
    }
    assert |matches| > 0 ==> matches[0] in matches;
    if user.Some? && checkPassword(user.value, password) && canAuthenticate(user.value) then user
    else None
  }

  /** With primary keys unique, the three branches of `authenticate` amount to
      one rule: take the matching user with the lowest id, and return it only
      if both checks pass. */
  lemma AuthenticateIsLowestIdRule(
    users: seq<User>, identifier: string, password: string,
    checkPassword: (User, string) -> bool, canAuthenticate: User -> bool)
    requires UserIdsUnique(users)
    ensures Authenticate(users, identifier, password, checkPassword, canAuthenticate)
         == match LowestIdMatch(users, identifier)
            case None => None
            case Some(u) => if checkPassword(u, password) && canAuthenticate(u) then Some(u) else None
  {
    var matches := Filter(users, (u: User) => Matches(u, identifier));
    var lowest := LowestIdMatch(users, identifier);
    if lowest.Some? {
      FilterKeeps(users, (u: User) => Matches(u, identifier), lowest.value);
      if |matches| == 1 {
        assert lowest.value == matches[0];
      } else {
        var m := LowestIdMatch(matches, identifier);
        assert m.Some?;
        assert m.value in users;
        SameIdSameUser(users, m.value, lowest.value);
      }
    } else {
      FilterNone(users, (u: User) => Matches(u, identifier));
    }
  }

  /** Two users of the table with the same primary key are the same row. */
  lemma SameIdSameUser(users: seq<User>, a: User, b: User)
    requires UserIdsUnique(users) && a in users && b in users && a.id == b.id
    ensures a == b
  {
    var i :| 0 <= i < |users| && users[i] == a;
    var j :| 0 <= j < |users| && users[j] == b;
  }
}
