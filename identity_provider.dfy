/** The identity provider, seen only through the operations the consumer calls:
    a realm of users keyed by an opaque user id. The remote service's
    availability is a flag; every remote failure surfaces as a KeycloakFailure. */
module Identity {
  import opened Common

  datatype IdentityUser = IdentityUser(email: Text, firstName: Text, lastName: Text)

  const UNAVAILABLE := "Keycloak is unavailable"

  /** The admin client's message when the user id is not in the realm. */
  const USER_NOT_FOUND := "HTTP 404 Not Found"

  function UserAlreadyExists(email: Text): Error {
    KeycloakFailure("Failed to create user in Keycloak: User already exists in Keycloak: " + TextString(email))
  }

  /** `editUser` wraps the message of whatever the admin client threw. */
  function EditFailed(cause: string): Error {
    KeycloakFailure("Failed to update user in Keycloak: " + cause)
  }

  function DeleteFailed(userId: string): Error {
    KeycloakFailure("Failed to delete user in Keycloak: " + userId)
  }

  /** Java's string conversion of a possibly-null string. */
  function TextString(t: Text): string {
    if t.None? then "null" else t.value
  }

  /** Some user of the realm is registered under this e-mail (`userExists`). */
  predicate EmailRegistered(users: map<string, IdentityUser>, email: Text) {
    exists id :: id in users && users[id].email == email
  }

  /** A length no id in the set exceeds. */
  ghost function LongestLength(ids: set<string>): (n: nat)
    ensures forall id :: id in ids ==> |id| <= n
    decreases |ids|
  {
    if ids == {} then 0
    else
      var id :| id in ids;
      var rest := LongestLength(ids - {id});
      if |id| > rest then |id| else rest
  }

  /** Some string is not yet an id of the realm. */
  lemma FreshIdExists(ids: set<string>)
    ensures exists id: string :: id !in ids
  {
    var n := LongestLength(ids);
    var unused: string := seq(n + 1, _ => 'u');
    assert unused !in ids;
  }

  class IdentityProvider {
    var users: map<string, IdentityUser>
    var reachable: bool

    constructor (reachable: bool)
      ensures users == map[] && this.reachable == reachable
    {
      users := map[];
      this.reachable := reachable;
    }

    /** `createUser`: refuses an e-mail already registered; otherwise adds a user
        under a new id and returns that id. */
    method CreateUser(email: Text, name: Text, lastName: Text) returns (r: Result<string>)
      modifies this
      ensures reachable == old(reachable)
      ensures !reachable ==> r == Err(KeycloakFailure("Failed to create user in Keycloak: " + UNAVAILABLE)) && users == old(users)
      ensures reachable && EmailRegistered(old(users), email) ==> r == Err(UserAlreadyExists(email)) && users == old(users)
      ensures reachable && !EmailRegistered(old(users), email) ==>
        r.Ok? && r.value !in old(users) && users == old(users)[r.value := IdentityUser(email, name, lastName)]
    {
      if !reachable {
        r := Err(KeycloakFailure("Failed to create user in Keycloak: " + UNAVAILABLE));
      } else if EmailRegistered(users, email) {
        r := Err(UserAlreadyExists(email));
      } else {
        FreshIdExists(users.Keys);
        var id: string :| id !in users;
        users := users[id := IdentityUser(email, name, lastName)];
        r := Ok(id);
      }
    }

    /** `editUser`: sets the first and last name of an existing user. */
    method EditUser(userId: string, name: Text, lastName: Text) returns (o: Outcome)
      modifies this
      ensures reachable == old(reachable)
      ensures o == Pass <==> reachable && userId in old(users)
      ensures !reachable ==> o == Fail(EditFailed(UNAVAILABLE)) && users == old(users)
      ensures reachable && userId !in old(users) ==> o == Fail(EditFailed(USER_NOT_FOUND)) && users == old(users)
      ensures o == Pass ==> users == old(users)[userId := old(users)[userId].(firstName := name, lastName := lastName)]
    {
      if reachable && userId in users {
        users := users[userId := users[userId].(firstName := name, lastName := lastName)];
        o := Pass;
      } else if !reachable {
        o := Fail(EditFailed(UNAVAILABLE));
      } else {
        o := Fail(EditFailed(USER_NOT_FOUND));
      }
    }

    /** `deleteUser`: removes an existing user. */
    method DeleteUser(userId: string) returns (o: Outcome)
      modifies this
      ensures reachable == old(reachable)
      ensures o == Pass <==> reachable && userId in old(users)
      ensures o.Fail? ==> o == Fail(DeleteFailed(userId)) && users == old(users)
      ensures o == Pass ==> users == old(users) - {userId}
    {
      if reachable && userId in users {
        users := users - {userId};
        o := Pass;
      } else {
        o := Fail(DeleteFailed(userId));
      }
    }
  }
}
