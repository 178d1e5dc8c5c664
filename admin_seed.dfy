/**
 * The admin seeding script: find the admin account by email and reset its
 * password, or create it with role `admin`. Any failure ends the process
 * with exit code 1.
 */
module AdminSeed {
  import opened Js
  import opened AuthRoutes

  lemma {:induction false} CountEmailUpdate(users: seq<User>, i: nat, u: User, email: string)
    requires i < |users| && users[i].email == email && u.email == email
    ensures CountEmail(users[i := u], email) == CountEmail(users, email)
  {
    if i > 0 {
      CountEmailUpdate(users[1..], i - 1, u, email);
      assert users[i := u][1..] == users[1..][i - 1 := u];
    } else {
      assert users[i := u][1..] == users[1..];
    }
  }

  lemma {:induction false} CountEmailAppend(users: seq<User>, u: User, email: string)
    ensures CountEmail(users + [u], email) == CountEmail(users, email) + (if u.email == email then 1 else 0)
  {
    if users != [] {
      assert (users + [u])[1..] == users[1..] + [u];
      CountEmailAppend(users[1..], u, email);
    }
  }

  lemma {:induction false} CountEmailNone(users: seq<User>, email: string)
    requires forall j :: 0 <= j < |users| ==> users[j].email != email
    ensures CountEmail(users, email) == 0
  {
    if users != [] {
      CountEmailNone(users[1..], email);
    }
  }

  lemma {:induction false} CountEmailSome(users: seq<User>, i: nat, email: string)
    requires i < |users| && users[i].email == email
    ensures CountEmail(users, email) >= 1
  {
    if i > 0 {
      CountEmailSome(users[1..], i - 1, email);
    }
  }

  /** The users after a successful run: the first account with `email` gets
      the new hash, or a new admin account is appended with id `nextId`. */
  function SeedUsers(users: seq<User>, nextId: nat, email: string, hashed: string): seq<User> {
    match FindByEmail(users, Some(email))
    case Some(i) => users[i := users[i].(password := hashed)]
    case None => users + [User(nextId, email, hashed, "admin")]
  }

  /** Find-or-create: afterwards there is at least one account with the
      email, and a new one only if there was none. */
  lemma SeedCount(users: seq<User>, nextId: nat, email: string, hashed: string)
    ensures CountEmail(SeedUsers(users, nextId, email, hashed), email)
      == (if CountEmail(users, email) == 0 then 1 else CountEmail(users, email))
  {
    match FindByEmail(users, Some(email))
    case Some(i) =>
      CountEmailUpdate(users, i, users[i].(password := hashed), email);
      CountEmailSome(users, i, email);
    case None =>
      CountEmailAppend(users, User(nextId, email, hashed, "admin"), email);
      CountEmailNone(users, email);
  }

  /** A second run adds no account: it only re-hashes the one the first run
      found or created. */
  lemma SeedTwice(users: seq<User>, n1: nat, n2: nat, email: string, h1: string, h2: string)
    ensures var once := SeedUsers(users, n1, email, h1);
      && |SeedUsers(once, n2, email, h2)| == |once|
      && CountEmail(SeedUsers(once, n2, email, h2), email) == CountEmail(once, email)
  {
    var once := SeedUsers(users, n1, email, h1);
    SeedCount(users, n1, email, h1);
    SeedCount(once, n2, email, h2);
    if FindByEmail(once, Some(email)).None? {
      CountEmailNone(once, email);
    }
  }

  /** `seedAdmin()`. `connectFails` is a failing connection or query and
      `saveFails` a failing `save()`; both exit with 1 and write nothing. */
  method SeedAdmin(store: UserStore, email: string, password: string, hash: (string, Salt) -> string,
                   nonce: nat, connectFails: bool, saveFails: bool) returns (exitCode: nat)
    requires store.Valid()
    modifies store
    ensures store.Valid()
    ensures connectFails || saveFails ==> exitCode == 1 && unchanged(store)
    ensures !connectFails && !saveFails ==>
      && exitCode == 0
      && store.users == SeedUsers(old(store.users), old(store.nextId), email, hash(password, Salt(10, nonce)))
      && store.nextId == old(store.nextId) + (if FindByEmail(old(store.users), Some(email)).None? then 1 else 0)
  {
    if connectFails {
      return 1;
    }
    var found := FindByEmail(store.users, Some(email));
    var hashed := hash(password, Salt(10, nonce));
    if saveFails {
      return 1;
    }
    if found.Some? {
      var i := found.value;
      store.users := store.users[i := store.users[i].(password := hashed)];
    } else {
      store.users := store.users + [User(store.nextId, email, hashed, "admin")];
      store.nextId := store.nextId + 1;
    }
    exitCode := 0;
  }
}
