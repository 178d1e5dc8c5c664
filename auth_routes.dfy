/**
 * The admin account routes: login issuing a one-hour token, profile update
 * with conditional fields, and the current-user lookup without the password.
 * Password hashing, comparison and token signing are uninterpreted functions
 * passed in as parameters.
 */
module AuthRoutes {
  import opened Js

  datatype User = User(id: nat, email: string, password: string, role: string)

  /** What `select('-password')` leaves of a user. */
  datatype PublicUser = PublicUser(id: nat, email: string, role: string)

  /** A bcrypt salt: its cost and the random part `genSalt` draws. */
  datatype Salt = Salt(rounds: nat, nonce: nat)

  /** The token payload `{ user: { id, role } }` with the registered `iat`
      and `exp` claims of section 4.1 of RFC 7519, in seconds. */
  datatype TokenUser = TokenUser(id: nat, role: string)
  datatype Claims = Claims(user: TokenUser, iat: nat, exp: nat)

  /** `expiresIn: '1h'`. */
  const TokenLifetime: nat := 3600

  /** The claims signed for `u` at time `now` (the `exp` claim of section
      4.1.4 of RFC 7519 lies one hour after issue). */
  function ClaimsFor(u: User, now: nat): (c: Claims)
    ensures c.user == TokenUser(u.id, u.role)
    ensures c.iat == now && c.exp == now + TokenLifetime
  {
    Claims(TokenUser(u.id, u.role), now, now + TokenLifetime)
  }

  datatype Reply =
    | MessageJson(message: string)
    | TokenJson(token: string)
    | UserJson(user: PublicUser)
    | NullJson
    | Text(text: string)

  datatype Response = Response(status: nat, reply: Reply)

  const InvalidCredentials: Response := Response(400, MessageJson("Invalid credentials"))

  /** `User.findOne({ email })`: the first user with that email. A filter value
      that is `undefined` is dropped from the query, which then matches the
      first user. */
  function FindByEmail(users: seq<User>, email: Option<string>): (r: Option<nat>)
    ensures r.Some? ==> r.value < |users| && (email.Some? ==> users[r.value].email == email.value)
    ensures r.Some? ==> forall j :: 0 <= j < r.value ==> email.Some? && users[j].email != email.value
    ensures r.None? <==> (users == [] || (email.Some? && forall j :: 0 <= j < |users| ==> users[j].email != email.value))
  {
    if users == [] then None
    else if email.None? || users[0].email == email.value then Some(0)
    else
      var r := FindByEmail(users[1..], email);
      if r.Some? then Some(r.value + 1) else None
  }

  /** `User.findById(id)`. */
  function FindById(users: seq<User>, id: nat): (r: Option<nat>)
    ensures r.Some? ==> r.value < |users| && users[r.value].id == id
    ensures r.None? <==> forall j :: 0 <= j < |users| ==> users[j].id != id
  {
    if users == [] then None
    else if users[0].id == id then Some(0)
    else
      var r := FindById(users[1..], id);
      if r.Some? then Some(r.value + 1) else None
  }

  function CountEmail(users: seq<User>, email: string): (n: nat)
    ensures n <= |users|
  {
    if users == [] then 0 else (if users[0].email == email then 1 else 0) + CountEmail(users[1..], email)
  }

  predicate IdsDistinct(users: seq<User>) {
    forall i, j :: 0 <= i < j < |users| ==> users[i].id != users[j].id
  }

  /** The `users` collection. */
  class UserStore {
    var users: seq<User>
    var nextId: nat

    ghost predicate Valid()
      reads this
    {
      IdsDistinct(users) && forall i :: 0 <= i < |users| ==> users[i].id < nextId
    }

    constructor ()
      ensures Valid() && users == []
    {
      users, nextId := [], 0;
    }
  }

  /** `POST /login`. `compare(password, hash)` is bcrypt's check; `sign` the
      token signer; `dbFault` a failing query and `signFails` a failing
      signer, both answered 500. A missing password makes the comparison
      throw, also answered 500. */
  method Login(email: Option<string>, password: Option<string>, store: UserStore,
               compare: (string, string) -> bool, sign: Claims -> string, now: nat,
               dbFault: bool, signFails: bool) returns (resp: Response)
    ensures dbFault ==> resp == Response(500, Text("Server error"))
    ensures !dbFault && FindByEmail(store.users, email).None? ==> resp == InvalidCredentials
    ensures !dbFault && FindByEmail(store.users, email).Some? && password.Some?
            && !compare(password.value, store.users[FindByEmail(store.users, email).value].password) ==>
      resp == InvalidCredentials
    ensures !dbFault && FindByEmail(store.users, email).Some? && password.None? ==> resp == Response(500, Text("Server error"))
    ensures !dbFault && FindByEmail(store.users, email).Some? && password.Some? && signFails
            && compare(password.value, store.users[FindByEmail(store.users, email).value].password) ==>
      resp == Response(500, Text("Server error"))
    ensures resp.reply.TokenJson? <==>
      && !dbFault && !signFails && password.Some? && FindByEmail(store.users, email).Some?
      && compare(password.value, store.users[FindByEmail(store.users, email).value].password)
    ensures resp.reply.TokenJson? ==>
      resp == Response(200, TokenJson(sign(ClaimsFor(store.users[FindByEmail(store.users, email).value], now))))
    ensures !resp.reply.TokenJson? ==> resp == InvalidCredentials || resp == Response(500, Text("Server error"))
  {
    if dbFault {
      return Response(500, Text("Server error"));
    }
    var found := FindByEmail(store.users, email);
    if found.None? {
      return InvalidCredentials;
    }
    var user := store.users[found.value];
    if password.None? {
      return Response(500, Text("Server error"));
    }
    if !compare(password.value, user.password) {
      return InvalidCredentials;
    }
    if signFails {
      return Response(500, Text("Server error"));
    }
    resp := Response(200, TokenJson(sign(ClaimsFor(user, now))));
  }

  /** The user after `update-profile`: a non-empty email replaces the email,
      a non-empty password is hashed with a fresh cost-10 salt. */
  function Updated(u: User, email: Option<string>, password: Option<string>,
                   hash: (string, Salt) -> string, nonce: nat): (r: User)
    ensures r.id == u.id && r.role == u.role
    ensures r.email == (if Truthy(email) then email.value else u.email)
    ensures r.password == (if Truthy(password) then hash(password.value, Salt(10, nonce)) else u.password)
  {
    var u1 := if Truthy(email) then u.(email := email.value) else u;
    if Truthy(password) then u1.(password := hash(password.value, Salt(10, nonce))) else u1
  }

  /** An update without a new email or password leaves the user as it was. */
  lemma EmptyUpdateIsIdentity(u: User, hash: (string, Salt) -> string, nonce: nat)
    ensures Updated(u, None, None, hash, nonce) == u
    ensures Updated(u, Some(""), Some(""), hash, nonce) == u
  {
  }

  /** `PUT /update-profile` for the token's `userId`. */
  method UpdateProfile(userId: nat, email: Option<string>, password: Option<string>, store: UserStore,
                       hash: (string, Salt) -> string, nonce: nat, dbFault: bool) returns (resp: Response)
    requires store.Valid()
    modifies store
    ensures store.Valid()
    ensures dbFault ==> resp == Response(500, Text("Server Error")) && unchanged(store)
    ensures !dbFault && FindById(old(store.users), userId).None? ==>
      resp == Response(404, MessageJson("User not found")) && unchanged(store)
    ensures !dbFault && FindById(old(store.users), userId).Some? ==>
      var i := FindById(old(store.users), userId).value;
      && resp == Response(200, MessageJson("Profile updated successfully"))
      && store.users == old(store.users)[i := Updated(old(store.users)[i], email, password, hash, nonce)]
      && store.nextId == old(store.nextId)
  {
    if dbFault {
      return Response(500, Text("Server Error"));
    }
    var found := FindById(store.users, userId);
    if found.None? {
      return Response(404, MessageJson("User not found"));
    }
    var i := found.value;
    store.users := store.users[i := Updated(store.users[i], email, password, hash, nonce)];
    resp := Response(200, MessageJson("Profile updated successfully"));
  }

  function Public(u: User): (p: PublicUser)
    ensures p.id == u.id && p.email == u.email && p.role == u.role
  {
    PublicUser(u.id, u.email, u.role)
  }

  /** `GET /me`: the user without its password, `null` when none has the id. */
  method Me(userId: nat, store: UserStore, dbFault: bool) returns (resp: Response)
    ensures dbFault ==> resp == Response(500, Text("Server Error"))
    ensures !dbFault && FindById(store.users, userId).None? ==> resp == Response(200, NullJson)
    ensures !dbFault && FindById(store.users, userId).Some? ==>
      resp == Response(200, UserJson(Public(store.users[FindById(store.users, userId).value])))
    ensures resp.reply.UserJson? ==> resp.reply.user.id == userId
  {
    if dbFault {
      return Response(500, Text("Server Error"));
    }
    var found := FindById(store.users, userId);
    if found.None? {
      return Response(200, NullJson);
    }
    resp := Response(200, UserJson(Public(store.users[found.value])));
  }
}
