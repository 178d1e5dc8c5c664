/**
 * The dashboard's client-side session: the stored token, the
 * signed-in/signed-out flag, and the bearer header of section 2.1 of
 * RFC 6750 that protected requests carry.
 */
module AuthClient {
  import opened Js

  /** `localStorage` as far as the session uses it. */
  type Storage = map<string, string>

  function StoredToken(s: Storage): (t: Option<string>)
    ensures t.Some? <==> "token" in s
  {
    if "token" in s then Some(s["token"]) else None
  }

  const BearerPrefix: string := "Bearer "

  /** `getAuthHeader()`: `{ Authorization: "Bearer " + token }` when a token is
      stored, otherwise `{}`. */
  function GetAuthHeader(s: Storage): (h: map<string, string>)
    ensures |h| <= 1
    ensures h == map[] <==> !Truthy(StoredToken(s))
    ensures h != map[] ==> h.Keys == {"Authorization"} && h["Authorization"] == BearerPrefix + s["token"]
  {
    var t := StoredToken(s);
    if Truthy(t) then map["Authorization" := BearerPrefix + t.value] else map[]
  }

  /** The token a server reads back out of an `Authorization: Bearer` value. */
  function BearerCredentials(value: string): Option<string> {
    if StartsWith(value, BearerPrefix) then Some(value[|BearerPrefix|..]) else None
  }

  /** The header carries the stored token and nothing else. */
  lemma HeaderCarriesToken(s: Storage)
    requires Truthy(StoredToken(s))
    ensures BearerCredentials(GetAuthHeader(s)["Authorization"]) == Some(s["token"])
  {
    var v := BearerPrefix + s["token"];
    StartsWithConcat(BearerPrefix, s["token"]);
    assert v[|BearerPrefix|..] == s["token"];
  }

  /** What a `fetch` to the server ended with: a thrown error (network or an
      unparsable body), or a response with its `ok` flag, its `message` and
      its `token`. */
  datatype FetchOutcome =
    | Thrown
    | Answered(ok: bool, message: Option<string>, token: Option<string>)

  /** What `res.json()` of a `/me` answer parses to, whatever its status: the
      public user with its email, `null`, or any other object (an error body
      such as `{ msg }`). */
  datatype MeData =
    | UserData(email: string)
    | NullData
    | OtherData(fields: map<string, string>)

  /** How the second `/me` request ended: the body did not parse (or the
      request threw), or it parsed to `data` with the response's `ok` flag. */
  datatype MeAnswer =
    | Unparsed
    | Parsed(ok: bool, data: MeData)

  /** `useAuth()`'s state. */
  class Session {
    var storage: Storage
    var isAdmin: bool
    var loading: bool
    /** The `user` the hook returns: `null` until the second effect stores
        what `/me` parsed to. */
    var currentUser: MeData
    var location: string

    /** Signed in only with a token stored: every way into `isAdmin` (an
        accepted stored token, a successful sign-in) leaves one there, and
        every way that removes the token signs out. */
    ghost predicate Valid()
      reads this
    {
      isAdmin ==> "token" in storage
    }

    constructor (storage: Storage)
      ensures Valid() && this.storage == storage && !isAdmin && loading && currentUser == NullData
    {
      this.storage := storage;
      isAdmin, loading, currentUser, location := false, true, NullData, "";
    }

    /** `session`: `{}` while signed in, `null` otherwise; a session always
        has a stored token behind it. */
    function HasSession(): (r: bool)
      requires Valid()
      reads this
      ensures r == isAdmin
      ensures r ==> "token" in storage
    {
      isAdmin
    }

    /** The mount effect: without a token, loading just ends; with one, `/me`
        decides: accepted means signed in, anything else drops the token. */
    method Mount(me: FetchOutcome)
      requires Valid()
      modifies this`storage, this`isAdmin, this`loading
      ensures Valid() && !loading
      ensures !Truthy(StoredToken(old(storage))) ==> storage == old(storage) && isAdmin == old(isAdmin)
      ensures Truthy(StoredToken(old(storage))) && me.Answered? && me.ok ==> storage == old(storage) && HasSession()
      ensures Truthy(StoredToken(old(storage))) && !(me.Answered? && me.ok) ==>
        storage == old(storage) - {"token"} && !HasSession()
    {
      var token := StoredToken(storage);
      if Truthy(token) {
        if me.Answered? && me.ok {
          isAdmin := true;
        } else {
          storage := storage - {"token"};
          isAdmin := false;
        }
      }
      loading := false;
    }

    /** The second effect: once signed in with a token, whatever the `/me`
        body parses to becomes the current user. The response's `ok` flag is
        not consulted, so an error body is stored as the user too; a body
        that does not parse is only logged. */
    method LoadCurrentUser(me: MeAnswer)
      requires Valid()
      modifies this`currentUser
      ensures Valid()
      ensures Truthy(StoredToken(storage)) && isAdmin && me.Parsed? ==> currentUser == me.data
      ensures !(Truthy(StoredToken(storage)) && isAdmin && me.Parsed?) ==> currentUser == old(currentUser)
    {
      if Truthy(StoredToken(storage)) && isAdmin && me.Parsed? {
        currentUser := me.data;
      }
    }

    /** `signIn(email, password)` given what the login request ended with. A
        successful answer stores its token (`setItem` of an absent token
        stores the text `undefined`). */
    method SignIn(login: FetchOutcome) returns (error: Option<string>)
      requires Valid()
      modifies this`storage, this`isAdmin
      ensures Valid()
      ensures login.Thrown? ==> error == Some("Network error") && unchanged(this)
      ensures login.Answered? && !login.ok ==>
        error == Some(OrElse(login.message, "Login failed")) && unchanged(this)
      ensures login.Answered? && login.ok ==>
        && error.None? && HasSession()
        && storage == old(storage)["token" := if login.token.Some? then login.token.value else "undefined"]
    {
      if login.Thrown? {
        return Some("Network error");
      }
      if !login.ok {
        return Some(OrElse(login.message, "Login failed"));
      }
      storage := storage["token" := if login.token.Some? then login.token.value else "undefined"];
      isAdmin := true;
      error := None;
    }

    /** `signOut()`: forget the token and the user, back to the home page. */
    method SignOut()
      modifies this`storage, this`isAdmin, this`currentUser, this`location
      ensures Valid()
      ensures storage == old(storage) - {"token"} && !isAdmin && currentUser == NullData && location == "/"
      ensures GetAuthHeader(storage) == map[] && !HasSession()
    {
      storage := storage - {"token"};
      isAdmin := false;
      currentUser := NullData;
      location := "/";
    }
  }

  /** A successful sign-in makes every later protected request carry the new
      token. */
  lemma SignInThenHeader(s: Storage, token: string)
    requires token != ""
    ensures GetAuthHeader(s["token" := token]) == map["Authorization" := BearerPrefix + token]
  {
  }
}
