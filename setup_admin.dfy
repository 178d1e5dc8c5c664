/**
 * The hosted-backend admin setup function: reuse the account with the admin
 * email or create it, then upsert the `admin` role for it on
 * `(user_id, role)`.
 */
module SetupAdmin {
  import opened Js

  datatype AuthUser = AuthUser(id: nat, email: string, password: string, emailConfirmed: bool)

  datatype RoleRow = RoleRow(userId: nat, role: string)

  datatype Payload =
    | Ok
    | SetupJson(success: bool, message: string, email: string, password: string)
    | ErrorJson(error: string)

  /** Status and body; every answer carries the CORS headers. */
  datatype Answer = Answer(status: nat, payload: Payload)

  /** `users.find(u => u.email === email)`: the first user with that email. */
  function FindEmail(users: seq<AuthUser>, email: string): (r: Option<nat>)
    ensures r.Some? ==> r.value < |users| && users[r.value].email == email
    ensures r.Some? ==> forall j :: 0 <= j < r.value ==> users[j].email != email
    ensures r.None? <==> forall j :: 0 <= j < |users| ==> users[j].email != email
  {
    if users == [] then None
    else if users[0].email == email then Some(0)
    else
      var r := FindEmail(users[1..], email);
      if r.Some? then Some(r.value + 1) else None
  }

  /** `upsert(row, { onConflict: "user_id,role" })`: a row already present is
      left as it is. */
  function UpsertRole(rows: seq<RoleRow>, row: RoleRow): (r: seq<RoleRow>)
    ensures row in r
    ensures forall x :: x in rows ==> x in r
    ensures forall x :: x in r ==> x in rows || x == row
  {
    if row in rows then rows else rows + [row]
  }

  function CountRow(rows: seq<RoleRow>, row: RoleRow): nat {
    if rows == [] then 0 else (if rows[0] == row then 1 else 0) + CountRow(rows[1..], row)
  }

  lemma {:induction false} CountRowAppend(rows: seq<RoleRow>, x: RoleRow, row: RoleRow)
    ensures CountRow(rows + [x], row) == CountRow(rows, row) + (if x == row then 1 else 0)
  {
    if rows != [] {
      assert (rows + [x])[1..] == rows[1..] + [x];
      CountRowAppend(rows[1..], x, row);
    }
  }

  lemma {:induction false} CountRowAbsent(rows: seq<RoleRow>, row: RoleRow)
    requires row !in rows
    ensures CountRow(rows, row) == 0
  {
    if rows != [] {
      assert rows == [rows[0]] + rows[1..];
      CountRowAbsent(rows[1..], row);
    }
  }

  /** However often the role is upserted, the pair is stored at most once
      once it started that way. */
  lemma UpsertRoleOnce(rows: seq<RoleRow>, row: RoleRow)
    requires CountRow(rows, row) <= 1
    ensures CountRow(UpsertRole(rows, row), row) == 1
  {
    if row !in rows {
      CountRowAbsent(rows, row);
      CountRowAppend(rows, row, row);
    } else {
      CountRowPresent(rows, row);
    }
  }

  lemma {:induction false} CountRowPresent(rows: seq<RoleRow>, row: RoleRow)
    requires row in rows
    ensures CountRow(rows, row) >= 1
  {
    if rows[0] != row {
      CountRowPresent(rows[1..], row);
    }
  }

  /** The auth service and the `user_roles` table. */
  class Backend {
    var users: seq<AuthUser>
    var nextId: nat
    var roles: seq<RoleRow>

    constructor ()
      ensures users == [] && roles == []
    {
      users, nextId, roles := [], 0, [];
    }
  }

  /** The request handler. `listFails` makes `listUsers` return no data, so
      the admin looks absent; `createError` and `roleError` are the errors
      the two writes report. */
  method Setup(verb: string, b: Backend, adminEmail: string, adminPassword: string,
               listFails: bool, createError: Option<string>, roleError: Option<string>) returns (resp: Answer)
    modifies b
    ensures verb == "OPTIONS" ==> resp == Answer(200, Ok) && unchanged(b)
    ensures verb != "OPTIONS" ==>
      var found := if listFails then None else FindEmail(old(b.users), adminEmail);
      && (found.None? && createError.Some? ==>
           resp == Answer(500, ErrorJson(createError.value)) && unchanged(b))
      && (found.Some? || createError.None? ==>
           var uid := if found.Some? then old(b.users)[found.value].id else old(b.nextId);
           && b.users == old(b.users) + (if found.Some? then [] else [AuthUser(old(b.nextId), adminEmail, adminPassword, true)])
           && b.nextId == old(b.nextId) + (if found.Some? then 0 else 1)
           && (roleError.Some? ==> resp == Answer(500, ErrorJson(roleError.value)) && b.roles == old(b.roles))
           && (roleError.None? ==>
                && resp == Answer(200, SetupJson(true, "Admin setup complete", adminEmail, adminPassword))
                && b.roles == UpsertRole(old(b.roles), RoleRow(uid, "admin"))))
  {
    if verb == "OPTIONS" {
      return Answer(200, Ok);
    }
    var found := if listFails then None else FindEmail(b.users, adminEmail);
    var uid: nat;
    if found.Some? {
      uid := b.users[found.value].id;
    } else {
      if createError.Some? {
        return Answer(500, ErrorJson(createError.value));
      }
      uid := b.nextId;
      b.users := b.users + [AuthUser(b.nextId, adminEmail, adminPassword, true)];
      b.nextId := b.nextId + 1;
    }
    if roleError.Some? {
      return Answer(500, ErrorJson(roleError.value));
    }
    b.roles := UpsertRole(b.roles, RoleRow(uid, "admin"));
    resp := Answer(200, SetupJson(true, "Admin setup complete", adminEmail, adminPassword));
  }
}
