/**
 * The native database client's module state: a lazily created client and
 * database handle, `getDb` that refuses before `connect`, and `close` that
 * resets both.
 */
module MongoClient {
  import opened Js

  /** A database handle: the client it came from and the database name. */
  datatype Db = Db(client: nat, name: Option<string>)

  const NotConnected: string := "MongoDB not connected. Call connect() first."

  class Connection {
    const dbName: Option<string>
    var client: Option<nat>
    var db: Option<Db>
    /** How many clients have been created so far; the last one has this id minus one. */
    var created: nat

    ghost predicate Valid()
      reads this
    {
      && (client.Some? ==> client.value < created)
      && (db.Some? ==> client.Some? && db.value == Db(client.value, dbName))
    }

    constructor (dbName: Option<string>)
      ensures Valid() && this.dbName == dbName && client.None? && db.None? && created == 0
    {
      this.dbName := dbName;
      client, db, created := None, None, 0;
    }

    /** `getDb()`: the handle, or the "not connected" error. */
    function GetDb(): (r: Result<Db, string>)
      reads this
      ensures r.Success? <==> db.Some?
      ensures r.Success? ==> r.value == db.value
      ensures r.Failure? ==> r.error == NotConnected
    {
      if db.Some? then Success(db.value) else Failure(NotConnected)
    }

    /** `connect()`: the first call creates the client; later calls reuse it.
        `connectFails` makes the first `client.connect()` throw, which leaves
        the new client in place without a handle. */
    method Connect(connectFails: bool) returns (r: Result<Db, string>)
      requires Valid()
      modifies this`client, this`db, this`created
      ensures Valid()
      ensures old(client).None? ==> created == old(created) + 1 && client == Some(old(created))
      ensures old(client).Some? ==> created == old(created) && client == old(client)
      ensures old(client).None? && connectFails ==> r.Failure? && db.None?
      ensures !(old(client).None? && connectFails) ==> r == Success(Db(client.value, dbName)) && db == Some(r.value)
    {
      if client.None? {
        client := Some(created);
        created := created + 1;
        if connectFails {
          return Failure("connection failed");
        }
        db := Some(Db(client.value, dbName));
        return Success(db.value);
      }
      if db.None? {
        db := Some(Db(client.value, dbName));
      }
      r := Success(db.value);
    }

    /** `close()`: without a client nothing happens; otherwise both are reset. */
    method Close()
      requires Valid()
      modifies this`client, this`db
      ensures Valid() && client.None? && db.None?
      ensures GetDb() == Failure(NotConnected)
    {
      if client.Some? {
        client := None;
        db := None;
      }
    }
  }

  /** Before any `connect`, and after `close`, `getDb` refuses; a successful
      `connect` in between makes it return that handle. */
  method Lifecycle(dbName: Option<string>) returns (before: Result<Db, string>, during: Result<Db, string>, after: Result<Db, string>)
    ensures before == Failure(NotConnected)
    ensures during == Success(Db(0, dbName))
    ensures after == Failure(NotConnected)
  {
    var c := new Connection(dbName);
    before := c.GetDb();
    var _ := c.Connect(false);
    during := c.GetDb();
    var again := c.Connect(false);
    assert again == during;
    c.Close();
    after := c.GetDb();
  }
}
