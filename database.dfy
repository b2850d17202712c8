/**
 * The users relation of the backend's sqlite database
 * (back/meetup_maker/database.py), with the statements the server runs on it.
 *
 * The `users` table is keyed uniquely by `email`; the model keeps it as a map
 * from email to the row. Password verification (argon2) is a parameter
 * `verify(storedHash, password)`, and any exception raised while inserting a
 * row, other than the UNIQUE violation the table itself decides, is the input
 * `fault`.
 */
module Database {
  import opened Api

  /** The tables of the schema. */
  datatype Table = UsersTable | EventsTable | ParticipantsTable

  const Schema: set<Table> := {UsersTable, EventsTable, ParticipantsTable}

  /** The tables present after `create_tables` ran over the tables `present`. */
  function WithSchema(present: set<Table>): (r: set<Table>)
    ensures Schema <= r && present <= r
    ensures forall t :: t in r ==> t in present || t in Schema
  {
    present + Schema
  }

  /** `CREATE TABLE IF NOT EXISTS` makes `create_tables` idempotent. */
  lemma CreateTablesIdempotent(present: set<Table>)
    ensures WithSchema(WithSchema(present)) == WithSchema(present)
  {
  }

  /** Every row sits under its own email: the UNIQUE key. */
  ghost predicate KeyedByEmail(users: map<string, User>) {
    forall e :: e in users ==> users[e].email == e
  }

  /** The outcome of `add_user`: whether it committed, and the relation afterwards. */
  datatype Insert = Insert(ok: bool, users: map<string, User>)

  /**
   * `add_user`: the INSERT commits unless the email is taken (UNIQUE) or the
   * statement raised (`fault`); otherwise the transaction is rolled back.
   */
  function InsertUser(users: map<string, User>, u: User, fault: bool): (r: Insert)
    ensures r.ok <==> !fault && u.email !in users
    ensures r.ok ==> r.users.Keys == users.Keys + {u.email} && r.users[u.email] == u
    ensures r.ok ==> |r.users| == |users| + 1
    ensures forall e :: e in users ==> e in r.users && r.users[e] == users[e]
    ensures !r.ok ==> r.users == users
    ensures KeyedByEmail(users) ==> KeyedByEmail(r.users)
  {
    if fault || u.email in users then Insert(false, users)
    else Insert(true, users[u.email := u])
  }

  /** A connection to the database file: its tables and the users relation. */
  class Connection {
    var tables: set<Table>
    var users: map<string, User>

    ghost predicate Valid()
      reads this
    {
      KeyedByEmail(users)
    }

    /** A connection to a new, empty database file. */
    constructor ()
      ensures Valid() && tables == {} && users == map[]
    {
      tables := {};
      users := map[];
    }

    /** `create_tables`: adds the missing tables and leaves existing rows alone. */
    method CreateTables()
      modifies this
      ensures tables == WithSchema(old(tables)) && users == old(users)
    {
      tables := tables + Schema;
    }

    /** `user_exists`: whether a row with this email exists. */
    method UserExists(email: string) returns (found: bool)
      requires UsersTable in tables
      ensures found <==> email in users
    {
      found := email in users;
    }

    /**
     * `credentials_valid`: false when no row has this email; otherwise whether
     * the stored hash verifies the password.
     */
    method CredentialsValid(email: string, password: string, verify: (string, string) -> bool)
      returns (valid: bool)
      requires UsersTable in tables
      ensures valid <==> email in users && verify(users[email].kdf, password)
      ensures email !in users ==> !valid
    {
      if email !in users {
        return false;
      }
      var stored := users[email].kdf;
      valid := verify(stored, password);
    }

    /** `add_user`: one row more on success; rolled back and unchanged otherwise. */
    method AddUser(u: User, fault: bool) returns (ok: bool)
      requires Valid() && UsersTable in tables
      modifies this
      ensures Valid() && tables == old(tables)
      ensures Insert(ok, users) == InsertUser(old(users), u, fault)
    {
      if fault || u.email in users {
        ok := false;
        return;
      }
      users := users[u.email := u];
      ok := true;
    }
  }
}
