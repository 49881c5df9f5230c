/**
 * The user table of the authentication database. Rows are kept in insertion
 * order with their primary key, name and password hash; a commit either
 * succeeds or fails with an integrity or database error, and a failed commit
 * is rolled back without raising. Password hashing and checking (bcrypt) are
 * parameters.
 */
module AuthModels {
  import opened Python

  /** One row of the `user` table. */
  datatype UserRow = UserRow(id: nat, username: string, password: string)

  /** How the next `session.commit()` ends. */
  datatype CommitOutcome = Committed | IntegrityFailure | DatabaseFailure

  /** The database session as far as the users are concerned. */
  class Database {
    var rows: seq<UserRow>
    var nextId: nat

    constructor()
      ensures rows == [] && nextId == 1
    {
      rows := [];
      nextId := 1;
    }
  }

  /** The position of the first row with that name, if any. */
  function FirstNamed(rows: seq<UserRow>, username: string): (r: Option<nat>)
    ensures r.None? <==> forall i :: 0 <= i < |rows| ==> rows[i].username != username
    ensures r.Some? ==> r.value < |rows| && rows[r.value].username == username
    ensures r.Some? ==> forall j :: 0 <= j < r.value ==> rows[j].username != username
  {
    if rows == [] then None
    else if rows[0].username == username then Some(0)
    else match FirstNamed(rows[1..], username)
      case None => None
      case Some(i) => Some(i + 1)
  }

  /** `User.get_by_username`: the first row with that name, if any. */
  function GetByUsername(rows: seq<UserRow>, username: string): (r: Option<UserRow>)
    ensures r.None? <==> forall i :: 0 <= i < |rows| ==> rows[i].username != username
    ensures r.Some? ==> exists i :: 0 <= i < |rows| && rows[i] == r.value && r.value.username == username
                                    && forall j :: 0 <= j < i ==> rows[j].username != username
  {
    match FirstNamed(rows, username)
    case None => None
    case Some(i) => Some(rows[i])
  }

  /** `User.authenticate(username=..., password=...)`: nothing for an empty
      name or password, for an unknown name, or when the stored hash does not
      check against the password; otherwise the row found by name. */
  function Authenticate(rows: seq<UserRow>, username: string, password: string,
                        check: (string, string) -> bool): (r: Option<UserRow>)
    ensures username == "" || password == "" ==> r.None?
    ensures r.Some? <==> username != "" && password != "" && GetByUsername(rows, username).Some?
                         && check(GetByUsername(rows, username).value.password, password)
    ensures r.Some? ==> r == GetByUsername(rows, username)
  {
    if username == "" || password == "" then None
    else
      match GetByUsername(rows, username)
      case None => None
      case Some(user) => if check(user.password, password) then Some(user) else None
  }

  /** The rows left after deleting the row with key `id`. */
  function WithoutId(rows: seq<UserRow>, id: nat): (r: seq<UserRow>)
    ensures forall u :: u in r <==> u in rows && u.id != id
    ensures |r| <= |rows|
  {
    if rows == [] then []
    else if rows[0].id == id then WithoutId(rows[1..], id)
    else [rows[0]] + WithoutId(rows[1..], id)
  }

  /** The rows after an update of the row keyed `row.id`: that row now
      holds `row`, every other row and the order are unchanged. */
  function WithRow(rows: seq<UserRow>, row: UserRow): (r: seq<UserRow>)
    ensures |r| == |rows|
    ensures forall i :: 0 <= i < |rows| && rows[i].id == row.id ==> r[i] == row
    ensures forall i :: 0 <= i < |rows| && rows[i].id != row.id ==> r[i] == rows[i]
  {
    seq(|rows|, i requires 0 <= i < |rows| => if rows[i].id == row.id then row else rows[i])
  }

  /** A `User` object: its key once saved, its name and its password field,
      which holds the clear text until `hash_password` replaces it. */
  class User {
    var id: Option<nat>
    var username: string
    var password: string

    constructor(username: string, password: string)
      ensures this.id == None && this.username == username && this.password == password
    {
      id := None;
      this.username := username;
      this.password := password;
    }

    /** `hash_password`: the field becomes the hash of its former value. */
    method HashPassword(hash: string -> string)
      modifies this
      ensures password == hash(old(password))
      ensures id == old(id) && username == old(username)
    {
      password := hash(password);
    }

    /** `save`: a new user's row is added and keyed when the commit succeeds;
        a user that already has a key is only flushed, so the commit writes
        its fields into its own row. On an integrity or database error the
        session is rolled back and the table is as before. Nothing is raised
        either way. */
    method Save(db: Database, outcome: CommitOutcome)
      modifies this, db
      ensures outcome == Committed && old(id).None? ==>
                && db.rows == old(db.rows) + [UserRow(old(db.nextId), username, password)]
                && db.nextId == old(db.nextId) + 1
                && id == Some(old(db.nextId))
      ensures outcome == Committed && old(id).Some? ==>
                && db.rows == WithRow(old(db.rows), UserRow(old(id).value, username, password))
                && db.nextId == old(db.nextId) && id == old(id)
      ensures outcome != Committed ==> db.rows == old(db.rows) && db.nextId == old(db.nextId) && id == old(id)
      ensures username == old(username) && password == old(password)
    {
      if outcome == Committed {
        if id.None? {
          db.rows := db.rows + [UserRow(db.nextId, username, password)];
          id := Some(db.nextId);
          db.nextId := db.nextId + 1;
        } else {
          db.rows := WithRow(db.rows, UserRow(id.value, username, password));
        }
      }
    }

    /** `delete`: the row goes when the commit succeeds; a database error, or
        deleting an object that was never saved, rolls back and changes
        nothing. */
    method Delete(db: Database, outcome: CommitOutcome)
      modifies db
      ensures outcome == Committed && id.Some? ==> db.rows == WithoutId(old(db.rows), id.value)
      ensures outcome != Committed || id.None? ==> db.rows == old(db.rows)
      ensures db.nextId == old(db.nextId)
    {
      if outcome == Committed && id.Some? {
        db.rows := WithoutId(db.rows, id.value);
      }
    }
  }

  /** Saving then deleting the same user, both committed, gives the table
      back as long as keys were not reused. */
  method SaveThenDelete(db: Database, username: string, password: string)
    requires forall i :: 0 <= i < |db.rows| ==> db.rows[i].id < db.nextId
    modifies db
    ensures db.rows == old(db.rows)
  {
    var user := new User(username, password);
    user.Save(db, Committed);
    user.Delete(db, Committed);
    WithoutFreshId(old(db.rows), UserRow(old(db.nextId), username, password));
  }

  lemma {:induction false} WithoutFreshId(rows: seq<UserRow>, row: UserRow)
    requires forall i :: 0 <= i < |rows| ==> rows[i].id < row.id
    ensures WithoutId(rows + [row], row.id) == rows
  {
    if rows == [] {
      assert [row][1..] == [];
    } else {
      var all := rows + [row];
      var tail := rows[1..];
      assert all[0] == rows[0] && rows[0].id != row.id;
      assert all[1..] == tail + [row];
      WithoutFreshId(tail, row);
      assert WithoutId(all, row.id) == [rows[0]] + WithoutId(tail + [row], row.id);
      assert [rows[0]] + tail == rows;
    }
  }

  /** Saving the same user twice, both committed, leaves one row for it,
      under the key the first save gave it. */
  method SaveTwice(db: Database, username: string, password: string)
    requires forall i :: 0 <= i < |db.rows| ==> db.rows[i].id < db.nextId
    modifies db
    ensures db.rows == old(db.rows) + [UserRow(old(db.nextId), username, password)]
    ensures db.nextId == old(db.nextId) + 1
  {
    var user := new User(username, password);
    user.Save(db, Committed);
    user.Save(db, Committed);
    UpdateOfFreshRow(old(db.rows), UserRow(old(db.nextId), username, password));
  }

  lemma UpdateOfFreshRow(rows: seq<UserRow>, row: UserRow)
    requires forall i :: 0 <= i < |rows| ==> rows[i].id < row.id
    ensures WithRow(rows + [row], row) == rows + [row]
  {
  }
}
