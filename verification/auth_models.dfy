/** The `users` table of app/auth/models.py. Nullable columns are
    `Option`s; the NOT NULL and UNIQUE constraints are checked when a row
    is written, as the database does. */
module AuthModels {
  import opened Values

  datatype User = User(id: int, email: Option<string>, name: Option<string>, azureId: Option<string>, lastLogin: int)

  /** The rows in insertion order and the id the next insert receives. */
  datatype UserTable = UserTable(rows: seq<User>, nextId: int)

  /** `User(email, name, azure_id)` as stored under the id the insert
      assigns: the arguments verbatim, last_login the construction instant. */
  function NewUser(id: int, email: Option<string>, name: Option<string>, azureId: Option<string>, now: int): (u: User)
    ensures u.id == id && u.email == email && u.name == name && u.azureId == azureId
    ensures u.lastLogin == now
  {
    User(id, email, name, azureId, now)
  }

  /** `update_last_login`: the login instant moves to `now`, nothing else. */
  function UpdateLastLogin(u: User, now: int): (v: User)
    ensures v.lastLogin == now
    ensures v.id == u.id && v.email == u.email && v.name == u.name && v.azureId == u.azureId
  {
    u.(lastLogin := now)
  }

  /** The constraint, if any, that rejects storing `u` beside `others`:
      email is NOT NULL and UNIQUE; azure_id is UNIQUE, and in SQL two NULLs
      never collide. */
  function Violation(others: seq<User>, u: User): (r: Option<string>)
    ensures r.None? <==>
              && u.email.Some?
              && (forall v :: v in others ==> v.email != u.email)
              && (u.azureId.Some? ==> forall v :: v in others ==> v.azureId != u.azureId)
  {
    if u.email.None? then Some("users.email")
    else if exists v :: v in others && v.email == u.email then Some("users.email")
    else if u.azureId.Some? && exists v :: v in others && v.azureId == u.azureId then Some("users.azure_id")
    else None
  }

  /** The rows other than the one at index `i`. */
  function Others(rows: seq<User>, i: int): seq<User>
    requires 0 <= i < |rows|
  {
    rows[..i] + rows[i + 1..]
  }

  /** The table's invariant: ids are distinct and below the next id, every
      email is present and distinct, every present azure_id is distinct. */
  ghost predicate WellFormed(t: UserTable) {
    && (forall i :: 0 <= i < |t.rows| ==> t.rows[i].id < t.nextId && t.rows[i].email.Some?)
    && (forall i, j :: 0 <= i < j < |t.rows| ==>
          && t.rows[i].id != t.rows[j].id
          && t.rows[i].email != t.rows[j].email
          && (t.rows[i].azureId.Some? ==> t.rows[i].azureId != t.rows[j].azureId))
  }

  /** Appending a row the constraints admit, under a fresh id, keeps a
      well-formed table well formed. */
  lemma InsertKeepsWellFormed(t: UserTable, u: User)
    requires Violation(t.rows, u).None?
    requires u.id == t.nextId
    ensures WellFormed(t) ==> WellFormed(UserTable(t.rows + [u], t.nextId + 1))
  {
    if WellFormed(t) {
      var rows := t.rows + [u];
      forall i, j | 0 <= i < j < |rows|
        ensures rows[i].id != rows[j].id && rows[i].email != rows[j].email
        ensures rows[i].azureId.Some? ==> rows[i].azureId != rows[j].azureId
      {
        if j == |t.rows| {
          assert rows[i] in t.rows;
        }
      }
    }
  }

  /** Replacing a row, keeping its id, by one the constraints admit against
      the other rows keeps a well-formed table well formed. */
  lemma ReplaceKeepsWellFormed(t: UserTable, i: int, u: User)
    requires 0 <= i < |t.rows|
    requires Violation(Others(t.rows, i), u).None?
    requires u.id == t.rows[i].id
    ensures WellFormed(t) ==> WellFormed(UserTable(t.rows[i := u], t.nextId))
  {
    if WellFormed(t) {
      var rows := t.rows[i := u];
      forall a, b | 0 <= a < b < |rows|
        ensures rows[a].id != rows[b].id && rows[a].email != rows[b].email
        ensures rows[a].azureId.Some? ==> rows[a].azureId != rows[b].azureId
      {
        if a == i {
          assert rows[b] in Others(t.rows, i);
        } else if b == i {
          assert rows[a] in Others(t.rows, i);
        }
      }
    }
  }

  /** In a well-formed table every stored row is one the constraints admit
      beside the others. */
  lemma StoredRowIsAdmitted(t: UserTable, i: int)
    requires WellFormed(t)
    requires 0 <= i < |t.rows|
    ensures Violation(Others(t.rows, i), t.rows[i]).None?
  {
    var others := Others(t.rows, i);
    forall v | v in others
      ensures v.email != t.rows[i].email
      ensures t.rows[i].azureId.Some? ==> v.azureId != t.rows[i].azureId
    {
      var j :| 0 <= j < |others| && others[j] == v;
      if j < i {
        assert v == t.rows[j];
      } else {
        assert v == t.rows[j + 1];
      }
    }
  }
}
