/** The user directory of app/auth/crud.py: lookups, insert, login stamp
    and the login-time upsert keyed by email. */
module AuthCrud {
  import opened Values
  import opened Http
  import opened AuthModels
  import Query

  /** The index of the first row with this email, or -1. Comparing with a
      missing email is SQL's IS NULL. */
  function EmailIndex(t: UserTable, email: Option<string>): int {
    Query.FirstIndex(t.rows, (u: User) => u.email == email)
  }

  /** `get_user_by_email` */
  function GetUserByEmail(t: UserTable, email: Option<string>): (r: Option<User>)
    ensures r.Some? ==> r.value in t.rows && r.value.email == email
    ensures r.None? <==> forall u :: u in t.rows ==> u.email != email
  {
    var i := EmailIndex(t, email);
    if i < 0 then None else Some(t.rows[i])
  }

  /** `get_user_by_azure_id` */
  function GetUserByAzureId(t: UserTable, azureId: Option<string>): (r: Option<User>)
    ensures r.Some? ==> r.value in t.rows && r.value.azureId == azureId
    ensures r.None? <==> forall u :: u in t.rows ==> u.azureId != azureId
  {
    var i := Query.FirstIndex(t.rows, (u: User) => u.azureId == azureId);
    if i < 0 then None else Some(t.rows[i])
  }

  /** `create_user`: a new row with the next id and the arguments verbatim,
      unless a constraint rejects it, in which case nothing is stored. */
  function CreateUser(t: UserTable, email: Option<string>, name: Option<string>, azureId: Option<string>,
                      now: int): (r: Outcome<(User, UserTable)>)
    ensures r.Returned? <==> Violation(t.rows, NewUser(t.nextId, email, name, azureId, now)).None?
    ensures r.Returned? ==>
              && r.value.0 == NewUser(t.nextId, email, name, azureId, now)
              && r.value.1 == UserTable(t.rows + [r.value.0], t.nextId + 1)
    ensures r.Raised? ==> r.exc.IntegrityError?
    ensures email.None? ==> r == Raised(IntegrityError("users.email"))
    ensures WellFormed(t) && r.Returned? ==> WellFormed(r.value.1)
  {
    var u := NewUser(t.nextId, email, name, azureId, now);
    match Violation(t.rows, u)
    case Some(column) => Raised(IntegrityError(column))
    case None =>
      InsertKeepsWellFormed(t, u);
      Returned((u, UserTable(t.rows + [u], t.nextId + 1)))
  }

  /** `update_user_login`: an unknown id changes nothing and yields None;
      a known id always gets its last_login stamped, and nothing else in
      the table moves, so the table stays well formed. */
  function UpdateUserLogin(t: UserTable, userId: int, now: int): (r: (Option<User>, UserTable))
    ensures (forall u :: u in t.rows ==> u.id != userId) ==> r == (None, t)
    ensures (exists u :: u in t.rows && u.id == userId) ==>
              && r.0.Some? && r.0.value.id == userId && r.0.value.lastLogin == now
              && |r.1.rows| == |t.rows|
    ensures WellFormed(t) ==> WellFormed(r.1)
    ensures r.0.Some? ==>
              exists i :: 0 <= i < |t.rows| && t.rows[i].id == userId
                       && r.0.value == UpdateLastLogin(t.rows[i], now)
                       && r.1 == UserTable(t.rows[i := r.0.value], t.nextId)
  {
    var i := Query.FirstIndex(t.rows, (u: User) => u.id == userId);
    if i < 0 then (None, t)
    else
      var u := UpdateLastLogin(t.rows[i], now);
      RefreshKeepsWellFormed(t, i, u);
      (Some(u), UserTable(t.rows[i := u], t.nextId))
  }

  /** Rewriting a row of a well-formed table with the same id, email and
      azure_id keeps the table well formed. */
  lemma RefreshKeepsWellFormed(t: UserTable, i: int, u: User)
    requires 0 <= i < |t.rows|
    requires u.id == t.rows[i].id && u.email == t.rows[i].email && u.azureId == t.rows[i].azureId
    ensures WellFormed(t) ==> WellFormed(UserTable(t.rows[i := u], t.nextId))
  {
    if WellFormed(t) {
      StoredRowIsAdmitted(t, i);
      ReplaceKeepsWellFormed(t, i, u);
    }
  }

  /** The row an upsert writes over an existing user: name and azure_id
      replaced only by a truthy new value, last_login set to now. */
  function Refreshed(prior: User, name: Option<string>, azureId: Option<string>, now: int): User {
    prior.(name := if Given(name) then name else prior.name,
           azureId := if Given(azureId) then azureId else prior.azureId,
           lastLogin := now)
  }

  /** `create_or_update_user`: the user is found by email alone. An
      existing user keeps id and email, takes the new name and azure_id
      only when they are truthy, and gets last_login = now; the row count
      is unchanged. Otherwise `create_user` adds one row. A write the
      UNIQUE or NOT NULL constraints reject leaves the table as it was. */
  function CreateOrUpdateUser(t: UserTable, email: Option<string>, name: Option<string>, azureId: Option<string>,
                              now: int): (r: Outcome<(User, UserTable)>)
    ensures var i := EmailIndex(t, email);
            0 <= i && r.Returned? ==>
              && r.value.0.id == t.rows[i].id && r.value.0.email == t.rows[i].email
              && r.value.0.name == (if Given(name) then name else t.rows[i].name)
              && r.value.0.azureId == (if Given(azureId) then azureId else t.rows[i].azureId)
              && r.value.0.lastLogin == now
              && r.value.1 == UserTable(t.rows[i := r.value.0], t.nextId)
    ensures var i := EmailIndex(t, email);
            WellFormed(t) && 0 <= i && r.Raised? ==>
              && r.exc == IntegrityError("users.azure_id")
              && Given(azureId)
              && exists v :: v in Others(t.rows, i) && v.azureId == azureId
    ensures EmailIndex(t, email) < 0 ==> r == CreateUser(t, email, name, azureId, now)
  {
    var i := EmailIndex(t, email);
    if 0 <= i then
      var u := Refreshed(t.rows[i], name, azureId, now);
      match Violation(Others(t.rows, i), u)
      case Some(column) =>
        RefreshFailsOnlyOnAzureId(t, i, name, azureId, now);
        Raised(IntegrityError(column))
      case None => Returned((u, UserTable(t.rows[i := u], t.nextId)))
    else
      CreateUser(t, email, name, azureId, now)
  }

  /** In a well-formed table, refreshing the row at `i` can only collide
      with another row's azure_id, and only when a new one is given. */
  lemma RefreshFailsOnlyOnAzureId(t: UserTable, i: int, name: Option<string>, azureId: Option<string>, now: int)
    requires 0 <= i < |t.rows|
    requires Violation(Others(t.rows, i), Refreshed(t.rows[i], name, azureId, now)).Some?
    ensures WellFormed(t) ==>
              && Violation(Others(t.rows, i), Refreshed(t.rows[i], name, azureId, now)) == Some("users.azure_id")
              && Given(azureId)
              && exists v :: v in Others(t.rows, i) && v.azureId == azureId
  {
    if WellFormed(t) {
      StoredRowIsAdmitted(t, i);
    }
  }

  /** After a successful upsert of a well-formed table the table is still
      well formed, exactly one user has the email, and it is the one
      returned. */
  lemma UpsertLeavesOneUserPerEmail(t: UserTable, email: Option<string>, name: Option<string>,
                                                       azureId: Option<string>, now: int)
    requires WellFormed(t)
    requires CreateOrUpdateUser(t, email, name, azureId, now).Returned?
    ensures var (u, t') := CreateOrUpdateUser(t, email, name, azureId, now).value;
            && WellFormed(t')
            && u in t'.rows && u.email == email
            && (forall v :: v in t'.rows && v.email == email ==> v == u)
  {
    var (u, t') := CreateOrUpdateUser(t, email, name, azureId, now).value;
    var i := EmailIndex(t, email);
    if 0 <= i {
      assert Violation(Others(t.rows, i), u).None?;
      ReplaceKeepsWellFormed(t, i, u);
      assert t'.rows[i] == u;
    } else {
      assert t'.rows[|t.rows|] == u;
    }
    forall v | v in t'.rows && v.email == email
      ensures v == u
    {
      var j :| 0 <= j < |t'.rows| && t'.rows[j] == v;
      var k := if 0 <= i then i else |t.rows|;
      assert t'.rows[k] == u;
    }
  }

  /** The upsert never looks a user up by azure_id: a new email whose
      azure_id another user already holds is not merged with that user,
      and the insert fails on the UNIQUE constraint. */
  lemma AzureMatchIsNotMerged(t: UserTable, email: Option<string>, name: Option<string>,
                                                 azureId: Option<string>, now: int)
    requires GetUserByEmail(t, email).None?
    requires azureId.Some? && GetUserByAzureId(t, azureId).Some?
    ensures CreateOrUpdateUser(t, email, name, azureId, now)
              == Raised(IntegrityError(if email.Some? then "users.azure_id" else "users.email"))
  {
    var found := GetUserByAzureId(t, azureId).value;
    assert found in t.rows;
    if email.Some? {
      assert found.azureId == NewUser(t.nextId, email, name, azureId, now).azureId;
    }
  }
}
