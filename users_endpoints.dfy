/**
 * The user-administration endpoints (backend/app/api/v1/endpoints/users.py) over an
 * in-memory table. The acting administrator is given as `currentUserId`. Password
 * hashing is the table's `hash` function, which the model leaves uninterpreted.
 */
module UsersEndpoints {
  import opened Wrappers
  import Collections
  import opened Http

  datatype Role = Admin | User

  datatype UserRow = UserRow(
    id: int,
    email: string,
    hashedPassword: string,
    fullName: string,
    role: Role,
    isActive: bool)

  datatype UserCreate = UserCreate(email: string, password: string, fullName: string, role: Role)

  /** The update body after `dict(exclude_unset=True)`: `Some` marks a field the request set. */
  datatype UserPatch = UserPatch(
    email: Option<string>,
    password: Option<string>,
    fullName: Option<string>,
    role: Option<Role>,
    isActive: Option<bool>)

  const DuplicateEmail := "El usuario con este email ya existe en el sistema."
  const NotFound := "Usuario no encontrado"
  const SelfDelete := "No puedes eliminar tu propio usuario"
  /** What the server answers when the e-mail index rejects a commit. */
  const IndexViolation := "Internal Server Error"

  function RowId(u: UserRow): int { u.id }
  function Email(u: UserRow): string { u.email }

  /** Ids and e-mails are unique, and ids are below the next id to assign. */
  predicate Consistent(rows: seq<UserRow>, nextId: int)
  {
    && Collections.UniqueKeys(rows, RowId)
    && Collections.UniqueKeys(rows, Email)
    && (forall i | 0 <= i < |rows| :: rows[i].id < nextId)
  }

  /**
   * `setattr` for exactly the fields the request set, where a supplied password is
   * replaced by its hash before anything is stored.
   */
  function Patched(u: UserRow, patch: UserPatch, hash: string -> string): (r: UserRow)
    ensures r.id == u.id
    ensures r.email == if patch.email.Some? then patch.email.value else u.email
    ensures r.hashedPassword == if patch.password.Some? then hash(patch.password.value) else u.hashedPassword
    ensures r.fullName == if patch.fullName.Some? then patch.fullName.value else u.fullName
    ensures r.role == if patch.role.Some? then patch.role.value else u.role
    ensures r.isActive == if patch.isActive.Some? then patch.isActive.value else u.isActive
  {
    var u1 := if patch.email.Some? then u.(email := patch.email.value) else u;
    var u2 := if patch.password.Some? then u1.(hashedPassword := hash(patch.password.value)) else u1;
    var u3 := if patch.fullName.Some? then u2.(fullName := patch.fullName.value) else u2;
    var u4 := if patch.role.Some? then u3.(role := patch.role.value) else u3;
    if patch.isActive.Some? then u4.(isActive := patch.isActive.value) else u4
  }

  /** Another row than `i` already has e-mail `email`: the unique index on `email` would refuse the commit. */
  predicate EmailTakenElsewhere(rows: seq<UserRow>, i: int, email: string)
  {
    exists j | 0 <= j < |rows| :: j != i && rows[j].email == email
  }

  /**
   * Overwriting row `i` with a row of the same id whose e-mail no other row has keeps
   * the table consistent.
   */
  lemma ReplaceKeepsConsistent(rows: seq<UserRow>, nextId: int, i: int, u: UserRow)
    requires Consistent(rows, nextId) && 0 <= i < |rows| && u.id == rows[i].id
    requires !EmailTakenElsewhere(rows, i, u.email)
    ensures Consistent(rows[i := u], nextId)
  {
    var r := rows[i := u];
    assert forall j | 0 <= j < |rows| :: RowId(r[j]) == RowId(rows[j]);
    forall j, k | 0 <= j < k < |r| ensures Email(r[j]) != Email(r[k]) {
      if j != i && k != i {
        assert Email(r[j]) == Email(rows[j]) && Email(r[k]) == Email(rows[k]);
      }
    }
  }

  /** Removing row `i` keeps the table consistent. */
  lemma RemoveKeepsConsistent(rows: seq<UserRow>, nextId: int, i: int)
    requires Consistent(rows, nextId) && 0 <= i < |rows|
    ensures Consistent(rows[..i] + rows[i + 1..], nextId)
  {
    var r := rows[..i] + rows[i + 1..];
    assert forall j | 0 <= j < |r| :: r[j] == rows[if j < i then j else j + 1];
  }

  class UsersTable {
    /** `security.get_password_hash`. */
    const hash: string -> string
    var rows: seq<UserRow>
    var nextId: int

    ghost predicate Valid()
      reads this
    {
      Consistent(rows, nextId)
    }

    constructor (hash: string -> string)
      ensures Valid() && rows == [] && this.hash == hash
    {
      this.hash := hash;
      rows := [];
      nextId := 1;
    }

    /** `read_users`: a `skip`/`limit` window of all users. */
    function ReadUsers(skip: nat, limit: nat): (r: seq<UserRow>)
      reads this
      ensures r == Page(rows, skip, limit)
    {
      Page(rows, skip, limit)
    }

    /**
     * `create_user`: 400 when the e-mail is taken; otherwise an active user storing the
     * hash of the password, never the password itself.
     */
    method Create(input: UserCreate) returns (r: Outcome<UserRow>)
      requires Valid()
      modifies this
      ensures Valid()
      ensures Collections.Has(old(rows), Email, input.email) ==>
        r == Fail(400, DuplicateEmail) && rows == old(rows) && nextId == old(nextId)
      ensures !Collections.Has(old(rows), Email, input.email) ==>
        && r == Ok(UserRow(old(nextId), input.email, hash(input.password), input.fullName, input.role, true))
        && rows == old(rows) + [r.value]
    {
      var existing := Collections.FindIndex(rows, Email, input.email);
      if existing != -1 {
        return Fail(400, DuplicateEmail);
      }
      var user := UserRow(nextId, input.email, hash(input.password), input.fullName, input.role, true);
      Collections.AppendKeepsKeysUnique(rows, Email, user);
      assert !Collections.Has(rows, RowId, user.id);
      Collections.AppendKeepsKeysUnique(rows, RowId, user);
      rows := rows + [user];
      nextId := nextId + 1;
      r := Ok(user);
    }

    /**
     * `update_user`: 404 for an unknown id; otherwise the set fields are applied, a
     * supplied password as its hash. An e-mail another user already has is refused by
     * the table's unique index when the change is committed, and nothing changes.
     */
    method Update(userId: int, patch: UserPatch) returns (r: Outcome<UserRow>)
      requires Valid()
      modifies this
      ensures Valid() && nextId == old(nextId)
      ensures !Collections.Has(old(rows), RowId, userId) ==>
        r == Fail(404, NotFound) && rows == old(rows)
      ensures Collections.Has(old(rows), RowId, userId) ==>
        var i := Collections.FirstIndex(old(rows), RowId, userId);
        var updated := Patched(old(rows)[i], patch, hash);
        if EmailTakenElsewhere(old(rows), i, updated.email) then
          r == Fail(500, IndexViolation) && rows == old(rows)
        else
          r == Ok(updated) && rows == old(rows)[i := updated]
    {
      var i := Collections.FindIndex(rows, RowId, userId);
      if i == -1 {
        return Fail(404, NotFound);
      }
      var updated := Patched(rows[i], patch, hash);
      if EmailTakenElsewhere(rows, i, updated.email) {
        return Fail(500, IndexViolation);
      }
      ReplaceKeepsConsistent(rows, nextId, i, updated);
      rows := rows[i := updated];
      r := Ok(updated);
    }

    /**
     * `delete_user`: 404 for an unknown id, 400 for the acting user's own account;
     * otherwise exactly that user goes.
     */
    method Delete(userId: int, currentUserId: int) returns (r: Outcome<()>)
      requires Valid()
      modifies this
      ensures Valid() && nextId == old(nextId)
      ensures !Collections.Has(old(rows), RowId, userId) ==>
        r == Fail(404, NotFound) && rows == old(rows)
      ensures Collections.Has(old(rows), RowId, userId) && userId == currentUserId ==>
        r == Fail(400, SelfDelete) && rows == old(rows)
      ensures Collections.Has(old(rows), RowId, userId) && userId != currentUserId ==>
        && r == Ok(())
        && rows == Collections.RemoveAll(old(rows), RowId, userId)
        && |rows| == |old(rows)| - 1
    {
      var i := Collections.FindIndex(rows, RowId, userId);
      if i == -1 {
        return Fail(404, NotFound);
      }
      if rows[i].id == currentUserId {
        return Fail(400, SelfDelete);
      }
      Collections.RemoveUniqueAt(rows, RowId, i);
      RemoveKeepsConsistent(rows, nextId, i);
      rows := rows[..i] + rows[i + 1..];
      r := Ok(());
    }
  }
}
