/**
 * The dashboard-configuration endpoints (backend/app/api/v1/endpoints/dashboard.py) over
 * an in-memory table. Every request acts for the authenticated user, given as `user`.
 * The table keeps at most one default configuration per user: create and update demote
 * the user's other defaults before setting a new one, and the default cannot be deleted.
 */
module DashboardEndpoints {
  import opened Wrappers
  import Collections
  import opened Http

  datatype ConfigRow = ConfigRow(
    id: int,
    name: string,
    layout: Json,
    widgets: Json,
    isDefault: bool,
    userId: int)

  /** `DashboardConfigCreate`. */
  datatype ConfigCreate = ConfigCreate(name: string, layout: Json, widgets: Json, isDefault: bool)

  /** `DashboardConfigUpdate` after `dict(exclude_unset=True)`: `Some` marks a field the request set. */
  datatype ConfigPatch = ConfigPatch(
    name: Option<string>,
    layout: Option<Json>,
    widgets: Option<Json>,
    isDefault: Option<bool>)

  const NotFound := "Configuración no encontrada"
  const NoDefault := "No se encontró una configuración por defecto"
  const DefaultUndeletable := "No se puede eliminar la configuración por defecto"

  function RowId(c: ConfigRow): int { c.id }

  /** The lookup key of `filter(id == config_id, user_id == current_user.id)`. */
  function IdAndOwner(c: ConfigRow): (int, int) { (c.id, c.userId) }

  /** The lookup key of `filter(user_id == current_user.id, is_default == True)`. */
  function OwnerAndDefault(c: ConfigRow): (int, bool) { (c.userId, c.isDefault) }

  function Owner(c: ConfigRow): int { c.userId }

  /** No user has two default configurations. */
  predicate AtMostOneDefault(rows: seq<ConfigRow>)
  {
    forall i, j | 0 <= i < j < |rows| && rows[i].isDefault && rows[j].isDefault ::
      rows[i].userId != rows[j].userId
  }

  /** One row after `is_default = False` is applied to the user's defaults other than `keep`. */
  function Demoted(c: ConfigRow, user: int, keep: Option<int>): ConfigRow
  {
    if c.userId == user && c.isDefault && keep != Some(c.id) then c.(isDefault := false) else c
  }

  /** The table after the demotion loop. */
  function DemoteAll(rows: seq<ConfigRow>, user: int, keep: Option<int>): (r: seq<ConfigRow>)
    ensures |r| == |rows|
    ensures forall i | 0 <= i < |rows| :: r[i] == Demoted(rows[i], user, keep)
    decreases |rows|
  {
    if |rows| == 0 then []
    else [Demoted(rows[0], user, keep)] + DemoteAll(rows[1..], user, keep)
  }

  /**
   * After the demotion, the only default the user can still have is `keep`; other users'
   * rows, all ids and all owners are unchanged, so the at-most-one-default property holds.
   */
  lemma DemoteAllSettlesDefaults(rows: seq<ConfigRow>, user: int, keep: Option<int>)
    requires AtMostOneDefault(rows)
    ensures var r := DemoteAll(rows, user, keep);
      && AtMostOneDefault(r)
      && (forall i | 0 <= i < |r| :: r[i].id == rows[i].id && r[i].userId == rows[i].userId)
      && (forall i | 0 <= i < |r| && r[i].userId == user && r[i].isDefault :: keep == Some(r[i].id))
      && (forall i | 0 <= i < |r| && r[i].userId != user :: r[i] == rows[i])
  {
  }

  /** Ids are unique and below the next id to assign, and no user has two defaults. */
  predicate Consistent(rows: seq<ConfigRow>, nextId: int)
  {
    && Collections.UniqueKeys(rows, RowId)
    && (forall i | 0 <= i < |rows| :: rows[i].id < nextId)
    && AtMostOneDefault(rows)
  }

  /**
   * Overwriting row `i` with a row of the same id and owner keeps the table consistent,
   * provided the new row is a default only where no other row of that owner is.
   */
  lemma ReplaceKeepsConsistent(rows: seq<ConfigRow>, nextId: int, i: int, c: ConfigRow)
    requires Consistent(rows, nextId) && 0 <= i < |rows|
    requires c.id == rows[i].id && c.userId == rows[i].userId
    requires c.isDefault ==>
      forall j | 0 <= j < |rows| && j != i && rows[j].userId == c.userId :: !rows[j].isDefault
    ensures Consistent(rows[i := c], nextId)
  {
    var r := rows[i := c];
    forall j | 0 <= j < |rows| ensures RowId(r[j]) == RowId(rows[j]) {
    }
  }

  /** Removing row `i` keeps the table consistent. */
  lemma RemoveKeepsConsistent(rows: seq<ConfigRow>, nextId: int, i: int)
    requires Consistent(rows, nextId) && 0 <= i < |rows|
    ensures Consistent(rows[..i] + rows[i + 1..], nextId)
  {
    var r := rows[..i] + rows[i + 1..];
    assert forall j | 0 <= j < |r| :: r[j] == rows[if j < i then j else j + 1];
  }

  /** `setattr` for exactly the fields the request set. */
  function Patched(c: ConfigRow, patch: ConfigPatch): (r: ConfigRow)
    ensures r.id == c.id && r.userId == c.userId
    ensures r.name == if patch.name.Some? then patch.name.value else c.name
    ensures r.layout == if patch.layout.Some? then patch.layout.value else c.layout
    ensures r.widgets == if patch.widgets.Some? then patch.widgets.value else c.widgets
    ensures r.isDefault == if patch.isDefault.Some? then patch.isDefault.value else c.isDefault
  {
    var c1 := if patch.name.Some? then c.(name := patch.name.value) else c;
    var c2 := if patch.layout.Some? then c1.(layout := patch.layout.value) else c1;
    var c3 := if patch.widgets.Some? then c2.(widgets := patch.widgets.value) else c2;
    if patch.isDefault.Some? then c3.(isDefault := patch.isDefault.value) else c3
  }

  class DashboardTable {
    var rows: seq<ConfigRow>
    /** The id the database assigns to the next inserted row. */
    var nextId: int

    ghost predicate Valid()
      reads this
    {
      Consistent(rows, nextId)
    }

    constructor ()
      ensures Valid() && rows == []
    {
      rows := [];
      nextId := 1;
    }

    /** `read_dashboard_configs`: exactly the current user's configurations. */
    function ReadConfigs(user: int): (r: seq<ConfigRow>)
      reads this
      ensures forall i | 0 <= i < |r| :: r[i] in rows && r[i].userId == user
      ensures forall i | 0 <= i < |rows| && rows[i].userId == user :: rows[i] in r
    {
      Collections.KeepAll(rows, Owner, user)
    }

    /** `read_default_dashboard_config`: a default of the user, or 404 when there is none. */
    function ReadDefault(user: int): (r: Outcome<ConfigRow>)
      reads this
      ensures r.Ok? ==> r.value in rows && r.value.userId == user && r.value.isDefault
      ensures r.Fail? <==> forall i | 0 <= i < |rows| :: !(rows[i].userId == user && rows[i].isDefault)
      ensures r.Fail? ==> r == Fail(404, NoDefault)
    {
      var i := Collections.FirstIndex(rows, OwnerAndDefault, (user, true));
      if i == -1 then Fail(404, NoDefault) else Ok(rows[i])
    }

    /** `read_dashboard_config`: the user's configuration with that id, or 404. */
    function ReadConfig(user: int, configId: int): (r: Outcome<ConfigRow>)
      reads this
      ensures r.Ok? <==> Collections.Has(rows, IdAndOwner, (configId, user))
      ensures r.Ok? ==> r.value in rows && r.value.id == configId && r.value.userId == user
      ensures r.Fail? ==> r == Fail(404, NotFound)
    {
      var i := Collections.FirstIndex(rows, IdAndOwner, (configId, user));
      if i == -1 then Fail(404, NotFound) else Ok(rows[i])
    }

    /** The loop `for config in default_configs: config.is_default = False`. */
    method DemoteDefaults(user: int, keep: Option<int>)
      modifies this
      ensures rows == DemoteAll(old(rows), user, keep)
      ensures nextId == old(nextId)
    {
      var i := 0;
      while i < |rows|
        invariant 0 <= i <= |rows| == |old(rows)|
        invariant nextId == old(nextId)
        invariant forall j | 0 <= j < i :: rows[j] == Demoted(old(rows)[j], user, keep)
        invariant forall j | i <= j < |rows| :: rows[j] == old(rows)[j]
      {
        if rows[i].userId == user && rows[i].isDefault && keep != Some(rows[i].id) {
          rows := rows[i := rows[i].(isDefault := false)];
        }
        i := i + 1;
      }
    }

    /**
     * `create_dashboard_config`: a new default first demotes the user's other defaults;
     * a non-default leaves every existing row as it was.
     */
    method Create(user: int, input: ConfigCreate) returns (created: ConfigRow)
      requires Valid()
      modifies this
      ensures Valid()
      ensures created == ConfigRow(old(nextId), input.name, input.layout, input.widgets, input.isDefault, user)
      ensures input.isDefault ==> rows == DemoteAll(old(rows), user, None) + [created]
      ensures !input.isDefault ==> rows == old(rows) + [created]
    {
      if input.isDefault {
        DemoteDefaults(user, None);
        DemoteAllSettlesDefaults(old(rows), user, None);
      }
      created := ConfigRow(nextId, input.name, input.layout, input.widgets, input.isDefault, user);
      ghost var before := rows;
      assert forall i | 0 <= i < |before| :: before[i].id == old(rows)[i].id;
      rows := rows + [created];
      nextId := nextId + 1;
      assert rows[..|before|] == before;
    }

    /**
     * `update_dashboard_config`: 404 for an absent or foreign id; otherwise the set fields
     * are applied, and setting `is_default` true first demotes the user's other defaults.
     */
    method Update(user: int, configId: int, patch: ConfigPatch) returns (r: Outcome<ConfigRow>)
      requires Valid()
      modifies this
      ensures Valid() && nextId == old(nextId)
      ensures !Collections.Has(old(rows), IdAndOwner, (configId, user)) ==>
        r == Fail(404, NotFound) && rows == old(rows)
      ensures Collections.Has(old(rows), IdAndOwner, (configId, user)) ==>
        var i := Collections.FirstIndex(old(rows), IdAndOwner, (configId, user));
        var demoted := if patch.isDefault == Some(true) then DemoteAll(old(rows), user, Some(configId)) else old(rows);
        r == Ok(Patched(old(rows)[i], patch)) && rows == demoted[i := r.value]
    {
      var i := Collections.FindIndex(rows, IdAndOwner, (configId, user));
      if i == -1 {
        return Fail(404, NotFound);
      }
      var config := rows[i];
      var updated := Patched(config, patch);
      if patch.isDefault == Some(true) {
        DemoteDefaults(user, Some(configId));
        DemoteAllSettlesDefaults(old(rows), user, Some(configId));
        assert Consistent(rows, nextId) by {
          forall j | 0 <= j < |rows| ensures RowId(rows[j]) == RowId(old(rows)[j]) {
          }
        }
        forall j | 0 <= j < |rows| && j != i && rows[j].userId == user
          ensures !rows[j].isDefault
        {
          assert RowId(rows[j]) != RowId(rows[i]);
        }
      }
      ReplaceKeepsConsistent(rows, nextId, i, updated);
      rows := rows[i := updated];
      r := Ok(updated);
    }

    /**
     * `delete_dashboard_config`: 404 for an absent or foreign id, 400 for the default;
     * otherwise exactly that row goes.
     */
    method Delete(user: int, configId: int) returns (r: Outcome<()>)
      requires Valid()
      modifies this
      ensures Valid() && nextId == old(nextId)
      ensures !Collections.Has(old(rows), IdAndOwner, (configId, user)) ==>
        r == Fail(404, NotFound) && rows == old(rows)
      ensures Collections.Has(old(rows), IdAndOwner, (configId, user)) ==>
        var i := Collections.FirstIndex(old(rows), IdAndOwner, (configId, user));
        if old(rows)[i].isDefault then
          r == Fail(400, DefaultUndeletable) && rows == old(rows)
        else
          r == Ok(()) && rows == Collections.RemoveAll(old(rows), RowId, configId)
          && |rows| == |old(rows)| - 1
    {
      var i := Collections.FindIndex(rows, IdAndOwner, (configId, user));
      if i == -1 {
        return Fail(404, NotFound);
      }
      if rows[i].isDefault {
        return Fail(400, DefaultUndeletable);
      }
      Collections.RemoveUniqueAt(rows, RowId, i);
      RemoveKeepsConsistent(rows, nextId, i);
      rows := rows[..i] + rows[i + 1..];
      r := Ok(());
    }
  }
}
