/**
 * The client store of dashboard configurations
 * (frontend/src/store/slices/dashboardSlice.ts): the loading/error/list machine plus the
 * `currentConfiguration` selection, which create and fetch-by-id set, update and
 * set-default refresh when it has the payload's id, and delete clears when it has the
 * deleted id.
 */
module DashboardSlice {
  import opened Wrappers
  import Collections
  import Thunk

  datatype Position = Position(x: int, y: int, w: int, h: int)

  datatype Widget = Widget(id: string, widgetType: string, title: string, position: Position)

  datatype DashboardConfig = DashboardConfig(
    id: string,
    name: string,
    description: string,
    isDefault: bool,
    widgets: seq<Widget>,
    createdAt: string,
    updatedAt: string)

  function ConfigId(c: DashboardConfig): string { c.id }

  /** `currentConfiguration?.id === id`: false when nothing is selected. */
  predicate Selected(current: Option<DashboardConfig>, id: string)
  {
    current.Some? && current.value.id == id
  }

  datatype Operation =
    | FetchConfigs
    | FetchConfigById
    | CreateConfig
    | UpdateConfig
    | DeleteConfig
    | SetDefaultConfig

  function DefaultError(op: Operation): (m: string)
    ensures m != ""
  {
    match op
    case FetchConfigs => "Error al obtener las configuraciones"
    case FetchConfigById => "Error al obtener la configuración"
    case CreateConfig => "Error al crear la configuración"
    case UpdateConfig => "Error al actualizar la configuración"
    case DeleteConfig => "Error al eliminar la configuración"
    case SetDefaultConfig => "Error al establecer la configuración por defecto"
  }

  class DashboardStore {
    var configurations: seq<DashboardConfig>
    var currentConfiguration: Option<DashboardConfig>
    var loading: bool
    var error: Option<string>

    constructor ()
      ensures configurations == [] && currentConfiguration == None
      ensures !loading && error == None
    {
      configurations := [];
      currentConfiguration := None;
      loading := false;
      error := None;
    }

    method ClearError()
      modifies this
      ensures error == None
      ensures configurations == old(configurations)
      ensures currentConfiguration == old(currentConfiguration) && loading == old(loading)
    {
      error := None;
    }

    /** `setCurrentConfig`: the selection becomes the payload (possibly null), nothing else moves. */
    method SetCurrentConfig(payload: Option<DashboardConfig>)
      modifies this
      ensures currentConfiguration == payload
      ensures configurations == old(configurations)
      ensures loading == old(loading) && error == old(error)
    {
      currentConfiguration := payload;
    }

    /** `resetState`: empties the list, drops selection and error; `loading` is left as it is. */
    method ResetState()
      modifies this
      ensures configurations == [] && currentConfiguration == None && error == None
      ensures loading == old(loading)
    {
      configurations := [];
      currentConfiguration := None;
      error := None;
    }

    method Pending()
      modifies this
      ensures loading && error == None
      ensures configurations == old(configurations)
      ensures currentConfiguration == old(currentConfiguration)
    {
      loading := true;
      error := None;
    }

    /** `fetchDashboardConfigs.fulfilled`: the list is replaced; the selection is not touched. */
    method FetchConfigsFulfilled(payload: seq<DashboardConfig>)
      modifies this
      ensures !loading && configurations == payload
      ensures currentConfiguration == old(currentConfiguration) && error == old(error)
    {
      loading := false;
      configurations := payload;
    }

    /** `fetchDashboardConfigById.fulfilled`: upsert by id and select the payload. */
    method FetchConfigByIdFulfilled(payload: DashboardConfig)
      modifies this
      ensures !loading
      ensures configurations == Collections.Upsert(old(configurations), ConfigId, payload)
      ensures currentConfiguration == Some(payload)
      ensures error == old(error)
    {
      loading := false;
      var index := Collections.FindIndex(configurations, ConfigId, payload.id);
      if index != -1 {
        configurations := configurations[index := payload];
      } else {
        configurations := configurations + [payload];
      }
      currentConfiguration := Some(payload);
    }

    /** `createDashboardConfig.fulfilled`: append and select the payload. */
    method CreateConfigFulfilled(payload: DashboardConfig)
      modifies this
      ensures !loading && configurations == old(configurations) + [payload]
      ensures currentConfiguration == Some(payload)
      ensures error == old(error)
    {
      loading := false;
      configurations := configurations + [payload];
      currentConfiguration := Some(payload);
    }

    /**
     * The fulfilled case shared, line for line, by `updateDashboardConfig` and
     * `setDefaultDashboardConfig`: overwrite the first entry with the payload's id and
     * refresh the selection only when it has that id. Other entries keep their
     * `isDefault` flags even when the server has just cleared them.
     */
    method ReplaceFulfilled(payload: DashboardConfig)
      modifies this
      ensures !loading
      ensures configurations == Collections.ReplaceFirst(old(configurations), ConfigId, payload)
      ensures currentConfiguration ==
        if Selected(old(currentConfiguration), payload.id) then Some(payload)
        else old(currentConfiguration)
      ensures error == old(error)
    {
      loading := false;
      var index := Collections.FindIndex(configurations, ConfigId, payload.id);
      if index != -1 {
        configurations := configurations[index := payload];
      }
      if Selected(currentConfiguration, payload.id) {
        currentConfiguration := Some(payload);
      }
    }

    /** `updateDashboardConfig.fulfilled`. */
    method UpdateConfigFulfilled(payload: DashboardConfig)
      modifies this
      ensures !loading
      ensures configurations == Collections.ReplaceFirst(old(configurations), ConfigId, payload)
      ensures currentConfiguration ==
        if Selected(old(currentConfiguration), payload.id) then Some(payload)
        else old(currentConfiguration)
      ensures error == old(error)
    {
      ReplaceFulfilled(payload);
    }

    /** `setDefaultDashboardConfig.fulfilled`: only the returned entry is replaced. */
    method SetDefaultConfigFulfilled(payload: DashboardConfig)
      modifies this
      ensures !loading
      ensures configurations == Collections.ReplaceFirst(old(configurations), ConfigId, payload)
      ensures currentConfiguration ==
        if Selected(old(currentConfiguration), payload.id) then Some(payload)
        else old(currentConfiguration)
      ensures error == old(error)
    {
      ReplaceFulfilled(payload);
    }

    /** `deleteDashboardConfig.fulfilled`: filter out the id; clear the selection iff it has that id. */
    method DeleteConfigFulfilled(id: string)
      modifies this
      ensures !loading
      ensures configurations == Collections.RemoveAll(old(configurations), ConfigId, id)
      ensures currentConfiguration ==
        if Selected(old(currentConfiguration), id) then None else old(currentConfiguration)
      ensures error == old(error)
    {
      loading := false;
      configurations := Collections.RemoveAll(configurations, ConfigId, id);
      if Selected(currentConfiguration, id) {
        currentConfiguration := None;
      }
    }

    /** Any rejected case: list and selection stay as they were. */
    method Rejected(op: Operation, thrown: Option<string>)
      modifies this
      ensures !loading && error == Some(Thunk.RejectionMessage(thrown, DefaultError(op)))
      ensures configurations == old(configurations)
      ensures currentConfiguration == old(currentConfiguration)
    {
      loading := false;
      error := Some(Thunk.RejectionMessage(thrown, DefaultError(op)));
    }
  }

  /**
   * The client does not demote the previous default when the server makes another one
   * the default: right after a successful set-default, two entries can be flagged.
   */
  lemma SetDefaultKeepsStaleDefault()
    ensures
      var w := DashboardConfig("1", "a", "", true, [], "", "");
      var v := DashboardConfig("2", "b", "", false, [], "", "");
      var after := Collections.ReplaceFirst([w, v], ConfigId, v.(isDefault := true));
      after[0].isDefault && after[1].isDefault
  {
    var w := DashboardConfig("1", "a", "", true, [], "", "");
    var v := DashboardConfig("2", "b", "", false, [], "", "");
    assert ConfigId([w, v][0]) != "2";
    assert Collections.FirstIndex([w, v], ConfigId, "2") == 1;
  }
}
