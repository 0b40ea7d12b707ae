/**
 * The client store of statistics (frontend/src/store/slices/statisticsSlice.ts): a
 * `loading` flag, an `error` message and the ordered list of statistics, moved by the
 * pending, fulfilled and rejected cases of five async operations. Each server reply is
 * an input to the case that handles it.
 */
module StatisticsSlice {
  import opened Wrappers
  import Collections
  import Thunk

  /** One labelled value (`label` is a Dafny keyword, so the field is `caption`). */
  datatype DataPoint = DataPoint(caption: string, value: real)

  datatype ChartType = Line | Bar | Pie | Table

  datatype Statistic = Statistic(
    id: string,
    name: string,
    description: string,
    chartType: ChartType,
    data: seq<DataPoint>,
    createdAt: string,
    updatedAt: string)

  /** The key the reducers search by (`s.id`). */
  function StatisticId(s: Statistic): string { s.id }

  /** The five async operations of the slice. */
  datatype Operation =
    | FetchStatistics
    | FetchStatisticById
    | CreateStatistic
    | UpdateStatistic
    | DeleteStatistic

  /** The error each rejected case records when the thrown error carries no message. */
  function DefaultError(op: Operation): (m: string)
    ensures m != ""
  {
    match op
    case FetchStatistics => "Error al obtener las estadísticas"
    case FetchStatisticById => "Error al obtener la estadística"
    case CreateStatistic => "Error al crear la estadística"
    case UpdateStatistic => "Error al actualizar la estadística"
    case DeleteStatistic => "Error al eliminar la estadística"
  }

  class StatisticsStore {
    var statistics: seq<Statistic>
    var loading: bool
    var error: Option<string>

    /** `initialState`. */
    constructor ()
      ensures statistics == [] && !loading && error == None
    {
      statistics := [];
      loading := false;
      error := None;
    }

    /** `clearError`: only the error is dropped. */
    method ClearError()
      modifies this
      ensures error == None
      ensures statistics == old(statistics) && loading == old(loading)
    {
      error := None;
    }

    /** `resetState`: empties the list and drops the error; `loading` is left as it is. */
    method ResetState()
      modifies this
      ensures statistics == [] && error == None
      ensures loading == old(loading)
    {
      statistics := [];
      error := None;
    }

    /** The pending case, identical for all five operations. */
    method Pending()
      modifies this
      ensures loading && error == None
      ensures statistics == old(statistics)
    {
      loading := true;
      error := None;
    }

    /** `fetchStatistics.fulfilled`: the list becomes exactly the server's list, in its order. */
    method FetchStatisticsFulfilled(payload: seq<Statistic>)
      modifies this
      ensures !loading && statistics == payload
      ensures error == old(error)
    {
      loading := false;
      statistics := payload;
    }

    /** `fetchStatisticById.fulfilled`: overwrite the first entry with the same id, else append. */
    method FetchStatisticByIdFulfilled(payload: Statistic)
      modifies this
      ensures !loading
      ensures statistics == Collections.Upsert(old(statistics), StatisticId, payload)
      ensures error == old(error)
    {
      loading := false;
      var index := Collections.FindIndex(statistics, StatisticId, payload.id);
      if index != -1 {
        statistics := statistics[index := payload];
      } else {
        statistics := statistics + [payload];
      }
    }

    /** `createStatistic.fulfilled`: the server's statistic goes to the end of the list. */
    method CreateStatisticFulfilled(payload: Statistic)
      modifies this
      ensures !loading && statistics == old(statistics) + [payload]
      ensures error == old(error)
    {
      loading := false;
      statistics := statistics + [payload];
    }

    /** `updateStatistic.fulfilled`: overwrite the first entry with the same id; no match, no change. */
    method UpdateStatisticFulfilled(payload: Statistic)
      modifies this
      ensures !loading
      ensures statistics == Collections.ReplaceFirst(old(statistics), StatisticId, payload)
      ensures error == old(error)
    {
      loading := false;
      var index := Collections.FindIndex(statistics, StatisticId, payload.id);
      if index != -1 {
        statistics := statistics[index := payload];
      }
    }

    /** `deleteStatistic.fulfilled`: every entry with the deleted id is filtered out. */
    method DeleteStatisticFulfilled(id: string)
      modifies this
      ensures !loading
      ensures statistics == Collections.RemoveAll(old(statistics), StatisticId, id)
      ensures error == old(error)
    {
      loading := false;
      statistics := Collections.RemoveAll(statistics, StatisticId, id);
    }

    /** The rejected case of `op`: the list is kept (stale but available). */
    method Rejected(op: Operation, thrown: Option<string>)
      modifies this
      ensures !loading && error == Some(Thunk.RejectionMessage(thrown, DefaultError(op)))
      ensures statistics == old(statistics)
    {
      loading := false;
      error := Some(Thunk.RejectionMessage(thrown, DefaultError(op)));
    }
  }
}
