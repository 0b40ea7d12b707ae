/**
 * The client store of reports (frontend/src/store/slices/reportsSlice.ts): the same
 * loading/error/list machine as the statistics store, plus `generateReport`, whose
 * fulfilled case appends the generated report.
 */
module ReportsSlice {
  import opened Wrappers
  import Collections
  import Thunk

  datatype ReportFormat = Pdf | Excel

  datatype Report = Report(
    id: string,
    name: string,
    description: string,
    statisticIds: seq<string>,
    format: ReportFormat,
    createdAt: string,
    updatedAt: string)

  function ReportId(r: Report): string { r.id }

  datatype Operation =
    | FetchReports
    | FetchReportById
    | CreateReport
    | UpdateReport
    | DeleteReport
    | GenerateReport

  function DefaultError(op: Operation): (m: string)
    ensures m != ""
  {
    match op
    case FetchReports => "Error al obtener los reportes"
    case FetchReportById => "Error al obtener el reporte"
    case CreateReport => "Error al crear el reporte"
    case UpdateReport => "Error al actualizar el reporte"
    case DeleteReport => "Error al eliminar el reporte"
    case GenerateReport => "Error al generar el reporte"
  }

  class ReportsStore {
    var reports: seq<Report>
    var loading: bool
    var error: Option<string>

    constructor ()
      ensures reports == [] && !loading && error == None
    {
      reports := [];
      loading := false;
      error := None;
    }

    method ClearError()
      modifies this
      ensures error == None
      ensures reports == old(reports) && loading == old(loading)
    {
      error := None;
    }

    /** `resetState`: empties the list and drops the error; `loading` is left as it is. */
    method ResetState()
      modifies this
      ensures reports == [] && error == None
      ensures loading == old(loading)
    {
      reports := [];
      error := None;
    }

    /** The pending case, identical for all six operations. */
    method Pending()
      modifies this
      ensures loading && error == None
      ensures reports == old(reports)
    {
      loading := true;
      error := None;
    }

    method FetchReportsFulfilled(payload: seq<Report>)
      modifies this
      ensures !loading && reports == payload
      ensures error == old(error)
    {
      loading := false;
      reports := payload;
    }

    method FetchReportByIdFulfilled(payload: Report)
      modifies this
      ensures !loading
      ensures reports == Collections.Upsert(old(reports), ReportId, payload)
      ensures error == old(error)
    {
      loading := false;
      var index := Collections.FindIndex(reports, ReportId, payload.id);
      if index != -1 {
        reports := reports[index := payload];
      } else {
        reports := reports + [payload];
      }
    }

    method CreateReportFulfilled(payload: Report)
      modifies this
      ensures !loading && reports == old(reports) + [payload]
      ensures error == old(error)
    {
      loading := false;
      reports := reports + [payload];
    }

    method UpdateReportFulfilled(payload: Report)
      modifies this
      ensures !loading
      ensures reports == Collections.ReplaceFirst(old(reports), ReportId, payload)
      ensures error == old(error)
    {
      loading := false;
      var index := Collections.FindIndex(reports, ReportId, payload.id);
      if index != -1 {
        reports := reports[index := payload];
      }
    }

    method DeleteReportFulfilled(id: string)
      modifies this
      ensures !loading
      ensures reports == Collections.RemoveAll(old(reports), ReportId, id)
      ensures error == old(error)
    {
      loading := false;
      reports := Collections.RemoveAll(reports, ReportId, id);
    }

    /** `generateReport.fulfilled`: like create, each success adds one more report. */
    method GenerateReportFulfilled(payload: Report)
      modifies this
      ensures !loading && reports == old(reports) + [payload]
      ensures error == old(error)
    {
      loading := false;
      reports := reports + [payload];
    }

    method Rejected(op: Operation, thrown: Option<string>)
      modifies this
      ensures !loading && error == Some(Thunk.RejectionMessage(thrown, DefaultError(op)))
      ensures reports == old(reports)
    {
      loading := false;
      error := Some(Thunk.RejectionMessage(thrown, DefaultError(op)));
    }
  }

  /** Generation is not idempotent: two successful calls add two reports, in call order. */
  method GenerateTwice(store: ReportsStore, first: Report, second: Report)
    modifies store
    ensures store.reports == old(store.reports) + [first, second]
    ensures |store.reports| == |old(store.reports)| + 2
  {
    store.Pending();
    store.GenerateReportFulfilled(first);
    store.Pending();
    store.GenerateReportFulfilled(second);
  }
}
