/**
 * The report endpoints (backend/app/api/v1/endpoints/reports.py) over an in-memory
 * table. Requests act for the authenticated user and see only that user's reports.
 * Queuing a background generation job is recorded as an appended `Job`; the files the
 * jobs produce are a set of paths on disk, from which delete and type changes remove.
 */
module ReportsEndpoints {
  import opened Wrappers
  import Collections
  import opened Http

  datatype ReportType = Excel | Pdf | DashboardReport

  datatype ReportRow = ReportRow(
    id: int,
    title: string,
    description: Option<string>,
    reportType: ReportType,
    filePath: Option<string>,
    parameters: Option<string>,
    userId: int,
    statistics: seq<int>)

  /** `ReportCreate`. */
  datatype ReportCreate = ReportCreate(
    title: string,
    description: Option<string>,
    reportType: ReportType,
    parameters: Option<string>)

  /** `ReportUpdate` after `dict(exclude_unset=True)`: `Some` marks a field the request set. */
  datatype ReportPatch = ReportPatch(
    title: Option<string>,
    description: Option<Option<string>>,
    reportType: Option<ReportType>,
    parameters: Option<Option<string>>)

  /** A background generation request (`generate_excel_report.delay`, `generate_pdf_report.delay`). */
  datatype Job = ExcelJob(reportId: int) | PdfJob(reportId: int)

  const NotFound := "Reporte no encontrado"
  const StatisticNotFound := "Estadística no encontrada"

  function RowId(r: ReportRow): int { r.id }
  function Owner(r: ReportRow): int { r.userId }
  function IdAndOwner(r: ReportRow): (int, int) { (r.id, r.userId) }

  /** The jobs requested for a report of type `t`: one for Excel or PDF, none for a dashboard. */
  function JobsFor(t: ReportType, id: int): (r: seq<Job>)
    ensures |r| <= 1
    ensures |r| == 1 <==> t != DashboardReport
    ensures forall j | j in r :: j.reportId == id
    ensures r == [ExcelJob(id)] <==> t == Excel
  {
    match t
    case Excel => [ExcelJob(id)]
    case Pdf => [PdfJob(id)]
    case DashboardReport => []
  }

  /** `setattr` for exactly the fields the request set; the file path is not one of them. */
  function Patched(r: ReportRow, patch: ReportPatch): (p: ReportRow)
    ensures p.id == r.id && p.userId == r.userId
    ensures p.filePath == r.filePath && p.statistics == r.statistics
    ensures p.title == if patch.title.Some? then patch.title.value else r.title
    ensures p.description == if patch.description.Some? then patch.description.value else r.description
    ensures p.reportType == if patch.reportType.Some? then patch.reportType.value else r.reportType
    ensures p.parameters == if patch.parameters.Some? then patch.parameters.value else r.parameters
  {
    var r1 := if patch.title.Some? then r.(title := patch.title.value) else r;
    var r2 := if patch.description.Some? then r1.(description := patch.description.value) else r1;
    var r3 := if patch.reportType.Some? then r2.(reportType := patch.reportType.value) else r2;
    if patch.parameters.Some? then r3.(parameters := patch.parameters.value) else r3
  }

  /** The request changes the report's type. */
  predicate ChangesType(r: ReportRow, patch: ReportPatch)
  {
    patch.reportType.Some? && patch.reportType.value != r.reportType
  }

  /** The report after an update: a type change first forgets the generated file. */
  function Updated(r: ReportRow, patch: ReportPatch): (u: ReportRow)
    ensures u.filePath == if ChangesType(r, patch) then None else r.filePath
    ensures u.id == r.id && u.userId == r.userId && u.statistics == r.statistics
  {
    Patched(if ChangesType(r, patch) then r.(filePath := None) else r, patch)
  }

  /** The file paths left on disk once `path` (if truthy) is removed. */
  function WithoutFile(files: set<string>, path: Option<string>): (r: set<string>)
    ensures r <= files
    ensures Truthy(path) ==> path.value !in r && r == files - {path.value}
    ensures !Truthy(path) ==> r == files
  {
    if Truthy(path) then files - {path.value} else files
  }

  /** Regeneration after an update is requested exactly when the report has no file. */
  function RegenerationJobs(r: ReportRow): (jobs: seq<Job>)
    ensures Truthy(r.filePath) ==> jobs == []
    ensures !Truthy(r.filePath) ==> jobs == JobsFor(r.reportType, r.id)
  {
    if Truthy(r.filePath) then [] else JobsFor(r.reportType, r.id)
  }

  /** A type change always yields a regeneration request unless the new type is a dashboard. */
  lemma TypeChangeRegenerates(r: ReportRow, patch: ReportPatch)
    requires ChangesType(r, patch)
    ensures |RegenerationJobs(Updated(r, patch))| == if patch.reportType.value == DashboardReport then 0 else 1
  {
  }

  /** Ids are unique and below the next id to assign. */
  predicate Consistent(rows: seq<ReportRow>, nextId: int)
  {
    && Collections.UniqueKeys(rows, RowId)
    && (forall i | 0 <= i < |rows| :: rows[i].id < nextId)
  }

  /** Overwriting a row with one of the same id keeps the table consistent. */
  lemma ReplaceKeepsConsistent(rows: seq<ReportRow>, nextId: int, i: int, report: ReportRow)
    requires Consistent(rows, nextId) && 0 <= i < |rows| && report.id == rows[i].id
    ensures Consistent(rows[i := report], nextId)
  {
    assert forall j | 0 <= j < |rows| :: RowId(rows[i := report][j]) == RowId(rows[j]);
  }

  class ReportsTable {
    var rows: seq<ReportRow>
    var nextId: int
    /** Generation requests handed to the worker queue, oldest first. */
    var jobs: seq<Job>
    /** The paths of generated files present on disk. */
    var files: set<string>

    ghost predicate Valid()
      reads this
    {
      Consistent(rows, nextId)
    }

    constructor ()
      ensures Valid() && rows == [] && jobs == [] && files == {}
    {
      rows := [];
      nextId := 1;
      jobs := [];
      files := {};
    }

    /** `read_reports`: a `skip`/`limit` window of the current user's reports. */
    function ReadReports(user: int, skip: nat, limit: nat): (r: seq<ReportRow>)
      reads this
      ensures |r| <= limit
      ensures forall i | 0 <= i < |r| :: r[i] in rows && r[i].userId == user
      ensures r == Page(Collections.KeepAll(rows, Owner, user), skip, limit)
    {
      Page(Collections.KeepAll(rows, Owner, user), skip, limit)
    }

    /** `read_report`: the user's report with that id, or 404. */
    function ReadReport(user: int, reportId: int): (r: Outcome<ReportRow>)
      reads this
      ensures r.Ok? <==> Collections.Has(rows, IdAndOwner, (reportId, user))
      ensures r.Ok? ==> r.value in rows && r.value.id == reportId && r.value.userId == user
      ensures r.Fail? ==> r == Fail(404, NotFound)
    {
      var i := Collections.FirstIndex(rows, IdAndOwner, (reportId, user));
      if i == -1 then Fail(404, NotFound) else Ok(rows[i])
    }

    /** `create_report`: stores the report for the user and requests its generation by type. */
    method Create(user: int, input: ReportCreate) returns (created: ReportRow)
      requires Valid()
      modifies this
      ensures Valid()
      ensures created == ReportRow(old(nextId), input.title, input.description, input.reportType,
                                   None, input.parameters, user, [])
      ensures rows == old(rows) + [created]
      ensures jobs == old(jobs) + JobsFor(input.reportType, created.id)
      ensures files == old(files)
    {
      created := ReportRow(nextId, input.title, input.description, input.reportType,
                           None, input.parameters, user, []);
      rows := rows + [created];
      nextId := nextId + 1;
      if created.reportType == Excel {
        jobs := jobs + [ExcelJob(created.id)];
      } else if created.reportType == Pdf {
        jobs := jobs + [PdfJob(created.id)];
      }
    }

    /**
     * `update_report`: 404 for an absent or foreign report; a type change removes the
     * generated file and clears the path; the set fields are applied; and if the report
     * is then without a file, its regeneration is requested.
     */
    method Update(user: int, reportId: int, patch: ReportPatch) returns (r: Outcome<ReportRow>)
      requires Valid()
      modifies this
      ensures Valid() && nextId == old(nextId)
      ensures !Collections.Has(old(rows), IdAndOwner, (reportId, user)) ==>
        r == Fail(404, NotFound) && rows == old(rows) && jobs == old(jobs) && files == old(files)
      ensures Collections.Has(old(rows), IdAndOwner, (reportId, user)) ==>
        var i := Collections.FirstIndex(old(rows), IdAndOwner, (reportId, user));
        var before := old(rows)[i];
        && r == Ok(Updated(before, patch))
        && rows == old(rows)[i := r.value]
        && files == (if ChangesType(before, patch) then WithoutFile(old(files), before.filePath) else old(files))
        && jobs == old(jobs) + RegenerationJobs(r.value)
    {
      var i := Collections.FindIndex(rows, IdAndOwner, (reportId, user));
      if i == -1 {
        return Fail(404, NotFound);
      }
      var report := rows[i];
      ghost var before := report;
      if patch.reportType.Some? && patch.reportType.value != report.reportType {
        if Truthy(report.filePath) && report.filePath.value in files {
          files := files - {report.filePath.value};
        }
        report := report.(filePath := None);
      }
      assert files == if ChangesType(before, patch) then WithoutFile(old(files), before.filePath) else old(files);
      report := Patched(report, patch);
      assert report == Updated(before, patch);
      ReplaceKeepsConsistent(rows, nextId, i, report);
      rows := rows[i := report];
      ghost var queued := jobs;
      if !Truthy(report.filePath) {
        if report.reportType == Excel {
          jobs := jobs + [ExcelJob(report.id)];
        } else if report.reportType == Pdf {
          jobs := jobs + [PdfJob(report.id)];
        }
      }
      assert jobs == queued + RegenerationJobs(report);
      r := Ok(report);
    }

    /** `delete_report`: 404 for an absent or foreign report; otherwise its file and row go. */
    method Delete(user: int, reportId: int) returns (r: Outcome<()>)
      requires Valid()
      modifies this
      ensures Valid() && nextId == old(nextId) && jobs == old(jobs)
      ensures !Collections.Has(old(rows), IdAndOwner, (reportId, user)) ==>
        r == Fail(404, NotFound) && rows == old(rows) && files == old(files)
      ensures Collections.Has(old(rows), IdAndOwner, (reportId, user)) ==>
        var i := Collections.FirstIndex(old(rows), IdAndOwner, (reportId, user));
        && r == Ok(())
        && rows == Collections.RemoveAll(old(rows), RowId, reportId)
        && |rows| == |old(rows)| - 1
        && files == WithoutFile(old(files), old(rows)[i].filePath)
    {
      var i := Collections.FindIndex(rows, IdAndOwner, (reportId, user));
      if i == -1 {
        return Fail(404, NotFound);
      }
      var path := rows[i].filePath;
      if Truthy(path) && path.value in files {
        files := files - {path.value};
      }
      Collections.RemoveUniqueAt(rows, RowId, i);
      Collections.RemoveAllKeepsKeysUnique(rows, RowId, reportId);
      rows := rows[..i] + rows[i + 1..];
      assert forall j | 0 <= j < |rows| :: rows[j] in old(rows);
      r := Ok(());
    }

    /**
     * `add_statistic_to_report`: 404 for an absent or foreign report, then 404 for a
     * statistic id not in `statisticIds` (the statistics table); otherwise the statistic
     * is appended to the report's list and the report's regeneration is requested.
     */
    method AddStatistic(user: int, reportId: int, statisticId: int, statisticIds: set<int>)
      returns (r: Outcome<()>)
      requires Valid()
      modifies this
      ensures Valid() && nextId == old(nextId) && files == old(files)
      ensures !Collections.Has(old(rows), IdAndOwner, (reportId, user)) ==>
        r == Fail(404, NotFound) && rows == old(rows) && jobs == old(jobs)
      ensures Collections.Has(old(rows), IdAndOwner, (reportId, user)) && statisticId !in statisticIds ==>
        r == Fail(404, StatisticNotFound) && rows == old(rows) && jobs == old(jobs)
      ensures Collections.Has(old(rows), IdAndOwner, (reportId, user)) && statisticId in statisticIds ==>
        var i := Collections.FirstIndex(old(rows), IdAndOwner, (reportId, user));
        var before := old(rows)[i];
        && r == Ok(())
        && rows == old(rows)[i := before.(statistics := before.statistics + [statisticId])]
        && jobs == old(jobs) + JobsFor(before.reportType, reportId)
    {
      var i := Collections.FindIndex(rows, IdAndOwner, (reportId, user));
      if i == -1 {
        return Fail(404, NotFound);
      }
      if statisticId !in statisticIds {
        return Fail(404, StatisticNotFound);
      }
      var report := rows[i];
      report := report.(statistics := report.statistics + [statisticId]);
      ReplaceKeepsConsistent(rows, nextId, i, report);
      rows := rows[i := report];
      if report.reportType == Excel {
        jobs := jobs + [ExcelJob(report.id)];
      } else if report.reportType == Pdf {
        jobs := jobs + [PdfJob(report.id)];
      }
      r := Ok(());
    }
  }
}
