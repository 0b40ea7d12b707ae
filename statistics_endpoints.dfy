/**
 * The statistics endpoints (backend/app/api/v1/endpoints/statistics.py) over an
 * in-memory table. Reading the uploaded workbook is a foreign call (pandas), so the
 * upload takes its outcome as a parameter: the parsed sheet, or the message of the
 * exception raised while parsing or storing it.
 */
module StatisticsEndpoints {
  import opened Wrappers
  import Collections
  import opened Http

  /** The `metadata` an upload records: the sheet's column names and row count. */
  datatype Metadata = SheetShape(columns: seq<string>, rowCount: nat) | Other(json: Json)

  datatype StatisticRow = StatisticRow(
    id: int,
    title: string,
    description: Option<string>,
    category: string,
    data: Json,
    sourceFile: Option<string>,
    metadata: Option<Metadata>)

  /** What reading the workbook yields: its records and its shape. */
  datatype Sheet = Sheet(records: Json, columns: seq<string>, rowCount: nat)

  /**
   * The update body after `dict(exclude_unset=True)`: the outer `Some` marks a field
   * the request set; nullable columns may be set to `None`.
   */
  datatype StatisticPatch = StatisticPatch(
    title: Option<string>,
    description: Option<Option<string>>,
    category: Option<string>,
    data: Option<Json>,
    metadata: Option<Option<Metadata>>)

  const NotExcel := "El archivo debe ser un archivo Excel (.xls o .xlsx)"
  const ProcessingFailed := "Error al procesar el archivo: "
  const NotFound := "Estadística no encontrada"

  function RowId(s: StatisticRow): int { s.id }

  /** `s.endswith(suffix)`: case-sensitive. */
  predicate EndsWith(s: string, suffix: string)
  {
    |suffix| <= |s| && s[|s| - |suffix|..] == suffix
  }

  /** The upload's filename guard. */
  predicate IsExcelFileName(name: string)
  {
    EndsWith(name, ".xls") || EndsWith(name, ".xlsx")
  }

  /** Every name ending in `.xls` or `.xlsx` passes the guard, whatever precedes it. */
  lemma ExcelNamesAccepted(stem: string)
    ensures IsExcelFileName(stem + ".xls")
    ensures IsExcelFileName(stem + ".xlsx")
  {
    var a := stem + ".xls";
    assert a[|a| - 4..] == ".xls";
    var b := stem + ".xlsx";
    assert b[|b| - 5..] == ".xlsx";
  }

  /**
   * The guard looks only at the suffix and is case-sensitive: an upper-case extension,
   * another extension or a bare extension without the dot is refused, while a name that
   * is nothing but the suffix passes.
   */
  lemma GuardIsCaseSensitiveSuffixTest()
    ensures !IsExcelFileName("datos.XLSX")
    ensures !IsExcelFileName("datos.csv")
    ensures !IsExcelFileName("xlsx")
    ensures IsExcelFileName(".xls")
  {
    var u := "datos.XLSX";
    assert u[|u| - 4..][1] == 'L';
    assert u[|u| - 5..][1] == 'X';
    var c := "datos.csv";
    assert c[|c| - 4..][1] == 'c';
    assert c[|c| - 5..][2] == 'c';
    var x := "xlsx";
    assert x[|x| - 4..][0] == 'x';
  }

  /** The row an accepted upload stores. */
  function FromSheet(id: int, filename: string, title: string, description: Option<string>,
                     category: string, sheet: Sheet): (r: StatisticRow)
    ensures r.id == id && r.title == title && r.description == description && r.category == category
    ensures r.data == sheet.records && r.sourceFile == Some(filename)
    ensures r.metadata == Some(SheetShape(sheet.columns, sheet.rowCount))
  {
    StatisticRow(id, title, description, category, sheet.records, Some(filename),
                 Some(SheetShape(sheet.columns, sheet.rowCount)))
  }

  /** `setattr` for exactly the fields the request set. */
  function Patched(s: StatisticRow, patch: StatisticPatch): (r: StatisticRow)
    ensures r.id == s.id && r.sourceFile == s.sourceFile
    ensures r.title == if patch.title.Some? then patch.title.value else s.title
    ensures r.description == if patch.description.Some? then patch.description.value else s.description
    ensures r.category == if patch.category.Some? then patch.category.value else s.category
    ensures r.data == if patch.data.Some? then patch.data.value else s.data
    ensures r.metadata == if patch.metadata.Some? then patch.metadata.value else s.metadata
  {
    var s1 := if patch.title.Some? then s.(title := patch.title.value) else s;
    var s2 := if patch.description.Some? then s1.(description := patch.description.value) else s1;
    var s3 := if patch.category.Some? then s2.(category := patch.category.value) else s2;
    var s4 := if patch.data.Some? then s3.(data := patch.data.value) else s3;
    if patch.metadata.Some? then s4.(metadata := patch.metadata.value) else s4
  }

  /** Ids are unique and below the next id to assign. */
  predicate Consistent(rows: seq<StatisticRow>, nextId: int)
  {
    && Collections.UniqueKeys(rows, RowId)
    && (forall i | 0 <= i < |rows| :: rows[i].id < nextId)
  }

  /** Overwriting row `i` with a row of the same id keeps the table consistent. */
  lemma ReplaceKeepsConsistent(rows: seq<StatisticRow>, nextId: int, i: int, s: StatisticRow)
    requires Consistent(rows, nextId) && 0 <= i < |rows| && s.id == rows[i].id
    ensures Consistent(rows[i := s], nextId)
  {
    assert forall j | 0 <= j < |rows| :: RowId(rows[i := s][j]) == RowId(rows[j]);
  }

  /** Removing row `i` keeps the table consistent. */
  lemma RemoveKeepsConsistent(rows: seq<StatisticRow>, nextId: int, i: int)
    requires Consistent(rows, nextId) && 0 <= i < |rows|
    ensures Consistent(rows[..i] + rows[i + 1..], nextId)
  {
    var r := rows[..i] + rows[i + 1..];
    assert forall j | 0 <= j < |r| :: r[j] == rows[if j < i then j else j + 1];
  }

  class StatisticsTable {
    var rows: seq<StatisticRow>
    var nextId: int

    ghost predicate Valid()
      reads this
    {
      Consistent(rows, nextId)
    }

    constructor ()
      ensures Valid() && rows == []
    {
      rows := [];
      nextId := 1;
    }

    /** `read_statistics`: a `skip`/`limit` window of every user's statistics. */
    function ReadStatistics(skip: nat, limit: nat): (r: seq<StatisticRow>)
      reads this
      ensures r == Page(rows, skip, limit)
    {
      Page(rows, skip, limit)
    }

    /** `read_statistic`: the statistic with that id, or 404. */
    function ReadStatistic(statisticId: int): (r: Outcome<StatisticRow>)
      reads this
      ensures r.Fail? <==> !Collections.Has(rows, RowId, statisticId)
      ensures r.Fail? ==> r == Fail(404, NotFound)
      ensures r.Ok? ==> r.value in rows && r.value.id == statisticId
    {
      var i := Collections.FirstIndex(rows, RowId, statisticId);
      if i == -1 then Fail(404, NotFound) else Ok(rows[i])
    }

    /**
     * `create_statistic_from_excel`: a name that fails the suffix guard is refused
     * before the workbook is read; a failure while reading or storing it becomes 400
     * with the exception's message appended; otherwise one row is added.
     */
    method Upload(filename: string, title: string, description: Option<string>, category: string,
                  parsed: Result<Sheet, string>) returns (r: Outcome<StatisticRow>)
      requires Valid()
      modifies this
      ensures Valid()
      ensures !IsExcelFileName(filename) ==>
        r == Fail(400, NotExcel) && rows == old(rows) && nextId == old(nextId)
      ensures IsExcelFileName(filename) && parsed.Failure? ==>
        r == Fail(400, ProcessingFailed + parsed.error) && rows == old(rows) && nextId == old(nextId)
      ensures IsExcelFileName(filename) && parsed.Success? ==>
        && r == Ok(FromSheet(old(nextId), filename, title, description, category, parsed.value))
        && rows == old(rows) + [r.value]
    {
      if !IsExcelFileName(filename) {
        return Fail(400, NotExcel);
      }
      if parsed.Failure? {
        return Fail(400, ProcessingFailed + parsed.error);
      }
      var row := FromSheet(nextId, filename, title, description, category, parsed.value);
      assert !Collections.Has(rows, RowId, row.id);
      Collections.AppendKeepsKeysUnique(rows, RowId, row);
      rows := rows + [row];
      nextId := nextId + 1;
      r := Ok(row);
    }

    /** `update_statistic`: 404 for an unknown id, otherwise the set fields are applied. */
    method Update(statisticId: int, patch: StatisticPatch) returns (r: Outcome<StatisticRow>)
      requires Valid()
      modifies this
      ensures Valid() && nextId == old(nextId)
      ensures !Collections.Has(old(rows), RowId, statisticId) ==>
        r == Fail(404, NotFound) && rows == old(rows)
      ensures Collections.Has(old(rows), RowId, statisticId) ==>
        var i := Collections.FirstIndex(old(rows), RowId, statisticId);
        r == Ok(Patched(old(rows)[i], patch)) && rows == old(rows)[i := r.value]
    {
      var i := Collections.FindIndex(rows, RowId, statisticId);
      if i == -1 {
        return Fail(404, NotFound);
      }
      var updated := Patched(rows[i], patch);
      ReplaceKeepsConsistent(rows, nextId, i, updated);
      rows := rows[i := updated];
      r := Ok(updated);
    }

    /** `delete_statistic`: 404 for an unknown id, otherwise exactly that statistic goes. */
    method Delete(statisticId: int) returns (r: Outcome<()>)
      requires Valid()
      modifies this
      ensures Valid() && nextId == old(nextId)
      ensures !Collections.Has(old(rows), RowId, statisticId) ==>
        r == Fail(404, NotFound) && rows == old(rows)
      ensures Collections.Has(old(rows), RowId, statisticId) ==>
        && r == Ok(())
        && rows == Collections.RemoveAll(old(rows), RowId, statisticId)
        && |rows| == |old(rows)| - 1
    {
      var i := Collections.FindIndex(rows, RowId, statisticId);
      if i == -1 {
        return Fail(404, NotFound);
      }
      Collections.RemoveUniqueAt(rows, RowId, i);
      RemoveKeepsConsistent(rows, nextId, i);
      rows := rows[..i] + rows[i + 1..];
      r := Ok(());
    }
  }
}
