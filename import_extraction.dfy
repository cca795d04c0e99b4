/** Reading the first worksheet of an uploaded workbook into validated rows
    and per-row errors (validateImportFile, app/actions/import.ts). */
module ImportExtraction {
  import opened Wrappers
  import opened ImportSchema
  import Auth

  /** One row as the workbook reader visits it: its 1-based sheet row number
      and its cells by column (index c is column c + 1; None is an empty
      cell, which the cell iteration skips). */
  datatype SheetRow = SheetRow(number: nat, cells: seq<Option<Cell>>)

  /** A worksheet as its row iteration sees it: only the rows that hold a
      value, in the order visited. */
  datatype Worksheet = Worksheet(rows: seq<SheetRow>)

  /** The reader visits rows in increasing row number, starting at 1. */
  predicate RowsAscending(ws: Worksheet) {
    forall i, j :: 0 <= i < j < |ws.rows| ==> 1 <= ws.rows[i].number < ws.rows[j].number
  }

  /** The cells of sheet row 1 (the header row); empty when row 1 holds
      nothing. */
  function HeaderCells(ws: Worksheet): seq<Option<Cell>> {
    if |ws.rows| > 0 && ws.rows[0].number == 1 then ws.rows[0].cells else []
  }

  /** The key a header cell gives its column: a non-empty text header is
      used as is; an empty or missing header drops the column. A header
      of another kind is also dropped: its string form is a number or an
      object description, never one of the mapping's headers. */
  function HeaderKey(header: seq<Option<Cell>>, c: nat): (key: Option<string>)
    ensures key.Some? ==> |key.value| > 0
  {
    if c < |header| && header[c].Some? && header[c].value.TextCell? && header[c].value.s != "" then
      Some(header[c].value.s)
    else None
  }

  /** The row object built from the first `n` cells of a row: each non-empty
      cell under its column's header key, a later column overwriting an
      earlier one with the same header. */
  function RowDataUpTo(header: seq<Option<Cell>>, cells: seq<Option<Cell>>, n: nat): map<string, Cell>
    requires n <= |cells|
  {
    if n == 0 then map[]
    else
      var prev := RowDataUpTo(header, cells, n - 1);
      var key := HeaderKey(header, n - 1);
      if cells[n - 1].Some? && key.Some? then prev[key.value := cells[n - 1].value] else prev
  }

  function RowData(header: seq<Option<Cell>>, cells: seq<Option<Cell>>): map<string, Cell> {
    RowDataUpTo(header, cells, |cells|)
  }

  /** A key is in the row object exactly when some non-empty cell sits under
      a header with that text, and it then holds the cell of the last such
      column. */
  lemma {:induction false} RowDataLastColumnWins(header: seq<Option<Cell>>, cells: seq<Option<Cell>>, n: nat, key: string)
    requires n <= |cells|
    ensures key in RowDataUpTo(header, cells, n) <==>
      exists c :: 0 <= c < n && cells[c].Some? && HeaderKey(header, c) == Some(key)
    ensures key in RowDataUpTo(header, cells, n) ==>
      exists c :: 0 <= c < n && cells[c].Some? && HeaderKey(header, c) == Some(key)
        && RowDataUpTo(header, cells, n)[key] == cells[c].value
        && forall d :: c < d < n && cells[d].Some? ==> HeaderKey(header, d) != Some(key)
  {
    if n > 0 {
      RowDataLastColumnWins(header, cells, n - 1, key);
      if cells[n - 1].Some? && HeaderKey(header, n - 1) == Some(key) {
        assert RowDataUpTo(header, cells, n)[key] == cells[n - 1].value;
      }
    }
  }

  /** row.eachCell: walks the non-empty cells in column order and stores
      each under its column's header. */
  method BuildRowData(header: seq<Option<Cell>>, cells: seq<Option<Cell>>) returns (rowData: map<string, Cell>)
    ensures rowData == RowData(header, cells)
  {
    rowData := map[];
    var c := 0;
    while c < |cells|
      invariant 0 <= c <= |cells|
      invariant rowData == RowDataUpTo(header, cells, c)
    {
      if cells[c].Some? {
        var key := HeaderKey(header, c);
        if key.Some? {
          rowData := rowData[key.value := cells[c].value];
        }
      }
      c := c + 1;
    }
  }

  /** The mapped row a sheet row yields. */
  function MappedSheetRow(header: seq<Option<Cell>>, row: SheetRow): map<Field, Cell> {
    MappedRow(RowData(header, row.cells))
  }

  /** What an error entry reports as the offending value: null (row limit,
      write failures), the mapped row's value at the issue's path, undefined
      when that field is absent, or the name that did not resolve. */
  datatype ErrorValue = NullValue | Undefined | Value(cell: Cell) | Text(s: string)

  datatype ErrorField = General | SchemaField(field: Field)

  /** The messages of the error entries; the names are those the source
      interpolates into its message text. */
  datatype ErrorMessage =
    | RowLimitExceeded
    | SchemaIssue(kind: IssueKind)
    | TypeNotFound(typeName: string)
    | RegionNotFound(regionName: string)
    | DirectionNotFound(directionName: string)
    | ObjectCreationFailed
    | BatchFailed

  datatype ImportError = ImportError(row: nat, field: ErrorField, value: ErrorValue, message: ErrorMessage)

  /** A row that passed the schema, with its sheet row number. */
  datatype AcceptedRow = AcceptedRow(data: ImportRow, rowNumber: nat)

  /** The state of the row walk: accepted rows, errors, data rows seen. */
  datatype Scan = Scan(rows: seq<AcceptedRow>, errors: seq<ImportError>, rowIndex: nat)

  datatype Validation = Validation(valid: bool, rows: seq<AcceptedRow>, errors: seq<ImportError>, totalRows: nat)

  /** Why a file is not read at all: the caller is refused by the role
      gate, or the workbook has no first worksheet. */
  datatype FileError = Refused(error: Auth.AuthError) | NoWorksheet

  /** A visited row as the callback sees it: the header row, or a data row
      with its mapped row and what the row schema makes of it. */
  datatype Visited =
    | HeaderRow
    | DataRow(number: nat, mapped: map<Field, Cell>, outcome: Result<ImportRow, seq<Issue>>)

  /** A visit is well formed when a failing outcome carries an issue. */
  predicate WellFormed(v: Visited) {
    v.DataRow? && v.outcome.Failure? ==> |v.outcome.error| > 0
  }

  /** How the callback classifies a visited row. */
  function Classify(header: seq<Option<Cell>>, row: SheetRow): (v: Visited)
    ensures WellFormed(v)
    ensures v.HeaderRow? <==> row.number == 1
    ensures v.DataRow? ==>
      && v.number == row.number
      && v.mapped == MappedSheetRow(header, row)
      && v.outcome == ValidateImportRow(MappedSheetRow(header, row))
  {
    if row.number == 1 then HeaderRow
    else
      var mapped := MappedSheetRow(header, row);
      DataRow(row.number, mapped, ValidateImportRow(mapped))
  }

  /** The visited rows of a worksheet, classified. */
  function Visits(ws: Worksheet): (vs: seq<Visited>)
    ensures |vs| == |ws.rows|
    ensures forall i :: 0 <= i < |vs| ==> vs[i] == Classify(HeaderCells(ws), ws.rows[i]) && WellFormed(vs[i])
  {
    seq(|ws.rows|, i requires 0 <= i < |ws.rows| => Classify(HeaderCells(ws), ws.rows[i]))
  }

  /** The error entry for one schema issue of a row. */
  function IssueError(rowNumber: nat, mapped: map<Field, Cell>, issue: Issue): ImportError {
    ImportError(rowNumber, SchemaField(issue.field),
                if issue.field in mapped then Value(mapped[issue.field]) else Undefined,
                SchemaIssue(issue.kind))
  }

  function IssueErrors(rowNumber: nat, mapped: map<Field, Cell>, issues: seq<Issue>): (errs: seq<ImportError>)
    ensures |errs| == |issues|
    ensures forall k :: 0 <= k < |issues| ==> errs[k] == IssueError(rowNumber, mapped, issues[k])
  {
    seq(|issues|, k requires 0 <= k < |issues| => IssueError(rowNumber, mapped, issues[k]))
  }

  /** One visit of the row callback: the header row is skipped; every other
      row is counted, refused with one general error past the 1000th, and
      otherwise either accepted or reported issue by issue. */
  function Visit(s: Scan, v: Visited): Scan {
    match v
    case HeaderRow => s
    case DataRow(number, mapped, outcome) =>
      var index := s.rowIndex + 1;
      if index > MaxImportRows then
        Scan(s.rows, s.errors + [ImportError(number, General, NullValue, RowLimitExceeded)], index)
      else
        match outcome
        case Success(data) => Scan(s.rows + [AcceptedRow(data, number)], s.errors, index)
        case Failure(issues) => Scan(s.rows, s.errors + IssueErrors(number, mapped, issues), index)
  }

  /** One visit only appends: it counts a data row, adds at most one accepted
      row, and adds errors exactly when the row is past the limit or fails
      the schema. */
  lemma VisitAppends(s: Scan, v: Visited)
    requires WellFormed(v)
    ensures var t := Visit(s, v);
      && t.rowIndex == s.rowIndex + (if v.DataRow? then 1 else 0)
      && |s.rows| <= |t.rows| <= |s.rows| + 1 && t.rows[..|s.rows|] == s.rows
      && (|t.rows| == |s.rows| + 1 <==> v.DataRow? && t.rowIndex <= MaxImportRows && v.outcome.Success?)
      && (|t.rows| == |s.rows| + 1 ==> t.rows[|s.rows|] == AcceptedRow(v.outcome.value, v.number))
      && |s.errors| <= |t.errors| && t.errors[..|s.errors|] == s.errors
      && (|t.errors| == |s.errors| <==> v.HeaderRow? || (t.rowIndex <= MaxImportRows && v.outcome.Success?))
  {
    var t := Visit(s, v);
    assert t.rows[..|s.rows|] == s.rows;
    assert t.errors[..|s.errors|] == s.errors;
  }

  /** The walk over the first `n` visited rows. */
  function ScanUpTo(vs: seq<Visited>, n: nat): Scan
    requires n <= |vs|
  {
    if n == 0 then Scan([], [], 0) else Visit(ScanUpTo(vs, n - 1), vs[n - 1])
  }

  function ScanAll(ws: Worksheet): Scan {
    ScanUpTo(Visits(ws), |ws.rows|)
  }

  /** The row callback: updates the accepted rows, the errors and the row
      counter for one visited row. */
  method VisitRow(header: seq<Option<Cell>>, row: SheetRow, rows: seq<AcceptedRow>, errors: seq<ImportError>, rowIndex: nat)
    returns (rows': seq<AcceptedRow>, errors': seq<ImportError>, rowIndex': nat)
    ensures Scan(rows', errors', rowIndex') == Visit(Scan(rows, errors, rowIndex), Classify(header, row))
  {
    rows', errors', rowIndex' := rows, errors, rowIndex;
    if row.number == 1 {
      return;
    }
    rowIndex' := rowIndex + 1;
    if rowIndex' > MaxImportRows {
      errors' := errors + [ImportError(row.number, General, NullValue, RowLimitExceeded)];
      return;
    }
    var rowData := BuildRowData(header, row.cells);
    var mapped := MapExcelRow(rowData);
    var validation := ValidateImportRow(mapped);
    if validation.Success? {
      rows' := rows + [AcceptedRow(validation.value, row.number)];
    } else {
      errors' := AppendIssueErrors(errors, row.number, mapped, validation.error);
    }
  }

  /** validation.errors.forEach: one error entry per issue, in issue order. */
  method AppendIssueErrors(errors: seq<ImportError>, rowNumber: nat, mapped: map<Field, Cell>, issues: seq<Issue>)
    returns (errors': seq<ImportError>)
    ensures errors' == errors + IssueErrors(rowNumber, mapped, issues)
  {
    errors' := errors;
    var k := 0;
    while k < |issues|
      invariant 0 <= k <= |issues|
      invariant errors' == errors + IssueErrors(rowNumber, mapped, issues[..k])
    {
      errors' := errors' + [IssueError(rowNumber, mapped, issues[k])];
      k := k + 1;
    }
    assert issues[..k] == issues;
  }

  /** The validation result of a worksheet. */
  function ValidationOf(ws: Worksheet): Validation {
    var s := ScanAll(ws);
    Validation(s.errors == [], s.rows, s.errors, s.rowIndex)
  }

  /** validateImportFile on a loaded workbook: a caller below EDITOR is
      refused before the file is read; otherwise it fails when there is no
      first worksheet, and walks that worksheet's rows when there is one. */
  method ValidateImportFile(session: Option<Auth.Session>, sheet: Option<Worksheet>) returns (r: Result<Validation, FileError>)
    ensures Auth.RequireRole(session, Auth.Editor).Failure? ==>
      r == Failure(Refused(Auth.RequireRole(session, Auth.Editor).error))
    ensures r.Success? <==> Auth.RequireRole(session, Auth.Editor).Success? && sheet.Some?
    ensures Auth.RequireRole(session, Auth.Editor).Success? && sheet.None? ==> r == Failure(NoWorksheet)
    ensures r.Success? ==> r.value == ValidationOf(sheet.value)
  {
    var gate := Auth.RequireRole(session, Auth.Editor);
    if gate.Failure? {
      return Failure(Refused(gate.error));
    }
    if sheet.None? {
      return Failure(NoWorksheet);
    }
    var ws := sheet.value;
    var header := HeaderCells(ws);
    var rows: seq<AcceptedRow> := [];
    var errors: seq<ImportError> := [];
    var rowIndex := 0;
    var i := 0;
    while i < |ws.rows|
      invariant 0 <= i <= |ws.rows|
      invariant Scan(rows, errors, rowIndex) == ScanUpTo(Visits(ws), i)
    {
      rows, errors, rowIndex := VisitRow(header, ws.rows[i], rows, errors, rowIndex);
      i := i + 1;
    }
    return Success(Validation(|errors| == 0, rows, errors, rowIndex));
  }

  /** The number of data rows among the first n visits. */
  function DataRows(vs: seq<Visited>, n: nat): nat
    requires n <= |vs|
  {
    if n == 0 then 0 else DataRows(vs, n - 1) + (if vs[n - 1].DataRow? then 1 else 0)
  }

  /** totalRows counts every data row, including those past the limit, and
      at most 1000 rows are accepted. */
  lemma {:induction false} ScanCounts(vs: seq<Visited>, n: nat)
    requires n <= |vs|
    requires forall i :: 0 <= i < |vs| ==> WellFormed(vs[i])
    ensures ScanUpTo(vs, n).rowIndex == DataRows(vs, n)
    ensures |ScanUpTo(vs, n).rows| <= MaxImportRows
    ensures |ScanUpTo(vs, n).rows| <= ScanUpTo(vs, n).rowIndex
  {
    if n > 0 {
      ScanCounts(vs, n - 1);
      VisitAppends(ScanUpTo(vs, n - 1), vs[n - 1]);
    }
  }

  /** The walk reports no error exactly when there are at most 1000 data
      rows and each of them passes the row schema. */
  lemma {:induction false} NoErrorsIff(vs: seq<Visited>, n: nat)
    requires n <= |vs|
    requires forall i :: 0 <= i < |vs| ==> WellFormed(vs[i])
    ensures ScanUpTo(vs, n).errors == [] <==>
      DataRows(vs, n) <= MaxImportRows
      && forall i :: 0 <= i < n && vs[i].DataRow? ==> vs[i].outcome.Success?
  {
    if n > 0 {
      var prev, next := ScanUpTo(vs, n - 1), ScanUpTo(vs, n);
      NoErrorsIff(vs, n - 1);
      ScanCounts(vs, n - 1);
      VisitAppends(prev, vs[n - 1]);
      assert next.errors == [] <==> prev.errors == [] && |next.errors| == |prev.errors|;
    }
  }

  /** The file is valid exactly when it has at most 1000 data rows and every
      one of them passes the row schema. */
  lemma ValidIff(ws: Worksheet)
    ensures ScanAll(ws).errors == [] <==>
      DataRows(Visits(ws), |ws.rows|) <= MaxImportRows
      && forall i :: 0 <= i < |ws.rows| && ws.rows[i].number != 1 ==>
           ValidateImportRow(MappedSheetRow(HeaderCells(ws), ws.rows[i])).Success?
    ensures ScanAll(ws).rowIndex == DataRows(Visits(ws), |ws.rows|)
  {
    var vs := Visits(ws);
    NoErrorsIff(vs, |vs|);
    ScanCounts(vs, |vs|);
  }

  /** Every accepted row comes from a data row within the limit that passed
      the schema, carrying that row's number and parsed data. */
  lemma {:induction false} AcceptedRowsTraceable(vs: seq<Visited>, n: nat)
    requires n <= |vs|
    ensures forall e :: e in ScanUpTo(vs, n).rows ==>
      exists i :: 0 <= i < n && vs[i].DataRow? && vs[i].number == e.rowNumber && vs[i].outcome == Success(e.data)
  {
    if n > 0 {
      AcceptedRowsTraceable(vs, n - 1);
    }
  }

  /** A walk without errors accepted every data row it counted: nothing
      was dropped by the limit or by the schema. */
  lemma {:induction false} NoErrorsAcceptsEveryDataRow(vs: seq<Visited>, n: nat)
    requires n <= |vs|
    requires forall i :: 0 <= i < |vs| ==> WellFormed(vs[i])
    requires ScanUpTo(vs, n).errors == []
    ensures |ScanUpTo(vs, n).rows| == ScanUpTo(vs, n).rowIndex
  {
    if n > 0 {
      VisitAppends(ScanUpTo(vs, n - 1), vs[n - 1]);
      NoErrorsAcceptsEveryDataRow(vs, n - 1);
    }
  }

  /** A valid file accepts every data row: as many rows as totalRows. */
  lemma ValidFileAcceptsEveryRow(ws: Worksheet)
    requires ValidationOf(ws).valid
    ensures |ValidationOf(ws).rows| == ValidationOf(ws).totalRows
  {
    NoErrorsAcceptsEveryDataRow(Visits(ws), |ws.rows|);
  }

  /** A data row past the 1000th yields exactly one general error, with a
      null value, and is not accepted. */
  lemma LimitRowRejected(vs: seq<Visited>, n: nat)
    requires 0 < n <= |vs|
    requires forall i :: 0 <= i < |vs| ==> WellFormed(vs[i])
    requires vs[n - 1].DataRow?
    requires DataRows(vs, n) > MaxImportRows
    ensures ScanUpTo(vs, n).errors == ScanUpTo(vs, n - 1).errors + [ImportError(vs[n - 1].number, General, NullValue, RowLimitExceeded)]
    ensures ScanUpTo(vs, n).rows == ScanUpTo(vs, n - 1).rows
  {
    ScanCounts(vs, n - 1);
  }

  /** Data rows numbered in increasing order. */
  predicate NumbersAscending(vs: seq<Visited>) {
    forall i, j :: 0 <= i < j < |vs| && vs[i].DataRow? && vs[j].DataRow? ==> vs[i].number < vs[j].number
  }

  /** When the reader visits rows in increasing row number, the accepted
      rows come out in increasing row number too. */
  lemma {:induction false} AcceptedRowsOrdered(vs: seq<Visited>, n: nat)
    requires NumbersAscending(vs)
    requires n <= |vs|
    ensures forall a, b :: 0 <= a < b < |ScanUpTo(vs, n).rows| ==>
      ScanUpTo(vs, n).rows[a].rowNumber < ScanUpTo(vs, n).rows[b].rowNumber
  {
    if n > 0 {
      AcceptedRowsOrdered(vs, n - 1);
      AcceptedRowsTraceable(vs, n - 1);
      var prev := ScanUpTo(vs, n - 1);
      if vs[n - 1].DataRow? {
        forall e | e in prev.rows ensures e.rowNumber < vs[n - 1].number {
          var i :| 0 <= i < n - 1 && vs[i].DataRow? && vs[i].number == e.rowNumber && vs[i].outcome == Success(e.data);
        }
      }
    }
  }

  /** A worksheet whose rows ascend yields visits whose data rows ascend. */
  lemma AscendingSheetAscendingVisits(ws: Worksheet)
    requires RowsAscending(ws)
    ensures NumbersAscending(Visits(ws))
  {
  }
}
