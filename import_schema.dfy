/** The row schema of the spreadsheet import, the header-to-field mapping
    and the file schema (lib/validation/import.ts). */
module ImportSchema {
  import opened Wrappers
  import opened Strings
  import Coordinates

  /** A spreadsheet cell value as the workbook reader reports it. `asNumber`
      is what JavaScript's Number() conversion makes of a non-numeric value
      (None for NaN); that conversion is an input of the model. */
  datatype Cell =
    | TextCell(s: string, asNumber: Option<real>)
    | NumberCell(x: real)
    | OtherCell(asNumber: Option<real>)

  /** The fourteen fields of the row schema, in the schema's declaration order. */
  datatype Field =
    | NameRu | AddressRu | Type | Region
    | NameKz | NameEn | AddressKz | AddressEn
    | Directions | Latitude | Longitude | Website | Phones | GoogleMapsUrl

  const AllFields: set<Field> := {NameRu, AddressRu, Type, Region, NameKz, NameEn, AddressKz, AddressEn,
                                  Directions, Latitude, Longitude, Website, Phones, GoogleMapsUrl}

  /** The schema key of a field: the issue path an error on it carries. */
  function FieldName(f: Field): string {
    match f
    case NameRu => "name_ru"
    case AddressRu => "address_ru"
    case Type => "type"
    case Region => "region"
    case NameKz => "name_kz"
    case NameEn => "name_en"
    case AddressKz => "address_kz"
    case AddressEn => "address_en"
    case Directions => "directions"
    case Latitude => "latitude"
    case Longitude => "longitude"
    case Website => "website"
    case Phones => "phones"
    case GoogleMapsUrl => "googleMapsUrl"
  }

  /** The field in column `k` of the mapping (EXCEL_COLUMN_MAPPING's order). */
  function FieldAt(k: nat): Field
    requires k < 14
  {
    if k == 0 then NameRu else if k == 1 then NameKz else if k == 2 then NameEn
    else if k == 3 then AddressRu else if k == 4 then AddressKz else if k == 5 then AddressEn
    else if k == 6 then Type else if k == 7 then Region else if k == 8 then Directions
    else if k == 9 then Latitude else if k == 10 then Longitude else if k == 11 then Website
    else if k == 12 then Phones else GoogleMapsUrl
  }

  /** The column of a field in the mapping. */
  function Position(f: Field): (k: nat)
    ensures k < 14
  {
    match f
    case NameRu => 0
    case NameKz => 1
    case NameEn => 2
    case AddressRu => 3
    case AddressKz => 4
    case AddressEn => 5
    case Type => 6
    case Region => 7
    case Directions => 8
    case Latitude => 9
    case Longitude => 10
    case Website => 11
    case Phones => 12
    case GoogleMapsUrl => 13
  }

  /** The spreadsheet header that feeds a field. */
  function HeaderOf(f: Field): string {
    match f
    case NameRu => "Название (RU)"
    case NameKz => "Название (KZ)"
    case NameEn => "Название (EN)"
    case AddressRu => "Адрес (RU)"
    case AddressKz => "Адрес (KZ)"
    case AddressEn => "Адрес (EN)"
    case Type => "Тип инфраструктуры"
    case Region => "Регион"
    case Directions => "Приоритетные направления"
    case Latitude => "Широта"
    case Longitude => "Долгота"
    case Website => "Веб-сайт"
    case Phones => "Телефоны"
    case GoogleMapsUrl => "Google Maps URL"
  }

  /** EXCEL_COLUMN_MAPPING: spreadsheet header to schema field, in order. */
  const ColumnMapping: seq<(string, Field)> := seq(14, k requires 0 <= k < 14 => (HeaderOf(FieldAt(k)), FieldAt(k)))

  /** TEMPLATE_COLUMNS: the headers of the mapping, in mapping order. */
  const TemplateColumns: seq<string> := seq(14, k requires 0 <= k < 14 => ColumnMapping[k].0)

  /** The mapping lists every field exactly once: column k holds the field
      whose position is k, and every field sits in its own column. */
  lemma MappingIsBijection()
    ensures |ColumnMapping| == 14 && |TemplateColumns| == 14
    ensures forall k: nat :: k < 14 ==> Position(FieldAt(k)) == k
    ensures forall f :: FieldAt(Position(f)) == f
    ensures forall f :: ColumnMapping[Position(f)] == (HeaderOf(f), f) && TemplateColumns[Position(f)] == HeaderOf(f)
  {
    forall k: nat | k < 14 ensures Position(FieldAt(k)) == k {
    }
  }

  /** Column k of the mapping feeds the field at position k from its header. */
  lemma ColumnAt(k: nat)
    requires k < 14
    ensures |ColumnMapping| == 14
    ensures ColumnMapping[k] == (HeaderOf(FieldAt(k)), FieldAt(k)) && Position(FieldAt(k)) == k
  {
  }

  /** The row mapExcelRow produces: every field whose header is present,
      holding that header's value unchanged. */
  function MappedRow(excelRow: map<string, Cell>): map<Field, Cell> {
    map f | f in AllFields && HeaderOf(f) in excelRow :: excelRow[HeaderOf(f)]
  }

  lemma EveryFieldListed(f: Field)
    ensures f in AllFields
  {
  }

  /** mapExcelRow: walks the column mapping and copies each present header's
      value under its schema key; unknown headers are dropped. */
  method MapExcelRow(excelRow: map<string, Cell>) returns (mapped: map<Field, Cell>)
    ensures forall f :: f in mapped <==> HeaderOf(f) in excelRow
    ensures forall f :: f in mapped ==> mapped[f] == excelRow[HeaderOf(f)]
    ensures mapped == MappedRow(excelRow)
  {
    mapped := map[];
    var k := 0;
    while k < |ColumnMapping|
      invariant 0 <= k <= |ColumnMapping| == 14
      invariant forall f :: f in mapped <==> Position(f) < k && HeaderOf(f) in excelRow
      invariant forall f :: f in mapped ==> mapped[f] == excelRow[HeaderOf(f)]
    {
      ColumnAt(k);
      var (excelKey, schemaKey) := ColumnMapping[k];
      if excelKey in excelRow {
        mapped := mapped[schemaKey := excelRow[excelKey]];
      }
      k := k + 1;
    }
    forall f | f in mapped ensures f in MappedRow(excelRow) {
      EveryFieldListed(f);
    }
  }

  /** What goes wrong with one field. */
  datatype IssueKind =
    | Required                  // the field is missing
    | ExpectedString            // a non-text cell where text is expected
    | TooShort(minimum: nat)
    | TooLong(maximum: nat)
    | ExpectedNumber            // the cell does not convert to a number
    | BelowMinimum(bound: real)
    | AboveMaximum(bound: real)
    | InvalidUrl                // text that is neither '' nor a URL
    | InvalidInput              // a non-text website cell: no union member matches
    | CoordinatesUnpaired       // exactly one of latitude/longitude is given

  datatype Issue = Issue(field: Field, kind: IssueKind)

  /** A row that passed the schema. Optional fields are None when absent. */
  datatype ImportRow = ImportRow(
    nameRu: string, addressRu: string, typeName: string, regionName: string,
    nameKz: Option<string>, nameEn: Option<string>, addressKz: Option<string>, addressEn: Option<string>,
    directions: Option<string>, latitude: Option<real>, longitude: Option<real>,
    website: Option<string>, phones: Option<string>, googleMapsUrl: Option<string>)

  const MaxTextLength: nat := 1000

  function Get(row: map<Field, Cell>, f: Field): Option<Cell> {
    if f in row then Some(row[f]) else None
  }

  /** z.string().min(1) with an optional .max(maxLen). */
  function RequiredText(f: Field, c: Option<Cell>, maxLen: Option<nat>): Result<string, Issue> {
    match c
    case None => Failure(Issue(f, Required))
    case Some(TextCell(s, _)) =>
      if |s| < 1 then Failure(Issue(f, TooShort(1)))
      else if maxLen.Some? && |s| > maxLen.value then Failure(Issue(f, TooLong(maxLen.value)))
      else Success(s)
    case Some(_) => Failure(Issue(f, ExpectedString))
  }

  /** z.string() with an optional .max(maxLen), .optional().nullable(). */
  function OptionalText(f: Field, c: Option<Cell>, maxLen: Option<nat>): Result<Option<string>, Issue> {
    match c
    case None => Success(None)
    case Some(TextCell(s, _)) =>
      if maxLen.Some? && |s| > maxLen.value then Failure(Issue(f, TooLong(maxLen.value))) else Success(Some(s))
    case Some(_) => Failure(Issue(f, ExpectedString))
  }

  function CoerceNumber(c: Cell): Option<real> {
    match c
    case TextCell(_, n) => n
    case NumberCell(x) => Some(x)
    case OtherCell(n) => n
  }

  /** z.coerce.number().gte(lo).lte(hi).optional().nullable(). */
  function OptionalNumberIn(f: Field, c: Option<Cell>, lo: real, hi: real): Result<Option<real>, Issue> {
    match c
    case None => Success(None)
    case Some(cell) =>
      match CoerceNumber(cell)
      case None => Failure(Issue(f, ExpectedNumber))
      case Some(x) =>
        if x < lo then Failure(Issue(f, BelowMinimum(lo)))
        else if x > hi then Failure(Issue(f, AboveMaximum(hi)))
        else Success(Some(x))
  }

  /** z.string().url().optional().nullable().or(z.literal('')). */
  function OptionalWebsite(c: Option<Cell>): Result<Option<string>, Issue> {
    match c
    case None => Success(None)
    case Some(TextCell(s, _)) => if IsUrl(s) || s == "" then Success(Some(s)) else Failure(Issue(Website, InvalidUrl))
    case Some(_) => Failure(Issue(Website, InvalidInput))
  }

  function ErrorOf<T>(r: Result<T, Issue>): Option<Issue> {
    if r.Failure? then Some(r.error) else None
  }

  /** The check one field's schema performs, and the issue it reports. */
  function FieldCheck(row: map<Field, Cell>, f: Field): (issue: Option<Issue>)
    ensures issue.Some? ==> issue.value.field == f && issue.value.kind != CoordinatesUnpaired
  {
    var c := Get(row, f);
    match f
    case NameRu => ErrorOf(RequiredText(f, c, Some(MaxTextLength)))
    case AddressRu => ErrorOf(RequiredText(f, c, Some(MaxTextLength)))
    case Type => ErrorOf(RequiredText(f, c, None))
    case Region => ErrorOf(RequiredText(f, c, None))
    case NameKz => ErrorOf(OptionalText(f, c, Some(MaxTextLength)))
    case NameEn => ErrorOf(OptionalText(f, c, Some(MaxTextLength)))
    case AddressKz => ErrorOf(OptionalText(f, c, Some(MaxTextLength)))
    case AddressEn => ErrorOf(OptionalText(f, c, Some(MaxTextLength)))
    case Directions => ErrorOf(OptionalText(f, c, None))
    case Latitude => ErrorOf(OptionalNumberIn(f, c, Coordinates.MinLatitude, Coordinates.MaxLatitude))
    case Longitude => ErrorOf(OptionalNumberIn(f, c, Coordinates.MinLongitude, Coordinates.MaxLongitude))
    case Website => ErrorOf(OptionalWebsite(c))
    case Phones => ErrorOf(OptionalText(f, c, None))
    case GoogleMapsUrl => ErrorOf(OptionalText(f, c, None))
  }

  /** The order in which the schema declares its fields, which is the order
      of its issues. */
  const SchemaOrder: seq<Field> := [NameRu, AddressRu, Type, Region, NameKz, NameEn, AddressKz, AddressEn,
                                    Directions, Latitude, Longitude, Website, Phones, GoogleMapsUrl]

  /** The refine: latitude and longitude are both given or both missing. */
  predicate CoordinatesPaired(row: map<Field, Cell>) {
    (Latitude in row) == (Longitude in row)
  }

  /** The outcome of every field check, in schema order. */
  function Checks(row: map<Field, Cell>): (checks: seq<Option<Issue>>)
    ensures |checks| == |SchemaOrder|
    ensures forall k :: 0 <= k < |SchemaOrder| ==> checks[k] == FieldCheck(row, SchemaOrder[k])
  {
    seq(|SchemaOrder|, k requires 0 <= k < |SchemaOrder| => FieldCheck(row, SchemaOrder[k]))
  }

  /** The issues present in a sequence of check outcomes, in order. */
  function Reported(checks: seq<Option<Issue>>): (issues: seq<Issue>)
    ensures forall i :: i in issues ==> Some(i) in checks
    ensures forall c :: c in checks && c.Some? ==> c.value in issues
  {
    if checks == [] then []
    else (if checks[0].Some? then [checks[0].value] else []) + Reported(checks[1..])
  }

  /** The issues of the fourteen field checks, in declaration order: none is
      a pairing issue, and there are none exactly when every check passes. */
  function FieldIssues(row: map<Field, Cell>): (issues: seq<Issue>)
    ensures forall i :: i in issues ==> i.kind != CoordinatesUnpaired
    ensures issues == [] <==> forall f :: FieldCheck(row, f).None?
    ensures forall f :: FieldCheck(row, f).Some? ==> FieldCheck(row, f).value in issues
  {
    var checks := Checks(row);
    var issues := Reported(checks);
    forall f ensures FieldCheck(row, f) in checks {
      SchemaOrderComplete(f);
      var k :| 0 <= k < |SchemaOrder| && SchemaOrder[k] == f;
      assert checks[k] == FieldCheck(row, f);
    }
    assert issues != [] ==> Some(issues[0]) in checks;
    issues
  }

  /** The refine's issue, reported at path `latitude`. */
  function PairingIssues(row: map<Field, Cell>): seq<Issue> {
    if CoordinatesPaired(row) then [] else [Issue(Latitude, CoordinatesUnpaired)]
  }

  /** Every field appears in the schema order. */
  lemma SchemaOrderComplete(f: Field)
    ensures f in SchemaOrder
  {
  }

  /** The text an optional text field holds, None when the field is absent. */
  function TextOf(row: map<Field, Cell>, f: Field): Option<string>
  {
    if f in row && row[f].TextCell? then Some(row[f].s) else None
  }

  /** The number an optional numeric field converts to, None when absent. */
  function NumberOf(row: map<Field, Cell>, f: Field): Option<real> {
    if f in row then CoerceNumber(row[f]) else None
  }

  /** Accepted translations are at most 1000 characters long. */
  lemma TranslationsBounded(row: map<Field, Cell>)
    requires FieldAcceptable(row, NameKz) && FieldAcceptable(row, NameEn)
    requires FieldAcceptable(row, AddressKz) && FieldAcceptable(row, AddressEn)
    ensures TextOf(row, NameKz).Some? ==> |TextOf(row, NameKz).value| <= MaxTextLength
    ensures TextOf(row, NameEn).Some? ==> |TextOf(row, NameEn).value| <= MaxTextLength
    ensures TextOf(row, AddressKz).Some? ==> |TextOf(row, AddressKz).value| <= MaxTextLength
    ensures TextOf(row, AddressEn).Some? ==> |TextOf(row, AddressEn).value| <= MaxTextLength
  {
  }

  /** Accepted coordinates are in range and paired, and an accepted website
      is '' or a URL. */
  lemma LocationAcceptable(row: map<Field, Cell>)
    requires FieldAcceptable(row, Latitude) && FieldAcceptable(row, Longitude) && FieldAcceptable(row, Website)
    requires CoordinatesPaired(row)
    ensures NumberOf(row, Latitude).Some? ==> Coordinates.IsValidLatitude(NumberOf(row, Latitude).value)
    ensures NumberOf(row, Longitude).Some? ==> Coordinates.IsValidLongitude(NumberOf(row, Longitude).value)
    ensures NumberOf(row, Latitude).Some? == NumberOf(row, Longitude).Some?
    ensures TextOf(row, Website).Some? ==> TextOf(row, Website).value == "" || IsUrl(TextOf(row, Website).value)
  {
  }

  /** The parsed row of an accepted mapped row: the texts are the cells' own
      strings and the coordinates the cells' numeric values. It satisfies
      ValidRow, and carries both coordinates or neither. */
  function ParsedRow(row: map<Field, Cell>): (d: ImportRow)
    requires forall f :: FieldAcceptable(row, f)
    requires CoordinatesPaired(row)
    ensures ValidRow(d)
    ensures d.latitude.Some? == d.longitude.Some?
  {
    assert FieldAcceptable(row, NameRu) && FieldAcceptable(row, AddressRu);
    assert FieldAcceptable(row, Type) && FieldAcceptable(row, Region);
    TranslationsBounded(row);
    LocationAcceptable(row);
    ImportRow(row[NameRu].s, row[AddressRu].s, row[Type].s, row[Region].s,
              TextOf(row, NameKz), TextOf(row, NameEn), TextOf(row, AddressKz), TextOf(row, AddressEn),
              TextOf(row, Directions), NumberOf(row, Latitude), NumberOf(row, Longitude),
              TextOf(row, Website), TextOf(row, Phones), TextOf(row, GoogleMapsUrl))
  }

  /** importRowSchema.parse: every field is checked, the issues are collected
      in declaration order followed by the pairing issue (path `latitude`),
      and the row is accepted only when there is no issue at all. */
  function ValidateImportRow(row: map<Field, Cell>): (r: Result<ImportRow, seq<Issue>>)
    ensures r.Failure? ==> |r.error| > 0
    ensures r.Success? ==> ValidRow(r.value)
  {
    var issues := FieldIssues(row) + PairingIssues(row);
    if issues == [] then
      assert forall f :: FieldAcceptable(row, f) by {
        forall f ensures FieldAcceptable(row, f) { FieldCheckAgrees(row, f); }
      }
      Success(ParsedRow(row))
    else Failure(issues)
  }

  /** What a validated row guarantees: bounded required texts, bounded
      translations, coordinates in range and given as a pair, and a website
      that is '' or a URL. */
  predicate ValidRow(d: ImportRow) {
    && 1 <= |d.nameRu| <= MaxTextLength && 1 <= |d.addressRu| <= MaxTextLength
    && |d.typeName| >= 1 && |d.regionName| >= 1
    && (d.nameKz.Some? ==> |d.nameKz.value| <= MaxTextLength)
    && (d.nameEn.Some? ==> |d.nameEn.value| <= MaxTextLength)
    && (d.addressKz.Some? ==> |d.addressKz.value| <= MaxTextLength)
    && (d.addressEn.Some? ==> |d.addressEn.value| <= MaxTextLength)
    && (d.latitude.Some? ==> Coordinates.IsValidLatitude(d.latitude.value))
    && (d.longitude.Some? ==> Coordinates.IsValidLongitude(d.longitude.value))
    && (d.website.Some? ==> d.website.value == "" || IsUrl(d.website.value))
  }

  /** A text cell whose length lies in [lo, hi] (hi = None: no upper bound). */
  predicate TextCellWithin(c: Option<Cell>, lo: nat, hi: Option<nat>) {
    c.Some? && c.value.TextCell? && lo <= |c.value.s| && (hi.Some? ==> |c.value.s| <= hi.value)
  }

  /** The field is absent, or a text cell of at most `hi` characters. */
  predicate OptionalTextCellWithin(c: Option<Cell>, hi: Option<nat>) {
    c.None? || TextCellWithin(c, 0, hi)
  }

  /** The field is absent, or converts to a number in [lo, hi]. */
  predicate NumberCellWithin(c: Option<Cell>, lo: real, hi: real) {
    c.None? || (CoerceNumber(c.value).Some? && lo <= CoerceNumber(c.value).value <= hi)
  }

  /** Each field's schema as a declarative condition on its cell. */
  predicate FieldAcceptable(row: map<Field, Cell>, f: Field) {
    var c := Get(row, f);
    match f
    case NameRu => TextCellWithin(c, 1, Some(1000))
    case AddressRu => TextCellWithin(c, 1, Some(1000))
    case Type => TextCellWithin(c, 1, None)
    case Region => TextCellWithin(c, 1, None)
    case Latitude => NumberCellWithin(c, -90.0, 90.0)
    case Longitude => NumberCellWithin(c, -180.0, 180.0)
    case Website => c.None? || (c.value.TextCell? && (c.value.s == "" || IsUrl(c.value.s)))
    case NameKz => OptionalTextCellWithin(c, Some(1000))
    case NameEn => OptionalTextCellWithin(c, Some(1000))
    case AddressKz => OptionalTextCellWithin(c, Some(1000))
    case AddressEn => OptionalTextCellWithin(c, Some(1000))
    case _ => OptionalTextCellWithin(c, None)
  }

  /** Each field check reports an issue exactly when its cell breaks the
      field's declarative condition. */
  lemma FieldCheckAgrees(row: map<Field, Cell>, f: Field)
    ensures FieldCheck(row, f).None? <==> FieldAcceptable(row, f)
  {
  }

  /** The schema as a declarative condition on the mapped row. */
  predicate RowAcceptable(row: map<Field, Cell>) {
    (forall f :: FieldAcceptable(row, f)) && CoordinatesPaired(row)
  }

  /** The row validator accepts exactly the rows the declarative schema
      describes, and what it returns then is the cells' own content. */
  lemma ValidateMatchesSchema(row: map<Field, Cell>)
    ensures ValidateImportRow(row).Success? <==> RowAcceptable(row)
    ensures RowAcceptable(row) ==> ValidateImportRow(row).value == ParsedRow(row)
  {
    if RowAcceptable(row) {
      forall f ensures FieldCheck(row, f).None? {
        FieldCheckAgrees(row, f);
      }
    }
    if ValidateImportRow(row).Success? {
      forall f ensures FieldAcceptable(row, f) {
        FieldCheckAgrees(row, f);
      }
      assert PairingIssues(row) == [];
    }
  }

  /** The pairing rule: exactly one coordinate given yields an issue at
      `latitude`; both or neither yields no pairing issue. */
  lemma PairingRule(row: map<Field, Cell>)
    ensures !CoordinatesPaired(row) ==>
      ValidateImportRow(row).Failure? && Issue(Latitude, CoordinatesUnpaired) in ValidateImportRow(row).error
    ensures CoordinatesPaired(row) && ValidateImportRow(row).Failure? ==>
      Issue(Latitude, CoordinatesUnpaired) !in ValidateImportRow(row).error
  {
  }

  /** A row without `address_ru` fails with a `Required` issue on that field. */
  lemma MissingAddressReported(row: map<Field, Cell>)
    requires AddressRu !in row
    ensures ValidateImportRow(row).Failure?
    ensures Issue(AddressRu, Required) in ValidateImportRow(row).error
  {
    SchemaOrderComplete(AddressRu);
    assert FieldCheck(row, AddressRu) == Some(Issue(AddressRu, Required));
  }

  /** The maximum file size, 10 MiB. */
  const MaxFileSize: int := 10 * 1024 * 1024
  const MaxImportRows: nat := 1000

  datatype FileIssue = NotXlsx | FileTooLarge | TooManyRows | RowInvalid(index: nat, issue: Issue)

  /** importFileSchema: an `.xlsx` file name, at most 10 MiB, at most 1000
      rows, each of which passes the row schema. */
  function CheckImportFile(filename: string, size: int, rows: seq<map<Field, Cell>>): (r: Result<seq<ImportRow>, seq<FileIssue>>)
    ensures r.Success? <==>
      && EndsWith(filename, ".xlsx") && size <= MaxFileSize && |rows| <= MaxImportRows
      && forall k :: 0 <= k < |rows| ==> ValidateImportRow(rows[k]).Success?
    ensures r.Success? ==> |r.value| == |rows| && forall k :: 0 <= k < |rows| ==> r.value[k] == ValidateImportRow(rows[k]).value
  {
    var issues :=
      (if EndsWith(filename, ".xlsx") then [] else [NotXlsx])
      + (if size <= MaxFileSize then [] else [FileTooLarge])
      + (if |rows| <= MaxImportRows then [] else [TooManyRows])
      + RowIssues(rows, 0);
    if issues == [] then
      Success(seq(|rows|, k requires 0 <= k < |rows| => ValidateImportRow(rows[k]).value))
    else
      Failure(issues)
  }

  /** The issues of the array elements, each tagged with its index; there
      are none exactly when every row passes the row schema. */
  function RowIssues(rows: seq<map<Field, Cell>>, offset: nat): (issues: seq<FileIssue>)
    ensures issues == [] <==> forall k :: 0 <= k < |rows| ==> ValidateImportRow(rows[k]).Success?
  {
    if rows == [] then []
    else
      var first := ValidateImportRow(rows[0]);
      var rest := RowIssues(rows[1..], offset + 1);
      assert forall k :: 1 <= k < |rows| ==> rows[k] == rows[1..][k - 1];
      (if first.Failure? then seq(|first.error|, k requires 0 <= k < |first.error| => RowInvalid(offset, first.error[k])) else [])
      + rest
  }
}
