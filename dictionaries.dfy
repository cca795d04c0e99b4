/** The dictionary actions of app/actions/dictionaries.tsx: infrastructure
    types, regions and priority directions, each created, updated and
    deleted behind the SUPER_ADMIN role gate. The three families are written
    once here, told apart by their `Kind`; each keeps its own tables. */
module DictionaryActions {
  import opened Wrappers
  import opened Strings
  import opened Store
  import Auth
  import ObjectSchema

  datatype Kind = TypeKind | RegionKind | DirectionKind

  /** The translated names of a form: `ru` is required, `kz` and `en` are
      optional. */
  datatype NamesInput = NamesInput(ru: string, kz: Option<string>, en: Option<string>)

  /** The three forms. `order` is a JavaScript number. */
  datatype DictInput =
    | TypeInput(code: string, markerColor: string, order: real, names: NamesInput)
    | RegionInput(code: string, order: real, names: NamesInput)
    | DirectionInput(order: real, names: NamesInput)

  function KindOf(input: DictInput): Kind {
    match input
    case TypeInput(_, _, _, _) => TypeKind
    case RegionInput(_, _, _) => RegionKind
    case DirectionInput(_, _) => DirectionKind
  }

  datatype DictIssue =
    | CodeTooShort | CodeTooLong
    | BadMarkerColor
    | OrderNotInteger | OrderNegative
    | NameTooShort(lang: Lang) | NameTooLong(lang: Lang)

  const MaxCodeLength := 50
  const MaxNameLength := 100

  /** z.string().min(1).max(50) on the code. */
  function CodeIssues(code: string): (issues: seq<DictIssue>)
    ensures issues == [] <==> 1 <= |code| <= MaxCodeLength
  {
    (if |code| < 1 then [CodeTooShort] else []) + (if |code| > MaxCodeLength then [CodeTooLong] else [])
  }

  /** z.number().int().min(0): both checks run, so a negative fraction
      reports both. */
  function OrderIssues(order: real): (issues: seq<DictIssue>)
    ensures issues == [] <==> ObjectSchema.IsInteger(order) && order >= 0.0
  {
    (if ObjectSchema.IsInteger(order) then [] else [OrderNotInteger]) + (if order < 0.0 then [OrderNegative] else [])
  }

  /** z.string().min(1).max(100) on one name. */
  function NameIssues(lang: Lang, name: string): (issues: seq<DictIssue>)
    ensures issues == [] <==> 1 <= |name| <= MaxNameLength
  {
    (if |name| < 1 then [NameTooShort(lang)] else []) + (if |name| > MaxNameLength then [NameTooLong(lang)] else [])
  }

  function OptionalNameIssues(lang: Lang, name: Option<string>): (issues: seq<DictIssue>)
    ensures issues == [] <==> name.None? || 1 <= |name.value| <= MaxNameLength
  {
    if name.Some? then NameIssues(lang, name.value) else []
  }

  function NamesIssues(names: NamesInput): (issues: seq<DictIssue>)
    ensures issues == [] <==>
      && 1 <= |names.ru| <= MaxNameLength
      && (names.kz.None? || 1 <= |names.kz.value| <= MaxNameLength)
      && (names.en.None? || 1 <= |names.en.value| <= MaxNameLength)
  {
    NameIssues(Ru, names.ru) + OptionalNameIssues(Kz, names.kz) + OptionalNameIssues(En, names.en)
  }

  /** Every issue of a form, in the schema's field order. */
  function DictIssues(input: DictInput): seq<DictIssue> {
    match input
    case TypeInput(code, color, order, names) =>
      CodeIssues(code) + (if IsHexColor(color) then [] else [BadMarkerColor]) + OrderIssues(order) + NamesIssues(names)
    case RegionInput(code, order, names) => CodeIssues(code) + OrderIssues(order) + NamesIssues(names)
    case DirectionInput(order, names) => OrderIssues(order) + NamesIssues(names)
  }

  /** The reference rules of the three schemas: a code of 1 to 50
      characters for types and regions, a `#` and six hex digits in either
      case for a type's colour, a non-negative integer order, and names of 1
      to 100 characters. */
  predicate DictAcceptable(input: DictInput) {
    && (!input.DirectionInput? ==> 1 <= |input.code| <= MaxCodeLength)
    && (input.TypeInput? ==> |input.markerColor| == 7 && input.markerColor[0] == '#'
                             && forall i :: 1 <= i < 7 ==> IsHexDigit(input.markerColor[i]))
    && ObjectSchema.IsInteger(input.order) && input.order >= 0.0
    && 1 <= |input.names.ru| <= MaxNameLength
    && (input.names.kz.None? || 1 <= |input.names.kz.value| <= MaxNameLength)
    && (input.names.en.None? || 1 <= |input.names.en.value| <= MaxNameLength)
  }

  /** A row of one of the three dictionary tables. */
  datatype Entry = TypeEntry(t: TypeRecord) | RegionEntry(r: RegionRecord) | DirectionEntry(d: DirectionRecord)

  /** The parsed form: the table row and the names. */
  datatype Parsed = Parsed(entry: Entry, names: NamesInput)

  /** The schema's parse: the row, or every issue found. */
  function ParseDict(input: DictInput): (r: Result<Parsed, seq<DictIssue>>)
    ensures r.Failure? ==> r.error != []
    ensures r.Success? ==> r.value.names == input.names
  {
    var issues := DictIssues(input);
    if issues != [] then Failure(issues)
    else
      var order := input.order.Floor as nat;
      match input
      case TypeInput(code, color, _, names) => Success(Parsed(TypeEntry(TypeRecord(code, color, order)), names))
      case RegionInput(code, _, names) => Success(Parsed(RegionEntry(RegionRecord(code, order)), names))
      case DirectionInput(_, names) => Success(Parsed(DirectionEntry(DirectionRecord(order)), names))
  }

  /** The schemas accept exactly the forms the reference rules allow, and
      the stored row carries the form's code, colour and order. */
  lemma ParseDictMatchesRules(input: DictInput)
    ensures ParseDict(input).Success? <==> DictAcceptable(input)
    ensures ParseDict(input).Success? ==>
      var e := ParseDict(input).value.entry;
      && (input.TypeInput? ==> e == TypeEntry(TypeRecord(input.code, input.markerColor, input.order.Floor as nat)))
      && (input.RegionInput? ==> e == RegionEntry(RegionRecord(input.code, input.order.Floor as nat)))
      && (input.DirectionInput? ==> e == DirectionEntry(DirectionRecord(input.order.Floor as nat)))
      && input.order.Floor as real == input.order && input.order.Floor >= 0
  {
  }

  /** The name list of create: `ru` first, then `kz` and `en` when provided
      (and non-empty). */
  function NameRows(names: NamesInput): (ts: seq<(Lang, string)>)
    ensures |ts| >= 1 && ts[0] == (Ru, names.ru)
  {
    [(Ru, names.ru)]
    + (if names.kz.Some? && names.kz.value != "" then [(Kz, names.kz.value)] else [])
    + (if names.en.Some? && names.en.value != "" then [(En, names.en.value)] else [])
  }

  /** The name a form gives a language, when it gives a truthy one. */
  function NameOf(names: NamesInput, lang: Lang): Option<string> {
    match lang
    case Ru => if names.ru != "" then Some(names.ru) else None
    case Kz => if names.kz.Some? && names.kz.value != "" then names.kz else None
    case En => if names.en.Some? && names.en.value != "" then names.en else None
  }

  /** The languages in the order update visits them. */
  const Languages: seq<Lang> := [Ru, Kz, En]

  /** The upserts of update among `langs`, in order. */
  function UpsertRows(names: NamesInput, langs: seq<Lang>): seq<(Lang, string)> {
    if langs == [] then []
    else
      var lang := langs[|langs| - 1];
      UpsertRows(names, langs[..|langs| - 1]) + (if NameOf(names, lang).Some? then [(lang, NameOf(names, lang).value)] else [])
  }

  /** One more language visited adds at most its one row. */
  lemma UpsertRowsStep(names: NamesInput, langs: seq<Lang>, k: nat)
    requires k < |langs|
    ensures UpsertRows(names, langs[..k + 1]) ==
      UpsertRows(names, langs[..k]) + (if NameOf(names, langs[k]).Some? then [(langs[k], NameOf(names, langs[k]).value)] else [])
  {
    assert langs[..k + 1][..k] == langs[..k];
  }

  /** On an accepted form, update's upserts are create's rows: `ru` is
      non-empty. */
  lemma UpsertRowsAreNameRows(names: NamesInput)
    requires names.ru != ""
    ensures UpsertRows(names, Languages) == NameRows(names)
  {
    var kz: seq<(Lang, string)> := if names.kz.Some? && names.kz.value != "" then [(Kz, names.kz.value)] else [];
    assert [Ru][..0] == [];
    assert UpsertRows(names, [Ru]) == [(Ru, names.ru)];
    assert [Ru, Kz][..1] == [Ru];
    assert UpsertRows(names, [Ru, Kz]) == [(Ru, names.ru)] + kz;
    assert Languages[..2] == [Ru, Kz];
  }

  lemma LastForAppend(ts: seq<(Lang, string)>, e: (Lang, string), lang: Lang)
    ensures LastFor(ts + [e], lang) == if e.0 == lang then Some(e.1) else LastFor(ts, lang)
  {
    assert (ts + [e])[..|ts|] == ts;
  }

  /** Each language's last row is the form's name for it, if any. */
  lemma NameRowsLast(names: NamesInput, lang: Lang)
    requires names.ru != ""
    ensures LastFor(NameRows(names), lang) == NameOf(names, lang)
  {
    var ru: seq<(Lang, string)> := [(Ru, names.ru)];
    var kz: seq<(Lang, string)> := if names.kz.Some? && names.kz.value != "" then [(Kz, names.kz.value)] else [];
    var en: seq<(Lang, string)> := if names.en.Some? && names.en.value != "" then [(En, names.en.value)] else [];
    assert NameRows(names) == ru + kz + en;
    LastForAppend([], ru[0], lang);
    assert [] + [ru[0]] == ru;
    if kz != [] {
      LastForAppend(ru, kz[0], lang);
    } else {
      assert ru + kz == ru;
    }
    if en != [] {
      LastForAppend(ru + kz, en[0], lang);
    } else {
      assert ru + kz + en == ru + kz;
    }
  }

  /** The table and the name table of a kind. */
  function Ids(db: Db, kind: Kind): set<Id> {
    match kind
    case TypeKind => db.types.Keys
    case RegionKind => db.regions.Keys
    case DirectionKind => db.directions.Keys
  }

  function NamesOf(db: Db, kind: Kind): map<(Id, Lang), string> {
    match kind
    case TypeKind => db.typeNames
    case RegionKind => db.regionNames
    case DirectionKind => db.directionNames
  }

  function WithNames(db: Db, kind: Kind, names: map<(Id, Lang), string>): (r: Db)
    ensures NamesOf(r, kind) == names
  {
    match kind
    case TypeKind => db.(typeNames := names)
    case RegionKind => db.(regionNames := names)
    case DirectionKind => db.(directionNames := names)
  }

  /** A second name-table write replaces the first. */
  lemma WithNamesTwice(db: Db, kind: Kind, first: map<(Id, Lang), string>, second: map<(Id, Lang), string>)
    ensures WithNames(WithNames(db, kind, first), kind, second) == WithNames(db, kind, second)
  {
  }

  /** A run of name writes for one entry of a kind. */
  function WithNamesAdded(db: Db, kind: Kind, id: Id, rows: seq<(Lang, string)>): Db {
    WithNames(db, kind, PutTranslations(NamesOf(db, kind), id, rows))
  }

  function EntryKind(e: Entry): Kind {
    match e
    case TypeEntry(_) => TypeKind
    case RegionEntry(_) => RegionKind
    case DirectionEntry(_) => DirectionKind
  }

  /** The row stored under an id in a kind's table, if any. */
  function EntryAt(db: Db, kind: Kind, id: Id): Option<Entry> {
    match kind
    case TypeKind => if id in db.types then Some(TypeEntry(db.types[id])) else None
    case RegionKind => if id in db.regions then Some(RegionEntry(db.regions[id])) else None
    case DirectionKind => if id in db.directions then Some(DirectionEntry(db.directions[id])) else None
  }

  /** The row put under an id in its kind's table: that id now holds the
      row, every other row of every table is as it was, and so are the
      objects, the links, the names and the next id. */
  function WithEntry(db: Db, id: Id, e: Entry): (r: Db)
    ensures Ids(r, EntryKind(e)) == Ids(db, EntryKind(e)) + {id}
    ensures EntryAt(r, EntryKind(e), id) == Some(e)
    ensures forall kind, other :: kind != EntryKind(e) || other != id ==> EntryAt(r, kind, other) == EntryAt(db, kind, other)
    ensures r == db.(types := r.types, regions := r.regions, directions := r.directions)
  {
    match e
    case TypeEntry(t) => db.(types := db.types[id := t])
    case RegionEntry(rg) => db.(regions := db.regions[id := rg])
    case DirectionEntry(d) => db.(directions := db.directions[id := d])
  }

  function WithoutEntry(db: Db, kind: Kind, id: Id): (r: Db)
    ensures Ids(r, kind) == Ids(db, kind) - {id}
  {
    match kind
    case TypeKind => db.(types := db.types - {id})
    case RegionKind => db.(regions := db.regions - {id})
    case DirectionKind => db.(directions := db.directions - {id})
  }

  /** How many rows reference an entry: objects for a type or a region,
      object-direction links for a direction. */
  function ReferenceCount(db: Db, kind: Kind, id: Id): nat {
    match kind
    case TypeKind => |ObjectsOfType(db.objects, id)|
    case RegionKind => |ObjectsOfRegion(db.objects, id)|
    case DirectionKind => LinksToDirection(db.links, id)
  }

  datatype DictError =
    | Denied(reason: Auth.AuthError)
    | Invalid(issues: seq<DictIssue>)
    | StillReferenced(count: nat)
    | EntryNotFound

  datatype Outcome<T> = Outcome(result: Result<T, DictError>, db: Db)

  /** The prologue of create and update: requireRole('SUPER_ADMIN') first,
      then the schema's parse. */
  function Admit(session: Option<Auth.Session>, input: DictInput): (r: Result<Parsed, DictError>)
    ensures r.Success? <==> Auth.RequireRole(session, Auth.SuperAdmin).Success? && ParseDict(input).Success?
    ensures r.Success? ==> r.value == ParseDict(input).value
    ensures Auth.RequireRole(session, Auth.SuperAdmin).Failure? ==> r.Failure? && r.error.Denied?
  {
    match Auth.RequireRole(session, Auth.SuperAdmin)
    case Failure(e) => Failure(Denied(e))
    case Success(_) =>
      match ParseDict(input)
      case Failure(issues) => Failure(Invalid(issues))
      case Success(p) => Success(p)
  }

  /** The store with its next id handed out. */
  function Bumped(db: Db): (r: Db)
    ensures r.nextId == db.nextId + 1
  {
    db.(nextId := db.nextId + 1)
  }

  /** The store after create's writes: the row under the next id, then its
      names. */
  function CreatedEntry(db: Db, p: Parsed): Db {
    WithNamesAdded(WithEntry(Bumped(db), db.nextId, p.entry), EntryKind(p.entry), db.nextId, NameRows(p.names))
  }

  /** create: the gate, the parse, then the writes, all or none. */
  function CreateOutcome(db: Db, session: Option<Auth.Session>, input: DictInput): (o: Outcome<Id>)
    ensures o.result.Failure? ==> o.db == db
    ensures o.result.Success? <==> Auth.RequireRole(session, Auth.SuperAdmin).Success? && DictAcceptable(input)
    ensures o.result.Success? ==> o.result.value == db.nextId
  {
    ParseDictMatchesRules(input);
    match Admit(session, input)
    case Failure(e) => Outcome(Failure(e), db)
    case Success(p) => Outcome(Success(db.nextId), CreatedEntry(db, p))
  }

  /** The store after update's writes: the row replaced, then an upsert per
      provided name. */
  function UpdatedEntry(db: Db, id: Id, p: Parsed): Db {
    WithNamesAdded(WithEntry(db, id, p.entry), EntryKind(p.entry), id, UpsertRows(p.names, Languages))
  }

  /** update: the gate, the parse, then the writes; a missing row makes the
      first write throw. */
  function UpdateOutcome(db: Db, session: Option<Auth.Session>, id: Id, input: DictInput): (o: Outcome<()>)
    ensures o.result.Failure? ==> o.db == db
    ensures o.result.Success? <==>
      Auth.RequireRole(session, Auth.SuperAdmin).Success? && DictAcceptable(input) && id in Ids(db, KindOf(input))
  {
    ParseDictMatchesRules(input);
    match Admit(session, input)
    case Failure(e) => Outcome(Failure(e), db)
    case Success(p) =>
      if id !in Ids(db, EntryKind(p.entry)) then Outcome(Failure(EntryNotFound), db)
      else Outcome(Success(()), UpdatedEntry(db, id, p))
  }

  /** delete: the gate, then the reference count, then the delete, which
      throws for a missing row. */
  function DeleteOutcome(db: Db, session: Option<Auth.Session>, kind: Kind, id: Id): (o: Outcome<()>)
    ensures o.result.Failure? ==> o.db == db
    ensures o.result.Success? <==>
      Auth.RequireRole(session, Auth.SuperAdmin).Success? && ReferenceCount(db, kind, id) == 0 && id in Ids(db, kind)
    ensures Auth.RequireRole(session, Auth.SuperAdmin).Success? && ReferenceCount(db, kind, id) > 0 ==>
      o.result == Failure(StillReferenced(ReferenceCount(db, kind, id)))
    ensures o.result.Success? ==> o.db == WithoutEntry(db, kind, id)
  {
    match Auth.RequireRole(session, Auth.SuperAdmin)
    case Failure(e) => Outcome(Failure(Denied(e)), db)
    case Success(_) =>
      var count := ReferenceCount(db, kind, id);
      if count > 0 then Outcome(Failure(StillReferenced(count)), db)
      else if id !in Ids(db, kind) then Outcome(Failure(EntryNotFound), db)
      else Outcome(Success(()), WithoutEntry(db, kind, id))
  }

  /** No row refers to a dictionary entry that does not exist. */
  predicate ReferencesResolve(db: Db) {
    && (forall id :: id in db.objects ==> db.objects[id].typeId in Ids(db, TypeKind) && db.objects[id].regionId in Ids(db, RegionKind))
    && (forall l :: l in db.links ==> l.directionId in Ids(db, DirectionKind))
  }

  /** Deleting an entry is refused while something refers to it, so a
      successful delete leaves no reference dangling. */
  lemma DeleteKeepsReferencesResolved(db: Db, session: Option<Auth.Session>, kind: Kind, id: Id)
    requires ReferencesResolve(db)
    ensures ReferencesResolve(DeleteOutcome(db, session, kind, id).db)
  {
    var o := DeleteOutcome(db, session, kind, id);
    if o.result.Success? {
      match kind
      case TypeKind =>
        forall oid | oid in db.objects
          ensures db.objects[oid].typeId != id
        {
          assert oid !in ObjectsOfType(db.objects, id);
        }
      case RegionKind =>
        forall oid | oid in db.objects
          ensures db.objects[oid].regionId != id
        {
          assert oid !in ObjectsOfRegion(db.objects, id);
        }
      case DirectionKind =>
    }
  }

  /** Adding or replacing a row only grows its table and leaves the names,
      the objects and the links alone. */
  lemma EntryWriteGrows(db: Db, id: Id, e: Entry, kind: Kind)
    ensures Ids(db, kind) <= Ids(WithEntry(db, id, e), kind)
    ensures NamesOf(WithEntry(db, id, e), kind) == NamesOf(db, kind)
    ensures WithEntry(db, id, e).objects == db.objects && WithEntry(db, id, e).links == db.links
  {
  }

  /** Writing names leaves every stored row alone. */
  lemma NameWritesKeepEntries(db: Db, kind: Kind, id: Id, rows: seq<(Lang, string)>, k: Kind, other: Id)
    ensures EntryAt(WithNamesAdded(db, kind, id, rows), k, other) == EntryAt(db, k, other)
  {
  }

  /** A successful create stores the parsed row (the form's code, colour
      and order) under the new id, and every other row of every table is
      as it was. */
  lemma CreateWritesEntry(db: Db, session: Option<Auth.Session>, input: DictInput, kind: Kind, other: Id)
    requires CreateOutcome(db, session, input).result.Success?
    ensures var after := CreateOutcome(db, session, input).db;
      && EntryAt(after, KindOf(input), db.nextId) == Some(ParseDict(input).value.entry)
      && (kind != KindOf(input) || other != db.nextId ==> EntryAt(after, kind, other) == EntryAt(db, kind, other))
  {
    ParseDictMatchesRules(input);
    var p := ParseDict(input).value;
    assert EntryKind(p.entry) == KindOf(input);
    var written := WithEntry(Bumped(db), db.nextId, p.entry);
    NameWritesKeepEntries(written, KindOf(input), db.nextId, NameRows(p.names), KindOf(input), db.nextId);
    NameWritesKeepEntries(written, KindOf(input), db.nextId, NameRows(p.names), kind, other);
    assert EntryAt(Bumped(db), kind, other) == EntryAt(db, kind, other);
  }

  /** A successful update replaces the row under the id by the parsed row,
      and every other row of every table is as it was. */
  lemma UpdateWritesEntry(db: Db, session: Option<Auth.Session>, id: Id, input: DictInput, kind: Kind, other: Id)
    requires UpdateOutcome(db, session, id, input).result.Success?
    ensures var after := UpdateOutcome(db, session, id, input).db;
      && EntryAt(after, KindOf(input), id) == Some(ParseDict(input).value.entry)
      && (kind != KindOf(input) || other != id ==> EntryAt(after, kind, other) == EntryAt(db, kind, other))
  {
    ParseDictMatchesRules(input);
    var p := ParseDict(input).value;
    assert EntryKind(p.entry) == KindOf(input);
    var written := WithEntry(db, id, p.entry);
    NameWritesKeepEntries(written, KindOf(input), id, UpsertRows(p.names, Languages), KindOf(input), id);
    NameWritesKeepEntries(written, KindOf(input), id, UpsertRows(p.names, Languages), kind, other);
  }

  /** Writing names leaves the tables, the objects and the links alone. */
  lemma NameWritesKeepTables(db: Db, kind: Kind, id: Id, rows: seq<(Lang, string)>, k: Kind)
    ensures Ids(WithNamesAdded(db, kind, id, rows), k) == Ids(db, k)
    ensures WithNamesAdded(db, kind, id, rows).objects == db.objects && WithNamesAdded(db, kind, id, rows).links == db.links
  {
  }

  /** A store with the same objects and links and at least the same
      entries keeps references resolving. */
  lemma GrowingKeepsReferencesResolved(db: Db, db': Db)
    requires ReferencesResolve(db)
    requires db'.objects == db.objects && db'.links == db.links
    requires Ids(db, TypeKind) <= Ids(db', TypeKind) && Ids(db, RegionKind) <= Ids(db', RegionKind)
    requires Ids(db, DirectionKind) <= Ids(db', DirectionKind)
    ensures ReferencesResolve(db')
  {
  }

  /** Writing a row and its names keeps references resolving. */
  lemma EntryAndNamesKeepReferencesResolved(db: Db, id: Id, e: Entry, rows: seq<(Lang, string)>)
    requires ReferencesResolve(db)
    ensures ReferencesResolve(WithNamesAdded(WithEntry(db, id, e), EntryKind(e), id, rows))
  {
    var withRow := WithEntry(db, id, e);
    EntryWriteGrows(db, id, e, TypeKind);
    EntryWriteGrows(db, id, e, RegionKind);
    EntryWriteGrows(db, id, e, DirectionKind);
    NameWritesKeepTables(withRow, EntryKind(e), id, rows, TypeKind);
    NameWritesKeepTables(withRow, EntryKind(e), id, rows, RegionKind);
    NameWritesKeepTables(withRow, EntryKind(e), id, rows, DirectionKind);
    GrowingKeepsReferencesResolved(db, WithNamesAdded(withRow, EntryKind(e), id, rows));
  }

  /** Creating an entry keeps references resolving. */
  lemma CreateKeepsReferencesResolved(db: Db, p: Parsed)
    requires ReferencesResolve(db)
    ensures ReferencesResolve(CreatedEntry(db, p))
  {
    assert ReferencesResolve(Bumped(db));
    EntryAndNamesKeepReferencesResolved(Bumped(db), db.nextId, p.entry, NameRows(p.names));
  }

  /** Updating an entry keeps references resolving. */
  lemma UpdateKeepsReferencesResolved(db: Db, id: Id, p: Parsed)
    requires ReferencesResolve(db)
    ensures ReferencesResolve(UpdatedEntry(db, id, p))
  {
    EntryAndNamesKeepReferencesResolved(db, id, p.entry, UpsertRows(p.names, Languages));
  }

  /** A created entry has its `ru` name and a `kz` or `en` name exactly when
      the form provides one; other entries' names do not change. */
  lemma CreateWritesNames(db: Db, session: Option<Auth.Session>, input: DictInput, key: (Id, Lang))
    requires CreateOutcome(db, session, input).result.Success?
    ensures var after := NamesOf(CreateOutcome(db, session, input).db, KindOf(input));
      var before := NamesOf(db, KindOf(input));
      var id := db.nextId;
      if key.0 == id && NameOf(input.names, key.1).Some? then key in after && after[key] == NameOf(input.names, key.1).value
      else (key in after <==> key in before) && (key in after ==> after[key] == before[key])
    ensures db.nextId in Ids(CreateOutcome(db, session, input).db, KindOf(input))
  {
    ParseDictMatchesRules(input);
    var p := ParseDict(input).value;
    assert EntryKind(p.entry) == KindOf(input);
    EntryWriteGrows(Bumped(db), db.nextId, p.entry, KindOf(input));
    assert NamesOf(Bumped(db), KindOf(input)) == NamesOf(db, KindOf(input));
    PutTranslationsLookup(NamesOf(db, KindOf(input)), db.nextId, NameRows(p.names), key);
    NameRowsLast(p.names, key.1);
  }

  /** Update upserts only the provided names: an omitted language keeps its
      name, or its absence, and other entries' names do not change. */
  lemma UpdateUpsertsProvidedNames(db: Db, session: Option<Auth.Session>, id: Id, input: DictInput, key: (Id, Lang))
    requires UpdateOutcome(db, session, id, input).result.Success?
    ensures var after := NamesOf(UpdateOutcome(db, session, id, input).db, KindOf(input));
      var before := NamesOf(db, KindOf(input));
      if key.0 == id && NameOf(input.names, key.1).Some? then key in after && after[key] == NameOf(input.names, key.1).value
      else (key in after <==> key in before) && (key in after ==> after[key] == before[key])
  {
    ParseDictMatchesRules(input);
    var p := ParseDict(input).value;
    assert EntryKind(p.entry) == KindOf(input);
    UpsertRowsAreNameRows(p.names);
    EntryWriteGrows(db, id, p.entry, KindOf(input));
    PutTranslationsLookup(NamesOf(db, KindOf(input)), id, NameRows(p.names), key);
    NameRowsLast(p.names, key.1);
  }

  /** One name written to its kind's name table. */
  method PutName(db: Database, kind: Kind, id: Id, lang: Lang, name: string)
    modifies db
    ensures db.State() == WithNames(old(db.State()), kind, NamesOf(old(db.State()), kind)[(id, lang) := name])
  {
    match kind {
      case TypeKind => db.PutTypeName(id, lang, name);
      case RegionKind => db.PutRegionName(id, lang, name);
      case DirectionKind => db.PutDirectionName(id, lang, name);
    }
  }

  /** The names written in order: createMany, or the upsert loop. */
  method PutNames(db: Database, kind: Kind, id: Id, rows: seq<(Lang, string)>)
    modifies db
    ensures db.State() == WithNamesAdded(old(db.State()), kind, id, rows)
  {
    ghost var table := NamesOf(db.State(), kind);
    var k := 0;
    while k < |rows|
      invariant 0 <= k <= |rows|
      invariant db.State() == WithNames(old(db.State()), kind, PutTranslations(table, id, rows[..k]))
    {
      assert rows[..k + 1][..k] == rows[..k];
      PutName(db, kind, id, rows[k].0, rows[k].1);
      k := k + 1;
    }
    assert rows[..k] == rows;
  }

  /** The create of a kind's row under a fresh id. */
  method AddEntry(db: Database, e: Entry) returns (id: Id)
    modifies db
    ensures id == old(db.nextId)
    ensures db.State() == WithEntry(Bumped(old(db.State())), id, e)
  {
    match e {
      case TypeEntry(t) => id := db.CreateType(t);
      case RegionEntry(rg) => id := db.CreateRegion(rg);
      case DirectionEntry(d) => id := db.CreateDirection(d);
    }
  }

  /** The update of a kind's row. */
  method ReplaceEntry(db: Database, id: Id, e: Entry)
    modifies db
    ensures db.State() == WithEntry(old(db.State()), id, e)
  {
    match e {
      case TypeEntry(t) => db.UpdateType(id, t);
      case RegionEntry(rg) => db.UpdateRegion(id, rg);
      case DirectionEntry(d) => db.UpdateDirection(id, d);
    }
  }

  /** create's translation list: `ru` pushed first, then `kz` and `en`
      when provided. */
  method PushNames(names: NamesInput) returns (rows: seq<(Lang, string)>)
    ensures rows == NameRows(names)
  {
    rows := [(Ru, names.ru)];
    if names.kz.Some? && names.kz.value != "" {
      rows := rows + [(Kz, names.kz.value)];
    }
    if names.en.Some? && names.en.value != "" {
      rows := rows + [(En, names.en.value)];
    }
  }

  /** create's writes: the row, then the name list. */
  method WriteCreate(db: Database, p: Parsed) returns (id: Id)
    modifies db
    ensures id == old(db.nextId)
    ensures db.State() == CreatedEntry(old(db.State()), p)
  {
    ghost var before := db.State();
    var kind := EntryKind(p.entry);
    id := AddEntry(db, p.entry);
    ghost var withRow := db.State();
    var rows := PushNames(p.names);
    PutNames(db, kind, id, rows);
  }

  /** create, on the store. */
  method Create(db: Database, session: Option<Auth.Session>, input: DictInput) returns (r: Result<Id, DictError>)
    modifies db
    ensures Outcome(r, db.State()) == CreateOutcome(old(db.State()), session, input)
  {
    var admitted := Admit(session, input);
    if admitted.Failure? {
      return Failure(admitted.error);
    }
    var id := WriteCreate(db, admitted.value);
    return Success(id);
  }

  /** update's loop: one upsert per provided name in the order ru, kz, en. */
  method UpsertNames(db: Database, kind: Kind, id: Id, names: NamesInput)
    modifies db
    ensures db.State() == WithNamesAdded(old(db.State()), kind, id, UpsertRows(names, Languages))
  {
    ghost var table := NamesOf(db.State(), kind);
    var k := 0;
    while k < |Languages|
      invariant 0 <= k <= |Languages|
      invariant db.State() == WithNames(old(db.State()), kind, PutTranslations(table, id, UpsertRows(names, Languages[..k])))
    {
      ghost var done := UpsertRows(names, Languages[..k]);
      UpsertRowsStep(names, Languages, k);
      var lang := Languages[k];
      var name := NameOf(names, lang);
      if name.Some? {
        ghost var mid := db.State();
        PutTranslationsAppend(table, id, done, (lang, name.value));
        PutName(db, kind, id, lang, name.value);
        WithNamesTwice(old(db.State()), kind, PutTranslations(table, id, done), NamesOf(mid, kind)[(id, lang) := name.value]);
      }
      k := k + 1;
    }
    assert Languages[..k] == Languages;
  }

  /** update, on the store: the row, then the upserts. */
  method Update(db: Database, session: Option<Auth.Session>, id: Id, input: DictInput) returns (r: Result<(), DictError>)
    modifies db
    ensures Outcome(r, db.State()) == UpdateOutcome(old(db.State()), session, id, input)
  {
    var admitted := Admit(session, input);
    if admitted.Failure? {
      return Failure(admitted.error);
    }
    var p := admitted.value;
    if id !in Ids(db.State(), EntryKind(p.entry)) {
      return Failure(EntryNotFound);
    }
    ReplaceEntry(db, id, p.entry);
    UpsertNames(db, EntryKind(p.entry), id, p.names);
    return Success(());
  }

  /** delete, on the store: count the references, then delete. */
  method Delete(db: Database, session: Option<Auth.Session>, kind: Kind, id: Id) returns (r: Result<(), DictError>)
    modifies db
    ensures Outcome(r, db.State()) == DeleteOutcome(old(db.State()), session, kind, id)
  {
    var gate := Auth.RequireRole(session, Auth.SuperAdmin);
    if gate.Failure? {
      return Failure(Denied(gate.error));
    }
    var count := ReferenceCount(db.State(), kind, id);
    if count > 0 {
      return Failure(StillReferenced(count));
    }
    if id !in Ids(db.State(), kind) {
      return Failure(EntryNotFound);
    }
    match kind {
      case TypeKind => db.DeleteType(id);
      case RegionKind => db.DeleteRegion(id);
      case DirectionKind => db.DeleteDirection(id);
    }
    return Success(());
  }
}
