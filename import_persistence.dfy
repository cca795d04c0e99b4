/** Writing validated import rows to the store (importObjects,
    app/actions/import.ts): dictionary names are resolved to ids, the rows
    are written in batches of 100, one transaction per batch, and the
    counters `imported` and `failed` and the error list are accumulated.
    Write failures are oracle inputs: a set of sheet row numbers whose object
    write throws, and for each failing batch the number of its rows that ran
    before the transaction threw. */
module ImportPersistence {
  import opened Wrappers
  import opened Strings
  import opened ImportSchema
  import opened ImportExtraction
  import opened Store
  import Auth
  import DictionaryActions

  /** A dictionary row as fetched with its `ru` translation (None when it has
      none). Directions have no code; their `code` is unused. */
  datatype DictRow = DictRow(id: Id, code: string, ruName: Option<string>)

  /** JavaScript truthiness of an optional string. */
  predicate Truthy(o: Option<string>) {
    o.Some? && o.value != ""
  }

  /** The name a type or region is found under: its `ru` name when that is
      non-empty, otherwise its code. */
  function CodedKey(r: DictRow): string {
    if Truthy(r.ruName) then r.ruName.value else r.code
  }

  /** The name a direction is found under: its `ru` name, or ''. */
  function DirectionKey(r: DictRow): string {
    if Truthy(r.ruName) then r.ruName.value else ""
  }

  /** `new Map(entries)`: a later entry with the same key replaces an
      earlier one. */
  function NameMap(entries: seq<(string, Id)>): (m: map<string, Id>)
    ensures forall k :: k in m <==> exists i :: 0 <= i < |entries| && entries[i].0 == k
    ensures forall k :: k in m ==> exists i :: 0 <= i < |entries| && entries[i] == (k, m[k])
  {
    if entries == [] then map[]
    else
      var prev := NameMap(entries[..|entries| - 1]);
      assert forall i :: 0 <= i < |entries| - 1 ==> entries[..|entries| - 1][i] == entries[i];
      prev[entries[|entries| - 1].0 := entries[|entries| - 1].1]
  }

  /** An entry whose key no later entry repeats is the one the map keeps. */
  lemma {:induction false} NameMapLastWins(entries: seq<(string, Id)>, i: nat)
    requires i < |entries|
    requires forall j :: i < j < |entries| ==> entries[j].0 != entries[i].0
    ensures NameMap(entries)[entries[i].0] == entries[i].1
  {
    if i < |entries| - 1 {
      var prefix := entries[..|entries| - 1];
      assert prefix[i] == entries[i];
      assert forall j :: i < j < |prefix| ==> prefix[j] == entries[j];
      NameMapLastWins(prefix, i);
    }
  }

  function TypeEntries(rows: seq<DictRow>): seq<(string, Id)> {
    seq(|rows|, k requires 0 <= k < |rows| => (CodedKey(rows[k]), rows[k].id))
  }

  function DirectionEntries(rows: seq<DictRow>): seq<(string, Id)> {
    seq(|rows|, k requires 0 <= k < |rows| => (DirectionKey(rows[k]), rows[k].id))
  }

  /** typeMap, regionMap and directionMap. */
  datatype Dictionaries = Dictionaries(typeMap: map<string, Id>, regionMap: map<string, Id>, directionMap: map<string, Id>)

  function DictionariesOf(types: seq<DictRow>, regions: seq<DictRow>, directions: seq<DictRow>): Dictionaries {
    Dictionaries(NameMap(TypeEntries(types)), NameMap(TypeEntries(regions)), NameMap(DirectionEntries(directions)))
  }

  /** A type or region with a non-empty `ru` name is found under that name
      and not necessarily under its code. */
  lemma CodedKeyPrefersName(r: DictRow)
    ensures Truthy(r.ruName) ==> CodedKey(r) == r.ruName.value
    ensures !Truthy(r.ruName) ==> CodedKey(r) == r.code && DirectionKey(r) == ""
  {
  }

  /** The direction names of a row: its text split at commas, each piece
      trimmed; empty pieces are kept. */
  function DirectionTokens(directions: string): (tokens: seq<string>)
    ensures |tokens| == |Split(directions, ',')| >= 1
    ensures forall k :: 0 <= k < |tokens| ==> tokens[k] == Trim(Split(directions, ',')[k])
  {
    TrimEach(Split(directions, ','))
  }

  /** The phones of a row: its text split at commas, trimmed, empty pieces
      dropped; none when the text is missing or empty. */
  function PhoneTokens(phones: Option<string>): (tokens: seq<string>)
    ensures forall p :: p in tokens ==> p != "" && Trim(p) == p
    ensures tokens == if Truthy(phones) then DropEmpty(TrimEach(Split(phones.value, ','))) else []
    ensures Truthy(phones) ==> forall k :: 0 <= k < |Split(phones.value, ',')| && Trim(Split(phones.value, ',')[k]) != "" ==>
      Trim(Split(phones.value, ',')[k]) in tokens
  {
    if Truthy(phones) then
      var pieces := TrimEach(Split(phones.value, ','));
      TrimEachTrimmed(Split(phones.value, ','));
      assert forall k :: 0 <= k < |pieces| ==> pieces[k] in pieces;
      DropEmpty(pieces)
    else []
  }

  /** The ids and the unresolved names of the first `n` direction tokens, in
      token order. */
  datatype Resolution = Resolution(ids: seq<Id>, unknown: seq<string>)

  function ResolveUpTo(tokens: seq<string>, directionMap: map<string, Id>, n: nat): (r: Resolution)
    requires n <= |tokens|
    ensures |r.ids| + |r.unknown| == n
    ensures forall d :: d in r.ids ==> exists t :: t in tokens[..n] && t in directionMap && directionMap[t] == d
    ensures forall t :: t in r.unknown ==> t in tokens[..n] && t !in directionMap
  {
    if n == 0 then Resolution([], [])
    else
      assert tokens[..n] == tokens[..n - 1] + [tokens[n - 1]];
      ResolveToken(ResolveUpTo(tokens, directionMap, n - 1), tokens[n - 1], directionMap)
  }

  /** One token more: its id appended when the map knows it, otherwise the
      token appended to the unknown names. */
  function ResolveToken(r: Resolution, t: string, directionMap: map<string, Id>): Resolution {
    if t in directionMap then Resolution(r.ids + [directionMap[t]], r.unknown)
    else Resolution(r.ids, r.unknown + [t])
  }

  /** Two resolutions one after the other. */
  function Then(x: Resolution, y: Resolution): Resolution {
    Resolution(x.ids + y.ids, x.unknown + y.unknown)
  }

  function Resolve(tokens: seq<string>, directionMap: map<string, Id>): Resolution {
    ResolveUpTo(tokens, directionMap, |tokens|)
  }

  /** Resolving one token: its id when the map knows it, otherwise the
      token is reported as unknown. */
  lemma ResolveSingleton(t: string, directionMap: map<string, Id>)
    ensures Resolve([t], directionMap) == if t in directionMap then Resolution([directionMap[t]], []) else Resolution([], [t])
  {
    assert ResolveUpTo([t], directionMap, 0) == Resolution([], []);
  }

  /** Resolving a concatenation resolves each part in turn: together with
      the singleton case, every token resolves or is reported, in order. */
  lemma {:induction false} ResolveConcat(a: seq<string>, b: seq<string>, directionMap: map<string, Id>)
    ensures Resolve(a + b, directionMap) ==
      Resolution(Resolve(a, directionMap).ids + Resolve(b, directionMap).ids,
                 Resolve(a, directionMap).unknown + Resolve(b, directionMap).unknown)
  {
    ResolvePrefix(a, b, directionMap, |b|);
    assert |a| + |b| == |a + b|;
  }

  lemma {:induction false} ResolvePrefix(a: seq<string>, b: seq<string>, directionMap: map<string, Id>, n: nat)
    requires n <= |b|
    ensures ResolveUpTo(a + b, directionMap, |a| + n) == Then(Resolve(a, directionMap), ResolveUpTo(b, directionMap, n))
  {
    if n == 0 {
      assert (a + b)[..|a|] == a[..|a|];
      ResolveUpToPrefix(a + b, a, directionMap, |a|);
    } else {
      ResolvePrefix(a, b, directionMap, n - 1);
      assert (a + b)[|a| + n - 1] == b[n - 1];
      ThenToken(Resolve(a, directionMap), ResolveUpTo(b, directionMap, n - 1), b[n - 1], directionMap);
    }
  }

  lemma ThenToken(x: Resolution, y: Resolution, t: string, directionMap: map<string, Id>)
    ensures ResolveToken(Then(x, y), t, directionMap) == Then(x, ResolveToken(y, t, directionMap))
  {
    if t in directionMap {
      assert x.ids + y.ids + [directionMap[t]] == x.ids + (y.ids + [directionMap[t]]);
    } else {
      assert x.unknown + y.unknown + [t] == x.unknown + (y.unknown + [t]);
    }
  }

  /** ResolveUpTo looks only at the first n tokens. */
  lemma {:induction false} ResolveUpToPrefix(xs: seq<string>, ys: seq<string>, directionMap: map<string, Id>, n: nat)
    requires n <= |xs| && n <= |ys| && xs[..n] == ys[..n]
    ensures ResolveUpTo(xs, directionMap, n) == ResolveUpTo(ys, directionMap, n)
  {
    if n > 0 {
      assert xs[..n - 1] == ys[..n - 1];
      assert xs[n - 1] == xs[..n][n - 1];
      ResolveUpToPrefix(xs, ys, directionMap, n - 1);
    }
  }

  /** The resolution of a row's directions; nothing when the text is missing
      or empty. */
  function RowDirections(data: ImportRow, directionMap: map<string, Id>): Resolution {
    if Truthy(data.directions) then Resolve(DirectionTokens(data.directions.value), directionMap)
    else Resolution([], [])
  }

  /** Every token of a row's directions either resolves to an id or is
      reported: an unresolved name is never dropped silently. */
  lemma DirectionsAccounted(data: ImportRow, directionMap: map<string, Id>)
    requires Truthy(data.directions)
    ensures var r := RowDirections(data, directionMap);
      |r.ids| + |r.unknown| == |Split(data.directions.value, ',')|
  {
  }

  /** `value || null`. */
  function OrNull(o: Option<string>): (r: Option<string>)
    ensures r.Some? <==> Truthy(o)
  {
    if Truthy(o) then o else None
  }

  /** The object row an imported row creates: never published, with the
      trimmed non-empty phones or no phones at all. */
  function NewObject(data: ImportRow, typeId: Id, regionId: Id): (rec: ObjectRecord)
    ensures !rec.isPublished
    ensures rec.contactPhones.Some? ==> rec.contactPhones.value != [] && rec.contactPhones.value == PhoneTokens(data.phones)
    ensures rec.contactPhones.None? ==> PhoneTokens(data.phones) == []
  {
    var phones := PhoneTokens(data.phones);
    ObjectRecord(typeId, regionId, None, data.latitude, data.longitude,
                 OrNull(data.googleMapsUrl), OrNull(data.website),
                 if |phones| > 0 then Some(phones) else None, false)
  }

  /** The translation rows an imported row creates: `ru` always; `kz` and
      `en` when both name and address in that language are non-empty. None
      is published. */
  function NewTranslations(data: ImportRow): (ts: seq<(Lang, ObjectTranslation)>)
    ensures |ts| >= 1 && ts[0] == (Ru, ObjectTranslation(data.nameRu, data.addressRu, false))
    ensures forall k :: 0 <= k < |ts| ==> !ts[k].1.isPublished
  {
    [(Ru, ObjectTranslation(data.nameRu, data.addressRu, false))]
    + (if Truthy(data.nameKz) && Truthy(data.addressKz)
       then [(Kz, ObjectTranslation(data.nameKz.value, data.addressKz.value, false))] else [])
    + (if Truthy(data.nameEn) && Truthy(data.addressEn)
       then [(En, ObjectTranslation(data.nameEn.value, data.addressEn.value, false))] else [])
  }

  /** What the batch loop does with one validated row, once its names are
      resolved: skip it for an unknown type or region, run into a throwing
      object write, or write the object. Unresolved direction names are
      carried along to be reported. */
  datatype Plan =
    | UnknownType(typeName: string)
    | UnknownRegion(regionName: string)
    | WriteFails(unknown: seq<string>)
    | Write(rec: ObjectRecord, translations: seq<(Lang, ObjectTranslation)>, directionIds: seq<Id>, unknown: seq<string>)

  datatype Step = Step(rowNumber: nat, plan: Plan)

  /** The per-row body of the batch transaction, as a plan. The type is
      resolved before the region; directions are resolved only once both
      are known. */
  function RowStep(row: AcceptedRow, d: Dictionaries, rowFaults: set<nat>): (s: Step)
    ensures s.rowNumber == row.rowNumber
    ensures s.plan.UnknownType? <==> row.data.typeName !in d.typeMap
    ensures s.plan.UnknownRegion? <==> row.data.typeName in d.typeMap && row.data.regionName !in d.regionMap
    ensures s.plan.Write? <==> Importable(row, d, rowFaults)
  {
    var data := row.data;
    if data.typeName !in d.typeMap then Step(row.rowNumber, UnknownType(data.typeName))
    else if data.regionName !in d.regionMap then Step(row.rowNumber, UnknownRegion(data.regionName))
    else
      var resolution := RowDirections(data, d.directionMap);
      if row.rowNumber in rowFaults then Step(row.rowNumber, WriteFails(resolution.unknown))
      else
        Step(row.rowNumber, Write(NewObject(data, d.typeMap[data.typeName], d.regionMap[data.regionName]),
                                  NewTranslations(data), resolution.ids, resolution.unknown))
  }

  /** A row whose type and region resolve and whose write does not throw. */
  predicate Importable(row: AcceptedRow, d: Dictionaries, rowFaults: set<nat>) {
    row.data.typeName in d.typeMap && row.data.regionName in d.regionMap && row.rowNumber !in rowFaults
  }

  function Steps(rows: seq<AcceptedRow>, d: Dictionaries, rowFaults: set<nat>): (steps: seq<Step>)
    ensures |steps| == |rows|
  {
    seq(|rows|, k requires 0 <= k < |rows| => RowStep(rows[k], d, rowFaults))
  }

  /** The accumulated state of the import: store, errors and counters. */
  datatype Acc = Acc(db: Db, errors: seq<ImportError>, imported: nat, failed: nat)

  function DirectionErrors(rowNumber: nat, unknown: seq<string>): (errs: seq<ImportError>)
    ensures |errs| == |unknown|
  {
    seq(|unknown|, k requires 0 <= k < |unknown| =>
      ImportError(rowNumber, SchemaField(Directions), Text(unknown[k]), DirectionNotFound(unknown[k])))
  }

  /** Carrying out one row's plan: a skipped row gets one error naming the
      unresolved type or region; unresolved directions are reported before
      the write; a throwing write adds one general error. */
  function ApplyStep(acc: Acc, s: Step): Acc {
    match s.plan
    case UnknownType(name) =>
      acc.(errors := acc.errors + [ImportError(s.rowNumber, SchemaField(Type), Text(name), TypeNotFound(name))],
           failed := acc.failed + 1)
    case UnknownRegion(name) =>
      acc.(errors := acc.errors + [ImportError(s.rowNumber, SchemaField(Region), Text(name), RegionNotFound(name))],
           failed := acc.failed + 1)
    case WriteFails(unknown) =>
      acc.(errors := acc.errors + DirectionErrors(s.rowNumber, unknown) + [ImportError(s.rowNumber, General, NullValue, ObjectCreationFailed)],
           failed := acc.failed + 1)
    case Write(rec, translations, ids, unknown) =>
      acc.(db := Created(acc.db, rec, translations, ids),
           errors := acc.errors + DirectionErrors(s.rowNumber, unknown), imported := acc.imported + 1)
  }

  /** The steps of a batch carried out in order, up to the n-th. */
  function ApplyStepsUpTo(acc: Acc, steps: seq<Step>, n: nat): Acc
    requires n <= |steps|
  {
    if n == 0 then acc else ApplyStep(ApplyStepsUpTo(acc, steps, n - 1), steps[n - 1])
  }

  /** batchSize: rows per transaction. */
  const BatchSize: nat := 100

  /** Math.ceil(rows / batchSize). */
  function BatchCount(n: nat): nat {
    (n + BatchSize - 1) / BatchSize
  }

  /** rows.slice(k * 100, k * 100 + 100). */
  function Batch<T>(xs: seq<T>, k: nat): seq<T>
    requires k < BatchCount(|xs|)
  {
    var start := k * BatchSize;
    xs[start..if start + BatchSize <= |xs| then start + BatchSize else |xs|]
  }

  /** The oracles: the row numbers whose object write throws, and for each
      failing batch how many of its rows ran before the transaction threw. */
  datatype Faults = Faults(rowFaults: set<nat>, batchFaults: map<nat, nat>)

  function BatchErrors(batch: seq<Step>): (errs: seq<ImportError>)
    ensures |errs| == |batch|
  {
    seq(|batch|, k requires 0 <= k < |batch| => ImportError(batch[k].rowNumber, General, NullValue, BatchFailed))
  }

  /** How many rows of batch k ran: all of them, unless the batch oracle says
      the transaction threw earlier. */
  function RowsRun(batch: seq<Step>, k: nat, batchFaults: map<nat, nat>): (n: nat)
    ensures n <= |batch|
  {
    if k in batchFaults && batchFaults[k] < |batch| then batchFaults[k] else |batch|
  }

  /** One batch in its transaction. When the transaction throws, the store
      rolls back to where it was before the batch, every row of the batch
      gets a general error and counts as failed, and the errors and
      `imported` increments of the rows that had run remain. */
  function ProcessBatch(acc: Acc, batch: seq<Step>, k: nat, batchFaults: map<nat, nat>): Acc {
    var after := ApplyStepsUpTo(acc, batch, RowsRun(batch, k, batchFaults));
    if k in batchFaults then Acc(acc.db, after.errors + BatchErrors(batch), after.imported, after.failed + |batch|)
    else after
  }

  function ProcessBatchesUpTo(acc: Acc, steps: seq<Step>, k: nat, batchFaults: map<nat, nat>): Acc
    requires k <= BatchCount(|steps|)
  {
    if k == 0 then acc
    else ProcessBatch(ProcessBatchesUpTo(acc, steps, k - 1, batchFaults), Batch(steps, k - 1), k - 1, batchFaults)
  }

  datatype ImportResult = ImportResult(success: bool, imported: nat, failed: nat, errors: seq<ImportError>)

  /** importObjects after validation: an invalid file writes nothing and
      reports its validation errors as failures; otherwise every batch runs
      and success means nothing failed. */
  function ImportOutcome(db: Db, v: Validation, d: Dictionaries, faults: Faults): (Db, ImportResult) {
    if !v.valid then (db, ImportResult(false, 0, |v.errors|, v.errors))
    else
      var steps := Steps(v.rows, d, faults.rowFaults);
      var acc := ProcessBatchesUpTo(Acc(db, [], 0, 0), steps, BatchCount(|steps|), faults.batchFaults);
      (acc.db, ImportResult(acc.failed == 0, acc.imported, acc.failed, acc.errors))
  }

  /** importObjects as a whole: the EDITOR gate first, then the worksheet,
      then the import of the validated rows. A refused caller or a missing
      worksheet is an error and writes nothing. */
  function ImportObjectsOutcome(db: Db, session: Option<Auth.Session>, sheet: Option<Worksheet>, d: Dictionaries, faults: Faults)
    : (o: (Db, Result<ImportResult, FileError>))
    ensures Auth.RequireRole(session, Auth.Editor).Failure? ==>
      o == (db, Failure(Refused(Auth.RequireRole(session, Auth.Editor).error)))
    ensures o.1.Success? <==> Auth.RequireRole(session, Auth.Editor).Success? && sheet.Some?
    ensures o.1.Failure? ==> o.0 == db
  {
    match Auth.RequireRole(session, Auth.Editor)
    case Failure(e) => (db, Failure(Refused(e)))
    case Success(_) =>
      if sheet.None? then (db, Failure(NoWorksheet))
      else
        var (db', result) := ImportOutcome(db, ValidationOf(sheet.value), d, faults);
        (db', Success(result))
  }

  // ----- the imperative import -----

  /** The direction loop: each token's id is collected, or an error entry
      is pushed for it. */
  method ResolveDirections(tokens: seq<string>, directionMap: map<string, Id>, rowNumber: nat, errors: seq<ImportError>)
    returns (ids: seq<Id>, errors': seq<ImportError>)
    ensures ids == Resolve(tokens, directionMap).ids
    ensures errors' == errors + DirectionErrors(rowNumber, Resolve(tokens, directionMap).unknown)
  {
    ids, errors' := [], errors;
    var k := 0;
    while k < |tokens|
      invariant 0 <= k <= |tokens|
      invariant ids == ResolveUpTo(tokens, directionMap, k).ids
      invariant errors' == errors + DirectionErrors(rowNumber, ResolveUpTo(tokens, directionMap, k).unknown)
    {
      var name := tokens[k];
      ghost var before := ResolveUpTo(tokens, directionMap, k).unknown;
      if name in directionMap {
        ids := ids + [directionMap[name]];
      } else {
        errors' := errors' + [ImportError(rowNumber, SchemaField(Directions), Text(name), DirectionNotFound(name))];
        assert DirectionErrors(rowNumber, before + [name]) == DirectionErrors(rowNumber, before) + [ImportError(rowNumber, SchemaField(Directions), Text(name), DirectionNotFound(name))];
      }
      k := k + 1;
    }
  }

  /** The per-row body of the batch loop. */
  method ImportRowInto(db: Database, row: AcceptedRow, d: Dictionaries, rowFaults: set<nat>,
                       errors: seq<ImportError>, imported: nat, failed: nat)
    returns (errors': seq<ImportError>, imported': nat, failed': nat)
    modifies db
    ensures Acc(db.State(), errors', imported', failed') == ApplyStep(Acc(old(db.State()), errors, imported, failed), RowStep(row, d, rowFaults))
  {
    errors', imported', failed' := errors, imported, failed;
    var data := row.data;
    if data.typeName !in d.typeMap {
      errors' := errors + [ImportError(row.rowNumber, SchemaField(Type), Text(data.typeName), TypeNotFound(data.typeName))];
      failed' := failed + 1;
      return;
    }
    if data.regionName !in d.regionMap {
      errors' := errors + [ImportError(row.rowNumber, SchemaField(Region), Text(data.regionName), RegionNotFound(data.regionName))];
      failed' := failed + 1;
      return;
    }
    var typeId := d.typeMap[data.typeName];
    var regionId := d.regionMap[data.regionName];
    var directionIds: seq<Id> := [];
    if Truthy(data.directions) {
      directionIds, errors' := ResolveDirections(DirectionTokens(data.directions.value), d.directionMap, row.rowNumber, errors);
    }
    if row.rowNumber in rowFaults {
      errors' := errors' + [ImportError(row.rowNumber, General, NullValue, ObjectCreationFailed)];
      failed' := failed + 1;
      return;
    }
    var id := db.WriteNewObject(NewObject(data, typeId, regionId), NewTranslations(data), directionIds);
    imported' := imported + 1;
  }

  /** One batch in its transaction, rolled back when the batch oracle says
      the transaction throws. */
  method ImportBatch(db: Database, batch: seq<AcceptedRow>, ghost steps: seq<Step>, k: nat, d: Dictionaries, faults: Faults,
                     errors: seq<ImportError>, imported: nat, failed: nat)
    returns (errors': seq<ImportError>, imported': nat, failed': nat)
    requires steps == Steps(batch, d, faults.rowFaults)
    modifies db
    ensures Acc(db.State(), errors', imported', failed') == ProcessBatch(Acc(old(db.State()), errors, imported, failed), steps, k, faults.batchFaults)
  {
    var snapshot := db.State();
    var ran := |batch|;
    if k in faults.batchFaults && faults.batchFaults[k] < |batch| {
      ran := faults.batchFaults[k];
    }
    errors', imported', failed' := errors, imported, failed;
    var j := 0;
    while j < ran
      invariant 0 <= j <= ran <= |batch|
      invariant Acc(db.State(), errors', imported', failed') == ApplyStepsUpTo(Acc(snapshot, errors, imported, failed), steps, j)
    {
      errors', imported', failed' := ImportRowInto(db, batch[j], d, faults.rowFaults, errors', imported', failed');
      j := j + 1;
    }
    if k in faults.batchFaults {
      db.Restore(snapshot);
      var m := 0;
      ghost var before := errors';
      while m < |batch|
        invariant 0 <= m <= |batch|
        invariant errors' == before + BatchErrors(steps)[..m]
      {
        errors' := errors' + [ImportError(batch[m].rowNumber, General, NullValue, BatchFailed)];
        assert BatchErrors(steps)[..m + 1] == BatchErrors(steps)[..m] + [BatchErrors(steps)[m]];
        m := m + 1;
      }
      assert BatchErrors(steps)[..m] == BatchErrors(steps);
      failed' := failed' + |batch|;
    }
  }

  /** Resolving the rows of a batch is taking the batch of the resolved rows. */
  lemma StepsOfBatch(rows: seq<AcceptedRow>, k: nat, d: Dictionaries, rowFaults: set<nat>)
    requires k < BatchCount(|rows|)
    ensures Steps(Batch(rows, k), d, rowFaults) == Batch(Steps(rows, d, rowFaults), k)
  {
  }

  /** The batch loop: batch k holds rows k*100 up to k*100+100. */
  method ImportBatches(db: Database, rows: seq<AcceptedRow>, d: Dictionaries, faults: Faults)
    returns (errors: seq<ImportError>, imported: nat, failed: nat)
    modifies db
    ensures var steps := Steps(rows, d, faults.rowFaults);
      Acc(db.State(), errors, imported, failed) == ProcessBatchesUpTo(Acc(old(db.State()), [], 0, 0), steps, BatchCount(|steps|), faults.batchFaults)
  {
    errors, imported, failed := [], 0, 0;
    ghost var start := db.State();
    ghost var steps := Steps(rows, d, faults.rowFaults);
    var k := 0;
    while k < BatchCount(|rows|)
      invariant k <= BatchCount(|rows|)
      invariant Acc(db.State(), errors, imported, failed) == ProcessBatchesUpTo(Acc(start, [], 0, 0), steps, k, faults.batchFaults)
    {
      var batch := Batch(rows, k);
      StepsOfBatch(rows, k, d, faults.rowFaults);
      ghost var before := Acc(db.State(), errors, imported, failed);
      assert ProcessBatchesUpTo(Acc(start, [], 0, 0), steps, k + 1, faults.batchFaults) == ProcessBatch(before, Batch(steps, k), k, faults.batchFaults);
      errors, imported, failed := ImportBatch(db, batch, Batch(steps, k), k, d, faults, errors, imported, failed);
      assert Acc(db.State(), errors, imported, failed) == ProcessBatch(before, Batch(steps, k), k, faults.batchFaults);
      k := k + 1;
    }
  }

  /** importObjects: checks the caller's role, validates the workbook,
      stops with the validation errors when it is invalid, otherwise builds
      the name maps and imports the rows batch by batch. A refused caller
      and a missing worksheet are thrown errors. */
  method ImportObjects(db: Database, session: Option<Auth.Session>, sheet: Option<Worksheet>,
                       typeRows: seq<DictRow>, regionRows: seq<DictRow>, directionRows: seq<DictRow>, faults: Faults)
    returns (r: Result<ImportResult, FileError>)
    requires DictionarySnapshot(db.State(), typeRows, regionRows, directionRows)
    modifies db
    ensures Auth.RequireRole(session, Auth.Editor).Failure? ==>
      r == Failure(Refused(Auth.RequireRole(session, Auth.Editor).error)) && db.State() == old(db.State())
    ensures DictionaryActions.ReferencesResolve(old(db.State())) ==> DictionaryActions.ReferencesResolve(db.State())
    ensures (db.State(), r) == ImportObjectsOutcome(old(db.State()), session, sheet, DictionariesOf(typeRows, regionRows, directionRows), faults)
  {
    var gate := Auth.RequireRole(session, Auth.Editor);
    if gate.Failure? {
      return Failure(Refused(gate.error));
    }
    var scanned := ValidateImportFile(session, sheet);
    if scanned.Failure? {
      return Failure(scanned.error);
    }
    var validation := scanned.value;
    if !validation.valid {
      return Success(ImportResult(false, 0, |validation.errors|, validation.errors));
    }
    var d := DictionariesOf(typeRows, regionRows, directionRows);
    var errors, imported, failed := ImportBatches(db, validation.rows, d, faults);
    ImportObjectsKeepsReferencesResolved(old(db.State()), session, sheet, typeRows, regionRows, directionRows, faults);
    return Success(ImportResult(failed == 0, imported, failed, errors));
  }

  // ----- properties -----

  /** The batches in order, concatenated. */
  function Concat<T>(xs: seq<T>, k: nat): seq<T>
    requires k <= BatchCount(|xs|)
  {
    if k == 0 then [] else Concat(xs, k - 1) + Batch(xs, k - 1)
  }

  /** The batches are consecutive slices of at most 100 rows, none empty,
      whose concatenation is the list of validated rows in order. */
  lemma {:induction false} BatchesPartitionRows<T>(xs: seq<T>, k: nat)
    requires k <= BatchCount(|xs|)
    ensures Concat(xs, k) == xs[..if k * BatchSize <= |xs| then k * BatchSize else |xs|]
    ensures k == BatchCount(|xs|) ==> Concat(xs, k) == xs
    ensures forall j :: 0 <= j < k ==> 1 <= |Batch(xs, j)| <= BatchSize
  {
    if k > 0 {
      BatchesPartitionRows(xs, k - 1);
      var start := (k - 1) * BatchSize;
      assert start < |xs|;
      var end := if start + BatchSize <= |xs| then start + BatchSize else |xs|;
      assert xs[..start] + xs[start..end] == xs[..end];
    }
    if k == BatchCount(|xs|) {
      assert xs[..|xs|] == xs;
    }
  }

  /** Every row's plan moves exactly one of the two counters by one. */
  lemma StepCountsOnce(acc: Acc, s: Step)
    ensures var next := ApplyStep(acc, s);
      && next.imported + next.failed == acc.imported + acc.failed + 1
      && (next.imported == acc.imported + 1 <==> s.plan.Write?)
  {
  }

  lemma {:induction false} StepsCountOnce(acc: Acc, steps: seq<Step>, n: nat)
    requires n <= |steps|
    ensures var next := ApplyStepsUpTo(acc, steps, n);
      next.imported + next.failed == acc.imported + acc.failed + n
      && next.imported >= acc.imported
  {
    if n > 0 {
      StepsCountOnce(acc, steps, n - 1);
      StepCountsOnce(ApplyStepsUpTo(acc, steps, n - 1), steps[n - 1]);
    }
  }

  /** Without a failing batch every validated row is counted exactly once:
      imported + failed is the number of rows. */
  lemma {:induction false} NoBatchFaultAccounting(acc: Acc, steps: seq<Step>, k: nat)
    requires k <= BatchCount(|steps|)
    ensures var next := ProcessBatchesUpTo(acc, steps, k, map[]);
      next.imported + next.failed == acc.imported + acc.failed + |Concat(steps, k)|
  {
    if k > 0 {
      var before := ProcessBatchesUpTo(acc, steps, k - 1, map[]);
      var batch := Batch(steps, k - 1);
      NoBatchFaultAccounting(acc, steps, k - 1);
      assert RowsRun(batch, k - 1, map[]) == |batch|;
      assert ProcessBatchesUpTo(acc, steps, k, map[]) == ApplyStepsUpTo(before, batch, |batch|);
      StepsCountOnce(before, batch, |batch|);
      assert |Concat(steps, k)| == |Concat(steps, k - 1)| + |batch|;
    }
  }

  lemma ImportAccounting(db: Db, v: Validation, d: Dictionaries, faults: Faults)
    requires v.valid
    requires faults.batchFaults == map[]
    ensures var result := ImportOutcome(db, v, d, faults).1;
      result.imported + result.failed == |v.rows|
      && (result.success <==> result.failed == 0)
  {
    var steps := Steps(v.rows, d, faults.rowFaults);
    NoBatchFaultAccounting(Acc(db, [], 0, 0), steps, BatchCount(|steps|));
    BatchesPartitionRows(steps, BatchCount(|steps|));
  }

  /** An invalid file writes nothing and reports every validation error as
      a failure. */
  lemma InvalidFileWritesNothing(db: Db, v: Validation, d: Dictionaries, faults: Faults)
    requires !v.valid
    ensures ImportOutcome(db, v, d, faults).0 == db
    ensures ImportOutcome(db, v, d, faults).1 == ImportResult(false, 0, |v.errors|, v.errors)
  {
  }

  /** The accounting of a whole importObjects call by an editor: without a
      failing batch, a valid file's rows are all imported or failed (as many
      as the file's data rows), and success means nothing failed. */
  lemma ImportObjectsAccounting(db: Db, session: Option<Auth.Session>, sheet: Option<Worksheet>, d: Dictionaries, faults: Faults)
    requires faults.batchFaults == map[]
    ensures var r := ImportObjectsOutcome(db, session, sheet, d, faults).1;
      r.Success? && ValidationOf(sheet.value).valid ==>
        && r.value.imported + r.value.failed == ValidationOf(sheet.value).totalRows
        && (r.value.success <==> r.value.failed == 0)
  {
    if Auth.RequireRole(session, Auth.Editor).Success? && sheet.Some? && ValidationOf(sheet.value).valid {
      ImportAccounting(db, ValidationOf(sheet.value), d, faults);
      ValidFileAcceptsEveryRow(sheet.value);
    }
  }

  /** An editor's import of an invalid file writes nothing and reports every
      validation error as a failure. */
  lemma ImportObjectsInvalidFile(db: Db, session: Option<Auth.Session>, sheet: Option<Worksheet>, d: Dictionaries, faults: Faults)
    requires Auth.RequireRole(session, Auth.Editor).Success?
    requires sheet.Some? && !ValidationOf(sheet.value).valid
    ensures var v := ValidationOf(sheet.value);
      ImportObjectsOutcome(db, session, sheet, d, faults) == (db, Success(ImportResult(false, 0, |v.errors|, v.errors)))
  {
    InvalidFileWritesNothing(db, ValidationOf(sheet.value), d, faults);
  }

  /** An unknown type skips the row with one `type` error, before the
      region is looked at; an unknown region with a known type skips it with
      one `region` error. Either way nothing is written. */
  lemma UnknownNamesSkipRow(acc: Acc, row: AcceptedRow, d: Dictionaries, rowFaults: set<nat>)
    requires row.data.typeName !in d.typeMap || row.data.regionName !in d.regionMap
    ensures var next := ApplyStep(acc, RowStep(row, d, rowFaults));
      && next.db == acc.db && next.imported == acc.imported && next.failed == acc.failed + 1
      && |next.errors| == |acc.errors| + 1
      && next.errors[|acc.errors|].field == (if row.data.typeName !in d.typeMap then SchemaField(Type) else SchemaField(Region))
  {
  }

  /** A row with a known type and region and no write fault creates exactly
      one unpublished object under the next id, its translations, and one
      link per resolved direction; unresolved directions only add errors. */
  lemma CreatedRowShape(acc: Acc, row: AcceptedRow, d: Dictionaries, rowFaults: set<nat>)
    requires Importable(row, d, rowFaults)
    ensures var next := ApplyStep(acc, RowStep(row, d, rowFaults));
      var id := acc.db.nextId;
      var resolution := RowDirections(row.data, d.directionMap);
      && next.imported == acc.imported + 1 && next.failed == acc.failed
      && next.db.nextId == id + 1
      && next.db.objects == acc.db.objects[id := NewObject(row.data, d.typeMap[row.data.typeName], d.regionMap[row.data.regionName])]
      && !next.db.objects[id].isPublished
      && next.db.objects[id].typeId == d.typeMap[row.data.typeName]
      && next.db.objects[id].regionId == d.regionMap[row.data.regionName]
      && next.db.objectTranslations == PutTranslations(acc.db.objectTranslations, id, NewTranslations(row.data))
      && next.db.links == acc.db.links + LinksFor(id, resolution.ids)
      && next.errors == acc.errors + DirectionErrors(row.rowNumber, resolution.unknown)
  {
    RowStepWrite(row, d, rowFaults);
    var plan := RowStep(row, d, rowFaults).plan;
    CreatedEffect(acc.db, plan.rec, plan.translations, plan.directionIds);
  }

  /** The plan of an importable row writes the object, translations and links
      built from the row itself. */
  lemma RowStepWrite(row: AcceptedRow, d: Dictionaries, rowFaults: set<nat>)
    requires Importable(row, d, rowFaults)
    ensures var resolution := RowDirections(row.data, d.directionMap);
      RowStep(row, d, rowFaults).plan
        == Write(NewObject(row.data, d.typeMap[row.data.typeName], d.regionMap[row.data.regionName]),
                 NewTranslations(row.data), resolution.ids, resolution.unknown)
  {
  }

  /** The translation table after a row's writes, one update per language. */
  function WrittenTranslations(table: map<(Id, Lang), ObjectTranslation>, id: Id, data: ImportRow): map<(Id, Lang), ObjectTranslation> {
    var t0 := table[(id, Ru) := ObjectTranslation(data.nameRu, data.addressRu, false)];
    var t1 := if Truthy(data.nameKz) && Truthy(data.addressKz)
      then t0[(id, Kz) := ObjectTranslation(data.nameKz.value, data.addressKz.value, false)] else t0;
    if Truthy(data.nameEn) && Truthy(data.addressEn)
    then t1[(id, En) := ObjectTranslation(data.nameEn.value, data.addressEn.value, false)] else t1
  }

  lemma PutNewTranslations(table: map<(Id, Lang), ObjectTranslation>, id: Id, data: ImportRow)
    ensures PutTranslations(table, id, NewTranslations(data)) == WrittenTranslations(table, id, data)
  {
    var ru := (Ru, ObjectTranslation(data.nameRu, data.addressRu, false));
    var kz: seq<(Lang, ObjectTranslation)> := if Truthy(data.nameKz) && Truthy(data.addressKz) then [(Kz, ObjectTranslation(data.nameKz.value, data.addressKz.value, false))] else [];
    var en: seq<(Lang, ObjectTranslation)> := if Truthy(data.nameEn) && Truthy(data.addressEn) then [(En, ObjectTranslation(data.nameEn.value, data.addressEn.value, false))] else [];
    assert NewTranslations(data) == [ru] + kz + en;
    var t0 := table[(id, Ru) := ru.1];
    PutTranslationsAppend(table, id, [], ru);
    assert [] + [ru] == [ru];
    assert PutTranslations(table, id, [ru]) == t0;
    var t1 := PutTranslations(table, id, [ru] + kz);
    if kz != [] {
      PutTranslationsAppend(table, id, [ru], kz[0]);
      assert [ru] + [kz[0]] == [ru] + kz;
      assert t1 == t0[(id, Kz) := kz[0].1];
    } else {
      assert [ru] + kz == [ru];
      assert t1 == t0;
    }
    if en != [] {
      PutTranslationsAppend(table, id, [ru] + kz, en[0]);
      assert [ru] + kz + [en[0]] == [ru] + kz + en;
      assert PutTranslations(table, id, [ru] + kz + en) == t1[(id, En) := en[0].1];
    } else {
      assert [ru] + kz + en == [ru] + kz;
    }
  }

  /** The translations written for a row: `ru` from the required texts;
      `kz` and `en` exactly when both texts in that language are non-empty;
      none published; no other object's translations touched. */
  lemma TranslationsWritten(table: map<(Id, Lang), ObjectTranslation>, id: Id, data: ImportRow)
    ensures var t := PutTranslations(table, id, NewTranslations(data));
      && (id, Ru) in t && t[(id, Ru)] == ObjectTranslation(data.nameRu, data.addressRu, false)
      && ((id, Kz) in t <==> (id, Kz) in table || (Truthy(data.nameKz) && Truthy(data.addressKz)))
      && (Truthy(data.nameKz) && Truthy(data.addressKz) ==> t[(id, Kz)] == ObjectTranslation(data.nameKz.value, data.addressKz.value, false))
      && ((id, En) in t <==> (id, En) in table || (Truthy(data.nameEn) && Truthy(data.addressEn)))
      && (Truthy(data.nameEn) && Truthy(data.addressEn) ==> t[(id, En)] == ObjectTranslation(data.nameEn.value, data.addressEn.value, false))
      && forall key: (Id, Lang) :: key.0 != id ==> (key in t <==> key in table) && (key in table ==> t[key] == table[key])
  {
    PutNewTranslations(table, id, data);
  }

  /** A failing batch leaves the store as it was before the batch and adds
      one general error and one failure per row of the batch, while the
      `imported` count of its rows that ran is kept although their writes
      were rolled back. */
  lemma FailedBatchRollsBack(acc: Acc, batch: seq<Step>, k: nat, batchFaults: map<nat, nat>)
    requires k in batchFaults
    ensures var next := ProcessBatch(acc, batch, k, batchFaults);
      var ran := ApplyStepsUpTo(acc, batch, RowsRun(batch, k, batchFaults));
      && next.db == acc.db
      && next.imported == ran.imported
      && next.failed == ran.failed + |batch|
      && next.errors == ran.errors + BatchErrors(batch)
  {
  }

  /** A batch that throws after all its rows ran and created their objects
      reports those rows both as imported and as failed: the counters then
      exceed the number of rows. */
  lemma FailedBatchOvercounts(acc: Acc, batch: seq<Step>, k: nat, batchFaults: map<nat, nat>)
    requires k in batchFaults && batchFaults[k] >= |batch|
    requires forall j :: 0 <= j < |batch| ==> batch[j].plan.Write?
    ensures var next := ProcessBatch(acc, batch, k, batchFaults);
      && next.imported == acc.imported + |batch| && next.failed == acc.failed + |batch| && next.db == acc.db
  {
    AllStepsImported(acc, batch, |batch|);
  }

  lemma {:induction false} AllStepsImported(acc: Acc, steps: seq<Step>, n: nat)
    requires n <= |steps|
    requires forall j :: 0 <= j < |steps| ==> steps[j].plan.Write?
    ensures ApplyStepsUpTo(acc, steps, n).imported == acc.imported + n
    ensures ApplyStepsUpTo(acc, steps, n).failed == acc.failed
  {
    if n > 0 {
      AllStepsImported(acc, steps, n - 1);
    }
  }

  /** The import never changes an existing object, and every object it
      creates is unpublished. */
  predicate OnlyAddsUnpublished(before: Db, after: Db) {
    && (forall id :: id in before.objects ==> id in after.objects && after.objects[id] == before.objects[id])
    && (forall id :: id in after.objects && id !in before.objects ==> !after.objects[id].isPublished)
    && before.nextId <= after.nextId
  }

  predicate UnpublishedPlan(s: Step) {
    s.plan.Write? ==> !s.plan.rec.isPublished
  }

  lemma {:induction false} StepsOnlyAddUnpublished(start: Db, acc: Acc, steps: seq<Step>, n: nat)
    requires n <= |steps|
    requires forall j :: 0 <= j < |steps| ==> UnpublishedPlan(steps[j])
    requires IdsBelowNext(acc.db)
    requires OnlyAddsUnpublished(start, acc.db)
    ensures IdsBelowNext(ApplyStepsUpTo(acc, steps, n).db)
    ensures OnlyAddsUnpublished(start, ApplyStepsUpTo(acc, steps, n).db)
  {
    if n > 0 {
      StepsOnlyAddUnpublished(start, acc, steps, n - 1);
      StepOnlyAddsUnpublished(start, ApplyStepsUpTo(acc, steps, n - 1), steps[n - 1]);
    }
  }

  lemma StepOnlyAddsUnpublished(start: Db, acc: Acc, s: Step)
    requires UnpublishedPlan(s)
    requires IdsBelowNext(acc.db)
    requires OnlyAddsUnpublished(start, acc.db)
    ensures IdsBelowNext(ApplyStep(acc, s).db)
    ensures OnlyAddsUnpublished(start, ApplyStep(acc, s).db)
  {
    if s.plan.Write? {
      CreatedEffect(acc.db, s.plan.rec, s.plan.translations, s.plan.directionIds);
    }
  }

  lemma {:induction false} BatchesOnlyAddUnpublished(start: Db, acc: Acc, steps: seq<Step>, k: nat, batchFaults: map<nat, nat>)
    requires k <= BatchCount(|steps|)
    requires forall j :: 0 <= j < |steps| ==> UnpublishedPlan(steps[j])
    requires IdsBelowNext(acc.db)
    requires OnlyAddsUnpublished(start, acc.db)
    ensures IdsBelowNext(ProcessBatchesUpTo(acc, steps, k, batchFaults).db)
    ensures OnlyAddsUnpublished(start, ProcessBatchesUpTo(acc, steps, k, batchFaults).db)
  {
    if k > 0 {
      BatchesOnlyAddUnpublished(start, acc, steps, k - 1, batchFaults);
      var before := ProcessBatchesUpTo(acc, steps, k - 1, batchFaults);
      var batch := Batch(steps, k - 1);
      StepsOnlyAddUnpublished(start, before, batch, RowsRun(batch, k - 1, batchFaults));
    }
  }

  /** Over a whole import: existing objects are untouched and every new
      object is unpublished. */
  lemma ImportOnlyAddsUnpublished(db: Db, v: Validation, d: Dictionaries, faults: Faults)
    requires IdsBelowNext(db)
    ensures OnlyAddsUnpublished(db, ImportOutcome(db, v, d, faults).0)
  {
    if v.valid {
      var steps := Steps(v.rows, d, faults.rowFaults);
      BatchesOnlyAddUnpublished(db, Acc(db, [], 0, 0), steps, BatchCount(|steps|), faults.batchFaults);
    }
  }

  /** Over a whole importObjects call, whoever the caller: existing objects
      are untouched and every new object is unpublished. */
  lemma ImportObjectsOnlyAddsUnpublished(db: Db, session: Option<Auth.Session>, sheet: Option<Worksheet>, d: Dictionaries, faults: Faults)
    requires IdsBelowNext(db)
    ensures OnlyAddsUnpublished(db, ImportObjectsOutcome(db, session, sheet, d, faults).0)
  {
    if Auth.RequireRole(session, Auth.Editor).Success? && sheet.Some? {
      ImportOnlyAddsUnpublished(db, ValidationOf(sheet.value), d, faults);
    }
  }

  // ----- the dictionary snapshot -----

  /** The `ru` name stored for an entry, if any. */
  function RuName(names: map<(Id, Lang), string>, id: Id): Option<string> {
    if (id, Ru) in names then Some(names[(id, Ru)]) else None
  }

  /** The rows of one `findMany` with its `ru` translation: one row per
      entry of the table, each carrying that entry's id and `ru` name, in
      any order. */
  predicate RowsOfTable(rows: seq<DictRow>, ids: set<Id>, names: map<(Id, Lang), string>) {
    && (forall k :: 0 <= k < |rows| ==> rows[k].id in ids && rows[k].ruName == RuName(names, rows[k].id))
    && (forall id :: id in ids ==> exists k :: 0 <= k < |rows| && rows[k].id == id)
    && (forall i, j :: 0 <= i < j < |rows| ==> rows[i].id != rows[j].id)
  }

  /** The three dictionary reads of importObjects against the store: types
      and regions with their codes, directions with their `ru` names. */
  predicate DictionarySnapshot(db: Db, typeRows: seq<DictRow>, regionRows: seq<DictRow>, directionRows: seq<DictRow>) {
    && RowsOfTable(typeRows, db.types.Keys, db.typeNames)
    && (forall k :: 0 <= k < |typeRows| ==> typeRows[k].id in db.types && typeRows[k].code == db.types[typeRows[k].id].code)
    && RowsOfTable(regionRows, db.regions.Keys, db.regionNames)
    && (forall k :: 0 <= k < |regionRows| ==> regionRows[k].id in db.regions && regionRows[k].code == db.regions[regionRows[k].id].code)
    && RowsOfTable(directionRows, db.directions.Keys, db.directionNames)
  }

  /** Every id a name map hands out is an entry of the store. */
  predicate MapsInto(d: Dictionaries, db: Db) {
    && (forall name :: name in d.typeMap ==> d.typeMap[name] in db.types)
    && (forall name :: name in d.regionMap ==> d.regionMap[name] in db.regions)
    && (forall name :: name in d.directionMap ==> d.directionMap[name] in db.directions)
  }

  /** Name maps built from a snapshot of the store map into the store. */
  lemma SnapshotMapsInto(db: Db, typeRows: seq<DictRow>, regionRows: seq<DictRow>, directionRows: seq<DictRow>)
    requires DictionarySnapshot(db, typeRows, regionRows, directionRows)
    ensures MapsInto(DictionariesOf(typeRows, regionRows, directionRows), db)
  {
    var d := DictionariesOf(typeRows, regionRows, directionRows);
    forall name | name in d.typeMap ensures d.typeMap[name] in db.types {
      var i :| 0 <= i < |TypeEntries(typeRows)| && TypeEntries(typeRows)[i] == (name, d.typeMap[name]);
    }
    forall name | name in d.regionMap ensures d.regionMap[name] in db.regions {
      var i :| 0 <= i < |TypeEntries(regionRows)| && TypeEntries(regionRows)[i] == (name, d.regionMap[name]);
    }
    forall name | name in d.directionMap ensures d.directionMap[name] in db.directions {
      var i :| 0 <= i < |DirectionEntries(directionRows)| && DirectionEntries(directionRows)[i] == (name, d.directionMap[name]);
    }
  }

  /** A written plan refers only to entries of the store. */
  predicate PlanResolves(s: Step, db: Db) {
    s.plan.Write? ==>
      && s.plan.rec.typeId in db.types && s.plan.rec.regionId in db.regions
      && forall k :: 0 <= k < |s.plan.directionIds| ==> s.plan.directionIds[k] in db.directions
  }

  /** With name maps into the store, every planned write refers to entries
      of the store. */
  lemma RowStepResolves(row: AcceptedRow, d: Dictionaries, rowFaults: set<nat>, db: Db)
    requires MapsInto(d, db)
    ensures PlanResolves(RowStep(row, d, rowFaults), db)
  {
    var s := RowStep(row, d, rowFaults);
    if s.plan.Write? {
      var r := RowDirections(row.data, d.directionMap);
      assert s.plan.directionIds == r.ids;
      forall k | 0 <= k < |r.ids| ensures r.ids[k] in db.directions {
        assert r.ids[k] in r.ids;
      }
    }
  }

  predicate SameDictionaries(a: Db, b: Db) {
    a.types == b.types && a.regions == b.regions && a.directions == b.directions
  }

  lemma StepKeepsReferencesResolved(start: Db, acc: Acc, s: Step)
    requires PlanResolves(s, start)
    requires SameDictionaries(start, acc.db) && DictionaryActions.ReferencesResolve(acc.db)
    ensures SameDictionaries(start, ApplyStep(acc, s).db) && DictionaryActions.ReferencesResolve(ApplyStep(acc, s).db)
  {
    if s.plan.Write? {
      CreatedEffect(acc.db, s.plan.rec, s.plan.translations, s.plan.directionIds);
      var added := LinksFor(acc.db.nextId, s.plan.directionIds);
      assert forall l :: l in added ==> l.directionId in start.directions;
    }
  }

  lemma {:induction false} StepsKeepReferencesResolved(start: Db, acc: Acc, steps: seq<Step>, n: nat)
    requires n <= |steps|
    requires forall j :: 0 <= j < |steps| ==> PlanResolves(steps[j], start)
    requires SameDictionaries(start, acc.db) && DictionaryActions.ReferencesResolve(acc.db)
    ensures SameDictionaries(start, ApplyStepsUpTo(acc, steps, n).db)
    ensures DictionaryActions.ReferencesResolve(ApplyStepsUpTo(acc, steps, n).db)
  {
    if n > 0 {
      StepsKeepReferencesResolved(start, acc, steps, n - 1);
      StepKeepsReferencesResolved(start, ApplyStepsUpTo(acc, steps, n - 1), steps[n - 1]);
    }
  }

  lemma {:induction false} BatchesKeepReferencesResolved(start: Db, acc: Acc, steps: seq<Step>, k: nat, batchFaults: map<nat, nat>)
    requires k <= BatchCount(|steps|)
    requires forall j :: 0 <= j < |steps| ==> PlanResolves(steps[j], start)
    requires SameDictionaries(start, acc.db) && DictionaryActions.ReferencesResolve(acc.db)
    ensures SameDictionaries(start, ProcessBatchesUpTo(acc, steps, k, batchFaults).db)
    ensures DictionaryActions.ReferencesResolve(ProcessBatchesUpTo(acc, steps, k, batchFaults).db)
  {
    if k > 0 {
      BatchesKeepReferencesResolved(start, acc, steps, k - 1, batchFaults);
      var before := ProcessBatchesUpTo(acc, steps, k - 1, batchFaults);
      var batch := Batch(steps, k - 1);
      forall j | 0 <= j < |batch| ensures PlanResolves(batch[j], start) {
        assert batch[j] == steps[(k - 1) * BatchSize + j];
      }
      StepsKeepReferencesResolved(start, before, batch, RowsRun(batch, k - 1, batchFaults));
    }
  }

  /** An import whose name maps point into the store writes no dangling
      reference: every object's type and region and every link's direction
      stay entries of the store. */
  lemma ImportKeepsReferencesResolved(db: Db, v: Validation, d: Dictionaries, faults: Faults)
    requires MapsInto(d, db)
    requires DictionaryActions.ReferencesResolve(db)
    ensures DictionaryActions.ReferencesResolve(ImportOutcome(db, v, d, faults).0)
  {
    if v.valid {
      var steps := Steps(v.rows, d, faults.rowFaults);
      forall j | 0 <= j < |steps| ensures PlanResolves(steps[j], db) {
        RowStepResolves(v.rows[j], d, faults.rowFaults, db);
      }
      BatchesKeepReferencesResolved(db, Acc(db, [], 0, 0), steps, BatchCount(|steps|), faults.batchFaults);
    }
  }

  /** importObjects with the store's own dictionaries: whoever calls it and
      whatever the file holds, every reference in the store still resolves
      afterwards. */
  lemma ImportObjectsKeepsReferencesResolved(db: Db, session: Option<Auth.Session>, sheet: Option<Worksheet>,
                                             typeRows: seq<DictRow>, regionRows: seq<DictRow>, directionRows: seq<DictRow>, faults: Faults)
    requires DictionarySnapshot(db, typeRows, regionRows, directionRows)
    ensures DictionaryActions.ReferencesResolve(db) ==>
      DictionaryActions.ReferencesResolve(ImportObjectsOutcome(db, session, sheet, DictionariesOf(typeRows, regionRows, directionRows), faults).0)
  {
    if DictionaryActions.ReferencesResolve(db) && Auth.RequireRole(session, Auth.Editor).Success? && sheet.Some? {
      SnapshotMapsInto(db, typeRows, regionRows, directionRows);
      ImportKeepsReferencesResolved(db, ValidationOf(sheet.value), DictionariesOf(typeRows, regionRows, directionRows), faults);
    }
  }
}
