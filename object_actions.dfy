/** The object actions of app/actions/objects.ts: the admin listing's
    paging and filters, and creating, updating, deleting and publishing an
    object, each behind the EDITOR role gate. The form is parsed with the
    object schema; the uuid strings it carries are mapped to store ids by
    `idOf`, the identity of the rows they name. Each write runs in one
    transaction: an action that fails leaves the store as it was. */
module ObjectActions {
  import opened Wrappers
  import opened Store
  import Auth
  import opened ObjectSchema
  import ObjectsApi

  datatype ActionError =
    | Denied(reason: Auth.AuthError)
    | Invalid(issues: seq<ObjectIssue>)
    | ObjectNotFound

  /** What an action returns and the store it leaves behind. */
  datatype Outcome<T> = Outcome(result: Result<T, ActionError>, db: Db)

  /** The parsed form with its identifiers mapped to store ids. */
  function Resolve(d: ObjectData<string>, idOf: string -> Id): (r: ObjectData<Id>)
    ensures r.typeId == idOf(d.typeId) && r.regionId == idOf(d.regionId)
    ensures |r.priorityDirections| == |d.priorityDirections|
    ensures forall k :: 0 <= k < |r.priorityDirections| ==> r.priorityDirections[k] == idOf(d.priorityDirections[k])
    ensures r.ru == d.ru && r.kz == d.kz && r.en == d.en
  {
    ObjectData(idOf(d.typeId), idOf(d.regionId), d.latitude, d.longitude, d.googleMapsUrl, d.website, d.contactPhones,
      seq(|d.priorityDirections|, k requires 0 <= k < |d.priorityDirections| => idOf(d.priorityDirections[k])),
      d.ru, d.kz, d.en)
  }

  /** The prologue of create and update: requireRole('EDITOR') first, then
      objectSchema.parse, which throws on an invalid form. */
  function Admit(session: Option<Auth.Session>, input: ObjectInput, idOf: string -> Id): (r: Result<(Auth.Session, ObjectData<Id>), ActionError>)
    ensures r.Success? <==> Auth.RequireRole(session, Auth.Editor).Success? && ObjectAcceptable(input)
    ensures Auth.RequireRole(session, Auth.Editor).Failure? ==> r == Failure(Denied(Auth.RequireRole(session, Auth.Editor).error))
    ensures Auth.RequireRole(session, Auth.Editor).Success? && !ObjectAcceptable(input) ==> r.Failure? && r.error.Invalid?
    ensures r.Success? ==> r.value.0 == session.value && r.value.1 == Resolve(ParseObject(input).value, idOf)
  {
    ParseObjectMatchesRules(input);
    match Auth.RequireRole(session, Auth.Editor)
    case Failure(e) => Failure(Denied(e))
    case Success(s) =>
      match ParseObject(input)
      case Failure(issues) => Failure(Invalid(issues))
      case Success(d) => Success((s, Resolve(d, idOf)))
  }

  /** A nullable field on create: a value is stored; null and undefined
      both leave the column empty. */
  function Stored<T>(x: Nullable<T>): (r: Option<T>)
    ensures r.Some? <==> x.Value?
    ensures r.Some? ==> r.value == x.value
  {
    if x.Value? then Some(x.value) else None
  }

  /** A nullable field on update: undefined keeps the column, null clears
      it, a value replaces it. */
  function Assigned<T>(current: Option<T>, x: Nullable<T>): (r: Option<T>)
    ensures x.Undefined? ==> r == current
    ensures x.Null? ==> r.None?
    ensures x.Value? ==> r == Some(x.value)
  {
    match x
    case Undefined => current
    case Null => None
    case Value(v) => Some(v)
  }

  /** An optional field on update: undefined keeps the column. */
  function Kept<T>(current: Option<T>, x: Option<T>): (r: Option<T>)
    ensures x.None? ==> r == current
    ensures x.Some? ==> r == x
  {
    if x.Some? then x else current
  }

  /** `?? undefined`: null is passed on as undefined. */
  function NullAsUndefined<T>(x: Nullable<T>): (r: Nullable<T>)
    ensures x.Null? ==> r.Undefined?
    ensures !x.Null? ==> r == x
  {
    if x.Null? then Undefined else x
  }

  /** The object row written by createObject: the creator is the session's
      user and the object is published as its `ru` translation is. */
  function NewRecord(d: ObjectData<Id>, createdBy: Option<Id>): ObjectRecord {
    ObjectRecord(d.typeId, d.regionId, createdBy, Stored(d.latitude), Stored(d.longitude),
      d.googleMapsUrl, d.website, Stored(NullAsUndefined(d.contactPhones)), d.ru.isPublished)
  }

  /** The object row after updateObject's object.update. */
  function UpdatedRecord(current: ObjectRecord, d: ObjectData<Id>): ObjectRecord {
    current.(
      typeId := d.typeId, regionId := d.regionId,
      latitude := Assigned(current.latitude, d.latitude),
      longitude := Assigned(current.longitude, d.longitude),
      googleMapsUrl := Kept(current.googleMapsUrl, d.googleMapsUrl),
      website := Kept(current.website, d.website),
      contactPhones := Assigned(current.contactPhones, NullAsUndefined(d.contactPhones)),
      isPublished := d.ru.isPublished)
  }

  function Row(t: Translation): ObjectTranslation {
    ObjectTranslation(t.name, t.address, t.isPublished)
  }

  /** The form's translation in a language, if it has one. */
  function TranslationOf(d: ObjectData<Id>, lang: Lang): (t: Option<Translation>)
    ensures lang == Ru ==> t == Some(d.ru)
  {
    match lang
    case Ru => Some(d.ru)
    case Kz => d.kz
    case En => d.en
  }

  /** The row the form supplies for a language, if any. */
  function RowOf(d: ObjectData<Id>, lang: Lang): Option<ObjectTranslation> {
    if TranslationOf(d, lang).Some? then Some(Row(TranslationOf(d, lang).value)) else None
  }

  /** The languages in the order updateObject visits them. */
  const Languages: seq<Lang> := [Ru, Kz, En]

  /** The rows written for a form's supplied translations among `langs`, in
      their order. */
  function PresentRows(d: ObjectData<Id>, langs: seq<Lang>): seq<(Lang, ObjectTranslation)> {
    if langs == [] then []
    else
      var lang := langs[|langs| - 1];
      PresentRows(d, langs[..|langs| - 1]) + (if RowOf(d, lang).Some? then [(lang, RowOf(d, lang).value)] else [])
  }

  /** The rows of a form's translations: `ru` first, then `kz` and `en` when
      supplied. */
  function TranslationRows(d: ObjectData<Id>): (ts: seq<(Lang, ObjectTranslation)>)
    ensures |ts| >= 1 && ts[0] == (Ru, Row(d.ru))
  {
    [(Ru, Row(d.ru))]
    + (if d.kz.Some? then [(Kz, Row(d.kz.value))] else [])
    + (if d.en.Some? then [(En, Row(d.en.value))] else [])
  }

  /** Visiting the three languages and keeping the supplied ones gives the
      same rows, in the same order, as createObject's pushes. */
  lemma PresentRowsAreTranslationRows(d: ObjectData<Id>)
    ensures PresentRows(d, Languages) == TranslationRows(d)
  {
    var kz: seq<(Lang, ObjectTranslation)> := if d.kz.Some? then [(Kz, Row(d.kz.value))] else [];
    var en: seq<(Lang, ObjectTranslation)> := if d.en.Some? then [(En, Row(d.en.value))] else [];
    assert [Ru][..0] == [];
    assert PresentRows(d, [Ru]) == [(Ru, Row(d.ru))];
    assert [Ru, Kz][..1] == [Ru];
    assert PresentRows(d, [Ru, Kz]) == [(Ru, Row(d.ru))] + kz;
    assert Languages[..2] == [Ru, Kz];
  }

  /** One more row: it is the last for its own language and changes no
      other language's. */
  lemma LastForAppend(ts: seq<(Lang, ObjectTranslation)>, e: (Lang, ObjectTranslation), lang: Lang)
    ensures LastFor(ts + [e], lang) == if e.0 == lang then Some(e.1) else LastFor(ts, lang)
  {
    assert (ts + [e])[..|ts|] == ts;
  }

  /** Each language's last row in the list is the one the form supplies. */
  lemma TranslationRowsLast(d: ObjectData<Id>, lang: Lang)
    ensures LastFor(TranslationRows(d), lang) == RowOf(d, lang)
  {
    var ru: seq<(Lang, ObjectTranslation)> := [(Ru, Row(d.ru))];
    var kz: seq<(Lang, ObjectTranslation)> := if d.kz.Some? then [(Kz, Row(d.kz.value))] else [];
    var en: seq<(Lang, ObjectTranslation)> := if d.en.Some? then [(En, Row(d.en.value))] else [];
    assert TranslationRows(d) == ru + kz + en;
    LastForAppend([], ru[0], lang);
    assert [] + [ru[0]] == ru;
    if kz != [] {
      LastForAppend(ru, kz[0], lang);
    } else {
      assert ru + kz == ru;
    }
    if en != [] {
      LastForAppend(ru + kz, en[0], lang);
    } else {
      assert ru + kz + en == ru + kz;
    }
  }

  /** The store after createObject's writes: the object under the next id,
      its translations and its links. */
  function CreatedFrom(db: Db, createdBy: Option<Id>, d: ObjectData<Id>): Db {
    Created(db, NewRecord(d, createdBy), TranslationRows(d), d.priorityDirections)
  }

  /** createObject: the role gate, the parse, then the writes, all or none. */
  function CreateObjectOutcome(db: Db, session: Option<Auth.Session>, input: ObjectInput, idOf: string -> Id): (o: Outcome<Id>)
    ensures o.result.Failure? ==> o.db == db
    ensures o.result.Success? <==> Auth.RequireRole(session, Auth.Editor).Success? && ObjectAcceptable(input)
    ensures o.result.Success? ==> o.result.value == db.nextId
  {
    match Admit(session, input, idOf)
    case Failure(e) => Outcome(Failure(e), db)
    case Success((s, d)) => Outcome(Success(db.nextId), CreatedFrom(db, s.userId, d))
  }

  /** The store after updateObject's writes: the object row, an upsert per
      supplied translation, and its links replaced by the form's list. */
  function Updated(db: Db, id: Id, d: ObjectData<Id>): Db
    requires id in db.objects
  {
    db.(
      objects := db.objects[id := UpdatedRecord(db.objects[id], d)],
      objectTranslations := PutTranslations(db.objectTranslations, id, TranslationRows(d)),
      links := LinksWithout(db.links, id) + LinksFor(id, d.priorityDirections))
  }

  /** updateObject: the role gate, the parse, then the writes; a missing
      object makes the first write throw. */
  function UpdateObjectOutcome(db: Db, session: Option<Auth.Session>, id: Id, input: ObjectInput, idOf: string -> Id): (o: Outcome<()>)
    ensures o.result.Failure? ==> o.db == db
    ensures o.result.Success? <==> Auth.RequireRole(session, Auth.Editor).Success? && ObjectAcceptable(input) && id in db.objects
    ensures Admit(session, input, idOf).Success? && id !in db.objects ==> o.result == Failure(ObjectNotFound)
  {
    match Admit(session, input, idOf)
    case Failure(e) => Outcome(Failure(e), db)
    case Success((_, d)) =>
      if id !in db.objects then Outcome(Failure(ObjectNotFound), db)
      else Outcome(Success(()), Updated(db, id, d))
  }

  /** deleteObject: object.delete, which throws for a missing object. */
  function DeleteObjectOutcome(db: Db, session: Option<Auth.Session>, id: Id): (o: Outcome<()>)
    ensures o.result.Failure? ==> o.db == db
    ensures o.result.Success? <==> Auth.RequireRole(session, Auth.Editor).Success? && id in db.objects
    ensures o.result.Success? ==> o.db == db.(objects := db.objects - {id})
    ensures o.result.Success? ==> o.db.objects.Keys == db.objects.Keys - {id}
  {
    match Auth.RequireRole(session, Auth.Editor)
    case Failure(e) => Outcome(Failure(Denied(e)), db)
    case Success(_) =>
      if id !in db.objects then Outcome(Failure(ObjectNotFound), db)
      else Outcome(Success(()), db.(objects := db.objects - {id}))
  }

  /** toggleObjectPublish: the object's flag negated; the new value is
      returned. */
  function TogglePublishOutcome(db: Db, session: Option<Auth.Session>, id: Id): (o: Outcome<bool>)
    ensures o.result.Failure? ==> o.db == db
    ensures o.result.Success? <==> Auth.RequireRole(session, Auth.Editor).Success? && id in db.objects
    ensures o.result.Success? ==>
      && id in o.db.objects
      && o.result.value == !db.objects[id].isPublished
      && o.db.objects[id] == db.objects[id].(isPublished := o.result.value)
      && o.db == db.(objects := o.db.objects)
      && o.db.objects.Keys == db.objects.Keys
      && forall other :: other in db.objects && other != id ==> o.db.objects[other] == db.objects[other]
  {
    match Auth.RequireRole(session, Auth.Editor)
    case Failure(e) => Outcome(Failure(Denied(e)), db)
    case Success(_) =>
      if id !in db.objects then Outcome(Failure(ObjectNotFound), db)
      else
        var flipped := !db.objects[id].isPublished;
        Outcome(Success(flipped), db.(objects := db.objects[id := db.objects[id].(isPublished := flipped)]))
  }

  /** Every translation and link belongs to an id already handed out, as
      the store's own id generation keeps it. */
  predicate Consistent(db: Db) {
    && IdsBelowNext(db)
    && (forall key :: key in db.objectTranslations ==> key.0 < db.nextId)
    && (forall l :: l in db.links ==> l.objectId < db.nextId)
  }

  /** A delete keeps the store consistent. */
  lemma DeleteKeepsConsistent(db: Db, session: Option<Auth.Session>, id: Id)
    requires Consistent(db)
    ensures Consistent(DeleteObjectOutcome(db, session, id).db)
  {
  }

  /** Deleting the object an editor has just created brings the object
      table back to what it was. */
  lemma DeleteUndoesCreate(db: Db, session: Option<Auth.Session>, input: ObjectInput, idOf: string -> Id)
    requires IdsBelowNext(db)
    requires CreateObjectOutcome(db, session, input, idOf).result.Success?
    ensures var created := CreateObjectOutcome(db, session, input, idOf);
      var deleted := DeleteObjectOutcome(created.db, session, created.result.value);
      deleted.result.Success? && deleted.db.objects == db.objects
  {
    var d := Admit(session, input, idOf).value;
    CreatedEffect(db, NewRecord(d.1, d.0.userId), TranslationRows(d.1), d.1.priorityDirections);
    assert db.nextId !in db.objects;
  }

  /** A second delete of the same object finds nothing and writes nothing. */
  lemma DeleteTwiceNotFound(db: Db, session: Option<Auth.Session>, id: Id)
    requires DeleteObjectOutcome(db, session, id).result.Success?
    ensures var once := DeleteObjectOutcome(db, session, id).db;
      DeleteObjectOutcome(once, session, id) == Outcome(Failure(ObjectNotFound), once)
  {
  }

  /** An object no link mentions has no directions. */
  lemma NoLinksNoDirections(links: seq<Link>, id: Id)
    requires forall l :: l in links ==> l.objectId != id
    ensures DirectionsOf(links, id) == []
  {
  }

  /** A created object has its `ru` translation, a `kz` or `en` translation
      exactly when the form supplies one, each with the form's text and
      flag, and the object is published as its `ru` translation is. */
  lemma CreateWritesTranslations(db: Db, createdBy: Option<Id>, d: ObjectData<Id>, lang: Lang)
    requires Consistent(db)
    ensures var after := CreatedFrom(db, createdBy, d);
      var id := db.nextId;
      && id !in db.objects && id in after.objects
      && after.objects[id].isPublished == d.ru.isPublished
      && after.objects[id].createdBy == createdBy
      && ((id, lang) in after.objectTranslations <==> TranslationOf(d, lang).Some?)
      && (TranslationOf(d, lang).Some? ==> after.objectTranslations[(id, lang)] == Row(TranslationOf(d, lang).value))
  {
    CreatedEffect(db, NewRecord(d, createdBy), TranslationRows(d), d.priorityDirections);
    PutTranslationsLookup(db.objectTranslations, db.nextId, TranslationRows(d), (db.nextId, lang));
    TranslationRowsLast(d, lang);
  }

  /** A created object is linked to exactly the listed directions, in
      order: one link per id, none for an empty list. */
  lemma CreateWritesLinks(db: Db, createdBy: Option<Id>, d: ObjectData<Id>)
    requires Consistent(db)
    ensures DirectionsOf(CreatedFrom(db, createdBy, d).links, db.nextId) == d.priorityDirections
  {
    var id := db.nextId;
    CreatedEffect(db, NewRecord(d, createdBy), TranslationRows(d), d.priorityDirections);
    DirectionsOfConcat(db.links, LinksFor(id, d.priorityDirections), id);
    DirectionsOfLinksFor(id, d.priorityDirections, id);
    NoLinksNoDirections(db.links, id);
  }

  /** Creating an object keeps every id, translation and link below the
      next id. */
  lemma CreateKeepsConsistent(db: Db, createdBy: Option<Id>, d: ObjectData<Id>)
    requires Consistent(db)
    ensures Consistent(CreatedFrom(db, createdBy, d))
  {
    var id := db.nextId;
    var after := CreatedFrom(db, createdBy, d);
    CreatedEffect(db, NewRecord(d, createdBy), TranslationRows(d), d.priorityDirections);
    forall key | key in after.objectTranslations
      ensures key.0 < after.nextId
    {
      PutTranslationsLookup(db.objectTranslations, id, TranslationRows(d), key);
    }
    assert forall l :: l in after.links ==> l in db.links || l in LinksFor(id, d.priorityDirections);
  }

  /** Updating an existing object keeps every id, translation and link
      below the next id. */
  lemma UpdateKeepsConsistent(db: Db, id: Id, d: ObjectData<Id>)
    requires Consistent(db) && id in db.objects
    ensures Consistent(Updated(db, id, d))
  {
    var after := Updated(db, id, d);
    forall key | key in after.objectTranslations
      ensures key.0 < after.nextId
    {
      PutTranslationsLookup(db.objectTranslations, id, TranslationRows(d), key);
    }
    assert forall l :: l in after.links ==> l in db.links || l in LinksFor(id, d.priorityDirections);
  }

  /** Updating upserts the supplied translations and leaves an omitted
      language's row, or its absence, untouched; other objects' rows do not
      change. */
  lemma UpdateUpsertsSuppliedTranslations(db: Db, id: Id, d: ObjectData<Id>, key: (Id, Lang))
    requires id in db.objects
    ensures var after := Updated(db, id, d).objectTranslations;
      if key.0 == id && TranslationOf(d, key.1).Some? then key in after && after[key] == Row(TranslationOf(d, key.1).value)
      else (key in after <==> key in db.objectTranslations) && (key in after ==> after[key] == db.objectTranslations[key])
  {
    PutTranslationsLookup(db.objectTranslations, id, TranslationRows(d), key);
    TranslationRowsLast(d, key.1);
  }

  /** After an update the object's directions are exactly the form's list,
      and every other object keeps its directions. */
  lemma UpdateReplacesLinks(db: Db, id: Id, d: ObjectData<Id>, other: Id)
    requires id in db.objects
    ensures DirectionsOf(Updated(db, id, d).links, id) == d.priorityDirections
    ensures other != id ==> DirectionsOf(Updated(db, id, d).links, other) == DirectionsOf(db.links, other)
  {
    ReplaceLinks(db.links, id, d.priorityDirections, other);
  }

  /** The updated row: an undefined coordinate, URL, website or phone list
      keeps the stored value, a null coordinate clears it, a null phone list
      keeps it; the creator is kept and the flag follows `ru`. Other
      objects do not change. */
  lemma UpdateWritesFields(db: Db, id: Id, d: ObjectData<Id>)
    requires id in db.objects
    ensures var after := Updated(db, id, d);
      var before := db.objects[id];
      && id in after.objects
      && var rec := after.objects[id];
      && rec.typeId == d.typeId && rec.regionId == d.regionId
      && rec.createdBy == before.createdBy
      && rec.isPublished == d.ru.isPublished
      && (d.latitude.Undefined? ==> rec.latitude == before.latitude)
      && (d.latitude.Null? ==> rec.latitude.None?)
      && (d.latitude.Value? ==> rec.latitude == Some(d.latitude.value))
      && (d.longitude.Undefined? ==> rec.longitude == before.longitude)
      && (d.longitude.Null? ==> rec.longitude.None?)
      && (d.longitude.Value? ==> rec.longitude == Some(d.longitude.value))
      && (d.googleMapsUrl.None? ==> rec.googleMapsUrl == before.googleMapsUrl)
      && (d.website.None? ==> rec.website == before.website)
      && (!d.contactPhones.Value? ==> rec.contactPhones == before.contactPhones)
      && (d.contactPhones.Value? ==> rec.contactPhones == Some(d.contactPhones.value))
      && after.objects.Keys == db.objects.Keys
      && forall o :: o in db.objects && o != id ==> after.objects[o] == db.objects[o]
  {
  }

  /** Toggling twice restores the object's flag and the whole store. */
  lemma ToggleTwiceRestores(db: Db, session: Option<Auth.Session>, id: Id)
    requires TogglePublishOutcome(db, session, id).result.Success?
    ensures var once := TogglePublishOutcome(db, session, id);
      var twice := TogglePublishOutcome(once.db, session, id);
      && twice.result == Success(db.objects[id].isPublished)
      && twice.db == db
  {
    var once := TogglePublishOutcome(db, session, id);
    var twice := TogglePublishOutcome(once.db, session, id);
    assert twice.db.objects == db.objects;
  }

  /** createObject, on the store. */
  method CreateObject(db: Database, session: Option<Auth.Session>, input: ObjectInput, idOf: string -> Id) returns (r: Result<Id, ActionError>)
    modifies db
    ensures Outcome(r, db.State()) == CreateObjectOutcome(old(db.State()), session, input, idOf)
  {
    var admitted := Admit(session, input, idOf);
    if admitted.Failure? {
      return Failure(admitted.error);
    }
    var (s, d) := admitted.value;
    var translations := [(Ru, Row(d.ru))];
    if d.kz.Some? {
      translations := translations + [(Kz, Row(d.kz.value))];
    }
    if d.en.Some? {
      translations := translations + [(En, Row(d.en.value))];
    }
    assert translations == TranslationRows(d);
    var id := db.WriteNewObject(NewRecord(d, s.userId), translations, d.priorityDirections);
    return Success(id);
  }

  /** updateObject's upsert loop: one upsert per supplied language, in the
      order ru, kz, en. */
  method UpsertTranslations(db: Database, id: Id, d: ObjectData<Id>)
    modifies db
    ensures db.State() == old(db.State()).(objectTranslations := PutTranslations(old(db.objectTranslations), id, TranslationRows(d)))
  {
    ghost var table := db.objectTranslations;
    var k := 0;
    while k < |Languages|
      invariant 0 <= k <= |Languages|
      invariant db.objectTranslations == PutTranslations(table, id, PresentRows(d, Languages[..k]))
      invariant db.State() == old(db.State()).(objectTranslations := db.objectTranslations)
    {
      assert Languages[..k + 1][..k] == Languages[..k];
      var lang := Languages[k];
      var t := TranslationOf(d, lang);
      if t.Some? {
        PutTranslationsAppend(table, id, PresentRows(d, Languages[..k]), (lang, Row(t.value)));
        db.PutObjectTranslation(id, lang, Row(t.value));
      }
      k := k + 1;
    }
    assert Languages[..k] == Languages;
    PresentRowsAreTranslationRows(d);
  }

  /** updateObject's writes: the row, the upserts, then the links deleted
      and re-created. */
  method WriteUpdate(db: Database, id: Id, d: ObjectData<Id>)
    requires id in db.objects
    modifies db
    ensures db.State() == Updated(old(db.State()), id, d)
  {
    db.UpdateObject(id, UpdatedRecord(db.objects[id], d));
    UpsertTranslations(db, id, d);
    db.DeleteLinksOf(id);
    if |d.priorityDirections| > 0 {
      db.CreateLinks(id, d.priorityDirections);
    } else {
      assert LinksWithout(old(db.links), id) + LinksFor(id, d.priorityDirections) == LinksWithout(old(db.links), id);
    }
  }

  /** updateObject, on the store. */
  method UpdateObject(db: Database, session: Option<Auth.Session>, id: Id, input: ObjectInput, idOf: string -> Id) returns (r: Result<(), ActionError>)
    modifies db
    ensures Outcome(r, db.State()) == UpdateObjectOutcome(old(db.State()), session, id, input, idOf)
  {
    var admitted := Admit(session, input, idOf);
    if admitted.Failure? {
      return Failure(admitted.error);
    }
    if id !in db.objects {
      return Failure(ObjectNotFound);
    }
    WriteUpdate(db, id, admitted.value.1);
    return Success(());
  }

  /** deleteObject, on the store. */
  method DeleteObject(db: Database, session: Option<Auth.Session>, id: Id) returns (r: Result<(), ActionError>)
    modifies db
    ensures Outcome(r, db.State()) == DeleteObjectOutcome(old(db.State()), session, id)
  {
    var gate := Auth.RequireRole(session, Auth.Editor);
    if gate.Failure? {
      return Failure(Denied(gate.error));
    }
    if id !in db.objects {
      return Failure(ObjectNotFound);
    }
    db.DeleteObject(id);
    return Success(());
  }

  /** toggleObjectPublish, on the store: findUnique, then the update. */
  method ToggleObjectPublish(db: Database, session: Option<Auth.Session>, id: Id) returns (r: Result<bool, ActionError>)
    modifies db
    ensures Outcome(r, db.State()) == TogglePublishOutcome(old(db.State()), session, id)
  {
    var gate := Auth.RequireRole(session, Auth.Editor);
    if gate.Failure? {
      return Failure(Denied(gate.error));
    }
    if id !in db.objects {
      return Failure(ObjectNotFound);
    }
    var rec := db.objects[id];
    db.UpdateObject(id, rec.(isPublished := !rec.isPublished));
    return Success(!rec.isPublished);
  }

  /** getAdminObjects' parameters. An id may be absent or any string; the
      filter treats an empty id as absent. Page and limit are JavaScript
      numbers, integers here. */
  datatype AdminParams = AdminParams(search: Option<string>, typeId: Option<string>, regionId: Option<string>, page: Option<int>, limit: Option<int>)

  /** `x || d` on an optional number: 0 and undefined take the default. */
  function OrDefault(x: Option<int>, d: int): (r: int)
    ensures x.Some? && x.value != 0 ==> r == x.value
    ensures x.None? || x.value == 0 ==> r == d
  {
    if x.Some? && x.value != 0 then x.value else d
  }

  const DefaultAdminLimit: int := 50

  /** Math.ceil(total / limit) for a non-zero integer limit. */
  function CeilDiv(total: nat, limit: int): (pages: int)
    requires limit != 0
    ensures limit > 0 ==> pages == ObjectsApi.PageCount(total, limit)
    ensures limit < 0 ==> pages <= 0 && pages * limit <= total < (pages * limit) - limit
  {
    if limit > 0 then (total + limit - 1) / limit else -(total / -limit)
  }

  datatype AdminPage = AdminPage(page: int, limit: int, skip: int, pages: int)

  /** The paging of getAdminObjects for `total` matching objects. */
  function AdminPaging(p: AdminParams, total: nat): (r: AdminPage)
    ensures r.limit != 0 && r.page != 0
    ensures r.skip == (r.page - 1) * r.limit
    ensures r.page == OrDefault(p.page, 1) && r.limit == OrDefault(p.limit, DefaultAdminLimit)
  {
    var page := OrDefault(p.page, 1);
    var limit := OrDefault(p.limit, DefaultAdminLimit);
    AdminPage(page, limit, (page - 1) * limit, CeilDiv(total, limit))
  }

  /** With a positive page size the page count is the public API's, and a
      page below it is exactly one with more objects after it. */
  lemma AdminPagesAgreeWithApi(p: AdminParams, total: nat)
    requires AdminPaging(p, total).limit > 0 && AdminPaging(p, total).page > 0
    ensures var r := AdminPaging(p, total);
      && r.pages == ObjectsApi.PageCount(total, r.limit)
      && (r.page < r.pages <==> ObjectsApi.HasMore(r.page, r.limit, total))
  {
    var r := AdminPaging(p, total);
    ObjectsApi.HasMoreBeforeLastPage(r.page, r.limit, total);
  }

  /** Without parameters the first 50 objects are shown. */
  lemma AdminPagingDefaults(total: nat)
    ensures var r := AdminPaging(AdminParams(None, None, None, None, None), total);
      r.page == 1 && r.limit == 50 && r.skip == 0 && r.pages == ObjectsApi.PageCount(total, 50)
  {
  }

  /** The admin `where`: a search over every language's name and address,
      and the type and region when given. */
  datatype AdminWhere = AdminWhere(translationSome: Option<string>, typeId: Option<string>, regionId: Option<string>)

  /** Whether an object satisfies a built `where`, as the database applies it. */
  predicate AdminMatches(w: AdminWhere, o: ObjectsApi.ObjectView) {
    && (w.translationSome.Some? ==> exists t :: t in o.translations && ObjectsApi.TranslationMatches(t, t.lang, w.translationSome.value))
    && (w.typeId.Some? ==> o.typeId == w.typeId.value)
    && (w.regionId.Some? ==> o.regionId == w.regionId.value)
  }

  /** The reference rule: a non-empty search must occur, ignoring case, in
      the name or address of some translation in any language; a given type
      and region must match; published and unpublished objects alike. */
  predicate AdminListed(p: AdminParams, o: ObjectsApi.ObjectView) {
    && (ObjectsApi.Truthy(p.search) ==> exists t :: t in o.translations && (ObjectsApi.ContainsInsensitive(t.name, p.search.value) || (t.address.Some? && ObjectsApi.ContainsInsensitive(t.address.value, p.search.value))))
    && (ObjectsApi.Truthy(p.typeId) ==> o.typeId == p.typeId.value)
    && (ObjectsApi.Truthy(p.regionId) ==> o.regionId == p.regionId.value)
  }

  /** getAdminObjects' `where`, filled in field by field. */
  method BuildAdminWhere(p: AdminParams) returns (w: AdminWhere)
    ensures forall o :: AdminMatches(w, o) <==> AdminListed(p, o)
  {
    w := AdminWhere(None, None, None);
    if ObjectsApi.Truthy(p.search) {
      w := w.(translationSome := p.search);
    }
    if ObjectsApi.Truthy(p.typeId) {
      w := w.(typeId := p.typeId);
    }
    if ObjectsApi.Truthy(p.regionId) {
      w := w.(regionId := p.regionId);
    }
  }
}
