/** The database tables the admin actions and the import write to, as an
    in-memory store. Ids are generated by the store; the source's string ids
    are modelled as naturals handed out in increasing order. */
module Store {
  import opened Wrappers

  type Id = nat

  /** The three content languages. */
  datatype Lang = Ru | Kz | En

  function LangCode(l: Lang): string {
    match l
    case Ru => "ru"
    case Kz => "kz"
    case En => "en"
  }

  /** A row of the object table. */
  datatype ObjectRecord = ObjectRecord(
    typeId: Id, regionId: Id, createdBy: Option<Id>,
    latitude: Option<real>, longitude: Option<real>,
    googleMapsUrl: Option<string>, website: Option<string>,
    contactPhones: Option<seq<string>>, isPublished: bool)

  /** A row of the object translation table, keyed by (object, language). */
  datatype ObjectTranslation = ObjectTranslation(name: string, address: string, isPublished: bool)

  /** A row of the object-to-priority-direction link table. */
  datatype Link = Link(objectId: Id, directionId: Id)

  datatype TypeRecord = TypeRecord(code: string, markerColor: string, order: nat)
  datatype RegionRecord = RegionRecord(code: string, order: nat)
  datatype DirectionRecord = DirectionRecord(order: nat)

  /** A snapshot of every table. */
  datatype Db = Db(
    objects: map<Id, ObjectRecord>,
    objectTranslations: map<(Id, Lang), ObjectTranslation>,
    links: seq<Link>,
    types: map<Id, TypeRecord>, typeNames: map<(Id, Lang), string>,
    regions: map<Id, RegionRecord>, regionNames: map<(Id, Lang), string>,
    directions: map<Id, DirectionRecord>, directionNames: map<(Id, Lang), string>,
    nextId: Id)

  /** Every id in use lies below the next id to hand out. */
  predicate IdsBelowNext(db: Db) {
    && (forall id :: id in db.objects ==> id < db.nextId)
    && (forall id :: id in db.types ==> id < db.nextId)
    && (forall id :: id in db.regions ==> id < db.nextId)
    && (forall id :: id in db.directions ==> id < db.nextId)
  }

  /** The links left after deleting every link of one object, in order. */
  function LinksWithout(links: seq<Link>, objectId: Id): (r: seq<Link>)
    ensures forall l :: l in r <==> l in links && l.objectId != objectId
    ensures |r| <= |links|
  {
    if links == [] then []
    else (if links[0].objectId == objectId then [] else [links[0]]) + LinksWithout(links[1..], objectId)
  }

  /** The links created for one object, one per direction id, in order. */
  function LinksFor(objectId: Id, directionIds: seq<Id>): (r: seq<Link>)
    ensures |r| == |directionIds|
    ensures forall k :: 0 <= k < |r| ==> r[k] == Link(objectId, directionIds[k])
  {
    seq(|directionIds|, k requires 0 <= k < |directionIds| => Link(objectId, directionIds[k]))
  }

  /** The direction ids linked to an object, in link order. */
  function DirectionsOf(links: seq<Link>, objectId: Id): (ids: seq<Id>)
    ensures forall d :: d in ids <==> Link(objectId, d) in links
  {
    if links == [] then []
    else
      (if links[0].objectId == objectId then [links[0].directionId] else [])
      + DirectionsOf(links[1..], objectId)
  }

  /** Deleting an object's links and then adding a list of links for it
      leaves exactly that list as the object's directions, and every other
      object's directions as they were. */
  lemma {:induction false} ReplaceLinks(links: seq<Link>, objectId: Id, directionIds: seq<Id>, other: Id)
    ensures DirectionsOf(LinksWithout(links, objectId) + LinksFor(objectId, directionIds), objectId) == directionIds
    ensures other != objectId ==>
      DirectionsOf(LinksWithout(links, objectId) + LinksFor(objectId, directionIds), other) == DirectionsOf(links, other)
  {
    DirectionsOfConcat(LinksWithout(links, objectId), LinksFor(objectId, directionIds), objectId);
    DirectionsOfConcat(LinksWithout(links, objectId), LinksFor(objectId, directionIds), other);
    DirectionsOfWithout(links, objectId, objectId);
    DirectionsOfWithout(links, objectId, other);
    DirectionsOfLinksFor(objectId, directionIds, objectId);
    DirectionsOfLinksFor(objectId, directionIds, other);
  }

  lemma {:induction false} DirectionsOfConcat(a: seq<Link>, b: seq<Link>, objectId: Id)
    ensures DirectionsOf(a + b, objectId) == DirectionsOf(a, objectId) + DirectionsOf(b, objectId)
  {
    if a == [] {
      assert a + b == b;
    } else {
      assert (a + b)[1..] == a[1..] + b;
      DirectionsOfConcat(a[1..], b, objectId);
    }
  }

  lemma {:induction false} DirectionsOfWithout(links: seq<Link>, removed: Id, objectId: Id)
    ensures DirectionsOf(LinksWithout(links, removed), objectId) == if objectId == removed then [] else DirectionsOf(links, objectId)
  {
    if links != [] {
      DirectionsOfWithout(links[1..], removed, objectId);
      var head := if links[0].objectId == removed then [] else [links[0]];
      DirectionsOfConcat(head, LinksWithout(links[1..], removed), objectId);
    }
  }

  lemma {:induction false} DirectionsOfLinksFor(objectId: Id, directionIds: seq<Id>, of: Id)
    ensures DirectionsOf(LinksFor(objectId, directionIds), of) == if of == objectId then directionIds else []
  {
    if directionIds != [] {
      var rest := LinksFor(objectId, directionIds[1..]);
      assert LinksFor(objectId, directionIds) == [Link(objectId, directionIds[0])] + rest;
      assert ([Link(objectId, directionIds[0])] + rest)[1..] == rest;
      DirectionsOfLinksFor(objectId, directionIds[1..], of);
    }
  }

  /** The number of objects that reference a type, a region. */
  function ObjectsOfType(objects: map<Id, ObjectRecord>, typeId: Id): set<Id> {
    set id | id in objects && objects[id].typeId == typeId
  }

  function ObjectsOfRegion(objects: map<Id, ObjectRecord>, regionId: Id): set<Id> {
    set id | id in objects && objects[id].regionId == regionId
  }

  /** The number of links that reference a direction. */
  function LinksToDirection(links: seq<Link>, directionId: Id): (n: nat)
    ensures n == 0 <==> forall l :: l in links ==> l.directionId != directionId
    ensures n <= |links|
  {
    if links == [] then 0
    else (if links[0].directionId == directionId then 1 else 0) + LinksToDirection(links[1..], directionId)
  }

  /** A translation createMany, or a run of upserts, for one row: each
      (language, value) pair written under its key, in order. */
  function PutTranslations<T>(table: map<(Id, Lang), T>, id: Id, ts: seq<(Lang, T)>): map<(Id, Lang), T> {
    if ts == [] then table
    else PutTranslations(table, id, ts[..|ts| - 1])[(id, ts[|ts| - 1].0) := ts[|ts| - 1].1]
  }

  /** The store after the writes that create one object: the object under
      the next id, its translations, and its links when it has at least one
      direction. */
  function Created(db: Db, rec: ObjectRecord, translations: seq<(Lang, ObjectTranslation)>, directionIds: seq<Id>): Db {
    var id := db.nextId;
    var withObject := db.(objects := db.objects[id := rec], nextId := id + 1);
    var withTranslations := withObject.(objectTranslations := PutTranslations(withObject.objectTranslations, id, translations));
    if |directionIds| > 0 then withTranslations.(links := withTranslations.links + LinksFor(id, directionIds))
    else withTranslations
  }

  /** Creating an object adds exactly the new object under the next id, its
      translations and its links; the counter moves past it and the
      dictionaries stay as they were. */
  lemma CreatedEffect(db: Db, rec: ObjectRecord, translations: seq<(Lang, ObjectTranslation)>, directionIds: seq<Id>)
    ensures var after := Created(db, rec, translations, directionIds);
      && after.objects == db.objects[db.nextId := rec]
      && after.nextId == db.nextId + 1
      && after.objectTranslations == PutTranslations(db.objectTranslations, db.nextId, translations)
      && after.links == db.links + LinksFor(db.nextId, directionIds)
      && after.types == db.types && after.regions == db.regions && after.directions == db.directions
  {
    if |directionIds| == 0 {
      assert LinksFor(db.nextId, directionIds) == [];
      assert db.links + [] == db.links;
    }
  }

  /** createMany of one more row puts it under its key. */
  lemma PutTranslationsAppend<T>(table: map<(Id, Lang), T>, id: Id, ts: seq<(Lang, T)>, e: (Lang, T))
    ensures PutTranslations(table, id, ts + [e]) == PutTranslations(table, id, ts)[(id, e.0) := e.1]
  {
    assert (ts + [e])[..|ts|] == ts;
  }


  /** The row a list of translation writes leaves under a language: the
      last one given for it, if any. */
  function LastFor<T>(ts: seq<(Lang, T)>, lang: Lang): Option<T> {
    if ts == [] then None
    else if ts[|ts| - 1].0 == lang then Some(ts[|ts| - 1].1)
    else LastFor(ts[..|ts| - 1], lang)
  }

  /** After the writes, a key of the object holds the last row written for
      its language; every key not written keeps its row, or its absence. */
  lemma {:induction false} PutTranslationsLookup<T>(table: map<(Id, Lang), T>, id: Id, ts: seq<(Lang, T)>, key: (Id, Lang))
    ensures var t := PutTranslations(table, id, ts);
      if key.0 == id && LastFor(ts, key.1).Some? then key in t && t[key] == LastFor(ts, key.1).value
      else (key in t <==> key in table) && (key in table ==> t[key] == table[key])
  {
    if ts != [] {
      PutTranslationsLookup(table, id, ts[..|ts| - 1], key);
    }
  }

  /** The tables, updated in place by the actions. */
  class Database {
    var objects: map<Id, ObjectRecord>
    var objectTranslations: map<(Id, Lang), ObjectTranslation>
    var links: seq<Link>
    var types: map<Id, TypeRecord>
    var typeNames: map<(Id, Lang), string>
    var regions: map<Id, RegionRecord>
    var regionNames: map<(Id, Lang), string>
    var directions: map<Id, DirectionRecord>
    var directionNames: map<(Id, Lang), string>
    var nextId: Id

    function State(): Db
      reads this
    {
      Db(objects, objectTranslations, links, types, typeNames, regions, regionNames, directions, directionNames, nextId)
    }

    constructor (initial: Db)
      ensures State() == initial
    {
      objects, objectTranslations, links := initial.objects, initial.objectTranslations, initial.links;
      types, typeNames := initial.types, initial.typeNames;
      regions, regionNames := initial.regions, initial.regionNames;
      directions, directionNames := initial.directions, initial.directionNames;
      nextId := initial.nextId;
    }

    /** A transaction rolled back: every table returns to the snapshot. */
    method Restore(snapshot: Db)
      modifies this
      ensures State() == snapshot
    {
      objects, objectTranslations, links := snapshot.objects, snapshot.objectTranslations, snapshot.links;
      types, typeNames := snapshot.types, snapshot.typeNames;
      regions, regionNames := snapshot.regions, snapshot.regionNames;
      directions, directionNames := snapshot.directions, snapshot.directionNames;
      nextId := snapshot.nextId;
    }

    /** object.create: a fresh id for a new row. */
    method CreateObject(rec: ObjectRecord) returns (id: Id)
      modifies this
      ensures id == old(nextId)
      ensures State() == old(State()).(objects := old(objects)[id := rec], nextId := id + 1)
    {
      id := nextId;
      objects := objects[id := rec];
      nextId := nextId + 1;
    }

    /** Creates one object: the object, then its translations, then its
        links when it has at least one direction. */
    method WriteNewObject(rec: ObjectRecord, translations: seq<(Lang, ObjectTranslation)>, directionIds: seq<Id>) returns (id: Id)
      modifies this
      ensures id == old(nextId)
      ensures State() == Created(old(State()), rec, translations, directionIds)
    {
      id := CreateObject(rec);
      var k := 0;
      ghost var afterObject := State();
      while k < |translations|
        invariant 0 <= k <= |translations|
        invariant State() == afterObject.(objectTranslations := PutTranslations(afterObject.objectTranslations, id, translations[..k]))
      {
        assert translations[..k + 1][..k] == translations[..k];
        PutObjectTranslation(id, translations[k].0, translations[k].1);
        k := k + 1;
      }
      assert translations[..k] == translations;
      if |directionIds| > 0 {
        CreateLinks(id, directionIds);
      }
    }

    /** object.update of an existing row. */
    method UpdateObject(id: Id, rec: ObjectRecord)
      modifies this
      ensures State() == old(State()).(objects := old(objects)[id := rec])
    {
      objects := objects[id := rec];
    }

    /** objectTranslation.upsert (and each row of createMany). */
    method PutObjectTranslation(id: Id, lang: Lang, t: ObjectTranslation)
      modifies this
      ensures State() == old(State()).(objectTranslations := old(objectTranslations)[(id, lang) := t])
    {
      objectTranslations := objectTranslations[(id, lang) := t];
    }

    /** objectPriorityDirection.createMany for one object. */
    method CreateLinks(id: Id, directionIds: seq<Id>)
      modifies this
      ensures State() == old(State()).(links := old(links) + LinksFor(id, directionIds))
    {
      links := links + LinksFor(id, directionIds);
    }

    /** objectPriorityDirection.deleteMany for one object. */
    method DeleteLinksOf(id: Id)
      modifies this
      ensures State() == old(State()).(links := LinksWithout(old(links), id))
    {
      links := LinksWithout(links, id);
    }

    /** object.delete of an existing row. */
    method DeleteObject(id: Id)
      modifies this
      ensures State() == old(State()).(objects := old(objects) - {id})
    {
      objects := objects - {id};
    }

    method CreateType(rec: TypeRecord) returns (id: Id)
      modifies this
      ensures id == old(nextId)
      ensures State() == old(State()).(types := old(types)[id := rec], nextId := id + 1)
    {
      id := nextId;
      types := types[id := rec];
      nextId := nextId + 1;
    }

    method UpdateType(id: Id, rec: TypeRecord)
      modifies this
      ensures State() == old(State()).(types := old(types)[id := rec])
    {
      types := types[id := rec];
    }

    method PutTypeName(id: Id, lang: Lang, name: string)
      modifies this
      ensures State() == old(State()).(typeNames := old(typeNames)[(id, lang) := name])
    {
      typeNames := typeNames[(id, lang) := name];
    }

    method DeleteType(id: Id)
      modifies this
      ensures State() == old(State()).(types := old(types) - {id})
    {
      types := types - {id};
    }

    method CreateRegion(rec: RegionRecord) returns (id: Id)
      modifies this
      ensures id == old(nextId)
      ensures State() == old(State()).(regions := old(regions)[id := rec], nextId := id + 1)
    {
      id := nextId;
      regions := regions[id := rec];
      nextId := nextId + 1;
    }

    method UpdateRegion(id: Id, rec: RegionRecord)
      modifies this
      ensures State() == old(State()).(regions := old(regions)[id := rec])
    {
      regions := regions[id := rec];
    }

    method PutRegionName(id: Id, lang: Lang, name: string)
      modifies this
      ensures State() == old(State()).(regionNames := old(regionNames)[(id, lang) := name])
    {
      regionNames := regionNames[(id, lang) := name];
    }

    method DeleteRegion(id: Id)
      modifies this
      ensures State() == old(State()).(regions := old(regions) - {id})
    {
      regions := regions - {id};
    }

    method CreateDirection(rec: DirectionRecord) returns (id: Id)
      modifies this
      ensures id == old(nextId)
      ensures State() == old(State()).(directions := old(directions)[id := rec], nextId := id + 1)
    {
      id := nextId;
      directions := directions[id := rec];
      nextId := nextId + 1;
    }

    method UpdateDirection(id: Id, rec: DirectionRecord)
      modifies this
      ensures State() == old(State()).(directions := old(directions)[id := rec])
    {
      directions := directions[id := rec];
    }

    method PutDirectionName(id: Id, lang: Lang, name: string)
      modifies this
      ensures State() == old(State()).(directionNames := old(directionNames)[(id, lang) := name])
    {
      directionNames := directionNames[(id, lang) := name];
    }

    method DeleteDirection(id: Id)
      modifies this
      ensures State() == old(State()).(directions := old(directions) - {id})
    {
      directions := directions - {id};
    }
  }
}
