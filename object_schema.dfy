/** The object form schema of lib/validation/object.ts: what an
    infrastructure object submitted from the admin form must satisfy, and
    how its optional text fields are normalised; and the schema of the
    object list query. Inputs are the values zod receives, already of the
    expected JavaScript types: type mismatches are not modelled. */
module ObjectSchema {
  import opened Wrappers
  import Strings
  import Coordinates
  import Store

  /** A field that may be left out (undefined), sent as null, or given. */
  datatype Nullable<T> = Undefined | Null | Value(value: T)

  // ---- field transforms and checks ----

  /** emptyToUndefined: the trimmed text, or undefined when nothing but
      whitespace was sent. */
  function EmptyToUndefined(s: string): (r: Option<string>)
    ensures r.None? <==> Strings.AllWhitespace(s)
    ensures r.Some? ==> r.value == Strings.Trim(s) && r.value != ""
  {
    Strings.TrimEmptyIffBlank(s);
    var t := Strings.Trim(s);
    if t == "" then None else Some(t)
  }

  /** Normalising twice is normalising once. */
  lemma EmptyToUndefinedIdempotent(s: string)
    requires EmptyToUndefined(s).Some?
    ensures EmptyToUndefined(EmptyToUndefined(s).value) == EmptyToUndefined(s)
  {
    Strings.TrimIdempotent(s);
    Strings.TrimEmptyIffBlank(Strings.Trim(s));
  }

  /** `website`: urlSchema.optional().or(emptyToUndefined). The first branch
      keeps a URL or "" as sent; any other string falls through to the
      second branch, which trims it and turns a blank into undefined. No
      string is rejected. */
  function NormalizeWebsite(w: Option<string>): (r: Option<string>)
    ensures w.None? ==> r.None?
    ensures w.Some? && (Strings.IsUrl(w.value) || w.value == "") ==> r == w
    ensures w.Some? && !Strings.IsUrl(w.value) && w.value != "" ==>
      (r.None? <==> Strings.AllWhitespace(w.value)) && (r.Some? ==> r.value == Strings.Trim(w.value) && r.value != "")
  {
    match w
    case None => None
    case Some(s) => if Strings.IsUrl(s) || s == "" then Some(s) else EmptyToUndefined(s)
  }

  /** A normalised website is left as it is by a second normalisation. */
  lemma NormalizeWebsiteIdempotent(w: Option<string>)
    ensures NormalizeWebsite(NormalizeWebsite(w)) == NormalizeWebsite(w)
  {
    if w.Some? && !Strings.IsUrl(w.value) && w.value != "" && NormalizeWebsite(w).Some? {
      var t := NormalizeWebsite(w).value;
      if !Strings.IsUrl(t) {
        EmptyToUndefinedIdempotent(w.value);
      }
    }
  }

  /** The characters of the phone pattern /^[\d\s\-\+\(\)]+$/. */
  predicate IsPhoneChar(c: char) {
    Strings.IsAsciiDigit(c) || Strings.IsWhitespace(c) || c == '-' || c == '+' || c == '(' || c == ')'
  }

  /** The pattern /^[\d\s\-\+\(\)]+$/: one or more phone characters. */
  predicate MatchesPhonePattern(p: string) {
    |p| >= 1 && forall k :: 0 <= k < |p| ==> IsPhoneChar(p[k])
  }

  /** phoneSchema: at least three characters, all from the phone pattern. */
  predicate IsValidPhone(p: string) {
    |p| >= 3 && forall k :: 0 <= k < |p| ==> IsPhoneChar(p[k])
  }

  // ---- the object schema ----

  datatype TranslationInput = TranslationInput(name: string, address: string, isPublished: Option<bool>)
  datatype Translation = Translation(name: string, address: string, isPublished: bool)

  /** The object form as submitted. The identifiers are uuid strings. */
  datatype ObjectInput = ObjectInput(
    typeId: string, regionId: string,
    latitude: Nullable<real>, longitude: Nullable<real>,
    googleMapsUrl: Option<string>, website: Option<string>,
    contactPhones: Nullable<seq<string>>, priorityDirections: Option<seq<string>>,
    ru: TranslationInput, kz: Option<TranslationInput>, en: Option<TranslationInput>)

  /** The parsed object. `I` is the identifier type: uuid strings here,
      store ids where the actions use it. */
  datatype ObjectData<I> = ObjectData(
    typeId: I, regionId: I,
    latitude: Nullable<real>, longitude: Nullable<real>,
    googleMapsUrl: Option<string>, website: Option<string>,
    contactPhones: Nullable<seq<string>>, priorityDirections: seq<I>,
    ru: Translation, kz: Option<Translation>, en: Option<Translation>)

  datatype TextField = Name | Address

  datatype ObjectIssue =
    | InvalidTypeId
    | InvalidRegionId
    | LatitudeOutOfRange
    | LongitudeOutOfRange
    | PhoneTooShort(index: nat)
    | PhoneBadFormat(index: nat)
    | InvalidDirectionId(index: nat)
    | TextTooShort(lang: Store.Lang, field: TextField)
    | TextTooLong(lang: Store.Lang, field: TextField)
    | CoordinatesNotPaired

  /** phoneSchema's issues for the phone at `index`: `min(3)` and the
      pattern are checked separately, so "" reports both. */
  function PhoneIssuesAt(index: nat, p: string): (issues: seq<ObjectIssue>)
    ensures issues == [] <==> IsValidPhone(p)
    ensures forall x :: x in issues ==> (x.PhoneTooShort? || x.PhoneBadFormat?) && x.index == index
  {
    (if |p| < 3 then [PhoneTooShort(index)] else [])
    + (if MatchesPhonePattern(p) then [] else [PhoneBadFormat(index)])
  }

  /** phoneSchema's issues for the first `n` phones. */
  function PhoneIssues(phones: seq<string>, n: nat): (issues: seq<ObjectIssue>)
    requires n <= |phones|
    ensures issues == [] <==> forall k :: 0 <= k < n ==> IsValidPhone(phones[k])
    ensures forall x :: x in issues ==> (x.PhoneTooShort? || x.PhoneBadFormat?) && x.index < n
  {
    if n == 0 then [] else PhoneIssues(phones, n - 1) + PhoneIssuesAt(n - 1, phones[n - 1])
  }

  /** The uuid check on the first `n` priority directions. */
  function DirectionIdIssues(ids: seq<string>, n: nat): (issues: seq<ObjectIssue>)
    requires n <= |ids|
    ensures issues == [] <==> forall k :: 0 <= k < n ==> Strings.IsUuid(ids[k])
    ensures forall x :: x in issues ==> x.InvalidDirectionId? && x.index < n
  {
    if n == 0 then []
    else DirectionIdIssues(ids, n - 1) + (if Strings.IsUuid(ids[n - 1]) then [] else [InvalidDirectionId(n - 1)])
  }

  /** translationSchema's issues: name and address of 1 to 1000 characters. */
  function TranslationIssues(lang: Store.Lang, t: TranslationInput): (issues: seq<ObjectIssue>)
    ensures issues == [] <==> 1 <= |t.name| <= 1000 && 1 <= |t.address| <= 1000
    ensures forall x :: x in issues ==> (x.TextTooShort? || x.TextTooLong?) && x.lang == lang
  {
    (if |t.name| < 1 then [TextTooShort(lang, Name)] else [])
    + (if |t.name| > 1000 then [TextTooLong(lang, Name)] else [])
    + (if |t.address| < 1 then [TextTooShort(lang, Address)] else [])
    + (if |t.address| > 1000 then [TextTooLong(lang, Address)] else [])
  }

  function OptionalTranslationIssues(lang: Store.Lang, t: Option<TranslationInput>): (issues: seq<ObjectIssue>)
    ensures issues == [] <==> (t.Some? ==> 1 <= |t.value.name| <= 1000 && 1 <= |t.value.address| <= 1000)
    ensures CoordinatesNotPaired !in issues
  {
    if t.None? then [] else TranslationIssues(lang, t.value)
  }

  /** The phone checks of `contactPhones`, when an array was sent. */
  function PhoneListIssues(phones: Nullable<seq<string>>): (issues: seq<ObjectIssue>)
    ensures issues == [] <==> (phones.Value? ==> forall k :: 0 <= k < |phones.value| ==> IsValidPhone(phones.value[k]))
    ensures CoordinatesNotPaired !in issues
  {
    if phones.Value? then PhoneIssues(phones.value, |phones.value|) else []
  }

  /** The uuid checks of `priorityDirections`, when a list was sent. */
  function DirectionListIssues(ids: Option<seq<string>>): (issues: seq<ObjectIssue>)
    ensures issues == [] <==> (ids.Some? ==> forall k :: 0 <= k < |ids.value| ==> Strings.IsUuid(ids.value[k]))
    ensures CoordinatesNotPaired !in issues
  {
    if ids.Some? then DirectionIdIssues(ids.value, |ids.value|) else []
  }

  /** isPublished defaults to false. */
  function ParseTranslation(t: TranslationInput): Translation {
    Translation(t.name, t.address, t.isPublished.GetOr(false))
  }

  function ParseOptionalTranslation(t: Option<TranslationInput>): Option<Translation> {
    if t.None? then None else Some(ParseTranslation(t.value))
  }

  function CoordinateIssue(x: Nullable<real>, lo: real, hi: real, issue: ObjectIssue): seq<ObjectIssue> {
    if x.Value? && !(lo <= x.value <= hi) then [issue] else []
  }

  /** The issues of baseObjectSchema, field by field in the schema's order. */
  function BaseIssues(input: ObjectInput): seq<ObjectIssue> {
    ReferenceIssues(input)
    + PhoneListIssues(input.contactPhones)
    + DirectionListIssues(input.priorityDirections)
    + TranslationsIssues(input)
  }

  /** The checks of the type and region ids and of the two coordinates. */
  function ReferenceIssues(input: ObjectInput): (issues: seq<ObjectIssue>)
    ensures CoordinatesNotPaired !in issues
  {
    (if Strings.IsUuid(input.typeId) then [] else [InvalidTypeId])
    + (if Strings.IsUuid(input.regionId) then [] else [InvalidRegionId])
    + CoordinateIssue(input.latitude, Coordinates.MinLatitude, Coordinates.MaxLatitude, LatitudeOutOfRange)
    + CoordinateIssue(input.longitude, Coordinates.MinLongitude, Coordinates.MaxLongitude, LongitudeOutOfRange)
  }

  /** The checks of the three translations. */
  function TranslationsIssues(input: ObjectInput): (issues: seq<ObjectIssue>)
    ensures CoordinatesNotPaired !in issues
  {
    var ru := TranslationIssues(Store.Ru, input.ru);
    assert CoordinatesNotPaired !in ru;
    ru + OptionalTranslationIssues(Store.Kz, input.kz) + OptionalTranslationIssues(Store.En, input.en)
  }

  /** The pairing refine, reported at `latitude`. It runs after failed
      field checks as well, since those leave the object parse dirty rather
      than aborted. */
  function PairingIssues(input: ObjectInput): seq<ObjectIssue> {
    if input.latitude.Value? != input.longitude.Value? then [CoordinatesNotPaired] else []
  }

  /** The reference rules of baseObjectSchema's fields. */
  predicate FieldsAcceptable(input: ObjectInput) {
    && Strings.IsUuid(input.typeId) && Strings.IsUuid(input.regionId)
    && (input.latitude.Value? ==> Coordinates.IsValidLatitude(input.latitude.value))
    && (input.longitude.Value? ==> Coordinates.IsValidLongitude(input.longitude.value))
    && (input.contactPhones.Value? ==> forall k :: 0 <= k < |input.contactPhones.value| ==> IsValidPhone(input.contactPhones.value[k]))
    && (input.priorityDirections.Some? ==> forall k :: 0 <= k < |input.priorityDirections.value| ==> Strings.IsUuid(input.priorityDirections.value[k]))
    && 1 <= |input.ru.name| <= 1000 && 1 <= |input.ru.address| <= 1000
    && (input.kz.Some? ==> 1 <= |input.kz.value.name| <= 1000 && 1 <= |input.kz.value.address| <= 1000)
    && (input.en.Some? ==> 1 <= |input.en.value.name| <= 1000 && 1 <= |input.en.value.address| <= 1000)
  }

  /** The reference rules of objectSchema: the field rules, and the two
      coordinates given together or not at all. */
  predicate ObjectAcceptable(input: ObjectInput) {
    FieldsAcceptable(input) && (input.latitude.Value? <==> input.longitude.Value?)
  }

  /** The field checks report nothing exactly when the field rules hold,
      and never report the pairing issue. */
  lemma BaseIssuesMatchFields(input: ObjectInput)
    ensures BaseIssues(input) == [] <==> FieldsAcceptable(input)
    ensures CoordinatesNotPaired !in BaseIssues(input)
  {
  }

  /** objectSchema.safeParse: the parsed object, or every issue found. */
  function ParseObject(input: ObjectInput): (r: Result<ObjectData<string>, seq<ObjectIssue>>)
    ensures r.Failure? ==> r.error != []
  {
    var issues := BaseIssues(input) + PairingIssues(input);
    if issues != [] then Failure(issues)
    else Success(ObjectData(
      input.typeId, input.regionId, input.latitude, input.longitude,
      if input.googleMapsUrl.None? then None else EmptyToUndefined(input.googleMapsUrl.value),
      NormalizeWebsite(input.website),
      input.contactPhones,
      input.priorityDirections.GetOr([]),
      ParseTranslation(input.ru), ParseOptionalTranslation(input.kz), ParseOptionalTranslation(input.en)))
  }

  /** The schema accepts exactly the objects the reference rules allow. */
  lemma ParseObjectMatchesRules(input: ObjectInput)
    ensures ParseObject(input).Success? <==> ObjectAcceptable(input)
  {
    BaseIssuesMatchFields(input);
  }

  /** What an accepted object holds: the normalised optional texts,
      priority directions defaulting to [], and translations whose
      `isPublished` defaults to false. */
  lemma ParsedObjectShape(input: ObjectInput)
    requires ObjectAcceptable(input)
    ensures ParseObject(input).Success?
    ensures var d := ParseObject(input).value;
      && d.typeId == input.typeId && d.regionId == input.regionId
      && (input.googleMapsUrl.None? ==> d.googleMapsUrl.None?)
      && (input.googleMapsUrl.Some? ==> d.googleMapsUrl == EmptyToUndefined(input.googleMapsUrl.value))
      && d.website == NormalizeWebsite(input.website)
      && (input.priorityDirections.None? ==> d.priorityDirections == [])
      && d.ru.name == input.ru.name && d.ru.address == input.ru.address
      && (input.ru.isPublished.None? ==> !d.ru.isPublished)
      && (d.kz.Some? <==> input.kz.Some?) && (d.en.Some? <==> input.en.Some?)
  {
    ParseObjectMatchesRules(input);
  }

  /** The pairing refine reports exactly the objects with one coordinate
      given and the other left out or null, whatever else is wrong. */
  lemma PairingReportedIffUnpaired(input: ObjectInput)
    ensures ParseObject(input).Failure? ==>
      (CoordinatesNotPaired in ParseObject(input).error <==> input.latitude.Value? != input.longitude.Value?)
    ensures input.latitude.Value? != input.longitude.Value? ==> ParseObject(input).Failure?
  {
    BaseIssuesMatchFields(input);
  }

  /** An accepted object's coordinates are either both absent or a pair
      that the coordinate guards and constructor accept. */
  lemma AcceptedCoordinatesAreValid(input: ObjectInput)
    requires ParseObject(input).Success?
    ensures var d := ParseObject(input).value;
      d.latitude.Value? <==> d.longitude.Value?
    ensures var d := ParseObject(input).value;
      d.latitude.Value? ==> (Coordinates.AreCoordinatesValid(Some(d.latitude.value), Some(d.longitude.value))
                             && Coordinates.CreateCoordinates(d.latitude.value, d.longitude.value).Success?)
  {
    ParseObjectMatchesRules(input);
  }

  /** Every phone of an accepted object is valid. */
  lemma AcceptedPhonesAreValid(input: ObjectInput)
    requires ParseObject(input).Success? && input.contactPhones.Value?
    ensures forall p :: p in ParseObject(input).value.contactPhones.value ==> IsValidPhone(p)
  {
    ParseObjectMatchesRules(input);
  }

  // ---- the list query schema ----

  /** z.enum(['ru', 'kz', 'en']). */
  function ParseLang(s: string): (r: Option<Store.Lang>)
    ensures r.Some? ==> Store.LangCode(r.value) == s
  {
    if s == "ru" then Some(Store.Ru)
    else if s == "kz" then Some(Store.Kz)
    else if s == "en" then Some(Store.En)
    else None
  }

  /** Every language code parses back to its language. */
  lemma ParseLangCode(l: Store.Lang)
    ensures ParseLang(Store.LangCode(l)) == Some(l)
  {
  }

  predicate IsInteger(x: real) {
    x == x.Floor as real
  }

  datatype QueryField = Lang | RegionIds | TypeIds | DirectionIds | Page | Limit

  datatype QueryIssue =
    | InvalidLang
    | InvalidId(list: QueryField, index: nat)
    | NotInteger(field: QueryField)
    | NotPositive(field: QueryField)
    | AboveMaximum(field: QueryField)

  /** The query parameters as received; `page` and `limit` are the numbers
      z.coerce.number produced. */
  datatype QueryInput = QueryInput(
    lang: Option<string>, search: Option<string>,
    regionIds: Option<seq<string>>, typeIds: Option<seq<string>>, directionIds: Option<seq<string>>,
    page: Option<real>, limit: Option<real>)

  /** The uuid check on the first `n` entries of an id list. */
  function IdIssues(list: QueryField, ids: seq<string>, n: nat): (issues: seq<QueryIssue>)
    requires n <= |ids|
    ensures issues == [] <==> forall k :: 0 <= k < n ==> Strings.IsUuid(ids[k])
  {
    if n == 0 then []
    else IdIssues(list, ids, n - 1) + (if Strings.IsUuid(ids[n - 1]) then [] else [InvalidId(list, n - 1)])
  }

  function OptionalIdIssues(list: QueryField, ids: Option<seq<string>>): seq<QueryIssue> {
    if ids.None? then [] else IdIssues(list, ids.value, |ids.value|)
  }

  /** `.int().positive()` and, when given, `.max(max)` on a number. */
  function NumberIssues(field: QueryField, x: real, max: Option<nat>): seq<QueryIssue> {
    (if IsInteger(x) then [] else [NotInteger(field)])
    + (if x > 0.0 then [] else [NotPositive(field)])
    + (if max.Some? && x > max.value as real then [AboveMaximum(field)] else [])
  }

  /** The issues shared by the list query schemas: the language, the three
      id lists, and `page` and `limit` as positive integers, `limit` at most
      `maxLimit` when one is set. */
  function QueryIssues(q: QueryInput, maxLimit: Option<nat>): seq<QueryIssue> {
    (if q.lang.None? || ParseLang(q.lang.value).Some? then [] else [InvalidLang])
    + OptionalIdIssues(RegionIds, q.regionIds)
    + OptionalIdIssues(TypeIds, q.typeIds)
    + OptionalIdIssues(DirectionIds, q.directionIds)
    + (if q.page.None? then [] else NumberIssues(Page, q.page.value, None))
    + (if q.limit.None? then [] else NumberIssues(Limit, q.limit.value, maxLimit))
  }

  /** A query number that passed `.int().positive()`. */
  function PositiveInt(x: real): (n: nat)
    requires IsInteger(x) && x > 0.0
    ensures n as real == x && n >= 1
  {
    x.Floor
  }

  datatype ObjectsQuery = ObjectsQuery(
    lang: Store.Lang, search: Option<string>,
    regionIds: Option<seq<string>>, typeIds: Option<seq<string>>, directionIds: Option<seq<string>>,
    page: nat, limit: nat)

  /** objectsQuerySchema: `lang` defaults to ru, `page` to 1 and `limit` to
      50; `limit` is at most 100. */
  function ParseObjectsQuery(q: QueryInput): (r: Result<ObjectsQuery, seq<QueryIssue>>)
    ensures r.Success? ==> 1 <= r.value.page && 1 <= r.value.limit <= 100
    ensures r.Success? ==> (q.page.None? ==> r.value.page == 1) && (q.page.Some? ==> r.value.page as real == q.page.value)
    ensures r.Success? ==> (q.limit.None? ==> r.value.limit == 50) && (q.limit.Some? ==> r.value.limit as real == q.limit.value)
    ensures r.Success? ==> (q.lang.None? ==> r.value.lang == Store.Ru) && (q.lang.Some? ==> Store.LangCode(r.value.lang) == q.lang.value)
    ensures r.Failure? ==> r.error != []
  {
    var issues := QueryIssues(q, Some(100));
    if issues != [] then Failure(issues)
    else
      assert q.page.Some? ==> NumberIssues(Page, q.page.value, None) == [];
      assert q.limit.Some? ==> NumberIssues(Limit, q.limit.value, Some(100)) == [];
      Success(ObjectsQuery(
        if q.lang.None? then Store.Ru else ParseLang(q.lang.value).value,
        q.search, q.regionIds, q.typeIds, q.directionIds,
        if q.page.None? then 1 else PositiveInt(q.page.value),
        if q.limit.None? then 50 else PositiveInt(q.limit.value)))
  }

  /** Every id of an optional list is a uuid (an omitted list passes). */
  predicate IdsAreUuids(ids: Option<seq<string>>) {
    ids.None? || forall k :: 0 <= k < |ids.value| ==> Strings.IsUuid(ids.value[k])
  }

  /** The query schema accepts exactly the queries whose language, if sent,
      is ru, kz or en, whose id lists hold only uuids, whose page is a
      positive integer and whose limit is a positive integer at most 100. */
  lemma QueryNumbersRule(q: QueryInput)
    ensures ParseObjectsQuery(q).Success? <==>
      && (q.lang.None? || q.lang.value in {"ru", "kz", "en"})
      && IdsAreUuids(q.regionIds) && IdsAreUuids(q.typeIds) && IdsAreUuids(q.directionIds)
      && (q.page.Some? ==> IsInteger(q.page.value) && q.page.value > 0.0)
      && (q.limit.Some? ==> IsInteger(q.limit.value) && 0.0 < q.limit.value <= 100.0)
  {
  }
}
