/** The public object list endpoint of app/api/objects/route.ts: reading
    and validating the query parameters, the limit and paging arithmetic,
    the Prisma `where` filter built field by field, and the pure helpers
    that format each object (translation choice, display fallbacks, phone
    normalisation). The database query itself is not modelled; the filter
    is given a meaning by `Matches` over a view of a stored object. */
module ObjectsApi {
  import opened Wrappers
  import Strings
  import Store
  import ObjectSchema

  // ---- query parameters ----

  /** The search parameters as read from the URL; `page` and `limit` are
      the numbers z.coerce.number makes of them. */
  datatype SearchParams = SearchParams(
    lang: Option<string>, search: Option<string>,
    regionIds: seq<string>, typeIds: seq<string>, directionIds: seq<string>,
    page: Option<real>, limit: Option<real>)

  /** The JavaScript truthiness of an optional string. */
  predicate Truthy(o: Option<string>) {
    o.Some? && o.value != ""
  }

  /** The params object: an empty or missing `lang` becomes "ru", an empty
      `search` becomes undefined, and empty ids are dropped. */
  function ParamsOf(sp: SearchParams): (q: ObjectSchema.QueryInput)
    ensures q.lang.Some? && q.lang.value != ""
    ensures q.search.Some? ==> q.search.value != ""
    ensures q.lang == Some(if Truthy(sp.lang) then sp.lang.value else "ru")
    ensures Truthy(sp.search) ==> q.search == sp.search
    ensures q.regionIds.Some? && forall x :: x in q.regionIds.value ==> x != "" && x in sp.regionIds
    ensures q.regionIds == Some(Strings.DropEmpty(sp.regionIds))
    ensures q.typeIds == Some(Strings.DropEmpty(sp.typeIds))
    ensures q.directionIds == Some(Strings.DropEmpty(sp.directionIds))
    ensures q.page == sp.page && q.limit == sp.limit
  {
    ObjectSchema.QueryInput(
      Some(if Truthy(sp.lang) then sp.lang.value else "ru"),
      if Truthy(sp.search) then sp.search else None,
      Some(Strings.DropEmpty(sp.regionIds)), Some(Strings.DropEmpty(sp.typeIds)), Some(Strings.DropEmpty(sp.directionIds)),
      sp.page, sp.limit)
  }

  datatype ApiQuery = ApiQuery(
    lang: Store.Lang, search: Option<string>,
    regionIds: Option<seq<string>>, typeIds: Option<seq<string>>, directionIds: Option<seq<string>>,
    page: Option<nat>, limit: Option<nat>)

  /** The route's querySchema: like the objects query schema, but `page`
      and `limit` have no default and `limit` no maximum. */
  function ParseApiQuery(q: ObjectSchema.QueryInput): (r: Result<ApiQuery, seq<ObjectSchema.QueryIssue>>)
    ensures r.Success? <==> ObjectSchema.QueryIssues(q, None) == []
    ensures r.Success? ==> (q.page.Some? <==> r.value.page.Some?) && (q.page.Some? ==> r.value.page.value as real == q.page.value && r.value.page.value >= 1)
    ensures r.Success? ==> (q.limit.Some? <==> r.value.limit.Some?) && (q.limit.Some? ==> r.value.limit.value as real == q.limit.value && r.value.limit.value >= 1)
    ensures r.Success? && q.lang.Some? ==> Store.LangCode(r.value.lang) == q.lang.value
  {
    var issues := ObjectSchema.QueryIssues(q, None);
    if issues != [] then Failure(issues)
    else
      assert q.page.Some? ==> ObjectSchema.NumberIssues(ObjectSchema.Page, q.page.value, None) == [];
      assert q.limit.Some? ==> ObjectSchema.NumberIssues(ObjectSchema.Limit, q.limit.value, None) == [];
      Success(ApiQuery(
        if q.lang.None? then Store.Ru else ObjectSchema.ParseLang(q.lang.value).value,
        q.search, q.regionIds, q.typeIds, q.directionIds,
        if q.page.None? then None else Some(ObjectSchema.PositiveInt(q.page.value)),
        if q.limit.None? then None else Some(ObjectSchema.PositiveInt(q.limit.value))))
  }

  // ---- limit and paging ----

  datatype Paging = Paging(page: nat, limit: nat, skip: int)

  datatype ApiError = InvalidQuery(issues: seq<ObjectSchema.QueryIssue>) | LimitExceeded(maxLimit: nat)

  /** The page defaults to 1 and the limit to `defaultLimit`; a limit above
      `maxLimit` is refused with 400, otherwise it is used as asked, and
      the page starts `(page - 1) * limit` rows in. */
  function PagingOf(q: ApiQuery, defaultLimit: nat, maxLimit: nat): (r: Result<Paging, ApiError>)
    ensures r.Failure? <==> q.limit.GetOr(defaultLimit) > maxLimit
    ensures r.Failure? ==> r.error == LimitExceeded(maxLimit)
    ensures r.Success? ==>
      && r.value.page == q.page.GetOr(1)
      && r.value.limit == q.limit.GetOr(defaultLimit) <= maxLimit
      && r.value.skip == (r.value.page - 1) * r.value.limit
  {
    var page := q.page.GetOr(1);
    var requested := q.limit.GetOr(defaultLimit);
    if requested > maxLimit then Failure(LimitExceeded(maxLimit))
    else
      var limit := if requested < maxLimit then requested else maxLimit;
      Success(Paging(page, limit, (page - 1) * limit))
  }

  /** DEFAULT_LIMIT and MAX_LIMIT: the environment's value when Number()
      reads it as a finite positive number, rounded down, and the fallback
      otherwise. `None` stands for a value that is not finite; an unset
      variable reads as the fallback's own text. */
  function LimitFromEnv(value: Option<real>, fallback: nat): (n: nat)
    ensures value.Some? && value.value > 0.0 ==> n as real <= value.value < n as real + 1.0
    ensures value.None? || value.value <= 0.0 ==> n == fallback
  {
    if value.Some? && value.value > 0.0 then value.value.Floor else fallback
  }

  const DefaultLimitFallback: nat := 500
  const MaxLimitFallback: nat := 1000

  /** A positive value below one rounds down to a limit of zero. */
  lemma FractionalEnvLimitIsZero(x: real)
    requires 0.0 < x < 1.0
    ensures LimitFromEnv(Some(x), DefaultLimitFallback) == 0
  {
  }

  /** `meta.hasMore`. */
  predicate HasMore(page: nat, limit: nat, total: nat) {
    page * limit < total
  }

  /** Math.ceil(total / limit): the number of pages. */
  function PageCount(total: nat, limit: nat): (pages: nat)
    requires limit >= 1
    ensures pages * limit >= total
    ensures pages == 0 || (pages - 1) * limit < total
  {
    (total + limit - 1) / limit
  }

  lemma MulMonotone(a: nat, b: nat, limit: nat)
    requires a <= b
    ensures a * limit <= b * limit
  {
  }

  /** `hasMore` holds exactly on the pages before the last one. */
  lemma HasMoreBeforeLastPage(page: nat, limit: nat, total: nat)
    requires page >= 1 && limit >= 1
    ensures HasMore(page, limit, total) <==> page < PageCount(total, limit)
  {
    var c := PageCount(total, limit);
    if page < c {
      MulMonotone(page, c - 1, limit);
    } else {
      MulMonotone(c, page, limit);
    }
  }

  /** `hasMore` says that the next page starts before the last row. */
  lemma HasMoreIffNextPageStartsInside(p: Paging, total: nat)
    requires p.page >= 1 && p.skip == (p.page - 1) * p.limit
    ensures HasMore(p.page, p.limit, total) <==> p.skip + p.limit < total
  {
  }

  // ---- the where filter ----

  /** A stored object as the filter sees it: its published flag, type,
      region, linked directions and translations. */
  datatype TranslationRow = TranslationRow(lang: Store.Lang, name: string, address: Option<string>)

  datatype ObjectView = ObjectView(
    isPublished: bool, typeId: string, regionId: string,
    directionIds: seq<string>, translations: seq<TranslationRow>)

  /** The `where` object: `isPublished: true`, and each optional filter. */
  datatype Where = Where(
    isPublished: bool,
    regionIn: Option<seq<string>>, typeIn: Option<seq<string>>, directionSome: Option<seq<string>>,
    translationSome: Option<(Store.Lang, string)>)

  /** `contains` with `mode: "insensitive"`, for ASCII letters. */
  predicate ContainsInsensitive(s: string, sub: string) {
    Strings.Contains(Strings.ToLower(s), Strings.ToLower(sub))
  }

  predicate TranslationMatches(t: TranslationRow, lang: Store.Lang, search: string) {
    t.lang == lang && (ContainsInsensitive(t.name, search) || (t.address.Some? && ContainsInsensitive(t.address.value, search)))
  }

  /** What Prisma selects with the filter. */
  predicate Matches(w: Where, o: ObjectView) {
    && o.isPublished == w.isPublished
    && (w.regionIn.Some? ==> o.regionId in w.regionIn.value)
    && (w.typeIn.Some? ==> o.typeId in w.typeIn.value)
    && (w.directionSome.Some? ==> exists d :: d in o.directionIds && d in w.directionSome.value)
    && (w.translationSome.Some? ==> exists t :: t in o.translations && TranslationMatches(t, w.translationSome.value.0, w.translationSome.value.1))
  }

  predicate NonEmpty(ids: Option<seq<string>>) {
    ids.Some? && |ids.value| > 0
  }

  /** The reference rule for the listing: only published objects; the
      region, type and direction lists restrict only when non-empty; the
      search text, when given, must occur in the name or address of a
      translation in the requested language. */
  predicate Listed(q: ApiQuery, o: ObjectView) {
    && o.isPublished
    && (NonEmpty(q.regionIds) ==> o.regionId in q.regionIds.value)
    && (NonEmpty(q.typeIds) ==> o.typeId in q.typeIds.value)
    && (NonEmpty(q.directionIds) ==> exists d :: d in o.directionIds && d in q.directionIds.value)
    && (Truthy(q.search) ==> exists t :: t in o.translations && TranslationMatches(t, q.lang, q.search.value))
  }

  /** Builds the filter one field at a time, as the route does. */
  method BuildWhere(q: ApiQuery) returns (w: Where)
    ensures forall o :: Matches(w, o) <==> Listed(q, o)
  {
    w := Where(true, None, None, None, None);
    if q.regionIds.Some? && |q.regionIds.value| > 0 {
      w := w.(regionIn := q.regionIds);
    }
    if q.typeIds.Some? && |q.typeIds.value| > 0 {
      w := w.(typeIn := q.typeIds);
    }
    if q.directionIds.Some? && |q.directionIds.value| > 0 {
      w := w.(directionSome := q.directionIds);
    }
    if Truthy(q.search) {
      w := w.(translationSome := Some((q.lang, q.search.value)));
    }
  }

  /** Without filters every published object is listed. */
  lemma NoFiltersListsAllPublished(q: ApiQuery, o: ObjectView)
    requires !NonEmpty(q.regionIds) && !NonEmpty(q.typeIds) && !NonEmpty(q.directionIds) && !Truthy(q.search)
    ensures Listed(q, o) <==> o.isPublished
  {
  }

  /** Searching ignores letter case. */
  lemma SearchIgnoresCase(q: ApiQuery, q': ApiQuery, o: ObjectView)
    requires Truthy(q.search) && q' == q.(search := q'.search) && Truthy(q'.search)
    requires Strings.SameIgnoringCase(q.search.value, q'.search.value)
    ensures Listed(q, o) <==> Listed(q', o)
  {
    Strings.ToLowerCaseVariants(q.search.value, q'.search.value);
  }

  datatype Listing = Listing(query: ApiQuery, paging: Paging, where: Where, languages: seq<Store.Lang>)

  /** The GET handler up to the database query: a 400 for invalid
      parameters or a limit above the maximum, otherwise the paging, the
      filter and the translation languages to load. */
  method PlanListing(sp: SearchParams, defaultLimit: nat, maxLimit: nat) returns (r: Result<Listing, ApiError>)
    ensures ParseApiQuery(ParamsOf(sp)).Failure? ==> r == Failure(InvalidQuery(ParseApiQuery(ParamsOf(sp)).error))
    ensures ParseApiQuery(ParamsOf(sp)).Success? ==>
      var q := ParseApiQuery(ParamsOf(sp)).value;
      && (r.Failure? <==> PagingOf(q, defaultLimit, maxLimit).Failure?)
      && (r.Success? ==>
            && r.value.query == q
            && r.value.paging == PagingOf(q, defaultLimit, maxLimit).value
            && r.value.languages == TranslationLanguages(q.lang)
            && forall o :: Matches(r.value.where, o) <==> Listed(q, o))
    ensures r.Failure? && ParseApiQuery(ParamsOf(sp)).Success? ==> r == Failure(LimitExceeded(maxLimit))
  {
    var parsed := ParseApiQuery(ParamsOf(sp));
    if parsed.Failure? {
      return Failure(InvalidQuery(parsed.error));
    }
    var q := parsed.value;
    var paging := PagingOf(q, defaultLimit, maxLimit);
    if paging.Failure? {
      return Failure(paging.error);
    }
    var w := BuildWhere(q);
    return Success(Listing(q, paging.value, w, TranslationLanguages(q.lang)));
  }

  // ---- formatting ----

  /** translationLanguages: the requested language, then ru as fallback. */
  function TranslationLanguages(lang: Store.Lang): (langs: seq<Store.Lang>)
    ensures |langs| >= 1 && langs[0] == lang && Store.Ru in langs
    ensures forall j, k :: 0 <= j < k < |langs| ==> langs[j] != langs[k]
    ensures forall l :: l in langs ==> l == lang || l == Store.Ru
  {
    if lang == Store.Ru then [Store.Ru] else [lang, Store.Ru]
  }

  /** Array.prototype.find by language: the first index in `l`. */
  function FirstWithLang(ts: seq<TranslationRow>, l: Store.Lang): (r: Option<nat>)
    ensures r.Some? ==> r.value < |ts| && ts[r.value].lang == l && forall k :: 0 <= k < r.value ==> ts[k].lang != l
    ensures r.None? <==> forall k :: 0 <= k < |ts| ==> ts[k].lang != l
  {
    if ts == [] then None
    else if ts[0].lang == l then Some(0)
    else
      var r := FirstWithLang(ts[1..], l);
      if r.None? then None else Some(r.value + 1)
  }

  /** pickTranslation: nothing for an empty list; otherwise the first
      translation in the requested language, else the first ru one, else
      the first of all. The index of the chosen one is returned. */
  function PickTranslation(ts: seq<TranslationRow>, lang: Store.Lang): (r: Option<nat>)
    ensures r.None? <==> ts == []
    ensures r.Some? ==> r.value < |ts|
    ensures (exists k :: 0 <= k < |ts| && ts[k].lang == lang) ==>
      ts[r.value].lang == lang && forall k :: 0 <= k < r.value ==> ts[k].lang != lang
    ensures (forall k :: 0 <= k < |ts| ==> ts[k].lang != lang) && (exists k :: 0 <= k < |ts| && ts[k].lang == Store.Ru) ==>
      ts[r.value].lang == Store.Ru && forall k :: 0 <= k < r.value ==> ts[k].lang != Store.Ru
    ensures ts != [] && (forall k :: 0 <= k < |ts| ==> ts[k].lang != lang && ts[k].lang != Store.Ru) ==> r == Some(0)
  {
    if ts == [] then None
    else
      match FirstWithLang(ts, lang)
      case Some(k) => Some(k)
      case None =>
        match FirstWithLang(ts, Store.Ru)
        case Some(k) => Some(k)
        case None => Some(0)
  }

  /** `translation?.name || fallback`. */
  function DisplayName(ts: seq<TranslationRow>, lang: Store.Lang, fallback: string): (name: string)
    ensures fallback != "" ==> name != ""
    ensures PickTranslation(ts, lang).None? ==> name == fallback
    ensures PickTranslation(ts, lang).Some? ==>
      var picked := ts[PickTranslation(ts, lang).value].name;
      (picked != "" ==> name == picked) && (picked == "" ==> name == fallback)
  {
    match PickTranslation(ts, lang)
    case None => fallback
    case Some(k) => if ts[k].name != "" then ts[k].name else fallback
  }

  /** `objectTranslation?.address || ""`. */
  function DisplayAddress(ts: seq<TranslationRow>, lang: Store.Lang): (address: string)
    ensures PickTranslation(ts, lang).Some? && ts[PickTranslation(ts, lang).value].address.Some? ==>
      address == ts[PickTranslation(ts, lang).value].address.value
    ensures PickTranslation(ts, lang).None? || ts[PickTranslation(ts, lang).value].address.None? ==> address == ""
  {
    match PickTranslation(ts, lang)
    case None => ""
    case Some(k) => if ts[k].address.Some? && ts[k].address.value != "" then ts[k].address.value else ""
  }

  /** A non-empty name in the requested language is shown rather than the
      fallback. */
  lemma DisplayNamePrefersRequestedLanguage(ts: seq<TranslationRow>, lang: Store.Lang, code: string)
    ensures (exists k :: 0 <= k < |ts| && ts[k].lang == lang && ts[k].name != "" && forall j :: 0 <= j < k ==> ts[j].lang != lang)
      ==> exists k :: 0 <= k < |ts| && ts[k].lang == lang && DisplayName(ts, lang, code) == ts[k].name
  {
  }

  // ---- phones ----

  /** An element of the stored `contactPhones` JSON. */
  datatype PhoneItem = PhoneText(s: string) | PhoneNumber(n: int) | PhoneOther

  /** The stored `contactPhones` value: an array or anything else. */
  datatype PhonesValue = NotArray | ArrayOf(items: seq<PhoneItem>)

  /** One element after `.map`: trimmed text, a number's decimal form, or
      "" for anything else. */
  function PhoneString(item: PhoneItem): string {
    match item
    case PhoneText(s) => Strings.Trim(s)
    case PhoneNumber(n) => Strings.IntToString(n)
    case PhoneOther => ""
  }

  function PhoneStrings(items: seq<PhoneItem>): (r: seq<string>)
    ensures |r| == |items| && forall k :: 0 <= k < |items| ==> r[k] == PhoneString(items[k])
  {
    seq(|items|, k requires 0 <= k < |items| => PhoneString(items[k]))
  }

  /** normalizePhones: null for a non-array; otherwise the non-empty
      strings of the mapped elements, or null when none remains. */
  function NormalizePhones(phones: PhonesValue): (r: Option<seq<string>>)
    ensures phones.NotArray? ==> r.None?
    ensures r.Some? ==> r.value != [] && |r.value| <= |phones.items|
    ensures r.Some? ==> forall p :: p in r.value ==> p != "" && exists k :: 0 <= k < |phones.items| && p == PhoneString(phones.items[k])
    ensures phones.ArrayOf? && r.None? ==> forall k :: 0 <= k < |phones.items| ==> PhoneString(phones.items[k]) == ""
    ensures phones.ArrayOf? ==>
      r == (var kept := Strings.DropEmpty(PhoneStrings(phones.items)); if kept == [] then None else Some(kept))
  {
    match phones
    case NotArray => None
    case ArrayOf(items) =>
      var kept := Strings.DropEmpty(PhoneStrings(items));
      if |kept| > 0 then Some(kept)
      else
        assert forall k :: 0 <= k < |items| ==> PhoneString(items[k]) in PhoneStrings(items);
        None
  }

  /** A string with no whitespace is its own trim. */
  lemma TrimWithoutWhitespace(s: string)
    requires forall k :: 0 <= k < |s| ==> !Strings.IsWhitespace(s[k])
    ensures Strings.Trim(s) == s
  {
    assert Strings.TrimStart(s) == s;
  }

  /** Every normalised phone string is already trimmed. */
  lemma PhoneStringTrimmed(item: PhoneItem)
    ensures Strings.Trim(PhoneString(item)) == PhoneString(item)
  {
    match item
    case PhoneText(s) => Strings.TrimIdempotent(s);
    case PhoneNumber(n) =>
      var s := Strings.IntToString(n);
      if n >= 0 {
        TrimWithoutWhitespace(s);
      } else {
        assert s == "-" + Strings.NatToString(-n);
        TrimWithoutWhitespace(s);
      }
    case PhoneOther =>
  }

  /** A list without empty strings is left as it is by `.filter(Boolean)`. */
  lemma {:induction false} DropEmptyKeepsNonEmpty(parts: seq<string>)
    requires forall k :: 0 <= k < |parts| ==> parts[k] != ""
    ensures Strings.DropEmpty(parts) == parts
  {
    if parts != [] {
      DropEmptyKeepsNonEmpty(parts[1..]);
    }
  }

  function AsTexts(phones: seq<string>): (items: seq<PhoneItem>)
    ensures |items| == |phones| && forall k :: 0 <= k < |phones| ==> items[k] == PhoneText(phones[k])
  {
    seq(|phones|, k requires 0 <= k < |phones| => PhoneText(phones[k]))
  }

  /** Normalising is idempotent: stored back as text and normalised again,
      a normalised list comes back unchanged. */
  lemma NormalizePhonesIdempotent(phones: PhonesValue)
    requires NormalizePhones(phones).Some?
    ensures NormalizePhones(ArrayOf(AsTexts(NormalizePhones(phones).value))) == NormalizePhones(phones)
  {
    var r := NormalizePhones(phones).value;
    var items := AsTexts(r);
    forall k | 0 <= k < |r| ensures PhoneString(items[k]) == r[k] {
      assert r[k] in r;
      var j :| 0 <= j < |phones.items| && r[k] == PhoneString(phones.items[j]);
      PhoneStringTrimmed(phones.items[j]);
    }
    assert PhoneStrings(items) == r;
    assert forall k :: 0 <= k < |r| ==> r[k] in r;
    DropEmptyKeepsNonEmpty(r);
  }

  // ---- the formatted object ----

  /** An object as loaded for the response: its translations and those of
      its type, region and directions, already narrowed to the translation
      languages. */
  datatype LoadedObject = LoadedObject(
    translations: seq<TranslationRow>,
    typeCode: string, typeTranslations: seq<TranslationRow>,
    regionCode: string, regionTranslations: seq<TranslationRow>,
    directionTranslations: seq<seq<TranslationRow>>,
    contactPhones: PhonesValue)

  datatype FormattedObject = FormattedObject(
    typeName: string, regionName: string, name: string, address: string,
    directionNames: seq<string>, contactPhones: Option<seq<string>>)

  /** The response entry for one object: the object's name and address from
      its picked translation, the type's and the region's names falling back
      to their codes, one name per direction in link order, and the
      normalised phones. */
  function Format(o: LoadedObject, lang: Store.Lang): (f: FormattedObject)
    ensures f.name == DisplayName(o.translations, lang, "")
    ensures f.address == DisplayAddress(o.translations, lang)
    ensures f.typeName == DisplayName(o.typeTranslations, lang, o.typeCode)
    ensures f.regionName == DisplayName(o.regionTranslations, lang, o.regionCode)
    ensures |f.directionNames| == |o.directionTranslations|
    ensures forall k :: 0 <= k < |o.directionTranslations| ==>
      f.directionNames[k] == DisplayName(o.directionTranslations[k], lang, "")
    ensures o.typeCode != "" ==> f.typeName != ""
    ensures o.regionCode != "" ==> f.regionName != ""
    ensures f.contactPhones == NormalizePhones(o.contactPhones)
  {
    FormattedObject(
      DisplayName(o.typeTranslations, lang, o.typeCode),
      DisplayName(o.regionTranslations, lang, o.regionCode),
      DisplayName(o.translations, lang, ""),
      DisplayAddress(o.translations, lang),
      seq(|o.directionTranslations|, k requires 0 <= k < |o.directionTranslations| => DisplayName(o.directionTranslations[k], lang, "")),
      NormalizePhones(o.contactPhones))
  }
}
