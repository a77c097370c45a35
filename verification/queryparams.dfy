/** The query-parameter maps `NetworkManagerClient` builds for each
    operation. The builders take their arguments as given: the client's own
    `getHeadlines`/`getArticles` do not clamp the paging values. */
module QueryParams {
  import opened Wrappers
  import opened Enums
  import opened Text
  import opened Protocol

  type Params = map<string, string>

  /** Every key a headlines map may carry. */
  const HeadlinesKeys: set<string> := {"country", "pageSize", "page", "query", "category"}

  /** Every key an articles map may carry. */
  const ArticlesKeys: set<string> := ArticlesBaseKeys + ListKeys + ScalarKeys

  /** The keys every articles map carries. */
  const ArticlesBaseKeys: set<string> := {"sortBy", "pageSize", "page"}

  /** The keys whose value is a comma-joined list. */
  const ListKeys: set<string> := {"searchIn", "sources", "domains", "excludeDomains"}

  /** The keys set from an optional scalar argument. */
  const ScalarKeys: set<string> := {"q", "from", "to", "language"}

  lemma ArticlesKeyGroupsDisjoint()
    ensures ArticlesBaseKeys !! ListKeys
    ensures (ArticlesBaseKeys + ListKeys) !! ScalarKeys
  {
  }

  /** Swift's dictionary subscript assignment `params[key] = value` with an
      optional value: `nil` removes the key. */
  function Assign(m: Params, key: string, value: Option<string>): (r: Params)
    ensures Stored(r, key, value)
    ensures forall k :: k in m && k != key ==> k in r && r[k] == m[k]
    ensures forall k :: k in r ==> k in m || k == key
  {
    match value
    case Some(v) => m[key := v]
    case None => m - {key}
  }

  /** Whether `m` holds exactly what assigning `value` to `key` leaves there:
      the value if there is one, no entry if not. */
  predicate Stored(m: Params, key: string, value: Option<string>)
  {
    if value.Some? then key in m && m[key] == value.value else key !in m
  }

  function CategoryValue(c: Option<Category>): Option<string>
  {
    match c
    case Some(x) => Some(CategoryRaw(x))
    case None => None
  }

  function LanguageValue(l: Option<Language>): Option<string>
  {
    match l
    case Some(x) => Some(LanguageRaw(x))
    case None => None
  }

  /** `getHeadlines` of the client. */
  function HeadlinesParams(a: HeadlinesArgs): (m: Params)
    ensures m.Keys <= HeadlinesKeys
    ensures "country" in m && CountryFromRaw(m["country"]) == Some(a.country)
    ensures "pageSize" in m && m["pageSize"] == DecimalString(a.pageSize)
    ensures "page" in m && m["page"] == DecimalString(a.page)
    ensures ParseDecimal(m["pageSize"]) == Some(a.pageSize)
    ensures ParseDecimal(m["page"]) == Some(a.page)
    ensures "query" in m <==> a.query.Some?
    ensures "query" in m ==> m["query"] == a.query.value
    ensures "category" in m <==> a.category.Some?
    ensures "category" in m ==> CategoryFromRaw(m["category"]) == a.category
  {
    DecimalRoundTrip(a.pageSize);
    DecimalRoundTrip(a.page);
    var params := map[
      "country" := CountryRaw(a.country),
      "pageSize" := DecimalString(a.pageSize),
      "page" := DecimalString(a.page)];
    var params := Assign(params, "query", a.query);
    Assign(params, "category", CategoryValue(a.category))
  }

  /** The value the client sends for every non-empty list parameter: the
      search fields' wire values joined with commas. */
  function SearchInValue(a: ArticlesArgs): string
  {
    Join(SearchInRawValues(a.searchIn), Comma)
  }

  /** `getArticles` of the client, as written: the `sources`, `domains` and
      `excludeDomains` keys appear when their own list is non-empty, but all
      carry the joined `searchIn` values. */
  function ArticlesParams(a: ArticlesArgs): (m: Params)
    ensures m.Keys <= ArticlesKeys
    ensures "sortBy" in m && SortByFromRaw(m["sortBy"]) == Some(a.sortBy)
    ensures "pageSize" in m && m["pageSize"] == DecimalString(a.pageSize)
    ensures "page" in m && m["page"] == DecimalString(a.page)
    ensures ParseDecimal(m["pageSize"]) == Some(a.pageSize)
    ensures ParseDecimal(m["page"]) == Some(a.page)
    ensures "searchIn" in m <==> |a.searchIn| > 0
    ensures "sources" in m <==> |a.sources| > 0
    ensures "domains" in m <==> |a.domains| > 0
    ensures "excludeDomains" in m <==> |a.excludeDomains| > 0
    ensures "searchIn" in m ==> m["searchIn"] == SearchInValue(a)
    ensures "sources" in m ==> m["sources"] == SearchInValue(a)
    ensures "domains" in m ==> m["domains"] == SearchInValue(a)
    ensures "excludeDomains" in m ==> m["excludeDomains"] == SearchInValue(a)
    ensures "q" in m <==> a.q.Some?
    ensures "q" in m ==> m["q"] == a.q.value
    ensures "from" in m <==> a.from.Some?
    ensures "from" in m ==> m["from"] == a.from.value
    ensures "to" in m <==> a.to.Some?
    ensures "to" in m ==> m["to"] == a.to.value
    ensures "language" in m <==> a.language.Some?
    ensures "language" in m ==> LanguageFromRaw(m["language"]) == a.language
  {
    ArticlesKeyGroupsDisjoint();
    var joined := SearchInValue(a);
    ArticlesScalars(ArticlesLists(ArticlesBase(a), a, joined, joined, joined, joined), a)
  }

  /** The three keys every articles request carries. */
  function ArticlesBase(a: ArticlesArgs): (m: Params)
    ensures m.Keys == ArticlesBaseKeys
    ensures SortByFromRaw(m["sortBy"]) == Some(a.sortBy)
    ensures m["pageSize"] == DecimalString(a.pageSize) && m["page"] == DecimalString(a.page)
    ensures ParseDecimal(m["pageSize"]) == Some(a.pageSize)
    ensures ParseDecimal(m["page"]) == Some(a.page)
  {
    DecimalRoundTrip(a.pageSize);
    DecimalRoundTrip(a.page);
    map[
      "sortBy" := SortByRaw(a.sortBy),
      "pageSize" := DecimalString(a.pageSize),
      "page" := DecimalString(a.page)]
  }

  /** The four `if !list.isEmpty` steps: each list key is stored, with the
      value given for it, exactly when its own argument list is non-empty. */
  function ArticlesLists(
    m: Params, a: ArticlesArgs,
    searchInValue: string, sourcesValue: string, domainsValue: string, excludeValue: string
  ): (r: Params)
    requires m.Keys !! ListKeys
    ensures forall k :: k in m ==> k in r && r[k] == m[k]
    ensures r.Keys <= m.Keys + ListKeys
    ensures "searchIn" in r <==> |a.searchIn| > 0
    ensures "sources" in r <==> |a.sources| > 0
    ensures "domains" in r <==> |a.domains| > 0
    ensures "excludeDomains" in r <==> |a.excludeDomains| > 0
    ensures "searchIn" in r ==> r["searchIn"] == searchInValue
    ensures "sources" in r ==> r["sources"] == sourcesValue
    ensures "domains" in r ==> r["domains"] == domainsValue
    ensures "excludeDomains" in r ==> r["excludeDomains"] == excludeValue
  {
    var m := if |a.searchIn| > 0 then m["searchIn" := searchInValue] else m;
    var m := if |a.sources| > 0 then m["sources" := sourcesValue] else m;
    var m := if |a.domains| > 0 then m["domains" := domainsValue] else m;
    if |a.excludeDomains| > 0 then m["excludeDomains" := excludeValue] else m
  }

  /** The four optional scalar assignments `params["q"] = q` and so on. */
  function ArticlesScalars(m: Params, a: ArticlesArgs): (r: Params)
    requires m.Keys !! ScalarKeys
    ensures forall k :: k in m ==> k in r && r[k] == m[k]
    ensures r.Keys <= m.Keys + ScalarKeys
    ensures Stored(r, "q", a.q)
    ensures Stored(r, "from", a.from)
    ensures Stored(r, "to", a.to)
    ensures Stored(r, "language", LanguageValue(a.language))
  {
    var m := Assign(m, "q", a.q);
    var m := Assign(m, "from", a.from);
    var m := Assign(m, "to", a.to);
    Assign(m, "language", LanguageValue(a.language))
  }

  /** `getSources` of the client: no parameters at all. */
  function SourcesParams(): (m: Params)
    ensures |m| == 0
  {
    map[]
  }

  /** A non-empty `searchIn` list can be read back from its query value,
      in input order. */
  lemma SearchInValueRoundTrip(a: ArticlesArgs)
    requires |a.searchIn| > 0
    ensures |Split(SearchInValue(a), Comma)| == |a.searchIn|
    ensures forall i :: 0 <= i < |a.searchIn| ==>
      SearchInFromRaw(Split(SearchInValue(a), Comma)[i]) == Some(a.searchIn[i])
  {
    var raws := SearchInRawValues(a.searchIn);
    forall i | 0 <= i < |raws|
      ensures Comma !in raws[i]
    {
      assert raws[i] == SearchInRaw(a.searchIn[i]);
    }
    SplitJoin(raws, Comma);
  }

  /** The value the `sources` key carries when `getArticles` is asked for
      one source and nothing else: the empty string, not the source's name. */
  lemma SourcesValueIgnoresSources()
    ensures var a := DefaultArticlesArgs(None).(sources := ["bbc-news"]);
      && "sources" in ArticlesParams(a)
      && ArticlesParams(a)["sources"] == ""
      && ArticlesParams(a)["sources"] != Join(a.sources, Comma)
  {
  }

  /** `getArticles` with each list parameter carrying its own joined list,
      which is what the keys' names and the API call for. */
  function IntendedArticlesParams(a: ArticlesArgs): (m: Params)
    ensures m.Keys <= ArticlesKeys
    ensures "searchIn" in m <==> |a.searchIn| > 0
    ensures "sources" in m <==> |a.sources| > 0
    ensures "domains" in m <==> |a.domains| > 0
    ensures "excludeDomains" in m <==> |a.excludeDomains| > 0
    ensures "searchIn" in m ==> m["searchIn"] == SearchInValue(a)
    ensures "sources" in m ==> m["sources"] == Join(a.sources, Comma)
    ensures "domains" in m ==> m["domains"] == Join(a.domains, Comma)
    ensures "excludeDomains" in m ==> m["excludeDomains"] == Join(a.excludeDomains, Comma)
  {
    ArticlesKeyGroupsDisjoint();
    ArticlesScalars(
      ArticlesLists(ArticlesBase(a), a,
        SearchInValue(a), Join(a.sources, Comma), Join(a.domains, Comma),
        Join(a.excludeDomains, Comma)),
      a)
  }

  /** The correction touches only the list keys: on every other key the
      corrected and the as-written maps agree. */
  lemma IntendedAgreesOffLists(a: ArticlesArgs)
    ensures forall k :: k !in ListKeys ==>
      (k in IntendedArticlesParams(a) <==> k in ArticlesParams(a))
    ensures forall k :: k !in ListKeys && k in ArticlesParams(a) ==>
      IntendedArticlesParams(a)[k] == ArticlesParams(a)[k]
  {
    ArticlesKeyGroupsDisjoint();
    var base := ArticlesBase(a);
    var joined := SearchInValue(a);
    var asWritten := ArticlesLists(base, a, joined, joined, joined, joined);
    var intended := ArticlesLists(base, a, joined, Join(a.sources, Comma),
      Join(a.domains, Comma), Join(a.excludeDomains, Comma));
    assert forall k :: k !in ListKeys ==> (k in asWritten <==> k in intended);
    ScalarsAgree(asWritten, intended, a);
  }

  /** The scalar steps keep any agreement between two maps outside a set of
      keys they do not write. */
  lemma ScalarsAgree(m1: Params, m2: Params, a: ArticlesArgs)
    requires m1.Keys !! ScalarKeys && m2.Keys !! ScalarKeys
    requires ListKeys !! ScalarKeys
    requires forall k :: k !in ListKeys ==> (k in m1 <==> k in m2)
    requires forall k :: k !in ListKeys && k in m1 ==> m1[k] == m2[k]
    ensures forall k :: k !in ListKeys ==> (k in ArticlesScalars(m1, a) <==> k in ArticlesScalars(m2, a))
    ensures forall k :: k !in ListKeys && k in ArticlesScalars(m1, a) ==>
      ArticlesScalars(m1, a)[k] == ArticlesScalars(m2, a)[k]
  {
  }

  /** With the corrected builder, a comma-free list of source ids can be read
      back from the `sources` value in order. */
  lemma IntendedSourcesRoundTrip(a: ArticlesArgs)
    requires |a.sources| > 0
    requires forall i :: 0 <= i < |a.sources| ==> Comma !in a.sources[i]
    ensures "sources" in IntendedArticlesParams(a)
    ensures Split(IntendedArticlesParams(a)["sources"], Comma) == a.sources
  {
    SplitJoin(a.sources, Comma);
  }
}
