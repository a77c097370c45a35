/** The `NetworkManager` protocol: the arguments of its two query
    operations, the default argument values its extension declares, and what
    that extension does with them before forwarding the call (clamp the paging
    values, pass everything else through). */
module Protocol {
  import opened Wrappers
  import opened Enums
  import opened Paging

  /** The arguments of `getHeadlines`. */
  datatype HeadlinesArgs = HeadlinesArgs(
    country: Country,
    category: Option<Category>,
    query: Option<string>,
    pageSize: int,
    page: int)

  /** The arguments of `getArticles`. */
  datatype ArticlesArgs = ArticlesArgs(
    q: Option<string>,
    searchIn: seq<SearchIn>,
    sources: seq<string>,
    domains: seq<string>,
    excludeDomains: seq<string>,
    from: Option<string>,
    to: Option<string>,
    language: Option<Language>,
    sortBy: SortBy,
    pageSize: int,
    page: int)

  predicate ValidPaging(pageSize: int, page: int)
  {
    ValidPageSize(pageSize) && ValidPage(page)
  }

  /** A headlines call that states only the required `query`: country `ru`,
      no category, page size 20, first page. */
  function DefaultHeadlinesArgs(query: Option<string>): (a: HeadlinesArgs)
    ensures a.query == query
    ensures a.country == Country.Ru && a.category.None?
    ensures a.pageSize == MinPageSize && a.page == FirstPage
    ensures ValidPaging(a.pageSize, a.page)
    ensures NormalizeHeadlines(a) == a
  {
    HeadlinesArgs(Country.Ru, None, query, 20, 1)
  }

  /** An articles call that states only the required `q`: no list filters,
      no dates, no language, newest first, page size 20, first page. */
  function DefaultArticlesArgs(q: Option<string>): (a: ArticlesArgs)
    ensures a.q == q
    ensures a.searchIn == [] && a.sources == [] && a.domains == [] && a.excludeDomains == []
    ensures a.from.None? && a.to.None? && a.language.None? && a.sortBy == PublishedAt
    ensures a.pageSize == MinPageSize && a.page == FirstPage
    ensures ValidPaging(a.pageSize, a.page)
    ensures NormalizeArticles(a) == a
  {
    ArticlesArgs(q, [], [], [], [], None, None, None, PublishedAt, 20, 1)
  }

  /** The extension's `getHeadlines`: the arguments it forwards. */
  function NormalizeHeadlines(a: HeadlinesArgs): (r: HeadlinesArgs)
    ensures ValidPaging(r.pageSize, r.page)
    ensures r.pageSize == ClampPageSize(a.pageSize) && r.page == ClampPage(a.page)
    ensures r.country == a.country && r.category == a.category && r.query == a.query
    ensures ValidPaging(a.pageSize, a.page) <==> r == a
  {
    a.(pageSize := ClampPageSize(a.pageSize), page := ClampPage(a.page))
  }

  /** The extension's `getArticles`: the arguments it forwards. */
  function NormalizeArticles(a: ArticlesArgs): (r: ArticlesArgs)
    ensures ValidPaging(r.pageSize, r.page)
    ensures r.pageSize == ClampPageSize(a.pageSize) && r.page == ClampPage(a.page)
    ensures r.(pageSize := a.pageSize, page := a.page) == a
    ensures ValidPaging(a.pageSize, a.page) <==> r == a
  {
    a.(pageSize := ClampPageSize(a.pageSize), page := ClampPage(a.page))
  }

  /** Forwarding through the extension twice is the same as once. */
  lemma NormalizeIdempotent(h: HeadlinesArgs, a: ArticlesArgs)
    ensures NormalizeHeadlines(NormalizeHeadlines(h)) == NormalizeHeadlines(h)
    ensures NormalizeArticles(NormalizeArticles(a)) == NormalizeArticles(a)
  {
  }
}
