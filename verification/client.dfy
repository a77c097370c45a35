/** `NetworkManagerClient`: each public operation builds its parameter map,
    addresses its endpoint, and hands both to `SendRequest`. The capabilities
    the client holds (building a URL, the URL session, the JSON decoder) are
    the fields of an `Environment`. */
module Client {
  import opened Wrappers
  import opened Enums
  import opened Entities
  import opened Text
  import opened Paging
  import opened Protocol
  import opened QueryParams
  import opened Dispatch

  /** The capabilities a call depends on, each an input to the model. The API
      key is fixed when the client is created, so `send` is the transport as
      seen with that one key, and an environment describes one client. */
  datatype Environment = Environment(
    urlBuilds: Request -> bool,
    send: Request -> Option<Data>,
    decodeArticles: Data -> Option<ArticlesResponse>,
    decodeSources: Data -> Option<SourceResponse>,
    decodeError: Data -> Option<ErrorResponse>)

  function HeadlinesRequest(a: HeadlinesArgs): Request
  {
    RequestTo(TopHeadlines, HeadlinesParams(a))
  }

  function ArticlesRequest(a: ArticlesArgs): Request
  {
    RequestTo(Everything, ArticlesParams(a))
  }

  function SourcesRequest(): Request
  {
    RequestTo(Sources, SourcesParams())
  }

  /** `getHeadlines`: a success is an articles payload decoded from the reply
      to the headlines request. */
  function GetHeadlines(env: Environment, a: HeadlinesArgs): (r: Result<ArticlesResponse, NetworkError>)
    ensures r.Success? <==>
      && env.urlBuilds(HeadlinesRequest(a))
      && env.send(HeadlinesRequest(a)).Some?
      && env.decodeArticles(env.send(HeadlinesRequest(a)).value).Some?
    ensures r.Success? ==> env.decodeArticles(env.send(HeadlinesRequest(a)).value) == Some(r.value)
    ensures r.Failure? && r.error.ApiError? ==> r.error.response.status != OkStatus
  {
    SendRequest(HeadlinesRequest(a), env.urlBuilds, env.send, env.decodeArticles, env.decodeError)
  }

  /** `getArticles`: a success is an articles payload decoded from the reply
      to the articles request. */
  function GetArticles(env: Environment, a: ArticlesArgs): (r: Result<ArticlesResponse, NetworkError>)
    ensures r.Success? <==>
      && env.urlBuilds(ArticlesRequest(a))
      && env.send(ArticlesRequest(a)).Some?
      && env.decodeArticles(env.send(ArticlesRequest(a)).value).Some?
    ensures r.Success? ==> env.decodeArticles(env.send(ArticlesRequest(a)).value) == Some(r.value)
    ensures r.Failure? && r.error.ApiError? ==> r.error.response.status != OkStatus
  {
    SendRequest(ArticlesRequest(a), env.urlBuilds, env.send, env.decodeArticles, env.decodeError)
  }

  /** `getSources`: a success is a sources payload decoded from the reply to
      the parameterless sources request. */
  function GetSources(env: Environment): (r: Result<SourceResponse, NetworkError>)
    ensures r.Success? <==>
      && env.urlBuilds(SourcesRequest())
      && env.send(SourcesRequest()).Some?
      && env.decodeSources(env.send(SourcesRequest()).value).Some?
    ensures r.Success? ==> env.decodeSources(env.send(SourcesRequest()).value) == Some(r.value)
    ensures r.Failure? && r.error.ApiError? ==> r.error.response.status != OkStatus
  {
    SendRequest(SourcesRequest(), env.urlBuilds, env.send, env.decodeSources, env.decodeError)
  }

  /** `getSources` asks for `top-headlines/sources` with no query items. */
  lemma SourcesRequestIsBare()
    ensures SourcesRequest() == Request(ApiBase + "top-headlines/sources", map[])
  {
  }

  /** `getHeadlines(query: nil)` through the protocol's defaults asks for
      `top-headlines?country=ru&pageSize=20&page=1`. */
  lemma DefaultHeadlinesRequest()
    ensures HeadlinesRequest(NormalizeHeadlines(DefaultHeadlinesArgs(None)))
         == Request(ApiBase + "top-headlines", map["country" := "ru", "pageSize" := "20", "page" := "1"])
  {
    var a := DefaultHeadlinesArgs(None);
    DefaultPagingRendering();
    var m := HeadlinesParams(a);
    assert m.Keys == {"country", "pageSize", "page"};
  }

  /** The default page size and page render as `20` and `1`. */
  lemma DefaultPagingRendering()
    ensures DecimalString(20) == "20" && DecimalString(1) == "1"
  {
  }

  /** `getArticles(q: "election")` through the protocol's defaults asks for
      `everything?q=election&sortBy=publishedAt&pageSize=20&page=1`. */
  lemma ElectionArticlesRequest()
    ensures ArticlesRequest(NormalizeArticles(DefaultArticlesArgs(Some("election"))))
         == Request(ApiBase + "everything",
              map["sortBy" := "publishedAt", "pageSize" := "20", "page" := "1", "q" := "election"])
  {
    var a := DefaultArticlesArgs(Some("election"));
    DefaultPagingRendering();
    ArticlesKeyGroupsDisjoint();
    var base := ArticlesBase(a);
    var joined := SearchInValue(a);
    NoListsNoChange(base, a, joined);
    OnlyQueryAdded(base, a);
    DefaultArticlesBase(a.q);
  }

  /** A call that goes through the protocol extension always sends a page size
      in [20, 100] and a page of at least 1. */
  lemma ExtensionSendsValidPaging(h: HeadlinesArgs, a: ArticlesArgs)
    ensures var q := HeadlinesRequest(NormalizeHeadlines(h)).query;
      exists size, page :: ParseDecimal(q["pageSize"]) == Some(size) && ValidPageSize(size)
                         && ParseDecimal(q["page"]) == Some(page) && ValidPage(page)
    ensures var q := ArticlesRequest(NormalizeArticles(a)).query;
      exists size, page :: ParseDecimal(q["pageSize"]) == Some(size) && ValidPageSize(size)
                         && ParseDecimal(q["page"]) == Some(page) && ValidPage(page)
  {
  }

  /** The client's own builders pass paging values through unchanged: a page
      size of 500 given straight to the client is sent as 500. */
  lemma ClientDoesNotClamp()
    ensures var q := HeadlinesRequest(DefaultHeadlinesArgs(None).(pageSize := 500)).query;
      ParseDecimal(q["pageSize"]) == Some(500)
  {
  }

  /** With every list argument empty, the list steps leave the map as it was. */
  lemma NoListsNoChange(m: Params, a: ArticlesArgs, joined: string)
    requires m.Keys !! ListKeys
    requires a.searchIn == [] && a.sources == [] && a.domains == [] && a.excludeDomains == []
    ensures ArticlesLists(m, a, joined, joined, joined, joined) == m
  {
  }

  /** With only `q` given among the optional scalars, the scalar steps add
      exactly that one key. */
  lemma OnlyQueryAdded(m: Params, a: ArticlesArgs)
    requires m.Keys !! ScalarKeys
    requires a.q.Some? && a.from.None? && a.to.None? && a.language.None?
    ensures ArticlesScalars(m, a) == m["q" := a.q.value]
  {
  }

  /** The three fixed keys of an articles call that keeps the defaults. */
  lemma DefaultArticlesBase(q: Option<string>)
    ensures ArticlesBase(DefaultArticlesArgs(q))
         == map["sortBy" := "publishedAt", "pageSize" := "20", "page" := "1"]
  {
    DefaultPagingRendering();
  }
}
