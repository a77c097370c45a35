/** The string-backed enumerations of the client and their wire values.
    Each `...Raw` function is the Swift `rawValue`; each `...FromRaw` is the
    synthesized `init?(rawValue:)`, and its contract says the two are inverse. */
module Enums {
  import opened Wrappers

  /** API paths below the base address. */
  datatype Endpoint = Everything | TopHeadlines | Sources

  function EndpointRaw(e: Endpoint): string
  {
    match e
    case Everything => "everything"
    case TopHeadlines => "top-headlines"
    case Sources => "top-headlines/sources"
  }

  function EndpointFromRaw(s: string): (r: Option<Endpoint>)
    ensures forall e :: r == Some(e) <==> EndpointRaw(e) == s
  {
    if s == "everything" then Some(Everything)
    else if s == "top-headlines" then Some(TopHeadlines)
    else if s == "top-headlines/sources" then Some(Sources)
    else None
  }

  /** Fields a free-text search may be restricted to. */
  datatype SearchIn = Title | Description | Content

  function SearchInRaw(s: SearchIn): string
  {
    match s
    case Title => "title"
    case Description => "description"
    case Content => "content"
  }

  function SearchInFromRaw(s: string): (r: Option<SearchIn>)
    ensures forall x :: r == Some(x) <==> SearchInRaw(x) == s
  {
    if s == "title" then Some(Title)
    else if s == "description" then Some(Description)
    else if s == "content" then Some(Content)
    else None
  }

  datatype Language = Ru | En

  function LanguageRaw(l: Language): string
  {
    match l
    case Ru => "ru"
    case En => "en"
  }

  function LanguageFromRaw(s: string): (r: Option<Language>)
    ensures forall l :: r == Some(l) <==> LanguageRaw(l) == s
  {
    if s == "ru" then Some(Language.Ru)
    else if s == "en" then Some(En)
    else None
  }

  datatype SortBy = Relevancy | Popularity | PublishedAt

  function SortByRaw(s: SortBy): string
  {
    match s
    case Relevancy => "relevancy"
    case Popularity => "popularity"
    case PublishedAt => "publishedAt"
  }

  function SortByFromRaw(s: string): (r: Option<SortBy>)
    ensures forall x :: r == Some(x) <==> SortByRaw(x) == s
  {
    if s == "relevancy" then Some(Relevancy)
    else if s == "popularity" then Some(Popularity)
    else if s == "publishedAt" then Some(PublishedAt)
    else None
  }

  datatype Country = Ru | Us

  function CountryRaw(c: Country): string
  {
    match c
    case Ru => "ru"
    case Us => "us"
  }

  function CountryFromRaw(s: string): (r: Option<Country>)
    ensures forall c :: r == Some(c) <==> CountryRaw(c) == s
  {
    if s == "ru" then Some(Country.Ru)
    else if s == "us" then Some(Us)
    else None
  }

  datatype Category =
    | All | Business | Entertainment | General
    | Health | Science | Sports | Technology

  function CategoryRaw(c: Category): string
  {
    match c
    case All => "all"
    case Business => "business"
    case Entertainment => "entertainment"
    case General => "general"
    case Health => "health"
    case Science => "science"
    case Sports => "sports"
    case Technology => "technology"
  }

  function CategoryFromRaw(s: string): (r: Option<Category>)
    ensures forall c :: r == Some(c) <==> CategoryRaw(c) == s
  {
    if s == "all" then Some(All)
    else if s == "business" then Some(Business)
    else if s == "entertainment" then Some(Entertainment)
    else if s == "general" then Some(General)
    else if s == "health" then Some(Health)
    else if s == "science" then Some(Science)
    else if s == "sports" then Some(Sports)
    else if s == "technology" then Some(Technology)
    else None
  }

  /** `Category.allCases` (the enum is `CaseIterable`): every case once, in
      declaration order. */
  function AllCategories(): (r: seq<Category>)
    ensures |r| == 8
    ensures forall c :: r[CategoryIndex(c)] == c
    ensures forall i, j :: 0 <= i < j < |r| ==> r[i] != r[j]
    ensures r[0] == All && r[7] == Technology
  {
    [All, Business, Entertainment, General, Health, Science, Sports, Technology]
  }

  /** The position of a case in declaration order. */
  function CategoryIndex(c: Category): (i: nat)
    ensures i < 8
  {
    match c
    case All => 0
    case Business => 1
    case Entertainment => 2
    case General => 3
    case Health => 4
    case Science => 5
    case Sports => 6
    case Technology => 7
  }

  /** The wire values of a list of search fields, in input order
      (`searchIn.map { $0.rawValue }`). */
  function SearchInRawValues(xs: seq<SearchIn>): (r: seq<string>)
    ensures |r| == |xs|
    ensures forall i :: 0 <= i < |xs| ==> SearchInFromRaw(r[i]) == Some(xs[i])
  {
    seq(|xs|, i requires 0 <= i < |xs| => SearchInRaw(xs[i]))
  }
}
