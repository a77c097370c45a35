/** The decoded response shapes. They are plain records: the client never
    inspects them except for the `status` of an error payload. */
module Entities {
  import opened Wrappers

  /** The status value the API sends with a successful payload. */
  const OkStatus: string := "ok"

  /** A URL as text; URL parsing is not part of this model. */
  type Url = string

  /** An ISO-8601 timestamp as text; date decoding is not part of this model. */
  type Date = string

  datatype SourceEntity = SourceEntity(id: Option<string>, name: Option<string>)

  datatype ArticleEntity = ArticleEntity(
    author: Option<string>,
    title: Option<string>,
    description: Option<string>,
    url: Option<Url>,
    urlToImage: Option<Url>,
    publishedAt: Option<Date>,
    content: Option<string>,
    source: SourceEntity)

  datatype ArticlesResponse = ArticlesResponse(
    status: string,
    totalResults: int,
    articles: seq<ArticleEntity>)

  datatype SourceResponse = SourceResponse(status: string, sources: seq<SourceEntity>)

  /** The payload the API sends instead of a result when it rejects a call. */
  datatype ErrorResponse = ErrorResponse(
    status: string,
    code: Option<string>,
    message: Option<string>)
}
