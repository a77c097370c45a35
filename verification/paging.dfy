/** The paging rules of the protocol extension: a page size is pulled into
    [20, 100] and a page number is made at least 1. Out-of-range values are
    corrected, never rejected. */
module Paging {

  const MinPageSize: int := 20
  const MaxPageSize: int := 100
  const FirstPage: int := 1

  predicate ValidPageSize(n: int)
  {
    MinPageSize <= n <= MaxPageSize
  }

  predicate ValidPage(n: int)
  {
    n >= FirstPage
  }

  function Distance(a: int, b: int): nat
  {
    if a <= b then b - a else a - b
  }

  /** `pageSize < 20 ? 20 : (pageSize > 100 ? 100 : pageSize)` */
  function ClampPageSize(pageSize: int): (r: int)
    ensures ValidPageSize(r)
    ensures ValidPageSize(pageSize) ==> r == pageSize
    ensures pageSize < MinPageSize ==> r == MinPageSize
    ensures pageSize > MaxPageSize ==> r == MaxPageSize
  {
    if pageSize < 20 then 20 else if pageSize > 100 then 100 else pageSize
  }

  /** `page > 0 ? page : 1` */
  function ClampPage(page: int): (r: int)
    ensures ValidPage(r)
    ensures page > 0 ==> r == page
    ensures page <= 0 ==> r == FirstPage
  {
    if page > 0 then page else 1
  }

  /** The clamped page size is the valid page size closest to the input. */
  lemma ClampPageSizeIsNearest(pageSize: int)
    ensures forall k :: ValidPageSize(k) ==>
      Distance(ClampPageSize(pageSize), pageSize) <= Distance(k, pageSize)
  {
  }

  /** The clamped page is the valid page closest to the input. */
  lemma ClampPageIsNearest(page: int)
    ensures forall k :: ValidPage(k) ==> Distance(ClampPage(page), page) <= Distance(k, page)
  {
  }

  /** Clamping never reorders two page sizes. */
  lemma ClampPageSizeMonotonic(a: int, b: int)
    requires a <= b
    ensures ClampPageSize(a) <= ClampPageSize(b)
  {
  }

  /** Clamping a second time changes nothing. */
  lemma ClampIdempotent(pageSize: int, page: int)
    ensures ClampPageSize(ClampPageSize(pageSize)) == ClampPageSize(pageSize)
    ensures ClampPage(ClampPage(page)) == ClampPage(page)
  {
  }
}
