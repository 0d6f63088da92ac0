/**
 * Normalisation of the `start`, `count` and `order` query parameters of the
 * paginated list endpoints.
 */
module Pagination {
  import opened Wrappers

  /**
   * The three form values of a request, as integer parsing leaves them:
   * `None` stands for a value that is absent or does not parse as an integer.
   */
  datatype PageQuery = PageQuery(start: Option<int>, count: Option<int>, order: string)

  /** The page a list endpoint serves; `totalRecords` is filled in after the query runs. */
  datatype PageParams = PageParams(start: int, count: int, order: string, totalRecords: int)

  /** The order used when the request names none. */
  const DefaultOrder := "desc"

  /** The default (and largest) page sizes the list endpoints pass in. */
  const CommunityPageSize := 25
  const UserPageSize := 100

  /** What a failed integer parse leaves behind: its zero result. */
  function ParsedOrZero(v: Option<int>): int
  {
    match v
    case Some(n) => n
    case None => 0
  }

  /** A page size the endpoint accepts as requested. */
  predicate ValidCount(c: int, defaultCount: int)
  {
    1 <= c <= defaultCount
  }

  /**
   * A page description that normalisation leaves alone: a start that is not
   * negative, an accepted page size (or the default itself) and a non-empty order.
   */
  predicate Normalized(p: PageParams, defaultCount: int)
  {
    && p.start >= 0
    && (ValidCount(p.count, defaultCount) || p.count == defaultCount)
    && p.order != ""
    && p.totalRecords == 0
  }

  /** Reads the page parameters of a request, clamping them to what the endpoint serves. */
  function GetPageParams(q: PageQuery, defaultCount: int): (p: PageParams)
    // the size requested is kept exactly when it is accepted; otherwise the default is used
    ensures ValidCount(ParsedOrZero(q.count), defaultCount) ==> p.count == ParsedOrZero(q.count)
    ensures !ValidCount(ParsedOrZero(q.count), defaultCount) ==> p.count == defaultCount
    ensures q.count.None? ==> p.count == defaultCount
    ensures defaultCount >= 1 ==> ValidCount(p.count, defaultCount)
    // the start is never negative, and a start that is not negative is kept
    ensures p.start >= 0
    ensures ParsedOrZero(q.start) >= 0 ==> p.start == ParsedOrZero(q.start)
    ensures ParsedOrZero(q.start) < 0 ==> p.start == 0
    // only an empty order is replaced
    ensures q.order == "" <==> p.order == DefaultOrder && q.order != DefaultOrder
    ensures q.order != "" ==> p.order == q.order
    ensures Normalized(p, defaultCount)
  {
    var s := ParsedOrZero(q.start);
    var c := ParsedOrZero(q.count);
    var o := if q.order == "" then DefaultOrder else q.order;
    var c' := if c > defaultCount || c < 1 then defaultCount else c;
    var s' := if s < 0 then 0 else s;
    PageParams(s', c', o, 0)
  }

  /** The request a client would send to ask for exactly the page `p`. */
  function Resubmit(p: PageParams): PageQuery
  {
    PageQuery(Some(p.start), Some(p.count), p.order)
  }

  /**
   * Normalised pages are exactly the fixed points of normalisation: asking again
   * for a normalised page gives it back, and nothing else comes back unchanged.
   */
  lemma NormalizedIsFixedPoint(p: PageParams, defaultCount: int)
    ensures GetPageParams(Resubmit(p), defaultCount) == p <==> Normalized(p, defaultCount)
  {
  }

  /** Normalising twice gives the same page as normalising once. */
  lemma GetPageParamsIdempotent(q: PageQuery, defaultCount: int)
    ensures GetPageParams(Resubmit(GetPageParams(q, defaultCount)), defaultCount)
         == GetPageParams(q, defaultCount)
  {
    NormalizedIsFixedPoint(GetPageParams(q, defaultCount), defaultCount);
  }

  /** With the endpoints' own defaults every page holds between 1 and the default number of items. */
  lemma EndpointPageSizesBounded(q: PageQuery)
    ensures 1 <= GetPageParams(q, CommunityPageSize).count <= 25
    ensures 1 <= GetPageParams(q, UserPageSize).count <= 100
  {
  }
}
