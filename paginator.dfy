/** How many pages the client asks for, and what a run of page requests
    collects: the specification that `NewEggClient.GetProducts` implements. */
module Paginator {
  import opened Json

  /** One GET against the search endpoint with the given query parameters:
      the decoded "ItemList", or None when the request or the decoding failed. */
  type SearchApi = map<string, Json> -> Option<seq<Json>>

  /** The integer Python compares with 0 in `page_size > 0`: an int, or a bool
      (True is 1); None for a value the comparison rejects with a TypeError. */
  function AsInt(j: Json): Option<int> {
    match j
    case JInt(i) => Some(i)
    case JBool(b) => Some(if b then 1 else 0)
    case _ => None
  }

  /** The page size as the client reads it from its query parameters. */
  function PageSize(queryParameters: map<string, Json>): Option<int> {
    AsInt(PyGet(queryParameters, "pageSize"))
  }

  /** `math.ceil(n / d)`, as exact integer arithmetic. */
  function CeilDiv(n: int, d: int): (q: int)
    requires d > 0
    ensures (q - 1) * d < n <= q * d
  {
    var m := -n;
    assert m == d * (m / d) + m % d && 0 <= m % d < d;
    -(m / d)
  }

  /** `calculate_last_page_to_extract`: the number of pages needed to hold
      `noOfProducts` items when that number is non-zero and the page size is
      positive, no page count otherwise. A page size that is missing or not a
      number cannot be compared with 0 and raises (only when `noOfProducts` is
      non-zero, since `and` stops early). */
  function LastPage(noOfProducts: int, queryParameters: map<string, Json>): (r: Result<Option<int>, PyError>)
    ensures r.Failure? <==> noOfProducts != 0 && PageSize(queryParameters).None?
    ensures r.Failure? ==> r.error == TypeError
    ensures r == Success(None) <==>
              noOfProducts == 0 || (PageSize(queryParameters).Some? && PageSize(queryParameters).value <= 0)
    ensures r.Success? && r.value.Some? ==>
              var size, last := PageSize(queryParameters).value, r.value.value;
              size > 0 && (last - 1) * size < noOfProducts <= last * size
  {
    var pageSize := PageSize(queryParameters);
    if noOfProducts == 0 then Success(None)
    else if pageSize.None? then Failure(TypeError)
    else if pageSize.value > 0 then Success(Some(CeilDiv(noOfProducts, pageSize.value)))
    else Success(None)
  }

  /** The exclusive bound of `range(1, last_page)`; no page count gives an empty range. */
  function PageBound(lastPage: Option<int>): int {
    match lastPage
    case None => 1
    case Some(last) => last
  }

  /** The query parameters with "pageIndex" set to `i`, as the loop leaves them. */
  function PageQuery(queryParameters: map<string, Json>, i: int): map<string, Json> {
    queryParameters["pageIndex" := JInt(i)]
  }

  /** Setting "pageIndex" twice leaves only the second index. */
  lemma PageQueryTwice(queryParameters: map<string, Json>, i: int, j: int)
    ensures PageQuery(PageQuery(queryParameters, i), j) == PageQuery(queryParameters, j)
  {
  }

  /** The items collected by requesting pages lo, lo+1, ..., hi-1 in order,
      stopping at the first request that yields nothing. */
  function Gather(api: SearchApi, queryParameters: map<string, Json>, lo: int, hi: int): seq<Json>
    decreases hi - lo
  {
    if hi <= lo then []
    else match api(PageQuery(queryParameters, lo))
      case None => []
      case Some(page) => page + Gather(api, queryParameters, lo + 1, hi)
  }

  /** The page indices requested by that same run, in order: the failed request is
      still made, nothing after it is. */
  function Requested(api: SearchApi, queryParameters: map<string, Json>, lo: int, hi: int): (r: seq<int>)
    ensures |r| <= if lo < hi then hi - lo else 0
    ensures forall j | 0 <= j < |r| :: r[j] == lo + j
    decreases hi - lo
  {
    if hi <= lo then []
    else [lo] + (if api(PageQuery(queryParameters, lo)).None? then []
                 else Requested(api, queryParameters, lo + 1, hi))
  }

  /** Every request for pages lo..k-1 yields a page. */
  predicate AllFetched(api: SearchApi, queryParameters: map<string, Json>, lo: int, k: int) {
    forall i | lo <= i < k :: api(PageQuery(queryParameters, i)).Some?
  }

  /** The pages returned for lo..k-1, in page order. */
  function PagesOf(api: SearchApi, queryParameters: map<string, Json>, lo: int, k: int): (pages: seq<seq<Json>>)
    requires lo <= k && AllFetched(api, queryParameters, lo, k)
    ensures |pages| == k - lo
    ensures forall j | 0 <= j < k - lo :: pages[j] == api(PageQuery(queryParameters, lo + j)).value
    decreases k - lo
  {
    if k == lo then []
    else [api(PageQuery(queryParameters, lo)).value] + PagesOf(api, queryParameters, lo + 1, k)
  }

  /** All pages joined end to end. */
  function Flatten(pages: seq<seq<Json>>): seq<Json> {
    if pages == [] then [] else pages[0] + Flatten(pages[1..])
  }

  /** The sum of the page lengths. */
  function TotalLength(pages: seq<seq<Json>>): nat {
    if pages == [] then 0 else |pages[0]| + TotalLength(pages[1..])
  }

  /** The consecutive integers lo, lo+1, ..., hi-1. */
  function Range(lo: int, hi: int): seq<int>
    requires lo <= hi
  {
    seq(hi - lo, j => lo + j)
  }

  lemma {:induction false} FlattenLength(pages: seq<seq<Json>>)
    ensures |Flatten(pages)| == TotalLength(pages)
  {
    if pages != [] {
      FlattenLength(pages[1..]);
    }
  }

  /** If pages lo..k-1 all succeed and page k is the first failure (or k == hi),
      the run collects exactly the pages lo..k-1 joined in page order. */
  lemma {:induction false} GatherUpTo(api: SearchApi, queryParameters: map<string, Json>, lo: int, hi: int, k: int)
    requires lo <= k <= hi
    requires AllFetched(api, queryParameters, lo, k)
    requires k < hi ==> api(PageQuery(queryParameters, k)).None?
    ensures Gather(api, queryParameters, lo, hi) == Flatten(PagesOf(api, queryParameters, lo, k))
    ensures |Gather(api, queryParameters, lo, hi)| == TotalLength(PagesOf(api, queryParameters, lo, k))
    decreases k - lo
  {
    FlattenLength(PagesOf(api, queryParameters, lo, k));
    if lo < k {
      GatherUpTo(api, queryParameters, lo + 1, hi, k);
      var pages := PagesOf(api, queryParameters, lo, k);
      assert pages[1..] == PagesOf(api, queryParameters, lo + 1, k);
    }
  }

  /** Under the same hypotheses the run requests exactly lo, lo+1, ..., k when page k
      fails, and lo, ..., hi-1 when none fails: ascending, one request per page,
      nothing after the failure. */
  lemma {:induction false} RequestedUpTo(api: SearchApi, queryParameters: map<string, Json>, lo: int, hi: int, k: int)
    requires lo <= k <= hi
    requires AllFetched(api, queryParameters, lo, k)
    requires k < hi ==> api(PageQuery(queryParameters, k)).None?
    ensures Requested(api, queryParameters, lo, hi) == Range(lo, if k < hi then k + 1 else hi)
    decreases k - lo
  {
    if lo < k {
      RequestedUpTo(api, queryParameters, lo + 1, hi, k);
      var end := if k < hi then k + 1 else hi;
      assert Range(lo, end) == [lo] + Range(lo + 1, end);
    } else if k < hi {
      assert Range(lo, k + 1) == [lo];
    }
  }

  /** Every request returns exactly `size` items. */
  ghost predicate FullPages(api: SearchApi, size: int) {
    forall params :: api(params).Some? && |api(params).value| == size
  }

  lemma {:induction false} GatherFullPages(api: SearchApi, queryParameters: map<string, Json>, lo: int, hi: int, size: int)
    requires lo <= hi && FullPages(api, size)
    ensures |Gather(api, queryParameters, lo, hi)| == (hi - lo) * size
    decreases hi - lo
  {
    if lo < hi {
      assert api(PageQuery(queryParameters, lo)).Some?;
      GatherFullPages(api, queryParameters, lo + 1, hi, size);
    }
  }

  /** As written, `range(1, last_page)` leaves out the last page: even when every
      page comes back full, the run collects fewer than `noOfProducts` items. */
  lemma ExclusiveRangeFallsShort(api: SearchApi, noOfProducts: int, queryParameters: map<string, Json>, size: int)
    requires noOfProducts > 0 && size > 0
    requires PyGet(queryParameters, "pageSize") == JInt(size)
    requires FullPages(api, size)
    ensures LastPage(noOfProducts, queryParameters).Success?
    ensures var last := LastPage(noOfProducts, queryParameters).value;
            |Gather(api, queryParameters, 1, PageBound(last))| < noOfProducts
  {
    var last := LastPage(noOfProducts, queryParameters).value.value;
    GatherFullPages(api, queryParameters, 1, last, size);
  }

  /** The intended run: pages 1 through last_page inclusive. */
  function IntendedProducts(api: SearchApi, noOfProducts: int, queryParameters: map<string, Json>): Result<seq<Json>, PyError> {
    var last :- LastPage(noOfProducts, queryParameters);
    Success(Gather(api, queryParameters, 1, PageBound(last) + 1))
  }

  /** With the last page included, full pages reach the requested number of products. */
  lemma InclusiveRangeReachesTarget(api: SearchApi, noOfProducts: int, queryParameters: map<string, Json>, size: int)
    requires noOfProducts > 0 && size > 0
    requires PyGet(queryParameters, "pageSize") == JInt(size)
    requires FullPages(api, size)
    ensures IntendedProducts(api, noOfProducts, queryParameters).Success?
    ensures |IntendedProducts(api, noOfProducts, queryParameters).value| >= noOfProducts
  {
    var last := LastPage(noOfProducts, queryParameters).value.value;
    GatherFullPages(api, queryParameters, 1, last + 1, size);
  }
}
