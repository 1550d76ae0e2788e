/**
 * Pagination of endpoint results (routes/endpoints/base.js, paginate): the
 * query's page and page_size are parsed as integers, an unparsable or zero
 * value falls back to the default, and the page is cut from the result list
 * with JavaScript's Array.prototype.slice.
 */
module Base {
  import opened Wrappers

  /** PAGE_SIZE and DEFAULT_PAGE */
  const PageSizeDefault: int := 64
  const DefaultPage: int := 0

  /** `parseInt(v) || d`: a NaN (None) or a 0 gives d. */
  function OrDefault(v: Option<int>, d: int): (r: int)
    ensures v.Some? && v.value != 0 ==> r == v.value
    ensures v.None? || v.value == 0 ==> r == d
  {
    if v.Some? && v.value != 0 then v.value else d
  }

  /** A relative index of slice: negative counts from the end, both clamped. */
  function SliceIndex(k: int, len: nat): (r: nat)
    ensures r <= len
    ensures 0 <= k ==> r == if k <= len then k else len
    ensures k < 0 ==> r == if len + k >= 0 then len + k else 0
  {
    if k < 0 then (if len + k >= 0 then len + k else 0)
    else if k <= len then k else len
  }

  /** Array.prototype.slice(start, end). */
  function JsSlice<T>(s: seq<T>, start: int, end: int): (r: seq<T>)
    ensures |r| <= |s|
    ensures SliceIndex(start, |s|) <= SliceIndex(end, |s|) ==>
      r == s[SliceIndex(start, |s|)..SliceIndex(end, |s|)]
    ensures SliceIndex(start, |s|) > SliceIndex(end, |s|) ==> r == []
  {
    var from, to := SliceIndex(start, |s|), SliceIndex(end, |s|);
    if from <= to then s[from..to] else []
  }

  /** Math.ceil(n / d) for a nonzero integer d. */
  function CeilDiv(n: nat, d: int): (q: int)
    requires d != 0
    ensures d > 0 ==> (q - 1) * d < n <= q * d
    ensures d < 0 ==> q * d <= n < (q - 1) * d
  {
    if d > 0 then (n + d - 1) / d else -(n / -d)
  }

  /** The body sent back by paginate. */
  datatype Page<T> = Page(page: int, totalCount: nat, pageSize: int, pageCount: int, results: seq<T>)

  function Paginate<T>(result: seq<T>, pageQuery: Option<int>, sizeQuery: Option<int>): (p: Page<T>)
    ensures p.totalCount == |result|
    ensures p.page == OrDefault(pageQuery, DefaultPage)
    ensures p.pageSize == OrDefault(sizeQuery, PageSizeDefault) && p.pageSize != 0
    ensures p.pageSize > 0 ==> |p.results| <= p.pageSize
    ensures p.pageSize > 0 ==> (p.pageCount - 1) * p.pageSize < |result| <= p.pageCount * p.pageSize
    ensures var offset := p.pageSize * p.page;
      0 <= offset <= |result| && p.pageSize > 0 ==>
        p.results == result[offset..if offset + p.pageSize <= |result| then offset + p.pageSize else |result|]
  {
    var page := OrDefault(pageQuery, DefaultPage);
    var pageSize := OrDefault(sizeQuery, PageSizeDefault);
    var offset := pageSize * page;
    Page(page, |result|, pageSize, CeilDiv(|result|, pageSize), JsSlice(result, offset, offset + pageSize))
  }

  /** Page j of size n. */
  function PageOf<T>(result: seq<T>, n: int, j: nat): seq<T>
    requires n > 0
  {
    Paginate(result, Some(j), Some(n)).results
  }

  /** The pages 0 .. k-1 of size n > 0, one after another. */
  function PagesUpTo<T>(result: seq<T>, n: int, k: nat): seq<T>
    requires n > 0
  {
    if k == 0 then [] else PagesUpTo(result, n, k - 1) + PageOf(result, n, k - 1)
  }

  function Min(a: int, b: int): int { if a <= b then a else b }

  /** Page j of size n > 0 is the slice [j*n, j*n + n) of the results, clamped. */
  lemma PageSlice<T>(result: seq<T>, n: int, j: nat, lo: int)
    requires n > 0 && lo == j * n
    ensures lo >= 0
    ensures PageOf(result, n, j) == result[Min(lo, |result|)..Min(lo + n, |result|)]
  {
    assert lo >= 0 by { MulNonNegative(j, n); }
    var p := Paginate(result, Some(j), Some(n));
    assert p.page == j && p.pageSize == n;
    assert n * j == lo;
  }

  lemma MulNonNegative(j: nat, n: int)
    requires n > 0
    ensures j * n >= 0
  {
  }

  lemma MulPred(k: nat, n: int)
    requires k > 0
    ensures k * n == (k - 1) * n + n
  {
  }

  /** The first k pages are the first m = k * n results. */
  lemma {:induction false} PagesUpToPrefix<T>(result: seq<T>, n: int, k: nat, m: int)
    requires n > 0 && m == k * n
    ensures m >= 0
    ensures PagesUpTo(result, n, k) == result[..Min(m, |result|)]
  {
    MulNonNegative(k, n);
    if k > 0 {
      var lo := m - n;
      assert lo == (k - 1) * n by { MulPred(k, n); }
      PagesUpToPrefix(result, n, k - 1, lo);
      PageSlice(result, n, k - 1, lo);
      var i, j := Min(lo, |result|), Min(m, |result|);
      assert PagesUpTo(result, n, k) == result[..i] + result[i..j];
      assert result[..i] + result[i..j] == result[..j];
    }
  }

  /** Reading every page in order gives back the whole result list. */
  lemma PagesCoverResult<T>(result: seq<T>, n: int)
    requires n > 0
    ensures PagesUpTo(result, n, Paginate(result, None, Some(n)).pageCount) == result
  {
    var c := Paginate(result, None, Some(n)).pageCount;
    PagesUpToPrefix(result, n, c, c * n);
  }
}
