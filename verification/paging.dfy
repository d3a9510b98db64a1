/**
 * Pagination: the generic windowing of an already filtered list into one page plus the
 * descriptor of the whole list. One function serves all four record types.
 */
module Paging {
  import opened Models

  /** One page of a list together with the descriptor of the whole list. */
  datatype Page<T> = Page(data: seq<T>, pagination: Pagination)

  /** The number of pages of `total` items, `limit` per page: the ceiling, but at least 1. */
  function TotalPages(total: nat, limit: int): (n: int)
    requires limit >= 1
    ensures n >= 1
    ensures total == 0 ==> n == 1
    ensures total > 0 ==> (n - 1) * limit < total <= n * limit
  {
    var n := (total + limit - 1) / limit;
    assert n * limit <= total + limit - 1 < n * limit + limit;
    if n == 0 then 1 else n
  }

  /**
   * The offset of the first item of page `page`: never negative for a real page, and each
   * page ends where the next begins.
   */
  function Offset(page: int, limit: int): (o: nat)
    requires page >= 1 && limit >= 1
    ensures o + limit == page * limit
  {
    MulMonotone(0, page - 1, limit);
    (page - 1) * limit
  }

  /**
   * The run of at most `limit` items of `xs` starting at offset `start`: a full run, the
   * rest of the list near its end, or nothing from the end on.
   */
  function Window<T>(xs: seq<T>, start: nat, limit: nat): (w: seq<T>)
    ensures |w| <= limit
    ensures start <= |xs| ==> |w| == (if |xs| - start < limit then |xs| - start else limit)
    ensures start >= |xs| ==> w == []
    ensures forall i :: 0 <= i < |w| ==> start + i < |xs| && w[i] == xs[start + i]
  {
    var total := |xs|;
    var end := start + limit;
    if start > total then []
    else
      var end' := if end > total then total else end;
      xs[start..end']
  }

  /**
   * Page `page` of `xs`, `limit` items per page: the items from offset (page-1)*limit up to
   * limit of them, fewer at the end of the list, none past it. The descriptor echoes page and
   * limit and reports the length of the whole list.
   */
  function Paginate<T>(xs: seq<T>, page: int, limit: int): (r: Page<T>)
    requires page >= 1 && limit >= 1
    ensures r.pagination.page == page && r.pagination.limit == limit
    ensures r.pagination.total == |xs|
    ensures r.pagination.totalPages == TotalPages(|xs|, limit)
    ensures |r.data| <= limit
    ensures Offset(page, limit) <= |xs| ==>
      |r.data| == (if |xs| - Offset(page, limit) < limit then |xs| - Offset(page, limit) else limit)
    ensures Offset(page, limit) >= |xs| ==> r.data == []
    ensures forall i :: 0 <= i < |r.data| ==> Offset(page, limit) + i < |xs| && r.data[i] == xs[Offset(page, limit) + i]
  {
    Page(Window(xs, Offset(page, limit), limit), Pagination(page, limit, |xs|, TotalPages(|xs|, limit)))
  }

  /** Pages past the last one are empty; every page up to the last one of a non-empty list is not. */
  lemma PagesBeyondLastAreEmpty<T>(xs: seq<T>, page: int, limit: int)
    requires page >= 1 && limit >= 1
    ensures page > TotalPages(|xs|, limit) ==> Paginate(xs, page, limit).data == []
    ensures |xs| > 0 && page <= TotalPages(|xs|, limit) ==> |Paginate(xs, page, limit).data| > 0
  {
    var n := TotalPages(|xs|, limit);
    if page > n {
      assert page - 1 >= n;
      MulMonotone(n, page - 1, limit);
      assert Offset(page, limit) >= |xs|;
    } else if |xs| > 0 {
      MulMonotone(page - 1, n - 1, limit);
      assert Offset(page, limit) < |xs|;
    }
  }

  /** Multiplying by a non-negative factor keeps the order of its operands. */
  lemma MulMonotone(a: int, b: int, c: int)
    requires 0 <= a <= b && c >= 0
    ensures a * c <= b * c
  {
  }

  /** Pages 1..n of `xs` concatenated in order. */
  function PagesUpTo<T>(xs: seq<T>, limit: int, n: nat): seq<T>
    requires limit >= 1
  {
    if n == 0 then [] else PagesUpTo(xs, limit, n - 1) + Paginate(xs, n, limit).data
  }

  /** `k` cut down to `len`. */
  function Clip(k: nat, len: nat): nat
  {
    if k <= len then k else len
  }

  /** Page n+1 starts `limit` items after page n. */
  lemma OffsetNext(n: int, limit: int)
    requires n >= 1 && limit >= 1
    ensures Offset(n + 1, limit) == Offset(n, limit) + limit
  {
  }

  /** Page n is the slice of `xs` between its offset and the next page's, both cut to the list. */
  lemma PageIsSlice<T>(xs: seq<T>, n: int, limit: int)
    requires n >= 1 && limit >= 1
    ensures Paginate(xs, n, limit).data ==
      xs[Clip(Offset(n, limit), |xs|)..Clip(Offset(n, limit) + limit, |xs|)]
  {
    var off := Offset(n, limit);
    if off > |xs| {
      assert Paginate(xs, n, limit).data == [];
    } else {
      assert Paginate(xs, n, limit).data == Window(xs, off, limit);
    }
  }

  /** The first n pages are exactly the first n*limit items (or all of them if fewer). */
  lemma {:induction false} PagesUpToIsPrefix<T>(xs: seq<T>, limit: int, n: nat)
    requires limit >= 1
    ensures PagesUpTo(xs, limit, n) == xs[..Clip(Offset(n + 1, limit), |xs|)]
  {
    if n > 0 {
      PagesUpToIsPrefix(xs, limit, n - 1);
      PageIsSlice(xs, n, limit);
      OffsetNext(n, limit);
      var lo := Clip(Offset(n, limit), |xs|);
      var hi := Clip(Offset(n + 1, limit), |xs|);
      assert xs[..lo] + xs[lo..hi] == xs[..hi];
    }
  }

  /**
   * The pages partition the list: pages 1..TotalPages, concatenated in order, reproduce it
   * exactly, with no item missing and none repeated.
   */
  lemma PagesPartition<T>(xs: seq<T>, limit: int)
    requires limit >= 1
    ensures PagesUpTo(xs, limit, TotalPages(|xs|, limit)) == xs
  {
    var n := TotalPages(|xs|, limit);
    PagesUpToIsPrefix(xs, limit, n);
    OffsetNext(n, limit);
  }
}
