/** The store window a valid list request asks for: `limit = pageSize` and
    `offset = (page - 1) * pageSize`, computed in Go's int64 arithmetic. The page number
    has no upper bound, so the product can overflow: the offset is the exact product
    exactly when `page <= MaxPage(pageSize)`, and beyond that it wraps. */
module Pagination {
  import Int64
  import opened Binding

  function Limit(req: ListAccountsRequest): (limit: int)
    requires ValidListRequest(req)
    ensures MIN_PAGE_SIZE <= limit <= MAX_PAGE_SIZE
  {
    req.pageSize
  }

  /** The offset as the int64 expression `(page - 1) * pageSize` evaluates. */
  function Offset(req: ListAccountsRequest): (offset: int)
    requires ValidListRequest(req)
    ensures Int64.InRange(offset)
  {
    Int64.Mul(Int64.Sub(req.page, 1), req.pageSize)
  }

  /** The largest page whose offset fits in int64. */
  function MaxPage(pageSize: int): int
    requires pageSize >= 1
  {
    Int64.MAX / pageSize + 1
  }

  /** Where page `page` begins when pages of `pageSize` rows are laid one after
      another from the first row: page 1 at 0, each next page right after the last. */
  function PageStart(page: int, pageSize: int): int
    requires page >= 1
    decreases page
  {
    if page == 1 then 0 else PageStart(page - 1, pageSize) + pageSize
  }

  /** The start of page `page` is `(page - 1) * pageSize`. */
  lemma {:induction false} PageStartIsProduct(page: int, pageSize: int)
    requires page >= 1
    ensures PageStart(page, pageSize) == (page - 1) * pageSize
  {
    if page > 1 {
      PageStartIsProduct(page - 1, pageSize);
    }
  }

  lemma MulMonotone(a: int, b: int, c: int)
    requires a <= b && 0 <= c
    ensures a * c <= b * c
  {
  }

  /** A multiple of `n` divides back exactly. */
  lemma DivMultiple(k: int, n: int)
    requires 0 <= k && 0 < n
    ensures 0 <= k * n
    ensures (k * n) / n == k && (k * n) % n == 0
  {
    MulMonotone(0, k, n);
    var x := k * n;
    var q, r := x / n, x % n;
    assert x == q * n + r && 0 <= r < n;
    assert (k - q) * n == r;
    if k - q > 0 {
      MulMonotone(1, k - q, n);
    } else if k - q < 0 {
      MulMonotone(k - q, -1, n);
    }
  }

  /** For a valid request the offset is the exact product `(page - 1) * pageSize`
      exactly when `page <= MaxPage(pageSize)`; in that range it is non-negative and
      the `(page - 1)`-th multiple of the limit. */
  lemma {:induction false} OffsetExact(req: ListAccountsRequest)
    requires ValidListRequest(req)
    ensures Offset(req) == (req.page - 1) * req.pageSize <==> req.page <= MaxPage(req.pageSize)
    ensures req.page <= MaxPage(req.pageSize) ==>
      && 0 <= Offset(req)
      && Offset(req) % Limit(req) == 0
      && Offset(req) / Limit(req) == req.page - 1
  {
    var k, s := req.page - 1, req.pageSize;
    var q := Int64.MAX / s;
    assert Int64.MAX == q * s + Int64.MAX % s;
    assert Int64.Sub(req.page, 1) == k;
    if k <= q {
      MulMonotone(k, q, s);
      DivMultiple(k, s);
      assert Int64.InRange(k * s);
    } else {
      MulMonotone(q + 1, k, s);
      assert (q + 1) * s == q * s + s;
      assert !Int64.InRange(k * s);
    }
  }

  /** A page the binding rules accept whose offset wraps to the most negative int64. */
  lemma OffsetWrapsNegative()
    ensures ValidListRequest(ListAccountsRequest(0x1000_0000_0000_0001, 8))
    ensures Offset(ListAccountsRequest(0x1000_0000_0000_0001, 8)) == Int64.MIN
  {
  }
}
