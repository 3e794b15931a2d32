/** The pagination arithmetic shared by the domain and alert listings: the
    number of records skipped for a page and the `totalPages` reported beside
    it. `page` and `limit` are the already-parsed query integers. */
module Pagination {
  import opened Wrappers

  /** `(page - 1) * limit`. */
  function Skip(page: int, limit: int): (skip: int)
    ensures limit > 0 ==> (skip >= 0 <==> page >= 1)
  {
    if limit > 0 then
      MulSign(page - 1, limit);
      (page - 1) * limit
    else
      (page - 1) * limit
  }

  lemma MulSign(a: int, b: int)
    requires b > 0
    ensures a * b >= 0 <==> a >= 0
  {
    if a < 0 {
      assert a * b <= -b;
    }
  }

  /** Consecutive pages are adjacent windows: the next page starts where this
      one ends. */
  lemma SkipNextPage(page: int, limit: int)
    ensures Skip(page + 1, limit) == Skip(page, limit) + limit
  {
  }

  /** `Math.ceil(total / limit)`. A zero limit makes the quotient `Infinity` or
      `NaN`, which the JSON response carries as `null`: that is None here. */
  function TotalPages(total: nat, limit: int): (pages: Option<int>)
    ensures pages.None? <==> limit == 0
    ensures limit > 0 && total == 0 ==> pages == Some(0)
    ensures limit > 0 && total > 0 ==>
      pages.Some? && (pages.value - 1) * limit < total <= pages.value * limit
  {
    if limit == 0 then None
    else if limit > 0 then Some(CeilDiv(total, limit))
    else Some(-(total / -limit))
  }

  /** Ceiling of `n / d` for a positive `d`. */
  function CeilDiv(n: nat, d: int): (q: nat)
    requires d > 0
    ensures n == 0 ==> q == 0
    ensures n > 0 ==> (q - 1) * d < n <= q * d
  {
    var q := (n + d - 1) / d;
    assert q * d <= n + d - 1 < q * d + d;
    q
  }

  /** Every record of a listing is on exactly one of the reported pages: record
      `j` (counting from 0) is on page `j / limit + 1`, which lies between 1 and
      `totalPages`, and that page's window starts at most at `j` and ends after it. */
  lemma PageOfRecord(j: nat, total: nat, limit: int)
    requires j < total && limit > 0
    ensures var page := j / limit + 1;
      1 <= page && page <= TotalPages(total, limit).value
      && Skip(page, limit) <= j < Skip(page, limit) + limit
  {
    var page := j / limit + 1;
    var tp := TotalPages(total, limit).value;
    assert (page - 1) * limit <= j < (page - 1) * limit + limit;
  }
}
