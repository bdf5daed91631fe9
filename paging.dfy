/**
 * The pagination arithmetic the expense and income list endpoints share:
 * `skip: (page - 1) * limit`, `take: limit` and `totalPages: Math.ceil(total / limit)`.
 */
module Paging {
  import opened Wrappers

  /** `parseInt(searchParams.get(name) || default)`; None stands for an absent or empty parameter. */
  function ParamOr(raw: Option<int>, default: int): (r: int)
    ensures raw.None? ==> r == default
    ensures raw.Some? ==> r == raw.value
  {
    raw.GetOr(default)
  }

  function Skip(page: int, limit: int): int {
    (page - 1) * limit
  }

  /** `Math.ceil(total / limit)` as JavaScript computes it, including division by zero. */
  datatype PageCount = Pages(n: int) | Infinite | NotANumber

  function TotalPages(total: nat, limit: int): (r: PageCount)
    ensures limit == 0 ==> (r == Infinite <==> total > 0) && (r == NotANumber <==> total == 0)
    ensures limit > 0 ==> r.Pages? && 0 <= r.n && (r.n - 1) * limit < total <= r.n * limit
    ensures limit < 0 ==> r.Pages? && r.n <= 0 && r.n * limit <= total < (r.n - 1) * limit
  {
    if limit > 0 then Pages((total + limit - 1) / limit)
    else if limit < 0 then Pages(-(total / -limit))
    else if total > 0 then Infinite
    else NotANumber
  }

  /** With a positive limit every row index lies on exactly one page, and that page exists. */
  lemma PageOfIndex(total: nat, limit: int, i: nat)
    requires limit > 0 && i < total
    ensures var p := i / limit + 1;
      && 1 <= p && TotalPages(total, limit).Pages? && p <= TotalPages(total, limit).n
      && Skip(p, limit) <= i < Skip(p, limit) + limit
  {
    var p := i / limit + 1;
    var n := TotalPages(total, limit).n;
    assert Skip(p, limit) == (i / limit) * limit;
    if p > n {
      assert (p - 1) * limit >= n * limit by {
        MulMonotone(n, p - 1, limit);
      }
    }
  }

  lemma MulMonotone(a: int, b: int, c: int)
    requires a <= b && c > 0
    ensures a * c <= b * c
  {
    assert b * c - a * c == (b - a) * c;
  }

  /** The rows `skip`/`take` select from an ordered result. */
  function PageOf<T>(xs: seq<T>, skip: nat, take: nat): (r: seq<T>)
    ensures |r| == if skip >= |xs| then 0 else if take < |xs| - skip then take else |xs| - skip
    ensures forall k :: 0 <= k < |r| ==> r[k] == xs[skip + k]
  {
    if skip >= |xs| then []
    else if take < |xs| - skip then xs[skip..skip + take]
    else xs[skip..]
  }
}
