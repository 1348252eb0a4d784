/** Page and limit (src/common/pagination/pagination.util.ts), and why the pages divide the list. */
module Pagination {

  const DEFAULT_PAGE_LIMIT := 20
  const MAX_PAGE_LIMIT := 100

  /** What `Number` makes of a raw query parameter, as far as `Number.isInteger` tells. */
  datatype Raw = NotAnInteger | Integer(n: int)

  datatype Params = Params(page: nat, limit: nat)

  predicate Bounded(p: Params) {
    p.page >= 1 && 1 <= p.limit <= MAX_PAGE_LIMIT
  }

  function Min(a: int, b: int): int {
    if a < b then a else b
  }

  function ParsePagination(rawPage: Raw, rawLimit: Raw): (p: Params)
    ensures Bounded(p)
    ensures rawPage.Integer? && rawPage.n >= 1 ==> p.page == rawPage.n
    ensures rawPage.NotAnInteger? || rawPage.n < 1 ==> p.page == 1
    ensures rawLimit.Integer? && 1 <= rawLimit.n <= 100 ==> p.limit == rawLimit.n
    ensures rawLimit.Integer? && rawLimit.n > 100 ==> p.limit == 100
    ensures rawLimit.NotAnInteger? || rawLimit.n < 1 ==> p.limit == 20
  {
    Params(if rawPage.Integer? && rawPage.n >= 1 then rawPage.n else 1,
           if rawLimit.Integer? && rawLimit.n >= 1 then Min(rawLimit.n, MAX_PAGE_LIMIT) else DEFAULT_PAGE_LIMIT)
  }

  function Skip(p: Params): nat
    requires Bounded(p)
  {
    (p.page - 1) * p.limit
  }

  /** `Math.max(1, Math.ceil(total / limit))` */
  function TotalPages(limit: nat, total: nat): nat
    requires limit >= 1
  {
    var pages := (total + limit - 1) / limit;
    if pages < 1 then 1 else pages
  }

  /** What a query with `skip` and `take` returns of a list in a fixed order. */
  function Slice<T>(items: seq<T>, skip: nat, take: nat): seq<T> {
    items[Min(skip, |items|)..Min(skip + take, |items|)]
  }

  function Page<T>(items: seq<T>, p: Params): seq<T>
    requires Bounded(p)
  {
    Slice(items, Skip(p), p.limit)
  }

  /** Pages 1 to k, one after the other. */
  function Pages<T>(items: seq<T>, limit: nat, k: nat): seq<T>
    requires 1 <= limit <= MAX_PAGE_LIMIT
  {
    if k == 0 then [] else Pages(items, limit, k - 1) + Page(items, Params(k, limit))
  }

  lemma AppendSlice<T>(items: seq<T>, skip: nat, take: nat)
    ensures items[..Min(skip, |items|)] + Slice(items, skip, take) == items[..Min(skip + take, |items|)]
  {
  }

  lemma {:induction false} PagesArePrefix<T>(items: seq<T>, limit: nat, k: nat)
    requires 1 <= limit <= MAX_PAGE_LIMIT
    ensures k * limit >= 0 && Pages(items, limit, k) == items[..Min(k * limit, |items|)]
  {
    if k > 0 {
      var skip := (k - 1) * limit;
      PagesArePrefix(items, limit, k - 1);
      assert k * limit == skip + limit;
      AppendSlice(items, skip, limit);
    }
  }

  lemma Division(n: nat, d: nat)
    requires d >= 1
    ensures n / d * d <= n < (n / d + 1) * d
  {
  }

  /** The last page is the first one that reaches the end. */
  lemma TotalPagesExact(limit: nat, total: nat)
    requires limit >= 1
    ensures TotalPages(limit, total) >= 1
    ensures total == 0 ==> TotalPages(limit, total) == 1
    ensures total <= TotalPages(limit, total) * limit
    ensures total > 0 ==> (TotalPages(limit, total) - 1) * limit < total
  {
    Division(total + limit - 1, limit);
    var q := (total + limit - 1) / limit;
    assert (q + 1) * limit == q * limit + limit;
    assert (q - 1) * limit == q * limit - limit;
    if q < 1 {
      assert q * limit == 0;
    }
  }

  /** Pages 1 to `totalPages` in order are the whole list. */
  lemma PagesAreTheList<T>(items: seq<T>, limit: nat)
    requires 1 <= limit <= MAX_PAGE_LIMIT
    ensures Pages(items, limit, TotalPages(limit, |items|)) == items
  {
    PagesArePrefix(items, limit, TotalPages(limit, |items|));
    TotalPagesExact(limit, |items|);
  }

  /** Item i is in the slice of a page. */
  predicate OnPage(i: nat, total: nat, p: Params)
    requires Bounded(p)
  {
    i < total && Skip(p) <= i < Skip(p) + p.limit
  }

  /** Every item is on exactly one page, the `i / limit + 1`-th, and that is one of the announced pages. */
  lemma OnExactlyOnePage(i: nat, total: nat, p: Params)
    requires Bounded(p) && i < total
    ensures OnPage(i, total, p) <==> p.page == i / p.limit + 1
    ensures 1 <= i / p.limit + 1 <= TotalPages(p.limit, total)
  {
    InSlice(i, p.limit, p.page);
    IsAnnounced(i, p.limit, total);
    hide TotalPages;
  }

  lemma IsAnnounced(i: nat, d: nat, total: nat)
    requires d >= 1 && i < total
    ensures i / d + 1 <= TotalPages(d, total)
  {
    var q, pages := i / d, TotalPages(d, total);
    Division(i, d);
    TotalPagesExact(d, total);
    hide TotalPages;
    if q >= pages { LessTimes(pages, q, d); }
  }

  lemma InSlice(i: nat, d: nat, page: nat)
    requires d >= 1 && page >= 1
    ensures (page - 1) * d <= i < (page - 1) * d + d <==> page == i / d + 1
  {
    var q := i / d;
    Division(i, d);
    assert (page - 1) * d + d == page * d;
    if page < q + 1 {
      LessTimes(page, q, d);
    } else if page > q + 1 {
      LessTimes(q + 1, page - 1, d);
    }
  }

  lemma LessTimes(a: nat, b: nat, d: nat)
    requires a <= b
    ensures a * d <= b * d
  {
  }

  /** A page is empty exactly when it comes after the last one, or the list is empty. */
  lemma EmptyPages<T>(items: seq<T>, p: Params)
    requires Bounded(p)
    ensures Page(items, p) == [] <==> p.page > TotalPages(p.limit, |items|) || items == []
  {
    var last := TotalPages(p.limit, |items|);
    TotalPagesExact(p.limit, |items|);
    if p.page > last {
      LessTimes(last, p.page - 1, p.limit);
    } else {
      LessTimes(p.page - 1, last - 1, p.limit);
    }
  }
}
