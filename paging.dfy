/**
 * Offset paging of the course listings: a page number, `skip = (page - 1) *
 * perPage`, at most `perPage` items from there, and `totalPages =
 * Math.ceil(total / perPage)`.
 */
module Paging {
  import opened Common

  /**
   * `parseInt(page) || 1`: `parsed` is None when the query parameter is
   * missing or does not start with a number (NaN); NaN and 0 are falsy, so
   * both become page 1.
   */
  function PageNumber(parsed: Option<int>): (p: int)
    ensures p != 0
    ensures parsed.Some? && parsed.value != 0 ==> p == parsed.value
    ensures parsed.None? || parsed.value == 0 ==> p == 1
  {
    if parsed.Some? && parsed.value != 0 then parsed.value else 1
  }

  /** `const { page = 1 } = req.query`: a missing page is page 1, any other is kept. */
  function PageOrOne(page: Option<int>): int
  {
    if page.Some? then page.value else 1
  }

  function Skip(page: int, perPage: nat): int
  {
    (page - 1) * perPage
  }

  /** `Math.ceil(total / perPage)`: the fewest pages of `perPage` that hold `total` items. */
  function TotalPages(total: nat, perPage: nat): (n: nat)
    requires perPage > 0
    ensures total <= n * perPage
    ensures n > 0 ==> (n - 1) * perPage < total
    ensures n == 0 <==> total == 0
  {
    var n := (total + perPage - 1) / perPage;
    CeilBounds(total, perPage, n);
    n
  }

  lemma CeilBounds(total: nat, perPage: nat, n: nat)
    requires perPage > 0 && n == (total + perPage - 1) / perPage
    ensures total <= n * perPage
    ensures n > 0 ==> (n - 1) * perPage < total
  {
    var r := (total + perPage - 1) % perPage;
    assert total + perPage - 1 == n * perPage + r && 0 <= r < perPage;
    assert (n - 1) * perPage == n * perPage - perPage;
  }

  /**
   * `.skip(Skip(page, perPage)).limit(perPage)` on the matching items, for a
   * page of at least 1 (a negative skip is refused by the store).
   */
  function Window<T>(items: seq<T>, page: int, perPage: nat): (r: seq<T>)
    requires page >= 1
    ensures |r| <= perPage
    ensures var from := Skip(page, perPage);
            forall k :: 0 <= k < |r| ==> from + k < |items| && r[k] == items[from + k]
    ensures |r| == perPage || Skip(page, perPage) + |r| >= |items|
  {
    MulMonotone(0, page - 1, perPage);
    Slice(items, Skip(page, perPage), perPage)
  }

  /** At most `count` items from position `from`. */
  function Slice<T>(items: seq<T>, from: nat, count: nat): (r: seq<T>)
    ensures |r| <= count
    ensures forall k :: 0 <= k < |r| ==> from + k < |items| && r[k] == items[from + k]
    ensures |r| == count || from + |r| >= |items|
  {
    if from >= |items| then []
    else if from + count <= |items| then items[from..from + count]
    else items[from..]
  }

  /** The pages that hold something are exactly pages 1 to `TotalPages`. */
  lemma WindowNonEmpty<T>(items: seq<T>, page: int, perPage: nat)
    requires page >= 1 && perPage > 0
    ensures Window(items, page, perPage) != [] <==> page <= TotalPages(|items|, perPage)
  {
    var n := TotalPages(|items|, perPage);
    assert Window(items, page, perPage) != [] <==> Skip(page, perPage) < |items|;
    if page <= n {
      MulMonotone(page - 1, n - 1, perPage);
    } else {
      MulMonotone(n, page - 1, perPage);
    }
  }

  lemma MulMonotone(a: int, b: int, c: nat)
    requires a <= b
    ensures a * c <= b * c
  {
    assert b * c - a * c == (b - a) * c;
  }

  /** Item `i` of the matching items is entry `i % perPage` of page `i / perPage + 1`. */
  lemma ItemOnItsPage<T>(items: seq<T>, perPage: nat, i: nat)
    requires perPage > 0 && i < |items|
    ensures var page := i / perPage + 1;
            && page <= TotalPages(|items|, perPage)
            && i % perPage < |Window(items, page, perPage)|
            && Window(items, page, perPage)[i % perPage] == items[i]
  {
    var page := i / perPage + 1;
    assert Skip(page, perPage) + i % perPage == i;
    WindowNonEmpty(items, page, perPage);
  }

  /** The part of a listing response the paging decides. */
  datatype Listing<T> = Listing(items: seq<T>, totalPages: nat)

  /**
   * One page of a listing, or None when the page is below 1 and the store
   * rejects the negative skip (the handlers answer 500).
   */
  function ListPage<T>(matching: seq<T>, page: int, perPage: nat): (r: Option<Listing<T>>)
    requires perPage > 0
    ensures r.None? <==> page < 1
    ensures r.Some? ==> r.value.items == Window(matching, page, perPage)
                        && r.value.totalPages == TotalPages(|matching|, perPage)
  {
    if page < 1 then None else Some(Listing(Window(matching, page, perPage), TotalPages(|matching|, perPage)))
  }
}
