/** The Stripe list loops: fetch the first page, then, while the last page
    said `has_more` and the loop's cap allows, request the page after the
    last record already held (`starting_after`) and append it.

    The listing is an input: the k-th request is answered by `pages[k]`, and
    a request past the end is answered by an empty page without `has_more`.
    Each request after the first names the id of the last record held; when
    nothing is held yet, reading that id throws. */
module Paging {
  import opened Wrappers

  datatype Page<T> = Page(data: seq<T>, hasMore: bool)

  /** The extra condition of the `while` loop beside `hasMore`. */
  datatype Cap =
    | Unbounded              // `while (hasMore)`
    | PageLimit(pages: nat)  // `while (hasMore && pageCount < pages)`
    | ItemLimit(items: nat)  // `while (hasMore && all.length < items)`

  /** `all[all.length - 1].id` on an empty array throws a TypeError. */
  datatype PagingError = MissingCursor

  datatype Fetched<T> = Fetched(items: seq<T>, cursors: seq<string>, pageCount: nat)

  function PageAt<T>(pages: seq<Page<T>>, k: nat): Page<T>
  {
    if k < |pages| then pages[k] else Page([], false)
  }

  /** The records held after the first `n` pages. */
  function Held<T>(pages: seq<Page<T>>, n: nat): seq<T>
  {
    if n == 0 then [] else Held(pages, n - 1) + PageAt(pages, n - 1).data
  }

  predicate MayContinue(cap: Cap, pageCount: nat, held: nat)
  {
    match cap
    case Unbounded => true
    case PageLimit(m) => pageCount < m
    case ItemLimit(m) => held < m
  }

  /** After `n` pages the loop requests another one. */
  predicate Requests<T>(pages: seq<Page<T>>, cap: Cap, n: nat)
    requires n >= 1
  {
    PageAt(pages, n - 1).hasMore && MayContinue(cap, n, |Held(pages, n)|)
  }

  function FetchedFrom<T>(pages: seq<Page<T>>, cap: Cap, n: nat): (r: nat)
    requires 1 <= n <= |pages| + 1
    ensures n <= r <= |pages| + 1
    decreases |pages| + 1 - n
  {
    if Requests(pages, cap, n) then FetchedFrom(pages, cap, n + 1) else n
  }

  /** The number of pages the loop ends with. */
  function PagesFetched<T>(pages: seq<Page<T>>, cap: Cap): (r: nat)
    ensures 1 <= r <= |pages| + 1
  {
    FetchedFrom(pages, cap, 1)
  }

  /** The loop's outcome: every record of the pages it reads, or the error
      thrown when it must name a cursor while holding nothing. */
  function Listing<T>(pages: seq<Page<T>>, cap: Cap): Result<seq<T>, PagingError>
  {
    if Requests(pages, cap, 1) && PageAt(pages, 0).data == [] then Err(MissingCursor)
    else Ok(Held(pages, PagesFetched(pages, cap)))
  }

  lemma {:induction false} HeldPrefix<T>(pages: seq<Page<T>>, m: nat, n: nat)
    requires m <= n
    ensures Held(pages, m) <= Held(pages, n)
    decreases n - m
  {
    if m < n {
      HeldPrefix(pages, m, n - 1);
    }
  }

  /** The loop asks again after every page before the last one it reads, and
      not after the last: it stops exactly at the first page whose `has_more`
      is false or whose cap is reached. */
  lemma {:induction false} FetchedFromStops<T>(pages: seq<Page<T>>, cap: Cap, n: nat)
    requires 1 <= n <= |pages| + 1
    ensures forall k :: n <= k < FetchedFrom(pages, cap, n) ==> Requests(pages, cap, k)
    ensures !Requests(pages, cap, FetchedFrom(pages, cap, n))
    decreases |pages| + 1 - n
  {
    if Requests(pages, cap, n) {
      FetchedFromStops(pages, cap, n + 1);
    }
  }

  lemma PagesFetchedStops<T>(pages: seq<Page<T>>, cap: Cap)
    ensures 1 <= PagesFetched(pages, cap) <= |pages| + 1
    ensures forall k :: 1 <= k < PagesFetched(pages, cap) ==> Requests(pages, cap, k)
    ensures !Requests(pages, cap, PagesFetched(pages, cap))
  {
    FetchedFromStops(pages, cap, 1);
  }

  lemma {:induction false} PageCapFrom<T>(pages: seq<Page<T>>, m: nat, n: nat)
    requires 1 <= n <= |pages| + 1
    ensures FetchedFrom(pages, PageLimit(m), n) <= if n < m then m else n
    decreases |pages| + 1 - n
  {
    if Requests(pages, PageLimit(m), n) {
      PageCapFrom(pages, m, n + 1);
    }
  }

  lemma {:induction false} StopsAtFrom<T>(pages: seq<Page<T>>, cap: Cap, n: nat, m: nat)
    requires 1 <= n <= m <= |pages| + 1
    requires forall k :: n <= k < m ==> Requests(pages, cap, k)
    requires !Requests(pages, cap, m)
    ensures FetchedFrom(pages, cap, n) == m
    decreases m - n
  {
    if n < m {
      StopsAtFrom(pages, cap, n + 1, m);
    }
  }

  /** The loop ends at the first page after which it does not ask again. */
  lemma StopsAt<T>(pages: seq<Page<T>>, cap: Cap, m: nat)
    requires 1 <= m <= |pages| + 1
    requires forall k :: 1 <= k < m ==> Requests(pages, cap, k)
    requires !Requests(pages, cap, m)
    ensures PagesFetched(pages, cap) == m
  {
    StopsAtFrom(pages, cap, 1, m);
  }

  /** A page cap of `m` (at least one) bounds the number of pages read. */
  lemma PageCapBound<T>(pages: seq<Page<T>>, m: nat)
    requires m >= 1
    ensures PagesFetched(pages, PageLimit(m)) <= m
  {
    PageCapFrom(pages, m, 1);
  }

  lemma {:induction false} UnboundedFrom<T>(pages: seq<Page<T>>, n: nat)
    requires 1 <= n <= |pages|
    requires forall k :: 0 <= k < |pages| - 1 ==> pages[k].hasMore
    requires !pages[|pages| - 1].hasMore
    ensures FetchedFrom(pages, Unbounded, n) == |pages|
    decreases |pages| - n
  {
    if n < |pages| {
      assert Requests(pages, Unbounded, n);
      UnboundedFrom(pages, n + 1);
    }
  }

  /** Without a cap, a listing whose pages all say `has_more` except the last
      is read to the end: the result is the concatenation of all its pages. */
  lemma UnboundedReadsAll<T>(pages: seq<Page<T>>)
    requires |pages| >= 1
    requires forall k :: 0 <= k < |pages| - 1 ==> pages[k].hasMore
    requires !pages[|pages| - 1].hasMore
    ensures PagesFetched(pages, Unbounded) == |pages|
    ensures pages[0].data != [] || |pages| == 1 ==> Listing(pages, Unbounded) == Ok(Held(pages, |pages|))
  {
    UnboundedFrom(pages, 1);
  }

  /** With an item cap, the loop stops as soon as `m` or more records are held,
      and never stops earlier while pages remain. */
  lemma ItemCapStops<T>(pages: seq<Page<T>>, m: nat)
    ensures var n := PagesFetched(pages, ItemLimit(m));
      !PageAt(pages, n - 1).hasMore || |Held(pages, n)| >= m
    ensures forall k :: 1 <= k < PagesFetched(pages, ItemLimit(m)) ==> |Held(pages, k)| < m
  {
    PagesFetchedStops(pages, ItemLimit(m));
    forall k | 1 <= k < PagesFetched(pages, ItemLimit(m)) ensures |Held(pages, k)| < m {
      assert Requests(pages, ItemLimit(m), k);
    }
  }

  /** The error is raised only by the second request, and only when the first
      page was empty yet claimed more. */
  lemma ListingError<T>(pages: seq<Page<T>>, cap: Cap)
    ensures Listing(pages, cap).Err? <==> PageAt(pages, 0).data == [] && PageAt(pages, 0).hasMore && MayContinue(cap, 1, 0)
  {
    assert Held(pages, 1) == PageAt(pages, 0).data;
  }

  /** Each request after the first named the last record held before it:
      request `k + 1` (0-based) used the id of the last record of the first
      `k + 1` pages. */
  ghost predicate CursorsFollow<T>(pages: seq<Page<T>>, cursors: seq<string>, idOf: T -> string)
  {
    forall k :: 0 <= k < |cursors| ==>
      Held(pages, k + 1) != [] && cursors[k] == idOf(Held(pages, k + 1)[|Held(pages, k + 1)| - 1])
  }

  lemma CursorsExtend<T>(pages: seq<Page<T>>, cursors: seq<string>, idOf: T -> string, all: seq<T>)
    requires CursorsFollow(pages, cursors, idOf)
    requires all == Held(pages, |cursors| + 1) && all != []
    ensures CursorsFollow(pages, cursors + [idOf(all[|all| - 1])], idOf)
  {
    var c := cursors + [idOf(all[|all| - 1])];
    forall k | 0 <= k < |c|
      ensures Held(pages, k + 1) != [] && c[k] == idOf(Held(pages, k + 1)[|Held(pages, k + 1)| - 1])
    {
      if k < |cursors| {
        assert c[k] == cursors[k];
      }
    }
  }

  /** The loop itself. It returns the records held, the cursor each further
      request named, and the number of pages read. */
  method FetchAll<T>(pages: seq<Page<T>>, cap: Cap, idOf: T -> string) returns (r: Result<Fetched<T>, PagingError>)
    ensures r.Err? <==> Listing(pages, cap).Err?
    ensures r.Ok? ==> r.value.items == Listing(pages, cap).value
    ensures r.Ok? ==> r.value.pageCount == PagesFetched(pages, cap)
    ensures r.Ok? ==> |r.value.cursors| == r.value.pageCount - 1
    ensures r.Ok? ==> CursorsFollow(pages, r.value.cursors, idOf)
  {
    var first := PageAt(pages, 0);
    var all := first.data;
    var hasMore := first.hasMore;
    var pageCount: nat := 1;
    var cursors: seq<string> := [];
    assert Held(pages, 1) == first.data;
    while hasMore && MayContinue(cap, pageCount, |all|)
      invariant 1 <= pageCount <= |pages| + 1
      invariant all == Held(pages, pageCount)
      invariant hasMore == PageAt(pages, pageCount - 1).hasMore
      invariant forall k :: 1 <= k < pageCount ==> Requests(pages, cap, k)
      invariant pageCount > 1 ==> Held(pages, 1) != []
      invariant |Held(pages, 1)| <= |all|
      invariant |cursors| == pageCount - 1
      invariant CursorsFollow(pages, cursors, idOf)
      decreases |pages| + 1 - pageCount
    {
      if all == [] {
        return Err(MissingCursor);
      }
      CursorsExtend(pages, cursors, idOf, all);
      var cursor := idOf(all[|all| - 1]);
      var next := PageAt(pages, pageCount);
      all := all + next.data;
      hasMore := next.hasMore;
      cursors := cursors + [cursor];
      pageCount := pageCount + 1;
    }
    StopsAt(pages, cap, pageCount);
    r := Ok(Fetched(all, cursors, pageCount));
  }
}
