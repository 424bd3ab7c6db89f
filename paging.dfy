// Walking a paginated listing: the `while (!is_null($batch->next_page))`
// loop of getAll, the page-1 probe of getLastPage, and a model of the
// listing endpoint used to state what those walks return.

module Paging {
  import opened Values
  import opened Bodies

  /**
   * What the client reads off one page of a listing: the items under the
   * service's path, `total_pages` and `next_page` (null on the last page).
   */
  datatype Batch = Batch(items: seq<Value>, totalPages: int, nextPage: Option<int>)

  function Then(xs: seq<Value>, rest: Option<seq<Value>>): Option<seq<Value>> {
    match rest
    case None => None
    case Some(ys) => Some(xs + ys)
  }

  /**
   * The items the loop gathers after batch `b`, fetching page
   * `next_page` with `fetch` until `next_page` is null. The loop in the
   * source has no bound; `None` means it was still going after `fuel`
   * fetches.
   */
  function Follow(fetch: int -> Batch, b: Batch, fuel: nat): Option<seq<Value>>
    decreases fuel
  {
    if b.nextPage.None? then Some([])
    else if fuel == 0 then None
    else
      var next := fetch(b.nextPage.value);
      Then(next.items, Follow(fetch, next, fuel - 1))
  }

  /**
   * getAll's items: those of the first batch and, only when it reports
   * more than one page, those of every page the loop follows.
   */
  function Gather(fetch: int -> Batch, first: Batch, fuel: nat): Option<seq<Value>> {
    if first.totalPages > 1 then Then(first.items, Follow(fetch, first, fuel))
    else Some(first.items)
  }

  /** The page numbers the loop passes to `fetch` after batch `b`, in order. */
  function Followed(fetch: int -> Batch, b: Batch, fuel: nat): seq<int>
    decreases fuel
  {
    if b.nextPage.None? || fuel == 0 then []
    else [b.nextPage.value] + Followed(fetch, fetch(b.nextPage.value), fuel - 1)
  }

  /**
   * The page numbers getAll asks for after its first request: none unless
   * the first batch reports more than one page, whatever its `next_page`.
   */
  function Fetched(fetch: int -> Batch, first: Batch, fuel: nat): seq<int> {
    if first.totalPages > 1 then Followed(fetch, first, fuel) else []
  }

  /** The page numbers `lo`, `lo + 1`, ..., `hi`. */
  function Pages(lo: int, hi: int): (ps: seq<int>)
    ensures |ps| == if lo <= hi then hi - lo + 1 else 0
    ensures forall i :: 0 <= i < |ps| ==> ps[i] == lo + i
    decreases hi - lo
  {
    if lo > hi then [] else [lo] + Pages(lo + 1, hi)
  }

  /**
   * The loop of getAll, merging each fetched page's items onto the list;
   * `pages` are the page numbers it fetches after the first batch.
   */
  method Walk(fetch: int -> Batch, first: Batch, fuel: nat) returns (r: Option<seq<Value>>, pages: seq<int>)
    ensures r == Gather(fetch, first, fuel)
    ensures pages == Fetched(fetch, first, fuel)
    ensures first.totalPages <= 1 ==> r == Some(first.items) && pages == []
    ensures r.Some? ==> first.items <= r.value
  {
    var batch := first;
    var items := first.items;
    pages := [];
    if batch.totalPages > 1 {
      var left: nat := fuel;
      while batch.nextPage.Some? && left > 0
        invariant left <= fuel
        invariant first.items <= items
        invariant Gather(fetch, first, fuel) == Then(items, Follow(fetch, batch, left))
        invariant Fetched(fetch, first, fuel) == pages + Followed(fetch, batch, left)
        decreases left
      {
        var next := fetch(batch.nextPage.value);
        ThenThen(items, next.items, Follow(fetch, next, left - 1));
        assert pages + ([batch.nextPage.value] + Followed(fetch, next, left - 1))
            == (pages + [batch.nextPage.value]) + Followed(fetch, next, left - 1);
        pages := pages + [batch.nextPage.value];
        batch := next;
        items := items + batch.items;
        left := left - 1;
      }
      assert pages + [] == pages;
      if batch.nextPage.Some? {
        return None, pages;
      }
    }
    assert items + [] == items;
    return Some(items), pages;
  }

  lemma ThenThen(xs: seq<Value>, ys: seq<Value>, rest: Option<seq<Value>>)
    ensures Then(xs, Then(ys, rest)) == Then(xs + ys, rest)
  {
    if rest.Some? {
      assert xs + (ys + rest.value) == (xs + ys) + rest.value;
    }
  }

  /**
   * A listing whose `next_page` links move forward and stay at or below
   * `last` is walked to its end once the fuel covers the remaining pages.
   */
  lemma {:induction false} FollowEnds(fetch: int -> Batch, b: Batch, last: int, fuel: nat)
    requires forall n :: fetch(n).nextPage.Some? ==> n < fetch(n).nextPage.value <= last
    requires b.nextPage.Some? ==> b.nextPage.value <= last && fuel > last - b.nextPage.value
    ensures Follow(fetch, b, fuel).Some?
    decreases fuel
  {
    if b.nextPage.Some? {
      FollowEnds(fetch, fetch(b.nextPage.value), last, fuel - 1);
    }
  }

  /** A walk whose every fetch reports a next page never ends, whatever the fuel. */
  lemma {:induction false} FollowStuck(fetch: int -> Batch, b: Batch, fuel: nat)
    requires b.nextPage.Some? && b.nextPage.value >= 1
    requires forall k :: k >= 1 ==> fetch(k).nextPage.Some? && fetch(k).nextPage.value >= 1
    ensures Follow(fetch, b, fuel) == None
    decreases fuel
  {
    if fuel > 0 {
      var next := fetch(b.nextPage.value);
      assert next.nextPage.Some?;
      FollowStuck(fetch, next, fuel - 1);
    }
  }

  // ---- The listing endpoint -------------------------------------------

  function Min(a: int, b: int): int {
    if a < b then a else b
  }

  /** How many pages of `size` items it takes to hold `n` items. */
  function PageCount(n: nat, size: nat): nat
    requires size >= 1
  {
    (n + size - 1) / size
  }

  /**
   * Page `page` of a listing of `all`, `size` items per page: the server
   * side of the protocol the loop relies on.
   */
  function PageOf(all: seq<Value>, size: nat, page: int): (b: Batch)
    requires size >= 1
    ensures b.totalPages == PageCount(|all|, size)
  {
    var total := PageCount(|all|, size);
    Batch(
      if 1 <= page <= total then all[(page - 1) * size .. Min(page * size, |all|)] else [],
      total,
      if 1 <= page < total then Some(page + 1) else None)
  }

  lemma MulLeq(a: int, b: int, size: nat)
    requires a <= b
    ensures a * size <= b * size
  {
    assert b * size - a * size == (b - a) * size;
  }

  /** Facts about page boundaries that the proofs below need. */
  lemma PageBounds(n: nat, size: nat, page: int)
    requires size >= 1 && 1 <= page
    ensures page <= PageCount(n, size) ==> (page - 1) * size < n
    ensures page < PageCount(n, size) ==> page * size < n
    ensures page >= PageCount(n, size) ==> page * size >= n
  {
    var total := PageCount(n, size);
    var rem := (n + size - 1) % size;
    assert n + size - 1 == total * size + rem && 0 <= rem < size;
    if page <= total {
      MulLeq(page - 1, total - 1, size);
      assert (total - 1) * size == total * size - size;
      assert (page - 1) * size == page * size - size;
    }
    if page < total {
      MulLeq(page, total - 1, size);
      assert (total - 1) * size == total * size - size;
    }
    if page >= total {
      MulLeq(total, page, size);
    }
  }

  /** Page `page + 1` follows page `page` and holds the items right after it. */
  lemma PageStep(all: seq<Value>, size: nat, page: int)
    requires size >= 1
    requires 1 <= page < PageCount(|all|, size)
    ensures PageOf(all, size, page).nextPage == Some(page + 1)
    ensures 0 <= page * size < |all|
    ensures Min(page * size, |all|) <= Min((page + 1) * size, |all|)
    ensures PageOf(all, size, page + 1).items == all[Min(page * size, |all|) .. Min((page + 1) * size, |all|)]
  {
    PageBounds(|all|, size, page);
    PageBounds(|all|, size, page + 1);
    assert (page + 1 - 1) * size == page * size;
    assert (page + 1) * size == page * size + size;
  }

  /** Following a listing from page `page` yields every item after it. */
  lemma {:induction false} FollowListing(all: seq<Value>, size: nat, page: int, fuel: nat)
    requires size >= 1
    requires 1 <= page <= PageCount(|all|, size)
    requires fuel >= PageCount(|all|, size) - page
    ensures Follow(n => PageOf(all, size, n), PageOf(all, size, page), fuel)
         == Some(all[Min(page * size, |all|)..])
    decreases PageCount(|all|, size) - page
  {
    var fetch := n => PageOf(all, size, n);
    if page < PageCount(|all|, size) {
      PageStep(all, size, page);
      var lo := Min(page * size, |all|);
      var hi := Min((page + 1) * size, |all|);
      var next := PageOf(all, size, page + 1);
      assert fetch(page + 1) == next;
      FollowListing(all, size, page + 1, fuel - 1);
      FollowThen(fetch, PageOf(all, size, page), fuel, all[lo..hi], all[hi..]);
      SliceSplit(all, lo, hi);
    } else {
      PageEnd(all, size, page);
    }
  }

  /** One step of the walk: the next batch's items, then the rest. */
  lemma FollowThen(fetch: int -> Batch, b: Batch, fuel: nat, here: seq<Value>, rest: seq<Value>)
    requires b.nextPage.Some? && fuel > 0
    requires fetch(b.nextPage.value).items == here
    requires Follow(fetch, fetch(b.nextPage.value), fuel - 1) == Some(rest)
    ensures Follow(fetch, b, fuel) == Some(here + rest)
  {
  }

  lemma SliceSplit(s: seq<Value>, lo: int, hi: int)
    requires 0 <= lo <= hi <= |s|
    ensures s[lo..] == s[lo..hi] + s[hi..]
  {
  }

  /** The last page has no successor and nothing comes after its items. */
  lemma PageEnd(all: seq<Value>, size: nat, page: int)
    requires size >= 1
    requires 1 <= page == PageCount(|all|, size)
    ensures PageOf(all, size, page).nextPage.None?
    ensures all[Min(page * size, |all|)..] == []
  {
    PageBounds(|all|, size, page);
  }

  /** Following a listing from page `page` asks for every later page once, in order. */
  lemma {:induction false} FollowedListing(all: seq<Value>, size: nat, page: int, fuel: nat)
    requires size >= 1
    requires 1 <= page <= PageCount(|all|, size)
    requires fuel >= PageCount(|all|, size) - page
    ensures Followed(n => PageOf(all, size, n), PageOf(all, size, page), fuel)
         == Pages(page + 1, PageCount(|all|, size))
    decreases PageCount(|all|, size) - page
  {
    var fetch := n => PageOf(all, size, n);
    var total := PageCount(|all|, size);
    if page < total {
      PageStep(all, size, page);
      FollowedListing(all, size, page + 1, fuel - 1);
      assert fetch(page + 1) == PageOf(all, size, page + 1);
      assert Followed(fetch, PageOf(all, size, page), fuel)
          == [page + 1] + Followed(fetch, PageOf(all, size, page + 1), fuel - 1);
      assert Pages(page + 1, total) == [page + 1] + Pages(page + 2, total);
    } else {
      PageEnd(all, size, page);
    }
  }

  /**
   * getAll on a listing returns every item, in order, when the fuel covers
   * the pages, and after its first request it asks for pages 2 to the last,
   * each once (none for a listing of at most one page).
   */
  lemma GatherListing(all: seq<Value>, size: nat, fuel: nat)
    requires size >= 1
    requires fuel >= PageCount(|all|, size)
    ensures Gather(n => PageOf(all, size, n), PageOf(all, size, 1), fuel) == Some(all)
    ensures Fetched(n => PageOf(all, size, n), PageOf(all, size, 1), fuel) == Pages(2, PageCount(|all|, size))
  {
    var total := PageCount(|all|, size);
    PageBounds(|all|, size, 1);
    if total > 1 {
      FollowListing(all, size, 1, fuel);
      FollowedListing(all, size, 1, fuel);
      assert all == all[..Min(size, |all|)] + all[Min(size, |all|)..];
    } else if total == 1 {
      assert all[0..Min(size, |all|)] == all;
    }
  }

  /**
   * getLastPage: probe page 1 with one item per page to learn
   * `total_pages`, then fetch that page when there is more than one.
   * `fetch(page, perPage)` is the batch `getPage(page, perPage)` yields.
   */
  function LastPage(fetch: (int, int) -> Batch): Batch {
    var probe := fetch(1, 1);
    if probe.totalPages > 1 then fetch(probe.totalPages, 1) else probe
  }

  /**
   * On a listing, the last page at one item per page holds exactly the
   * last item, so getLastPage yields a page holding it alone (an empty
   * page on an empty listing). `fetch` is any way of asking for page `p`
   * that yields that page when asked for one item per page.
   */
  lemma LastPageListing(all: seq<Value>, fetch: (int, int) -> Batch)
    requires forall p :: p >= 1 ==> fetch(p, 1) == PageOf(all, 1, p)
    ensures LastPage(fetch).items == if |all| == 0 then [] else [all[|all| - 1]]
  {
    var n := |all|;
    assert PageCount(n, 1) == n;
    assert fetch(1, 1) == PageOf(all, 1, 1);
    if n > 1 {
      assert fetch(n, 1) == PageOf(all, 1, n);
      assert (n - 1) * 1 == n - 1 && n * 1 == n;
      assert PageOf(all, 1, n).items == all[n - 1 .. n];
    } else if n == 1 {
      assert PageOf(all, 1, 1).items == all[0..1];
    }
  }

  // ---- Reading page requests -------------------------------------------

  /** The page a request asks for: its `page` entry, 1 when absent or not a positive integer. */
  function RequestedPage(c: Call): int {
    if c.body.Some? && "page" in c.body.value && c.body.value["page"].Int? && c.body.value["page"].i >= 1
    then c.body.value["page"].i else 1
  }

  /** The page size a request asks for: its `per_page` entry, `default` when absent or not a positive integer. */
  function RequestedSize(c: Call, default: nat): nat {
    if c.body.Some? && "per_page" in c.body.value && c.body.value["per_page"].Int? && c.body.value["per_page"].i >= 1
    then c.body.value["per_page"].i else default
  }

  /** The listing endpoint answering a request for `all`, `default` items per page unless it asks otherwise. */
  function Serve(all: seq<Value>, default: nat, c: Call): Batch
    requires default >= 1
  {
    PageOf(all, RequestedSize(c, default), RequestedPage(c))
  }

  /** The page a call built from `fields` asks for, read off the step that writes `page`. */
  lemma PageRequested(c: Call, fields: seq<Field>, i: nat)
    requires c.body == Some(Fill(fields)) && DistinctKeys(fields)
    requires i < |fields| && fields[i].key == "page"
    ensures RequestedPage(c) ==
      if Sent(fields[i]) && fields[i].arg.Int? && fields[i].arg.i >= 1 then fields[i].arg.i else 1
  {
    FillDistinct(fields, i);
  }

  /** The page size a call built from `fields` asks for, read off the step that writes `per_page`. */
  lemma SizeRequested(c: Call, fields: seq<Field>, j: nat, default: nat)
    requires c.body == Some(Fill(fields)) && DistinctKeys(fields)
    requires j < |fields| && fields[j].key == "per_page"
    ensures RequestedSize(c, default) ==
      if Sent(fields[j]) && fields[j].arg.Int? && fields[j].arg.i >= 1 then fields[j].arg.i else default
  {
    FillDistinct(fields, j);
  }
}
