/** `useInfiniteScroll` of src/hooks/useInfiniteScroll.ts: client-side pagination over a
    list already in memory, showing a growing prefix of it, `itemsPerPage` more at a time. */
module InfiniteScroll {

  const DEFAULT_ITEMS_PER_PAGE: nat := 6

  /** `data.slice(0, n)` for a non-negative end: the first `n` items, or all of them. */
  function Take<T>(data: seq<T>, n: nat): (r: seq<T>)
    ensures |r| == (if n < |data| then n else |data|)
    ensures r == data[..|r|]
  {
    if n < |data| then data[..n] else data
  }

  /** A longer slice extends a shorter one. */
  lemma TakeGrows<T>(data: seq<T>, m: nat, n: nat)
    requires m <= n
    ensures Take(data, m) <= Take(data, n)
  {
  }

  /** The scroll handler's gate: it returns early unless the page is scrolled to the
      bottom and there is more to show. */
  predicate ShouldLoadMore(atBottom: bool, hasMore: bool) {
    atBottom && hasMore
  }

  class InfiniteScroll<T> {
    const data: seq<T>
    const itemsPerPage: nat
    var displayedItems: seq<T>
    var hasMore: bool
    var page: nat

    /** The shown items are the first `page * itemsPerPage` items; `hasMore` holds before
        the first `loadMore` and afterwards exactly while part of `data` is not shown. */
    ghost predicate Valid()
      reads this
    {
      page >= 1
      && displayedItems == Take(data, page * itemsPerPage)
      && hasMore == (page == 1 || |displayedItems| < |data|)
    }

    /** The first render: the first `itemsPerPage` items, page 1, more to come (even when
        `data` is already all shown). */
    constructor (data: seq<T>, itemsPerPage: nat := DEFAULT_ITEMS_PER_PAGE)
      ensures Valid() && this.data == data && this.itemsPerPage == itemsPerPage
      ensures displayedItems == Take(data, itemsPerPage) && page == 1 && hasMore
    {
      this.data := data;
      this.itemsPerPage := itemsPerPage;
      displayedItems := Take(data, itemsPerPage);
      hasMore := true;
      page := 1;
    }

    /** `loadMore`: one page more is shown, extending what was shown; `hasMore` drops when
        everything is shown and never comes back. */
    method LoadMore()
      requires Valid()
      modifies this
      ensures Valid()
      ensures page == old(page) + 1
      ensures displayedItems == Take(data, page * itemsPerPage)
      ensures |displayedItems| == (if page * itemsPerPage < |data| then page * itemsPerPage else |data|)
      ensures old(displayedItems) <= displayedItems
      ensures hasMore == (old(hasMore) && |displayedItems| < |data|)
      ensures !old(hasMore) ==> displayedItems == old(displayedItems) == data
    {
      var nextItems := Take(data, (page + 1) * itemsPerPage);
      assert (page + 1) * itemsPerPage == page * itemsPerPage + itemsPerPage;
      TakeGrows(data, page * itemsPerPage, (page + 1) * itemsPerPage);
      displayedItems := nextItems;
      page := page + 1;
      if |nextItems| >= |data| {
        hasMore := false;
      }
    }

    /** The scroll handler: `loadMore` runs only through this gate, which is what stops the
        page cursor once everything is shown. At the bottom with more to show, one page
        more is shown; otherwise nothing changes. */
    method OnScroll(atBottom: bool)
      requires Valid()
      modifies this
      ensures Valid()
      ensures atBottom && old(hasMore) ==>
        page == old(page) + 1 && displayedItems == Take(data, page * itemsPerPage)
        && old(displayedItems) <= displayedItems
      ensures !atBottom || !old(hasMore) ==>
        page == old(page) && displayedItems == old(displayedItems) && hasMore == old(hasMore)
      ensures !hasMore ==> displayedItems == data
    {
      if ShouldLoadMore(atBottom, hasMore) {
        LoadMore();
      }
    }
  }
}
