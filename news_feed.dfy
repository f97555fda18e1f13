/** The feed of src/components/home/NewsFeed.tsx: a pagination machine of its own, apart
    from `useArticles`. An empty page ends it, the page cursor moves only on a non-empty
    page, and with a `limit` it shows one page and stops. */
module NewsFeed {
  import opened Wrappers
  import opened Api
  import opened Seqs

  /** The size of the first page when no limit is given, and of every later page. */
  const BATCH_SIZE: int := 6

  datatype FeedProps = FeedProps(limit: Option<int>, enableInfiniteScroll: bool)

  /** `limit` is truthy: given and non-zero. */
  predicate Limited(limit: Option<int>) {
    limit.Some? && limit.value != 0
  }

  datatype FeedState = FeedState(
    articles: seq<Article>, loading: bool, isFetching: bool, page: int, hasMore: bool)

  function InitialFeedState(): (s: FeedState)
    ensures s.articles == [] && s.loading && !s.isFetching && s.page == 1 && s.hasMore
  {
    FeedState([], true, false, 1, true)
  }

  /** A request of the feed: its kind, the limit its closure saw, the page it asks for and
      the query it sends. */
  datatype FeedRequest =
    | InitialRequest(limit: Option<int>, query: Query)
    | MoreRequest(nextPage: int, query: Query)

  /** `limit || 6`. */
  function FirstPageSize(limit: Option<int>): (n: int)
    ensures Limited(limit) ==> n == limit.value
    ensures !Limited(limit) ==> n == BATCH_SIZE
  {
    if Limited(limit) then limit.value else BATCH_SIZE
  }

  /** `loadInitial` up to its `await`: loading, and page 1 asked for with the first-page
      size and no filter. */
  function BeginInitial(s: FeedState, p: FeedProps): (r: (FeedState, FeedRequest))
    ensures r.0 == s.(loading := true)
    ensures r.1 == InitialRequest(p.limit, ArticlesQuery(1, FirstPageSize(p.limit), None, None))
  {
    (s.(loading := true), InitialRequest(p.limit, ArticlesQuery(1, FirstPageSize(p.limit), None, None)))
  }

  /** The rest of `loadInitial`: the page replaces the list and loading ends; with a limit,
      a page of at least `limit` items ends the feed. Page and `hasMore` are not reset. */
  function CompleteInitialStep(s: FeedState, req: FeedRequest, data: seq<Article>): (r: FeedState)
    requires req.InitialRequest?
    ensures r.articles == data && !r.loading && r.page == s.page && r.isFetching == s.isFetching
    ensures r.hasMore == (s.hasMore && !(Limited(req.limit) && |data| >= req.limit.value))
  {
    var s1 := s.(articles := data, loading := false);
    if Limited(req.limit) && |data| >= req.limit.value then s1.(hasMore := false) else s1
  }

  /** `loadMore` up to its `await`: nothing when infinite scroll is off, while loading or
      fetching, or when a limit is set; otherwise fetching, and the next page asked for with
      the batch size. There is no `hasMore` guard here. */
  function LoadMoreStep(s: FeedState, p: FeedProps): (r: (FeedState, Option<FeedRequest>))
    ensures r.1.None? <==> !p.enableInfiniteScroll || s.loading || s.isFetching || Limited(p.limit)
    ensures r.1.None? ==> r.0 == s
    ensures r.1.Some? ==>
      r.0 == s.(isFetching := true)
      && r.1.value == MoreRequest(s.page + 1, ArticlesQuery(s.page + 1, BATCH_SIZE, None, None))
  {
    if !p.enableInfiniteScroll || s.loading || s.isFetching then (s, None)
    else if Limited(p.limit) then (s, None)
    else
      var nextPage := s.page + 1;
      (s.(isFetching := true), Some(MoreRequest(nextPage, ArticlesQuery(nextPage, BATCH_SIZE, None, None))))
  }

  /** The rest of `loadMore`: an empty page ends the feed and changes nothing else; a
      non-empty one is appended in order and the cursor moves to the page asked for.
      Fetching ends either way. */
  function CompleteMoreStep(s: FeedState, req: FeedRequest, data: seq<Article>): (r: FeedState)
    requires req.MoreRequest?
    ensures !r.isFetching && r.loading == s.loading
    ensures |data| == 0 ==> r.articles == s.articles && r.page == s.page && !r.hasMore
    ensures |data| > 0 ==> r.articles == s.articles + data && r.page == req.nextPage && r.hasMore == s.hasMore
  {
    var s1 := if |data| == 0 then s.(hasMore := false)
              else s.(articles := s.articles + data, page := req.nextPage);
    s1.(isFetching := false)
  }

  /** The scroll handler is attached only with infinite scroll on and no limit, and calls
      `loadMore` near the bottom while there is more and nothing is loading. */
  function ScrollTriggers(s: FeedState, p: FeedProps, nearBottom: bool): (b: bool)
    ensures b <==> nearBottom && s.hasMore && LoadMoreStep(s, p).1.Some?
  {
    p.enableInfiniteScroll && !Limited(p.limit) && nearBottom && s.hasMore && !s.loading && !s.isFetching
  }

  /** Idle and scrolling: a `loadMore` would start a request. */
  predicate Idle(s: FeedState, p: FeedProps) {
    p.enableInfiniteScroll && !Limited(p.limit) && !s.loading && !s.isFetching
  }

  /** How many of the pages are not empty. */
  function NonEmptyCount(pages: seq<seq<Article>>): nat {
    if pages == [] then 0 else (if pages[0] == [] then 0 else 1) + NonEmptyCount(pages[1..])
  }

  /** A run of `loadMore` calls, each followed by the completion of its request with the
      next page. */
  function FeedRun(s: FeedState, p: FeedProps, pages: seq<seq<Article>>): FeedState
    decreases |pages|
  {
    if pages == [] then s
    else
      var (s1, req) := LoadMoreStep(s, p);
      if req.None? then s else FeedRun(CompleteMoreStep(s1, req.value, pages[0]), p, pages[1..])
  }

  /** Over any run of pages: the articles are the old ones followed by all pages in order,
      the cursor has moved once per non-empty page, and `hasMore` survives only if no page
      was empty (it never comes back). */
  lemma {:induction false} FeedRunEffect(s: FeedState, p: FeedProps, pages: seq<seq<Article>>)
    requires Idle(s, p)
    ensures var t := FeedRun(s, p, pages);
      Idle(t, p) && t.articles == s.articles + Concat(pages)
      && t.page == s.page + NonEmptyCount(pages)
      && t.hasMore == (s.hasMore && forall i :: 0 <= i < |pages| ==> pages[i] != [])
    decreases |pages|
  {
    if pages != [] {
      var r := LoadMoreStep(s, p);
      var s2 := CompleteMoreStep(r.0, r.1.value, pages[0]);
      assert FeedRun(s, p, pages) == FeedRun(s2, p, pages[1..]);
      FeedRunEffect(s2, p, pages[1..]);
      ConcatCons(s.articles, pages);
      AllNonEmptyCons(pages);
    }
  }

  /** Every page of a run is non-empty exactly when its first page and every later one are. */
  lemma AllNonEmptyCons(pages: seq<seq<Article>>)
    requires pages != []
    ensures (forall i :: 0 <= i < |pages| ==> pages[i] != [])
      <==> pages[0] != [] && forall i :: 0 <= i < |pages[1..]| ==> pages[1..][i] != []
  {
    if pages[0] != [] && forall i :: 0 <= i < |pages[1..]| ==> pages[1..][i] != [] {
      forall i | 1 <= i < |pages| ensures pages[i] != [] {
        assert pages[i] == pages[1..][i - 1];
      }
    }
  }

  /** The home page's feed (`limit` 6, no infinite scroll): one page of 6 ends it, and
      `loadMore` does nothing. */
  lemma LimitedFeedStops(data: seq<Article>)
    requires |data| == 6
    ensures var p := FeedProps(Some(6), false);
      var first := BeginInitial(InitialFeedState(), p);
      var t := CompleteInitialStep(first.0, first.1, data);
      t.articles == data && !t.hasMore && !t.loading && LoadMoreStep(t, p) == (t, None)
  {
  }

  /** `NewsFeed` as a component instance. */
  class Feed {
    var props: FeedProps
    var articles: seq<Article>
    var loading: bool
    var isFetching: bool
    var page: int
    var hasMore: bool

    function State(): FeedState
      reads this
    {
      FeedState(articles, loading, isFetching, page, hasMore)
    }

    constructor (p: FeedProps)
      ensures props == p && State() == InitialFeedState()
    {
      props := p;
      articles := [];
      loading := true;
      isFetching := false;
      page := 1;
      hasMore := true;
    }

    /** The initial-fetch effect, run on mount and when `limit` changes. */
    method LoadInitial() returns (req: FeedRequest)
      modifies this
      ensures props == old(props)
      ensures (State(), req) == BeginInitial(old(State()), props)
    {
      loading := true;
      req := InitialRequest(props.limit, ArticlesQuery(1, FirstPageSize(props.limit), None, None));
    }

    method CompleteInitial(req: FeedRequest, data: seq<Article>)
      requires req.InitialRequest?
      modifies this
      ensures props == old(props)
      ensures State() == CompleteInitialStep(old(State()), req, data)
    {
      articles := data;
      loading := false;
      if Limited(req.limit) && |data| >= req.limit.value {
        hasMore := false;
      }
    }

    /** A re-render with new props: the initial fetch runs again only when `limit` changed. */
    method SetProps(p: FeedProps) returns (req: Option<FeedRequest>)
      modifies this
      ensures props == p
      ensures p.limit == old(props.limit) ==> State() == old(State()) && req.None?
      ensures p.limit != old(props.limit) ==> req.Some? && (State(), req.value) == BeginInitial(old(State()), p)
    {
      var limitChanged := p.limit != props.limit;
      props := p;
      if limitChanged {
        var r := LoadInitial();
        req := Some(r);
      } else {
        req := None;
      }
    }

    method LoadMore() returns (req: Option<FeedRequest>)
      modifies this
      ensures props == old(props)
      ensures (State(), req) == LoadMoreStep(old(State()), props)
    {
      if !props.enableInfiniteScroll || loading || isFetching {
        return None;
      }
      if Limited(props.limit) {
        return None;
      }
      isFetching := true;
      var nextPage := page + 1;
      req := Some(MoreRequest(nextPage, ArticlesQuery(nextPage, BATCH_SIZE, None, None)));
    }

    method CompleteMore(req: FeedRequest, data: seq<Article>)
      requires req.MoreRequest?
      modifies this
      ensures props == old(props)
      ensures State() == CompleteMoreStep(old(State()), req, data)
    {
      if |data| == 0 {
        hasMore := false;
      } else {
        articles := articles + data;
        page := req.nextPage;
      }
      isFetching := false;
    }
  }
}
