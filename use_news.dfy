/** The two data hooks of src/hooks/useNews.ts. `useArticles` is a paginated list
    controller and `useArticle` a single-article controller. Each asynchronous fetch is
    split into the step that issues it (`Begin...`) and the step that applies its
    resolution (`Complete...`); the resolved value is an input, since the HTTP exchange is
    outside the model. Each controller is given first as a state value with transition
    functions, then as a class whose fields are the hook's state cells and refs. */
module UseNews {
  import opened Wrappers
  import opened Strings
  import opened Api
  import opened Seqs

  const DEFAULT_LIMIT: int := 10
  const DEFAULT_INITIAL_PAGE: int := 1
  const NOT_FOUND: string := "Article not found"

  // ================================================================ useArticles

  /** The options of `useArticles` after its defaults are applied. */
  datatype ListOptions = ListOptions(
    limit: int, tag: Option<string>, category: Option<string>, top: Option<int>, initialPage: int)

  /** Destructuring with defaults: an absent limit is 10 and an absent first page is 1. */
  function WithDefaults(limit: Option<int>, tag: Option<string>, category: Option<string>,
                        top: Option<int>, initialPage: Option<int>): (o: ListOptions)
    ensures o.limit == (if limit.Some? then limit.value else DEFAULT_LIMIT)
    ensures o.initialPage == (if initialPage.Some? then initialPage.value else DEFAULT_INITIAL_PAGE)
    ensures o.tag == tag && o.category == category && o.top == top
  {
    ListOptions(if limit.Some? then limit.value else DEFAULT_LIMIT, tag, category, top,
                if initialPage.Some? then initialPage.value else DEFAULT_INITIAL_PAGE)
  }

  /** `tag || category?.toLowerCase()`: the filter handed to `fetchArticles`. */
  function QueryTag(o: ListOptions): (t: Option<string>)
    ensures Truthy(o.tag) ==> t == o.tag
    ensures !Truthy(o.tag) && o.category.None? ==> t == None
    ensures !Truthy(o.tag) && o.category.Some? ==>
      t == Some(ToLower(o.category.value)) && IsLowerCase(t.value)
  {
    if Truthy(o.tag) then o.tag
    else if o.category.Some? then Some(ToLower(o.category.value))
    else None
  }

  /** One list request in flight. The closure of `fetchData` fixes the page asked for,
      whether it is a load-more, the page size and the query; `controller` names the
      AbortController created for it. */
  datatype ListRequest = ListRequest(
    controller: nat, pageNum: int, isLoadMore: bool, limit: int, query: Query)

  /** The state cells and refs of `useArticles`. `controller` names the AbortController
      held in `abortControllerRef` (0 before the first request). */
  datatype ListState = ListState(
    articles: seq<Article>,
    loading: bool,
    isFetchingMore: bool,
    error: Option<string>,
    page: int,
    hasMore: bool,
    mounted: bool,
    controller: nat)

  /** The initial values of the state cells, before any effect has run. */
  function InitialListState(o: ListOptions): (s: ListState)
    ensures s.articles == [] && s.loading && !s.isFetchingMore && s.error == None
    ensures s.page == o.initialPage && s.hasMore && !s.mounted
  {
    ListState([], true, false, None, o.initialPage, true, false, 0)
  }

  /** `loadMore` returns at once in these states. */
  predicate Busy(s: ListState) {
    s.loading || s.isFetchingMore || !s.hasMore
  }

  /** Settled after a completion with more to come: a `loadMore` would start a request. */
  predicate Ready(s: ListState) {
    s.mounted && !s.loading && !s.isFetchingMore && s.hasMore
  }

  /** The synchronous part of `fetchData(pageNum, isLoadMore)`: the previous controller is
      aborted and replaced by a fresh one, the flag of the request's kind is raised, the
      error is cleared, and the request for `pageNum` goes out with the options' filter. */
  function BeginFetch(s: ListState, o: ListOptions, pageNum: int, isLoadMore: bool): (r: (ListState, ListRequest))
    ensures r.0.error == None
    ensures !isLoadMore ==> r.0.loading && r.0.isFetchingMore == s.isFetchingMore
    ensures isLoadMore ==> r.0.isFetchingMore && r.0.loading == s.loading
    ensures r.0.articles == s.articles && r.0.page == s.page && r.0.hasMore == s.hasMore
    ensures r.0.mounted == s.mounted
    ensures r.0.controller > s.controller && r.1.controller == r.0.controller
    ensures r.1.pageNum == pageNum && r.1.isLoadMore == isLoadMore && r.1.limit == o.limit
    ensures r.1.query == ArticlesQuery(pageNum, o.limit, QueryTag(o), o.top)
  {
    var controller := s.controller + 1;
    var s1 := if !isLoadMore then s.(loading := true) else s.(isFetchingMore := true);
    (s1.(error := None, controller := controller),
     ListRequest(controller, pageNum, isLoadMore, o.limit, ArticlesQuery(pageNum, o.limit, QueryTag(o), o.top)))
  }

  /** The continuation of `fetchData` once `fetchArticles` has resolved to `data` (it never
      rejects). Unmounted: nothing changes. Mounted: a load-more appends the page, any
      other request replaces the list; `hasMore` is whether the page was full; the flag of
      the request's kind is lowered. A superseded request is not told apart. */
  function CompleteFetch(s: ListState, req: ListRequest, data: seq<Article>): (r: ListState)
    ensures !s.mounted ==> r == s
    ensures s.mounted ==> r.articles == (if req.isLoadMore then s.articles + data else data)
    ensures s.mounted ==> r.hasMore == (|data| >= req.limit)
    ensures s.mounted && req.isLoadMore ==> !r.isFetchingMore && r.loading == s.loading
    ensures s.mounted && !req.isLoadMore ==> !r.loading && r.isFetchingMore == s.isFetchingMore
    ensures r.error == s.error && r.page == s.page && r.mounted == s.mounted
    ensures r.controller == s.controller
  {
    if !s.mounted then s
    else
      var s1 := s.(articles := if req.isLoadMore then s.articles + data else data,
                   hasMore := !(|data| < req.limit));
      if !req.isLoadMore then s1.(loading := false) else s1.(isFetchingMore := false)
  }

  /** The initial-fetch effect, run on mount and whenever the options change: back to the
      first page with an empty list and more to come, then an initial fetch of that page. */
  function ResetAndFetch(s: ListState, o: ListOptions): (r: (ListState, ListRequest))
    ensures r.0.page == o.initialPage && r.0.hasMore && r.0.articles == []
    ensures r.0.loading && r.0.error == None && r.0.isFetchingMore == s.isFetchingMore
    ensures r.1.pageNum == o.initialPage && !r.1.isLoadMore && r.1.limit == o.limit
    ensures r.1.query == ArticlesQuery(o.initialPage, o.limit, QueryTag(o), o.top)
    ensures r.0.mounted == s.mounted && r.0.controller > s.controller && r.1.controller == r.0.controller
  {
    BeginFetch(s.(page := o.initialPage, hasMore := true, articles := []), o, o.initialPage, false)
  }

  /** Options changed between renders: the effect runs again; same options: nothing. */
  function ChangeOptions(s: ListState, before: ListOptions, after: ListOptions): (r: (ListState, Option<ListRequest>))
    ensures after == before ==> r == (s, None)
    ensures after != before ==>
      r.1.Some? && r.1.value.pageNum == after.initialPage && !r.1.value.isLoadMore
      && r.1.value.limit == after.limit
      && r.1.value.query == ArticlesQuery(after.initialPage, after.limit, QueryTag(after), after.top)
      && r.0.page == after.initialPage && r.0.hasMore && r.0.articles == [] && r.0.loading
    ensures after != before ==> r == (ResetAndFetch(s, after).0, Some(ResetAndFetch(s, after).1))
  {
    if after == before then (s, None)
    else
      var (s1, req) := ResetAndFetch(s, after);
      (s1, Some(req))
  }

  /** `loadMore`: no state change and no request while loading, fetching more or
      exhausted; otherwise the page cursor moves on by one and a load-more request for
      that page goes out. */
  function LoadMoreStep(s: ListState, o: ListOptions): (r: (ListState, Option<ListRequest>))
    ensures Busy(s) <==> r.1.None?
    ensures Busy(s) ==> r.0 == s
    ensures !Busy(s) ==>
      r.0.page == s.page + 1 && r.0.isFetchingMore && r.0.loading == s.loading
      && r.0.articles == s.articles && r.0.hasMore && r.0.error == None
      && r.1.value.pageNum == s.page + 1 && r.1.value.isLoadMore && r.1.value.limit == o.limit
    ensures !Busy(s) ==>
      r.1.value.query == ArticlesQuery(s.page + 1, o.limit, QueryTag(o), o.top)
      && r.0.mounted == s.mounted && r.0.controller > s.controller
      && r.1.value.controller == r.0.controller
  {
    if s.loading || s.isFetchingMore || !s.hasMore then (s, None)
    else
      var nextPage := s.page + 1;
      var (s1, req) := BeginFetch(s.(page := nextPage), o, nextPage, true);
      (s1, Some(req))
  }

  /** `refetch`: page 1 (not the configured first page) and more to come, the articles
      kept until the answer arrives, then an initial fetch of page 1. */
  function RefetchStep(s: ListState, o: ListOptions): (r: (ListState, ListRequest))
    ensures r.0.page == 1 && r.0.hasMore && r.0.loading && r.0.error == None
    ensures r.0.articles == s.articles
    ensures r.1.pageNum == 1 && !r.1.isLoadMore
    ensures r.1.limit == o.limit && r.1.query == ArticlesQuery(1, o.limit, QueryTag(o), o.top)
    ensures r.0.isFetchingMore == s.isFetchingMore && r.0.mounted == s.mounted
    ensures r.0.controller > s.controller && r.1.controller == r.0.controller
  {
    BeginFetch(s.(page := 1, hasMore := true), o, 1, false)
  }

  /** The mount effect's cleanup. */
  function UnmountStep(s: ListState): (r: ListState)
    ensures !r.mounted && r == s.(mounted := false)
  {
    s.(mounted := false)
  }

  /** After unmount a completion changes nothing: the mounted guard discards its result. */
  lemma UnmountSilencesCompletion(s: ListState, req: ListRequest, data: seq<Article>)
    ensures CompleteFetch(UnmountStep(s), req, data) == UnmountStep(s)
  {
  }

  /** Every step keeps the list's error empty: only `BeginFetch` writes it (to `None`),
      since the branch that would set it needs a rejection `fetchArticles` never produces. */
  lemma ErrorStaysEmpty(s: ListState, o: ListOptions, o2: ListOptions, req: ListRequest, data: seq<Article>)
    requires s.error == None
    ensures CompleteFetch(s, req, data).error == None
    ensures LoadMoreStep(s, o).0.error == None && RefetchStep(s, o).0.error == None
    ensures ResetAndFetch(s, o).0.error == None && ChangeOptions(s, o, o2).0.error == None
    ensures UnmountStep(s).error == None
  {
  }

  /** A run of `loadMore` calls, each followed by the completion of the request it started
      with the next page; a `loadMore` that starts nothing ends the run. */
  function LoadPages(s: ListState, o: ListOptions, pages: seq<seq<Article>>): ListState
    decreases |pages|
  {
    if pages == [] then s
    else
      var (s1, req) := LoadMoreStep(s, o);
      if req.None? then s else LoadPages(CompleteFetch(s1, req.value, pages[0]), o, pages[1..])
  }

  /** Full pages keep coming: each is appended in order, without dedup, the cursor moves on
      by one per page, and the controller is ready for the next one. */
  lemma {:induction false} FullPagesAppend(s: ListState, o: ListOptions, pages: seq<seq<Article>>)
    requires Ready(s)
    requires forall i :: 0 <= i < |pages| ==> |pages[i]| >= o.limit
    ensures var t := LoadPages(s, o, pages);
      t.articles == s.articles + Concat(pages) && t.page == s.page + |pages| && Ready(t)
    decreases |pages|
  {
    if pages != [] {
      var s2 := FullPageStep(s, o, pages[0]);
      assert LoadPages(s, o, pages) == LoadPages(s2, o, pages[1..]);
      assert forall i :: 0 <= i < |pages[1..]| ==> |pages[1..][i]| >= o.limit by {
        forall i | 0 <= i < |pages[1..]| ensures |pages[1..][i]| >= o.limit {
          assert pages[1..][i] == pages[i + 1];
        }
      }
      FullPagesAppend(s2, o, pages[1..]);
      ConcatCons(s.articles, pages);
    }
  }

  /** One `loadMore` answered by a full page, as the state after its completion. */
  function FullPageStep(s: ListState, o: ListOptions, page: seq<Article>): (s2: ListState)
    requires Ready(s) && |page| >= o.limit
    ensures LoadMoreStep(s, o).1.Some?
    ensures s2 == CompleteFetch(LoadMoreStep(s, o).0, LoadMoreStep(s, o).1.value, page)
    ensures Ready(s2) && s2.articles == s.articles + page && s2.page == s.page + 1
  {
    var r := LoadMoreStep(s, o);
    CompleteFetch(r.0, r.1.value, page)
  }

  /** A short page is the end: the controller is exhausted, and the pages after it are
      never asked for. */
  lemma {:induction false} ShortPageEndsRun(s: ListState, o: ListOptions, pages: seq<seq<Article>>, k: nat)
    requires Ready(s)
    requires k < |pages| && |pages[k]| < o.limit
    requires forall i :: 0 <= i < k ==> |pages[i]| >= o.limit
    ensures var t := LoadPages(s, o, pages);
      t == LoadPages(s, o, pages[..k + 1]) && !t.hasMore && t.page == s.page + k + 1
      && LoadMoreStep(t, o) == (t, None)
    decreases k
  {
    var (s1, req) := LoadMoreStep(s, o);
    var s2 := CompleteFetch(s1, req.value, pages[0]);
    assert pages[..k + 1][0] == pages[0];
    if k == 0 {
      assert LoadPages(s2, o, pages[1..]) == s2 by {
        assert LoadMoreStep(s2, o).1.None?;
      }
      assert LoadPages(s2, o, pages[..1][1..]) == s2;
    } else {
      ShortPageEndsRun(s2, o, pages[1..], k - 1);
      assert pages[1..][..k] == pages[..k + 1][1..];
    }
  }

  /** A request superseded by an options change still lands: its controller was aborted,
      `fetchArticles` turned the abort into `[]`, and the completion empties the list,
      clears `loading` and ends `hasMore` while the current request is still out. */
  lemma SupersededCompletionApplies(s: ListState, o: ListOptions, o2: ListOptions)
    requires s.mounted && o2 != o && o.limit > 0
    ensures var first := ResetAndFetch(s, o);
      var second := ChangeOptions(first.0, o, o2);
      var s3 := CompleteFetch(second.0, first.1, []);
      first.1.controller < second.0.controller
      && second.1.Some? && second.1.value.controller == second.0.controller
      && s3.articles == [] && !s3.loading && !s3.hasMore
  {
  }

  /** The end-to-end run from mount: with a page size of 6, a full first page of 6 and a second page
      of 4 leave 10 articles and no more to come, and a further `loadMore` changes nothing. */
  lemma SixThenFour(o: ListOptions, p1: seq<Article>, p2: seq<Article>)
    requires o.limit == 6 && |p1| == 6 && |p2| == 4
    ensures var first := ResetAndFetch(InitialListState(o).(mounted := true), o);
      var t1 := CompleteFetch(first.0, first.1, p1);
      var second := LoadMoreStep(t1, o);
      |t1.articles| == 6 && t1.hasMore && !t1.loading
      && second.1.Some? && second.1.value.pageNum == o.initialPage + 1
      && var t2 := CompleteFetch(second.0, second.1.value, p2);
      t2.articles == p1 + p2 && |t2.articles| == 10 && !t2.hasMore
      && LoadMoreStep(t2, o) == (t2, None)
  {
  }

  /** `useArticles` as a component instance: one field per state cell and ref. */
  class ArticlesHook {
    var options: ListOptions
    var articles: seq<Article>
    var loading: bool
    var isFetchingMore: bool
    var error: Option<string>
    var page: int
    var hasMore: bool
    var isMounted: bool
    var abortController: nat

    function State(): ListState
      reads this
    {
      ListState(articles, loading, isFetchingMore, error, page, hasMore, isMounted, abortController)
    }

    /** The list's error is never set: `fetchArticles` never rejects. */
    ghost predicate Valid()
      reads this
    {
      error == None
    }

    /** First render: the state cells at their initial values. */
    constructor (o: ListOptions)
      ensures Valid() && options == o && State() == InitialListState(o)
    {
      options := o;
      articles := [];
      loading := true;
      isFetchingMore := false;
      error := None;
      page := o.initialPage;
      hasMore := true;
      isMounted := false;
      abortController := 0;
    }

    /** The synchronous part of `fetchData`. */
    method FetchData(pageNum: int, isLoadMore: bool) returns (req: ListRequest)
      requires Valid()
      modifies this
      ensures Valid() && options == old(options)
      ensures (State(), req) == BeginFetch(old(State()), options, pageNum, isLoadMore)
    {
      abortController := abortController + 1;
      if !isLoadMore {
        loading := true;
      } else {
        isFetchingMore := true;
      }
      error := None;
      req := ListRequest(abortController, pageNum, isLoadMore, options.limit,
                         ArticlesQuery(pageNum, options.limit, QueryTag(options), options.top));
    }

    /** The filter-change effect body. */
    method ResetEffect() returns (req: ListRequest)
      requires Valid()
      modifies this
      ensures Valid() && options == old(options)
      ensures (State(), req) == ResetAndFetch(old(State()), options)
    {
      page := options.initialPage;
      hasMore := true;
      articles := [];
      req := FetchData(options.initialPage, false);
    }

    /** Commit of the first render: the mount effect, then the initial-fetch effect. */
    method Mount() returns (req: ListRequest)
      requires Valid()
      modifies this
      ensures Valid() && options == old(options)
      ensures (State(), req) == ResetAndFetch(old(State()).(mounted := true), options)
    {
      isMounted := true;
      req := ResetEffect();
    }

    /** A re-render with (possibly) new options. */
    method SetOptions(o: ListOptions) returns (req: Option<ListRequest>)
      requires Valid()
      modifies this
      ensures Valid() && options == o
      ensures (State(), req) == ChangeOptions(old(State()), old(options), o)
    {
      if o != options {
        options := o;
        var r := ResetEffect();
        req := Some(r);
      } else {
        req := None;
      }
    }

    method LoadMore() returns (req: Option<ListRequest>)
      requires Valid()
      modifies this
      ensures Valid() && options == old(options)
      ensures (State(), req) == LoadMoreStep(old(State()), options)
    {
      if loading || isFetchingMore || !hasMore {
        return None;
      }
      var nextPage := page + 1;
      page := nextPage;
      var r := FetchData(nextPage, true);
      req := Some(r);
    }

    method Refetch() returns (req: ListRequest)
      requires Valid()
      modifies this
      ensures Valid() && options == old(options)
      ensures (State(), req) == RefetchStep(old(State()), options)
    {
      page := 1;
      hasMore := true;
      req := FetchData(1, false);
    }

    /** `fetchData` resumes after `fetchArticles` resolved to `data`. */
    method Complete(req: ListRequest, data: seq<Article>)
      requires Valid()
      modifies this
      ensures Valid() && options == old(options)
      ensures State() == CompleteFetch(old(State()), req, data)
    {
      if !isMounted {
        return;
      }
      if req.isLoadMore {
        articles := articles + data;
      } else {
        articles := data;
      }
      if |data| < req.limit {
        hasMore := false;
      } else {
        hasMore := true;
      }
      if !req.isLoadMore {
        loading := false;
      } else {
        isFetchingMore := false;
      }
    }

    method Unmount()
      requires Valid()
      modifies this
      ensures Valid() && options == old(options)
      ensures State() == UnmountStep(old(State()))
    {
      isMounted := false;
    }
  }

  // ================================================================ useArticle

  /** The single-article request in flight, with its AbortController. */
  datatype ArticleRequest = ArticleRequest(controller: nat, id: string)

  /** The state cells and the controller ref of `useArticle`. */
  datatype ArticleState = ArticleState(
    article: Option<Article>, loading: bool, error: Option<string>, controller: nat)

  function InitialArticleState(): (s: ArticleState)
    ensures s.article == None && s.loading && s.error == None
  {
    ArticleState(None, true, None, 0)
  }

  /** `fetchDetail`: with no id (absent or empty) nothing happens; otherwise the previous
      controller is aborted, loading is raised, the error cleared, and the lookup goes out. */
  function FetchDetailStep(s: ArticleState, id: Option<string>): (r: (ArticleState, Option<ArticleRequest>))
    ensures !Truthy(id) ==> r == (s, None)
    ensures Truthy(id) ==>
      r.1 == Some(ArticleRequest(r.0.controller, id.value))
      && r.0.loading && r.0.error == None && r.0.article == s.article && r.0.controller > s.controller
  {
    if !Truthy(id) then (s, None)
    else
      var controller := s.controller + 1;
      (s.(loading := true, error := None, controller := controller), Some(ArticleRequest(controller, id.value)))
  }

  /** The effect run on mount and on every change of id: fetch when there is an id, else
      just stop loading. */
  function ArticleEffect(s: ArticleState, id: Option<string>): (r: (ArticleState, Option<ArticleRequest>))
    ensures !Truthy(id) ==> r.1.None? && !r.0.loading && r.0.article == s.article && r.0.error == s.error
    ensures Truthy(id) ==> r == FetchDetailStep(s, id)
  {
    if Truthy(id) then FetchDetailStep(s, id) else (s.(loading := false), None)
  }

  /** The id changed between renders: the effect runs again; same id: nothing. */
  function ChangeId(s: ArticleState, before: Option<string>, after: Option<string>): (r: (ArticleState, Option<ArticleRequest>))
    ensures after == before ==> r == (s, None)
    ensures after != before ==> r == ArticleEffect(s, after)
  {
    if after == before then (s, None) else ArticleEffect(s, after)
  }

  /** `fetchDetail` resumes after `fetchArticleById` resolved (it never rejects). An
      article replaces the shown one; `null` becomes the error "Article not found" and
      keeps the article shown before. Loading ends either way. */
  function CompleteDetail(s: ArticleState, data: Option<Article>): (r: ArticleState)
    ensures !r.loading && r.controller == s.controller
    ensures data.Some? ==> r.article == data && r.error == s.error
    ensures data.None? ==> r.article == s.article && r.error == Some(NOT_FOUND)
  {
    if data.None? then s.(error := Some(NOT_FOUND), loading := false)
    else s.(article := data, loading := false)
  }

  /** Switching from one id to another while the first lookup is out: the aborted lookup
      resolves to `null`, so "Article not found" is set, and the second lookup's article
      arrives without clearing it. */
  lemma SupersededLookupLeavesError(a: string, b: string, x: Article)
    requires a != "" && b != "" && a != b
    ensures var first := ArticleEffect(InitialArticleState(), Some(a));
      var second := ChangeId(first.0, Some(a), Some(b));
      var s3 := CompleteDetail(CompleteDetail(second.0, None), Some(x));
      first.1.Some? && second.1.Some?
      && first.1.value.controller < second.0.controller && second.1.value.controller == second.0.controller
      && s3.article == Some(x) && s3.error == Some(NOT_FOUND) && !s3.loading
  {
  }

  /** `useArticle` as a component instance. */
  class ArticleHook {
    var id: Option<string>
    var article: Option<Article>
    var loading: bool
    var error: Option<string>
    var abortController: nat

    function State(): ArticleState
      reads this
    {
      ArticleState(article, loading, error, abortController)
    }

    constructor (id: Option<string>)
      ensures this.id == id && State() == InitialArticleState()
    {
      this.id := id;
      article := None;
      loading := true;
      error := None;
      abortController := 0;
    }

    /** `fetchDetail`, also returned to the view as `refetch`. */
    method FetchDetail() returns (req: Option<ArticleRequest>)
      modifies this
      ensures id == old(id)
      ensures (State(), req) == FetchDetailStep(old(State()), id)
    {
      if !Truthy(id) {
        return None;
      }
      abortController := abortController + 1;
      loading := true;
      error := None;
      req := Some(ArticleRequest(abortController, id.value));
    }

    /** The effect body, run on mount and when the id changes. */
    method Effect() returns (req: Option<ArticleRequest>)
      modifies this
      ensures id == old(id)
      ensures (State(), req) == ArticleEffect(old(State()), id)
    {
      if Truthy(id) {
        req := FetchDetail();
      } else {
        loading := false;
        req := None;
      }
    }

    method SetId(newId: Option<string>) returns (req: Option<ArticleRequest>)
      modifies this
      ensures id == newId
      ensures (State(), req) == ChangeId(old(State()), old(id), newId)
    {
      if newId != id {
        id := newId;
        req := Effect();
      } else {
        req := None;
      }
    }

    method Complete(data: Option<Article>)
      modifies this
      ensures id == old(id)
      ensures State() == CompleteDetail(old(State()), data)
    {
      if data.None? {
        error := Some(NOT_FOUND);
      } else {
        article := data;
      }
      loading := false;
    }
  }
}
