# techtrends news client: data normalisation and pagination, in Dafny

This project models the data layer of the techtrends React news client. The rest of the
client is JSX, animation and browser plumbing and is not modelled.

- **Article fetch client** (`api.dfy`, `src/lib/api.ts`). `MapDevToArticle` turns an
  upstream dev.to record into the internal `Article`, using the client's `||` fallback
  chains. `ArticlesQuery` builds the ordered key/value query of a list request. The
  fetchers are fail-soft: `FetchArticles` gives `[]` and `FetchArticleById` gives `None`
  (`null`) on any failure. The HTTP exchange is a function parameter from the request to
  what came back: a transport error, or a status with a body that may be unreadable.
- **`useArticles`** (`use_news.dfy`, `src/hooks/useNews.ts`). This is the paginated list
  controller. Its state is the value `ListState`. Transition functions give each step:
  `BeginFetch`/`CompleteFetch` (the two halves of `fetchData`), `ResetAndFetch` (the
  filter-change effect), `LoadMoreStep`, `RefetchStep` and `UnmountStep`. The class
  `ArticlesHook` holds one field per state cell and ref. Its methods update the fields
  step by step and are proved to move `State()` exactly as the transition functions say.
- **`useArticle`** (same file). The single-article controller: `FetchDetailStep`,
  `ArticleEffect`, `CompleteDetail`, and the class `ArticleHook`.
- **`useInfiniteScroll`** (`infinite_scroll.dfy`). The class `InfiniteScroll` shows a
  growing prefix of an in-memory list. Its invariant fixes what is shown and when
  `hasMore` holds.
- **`NewsFeed`** (`news_feed.dfy`, `src/components/home/NewsFeed.tsx`). A second
  pagination machine. An empty page ends it, the cursor moves only on a non-empty page,
  and with a limit it shows one page and stops. The state value is `FeedState` and the
  class is `Feed`.
- **Categories page** (`categories.dfy`, `src/pages/Categories.tsx`). `ToggleTag`,
  `FilterString` (the `category` option), `AllTags` (sorted, without duplicates) and the
  scroll gate. The `TagSelection` class holds the `selectedTags` state cell.
- `strings.dfy` models the ECMAScript string operations the client uses:
  ASCII case mapping, `trim` with ECMAScript's whitespace set, `split`/`join` on a
  character, and integer `toString` with its inverse. `wrappers.dfy` holds `Option` and
  `seqs.dfy` holds `Concat`.

Asynchronous operations are split in two: a step that issues the request and returns it,
and a step that applies the value the request resolved to. That value is an input of the
model.

In these places the code does not do what its own comments and names suggest; the model
follows the code:

- **Superseded requests are not ignored.** The code aborts the previous request, but
  `fetchArticles` catches the `AbortError` and resolves to `[]` (`src/lib/api.ts:75-78`).
  The abort branch of `fetchData` (`src/hooks/useNews.ts:100-103`) is therefore never
  reached, and the superseded request completes like any other.
  `UseNews.SupersededCompletionApplies` shows the effect. After an options change, the
  old request lands with `[]` and leaves an empty list, `loading` false and `hasMore`
  false, while the current request is still out. `UseNews.SupersededLookupLeavesError`
  shows the same for `useArticle`. The aborted lookup resolves to `null` and sets
  "Article not found", and the next article then arrives without clearing that error.
- **The list error is never set.** `fetchArticles` never rejects, so the `catch` of
  `fetchData` is dead code, and the list's `error` stays empty (`UseNews.ErrorStaysEmpty`,
  and the `ArticlesHook.Valid()` invariant).
- **Page size is not bounded by the client.** The client maps whatever records the
  upstream returns, one to one. So a list is at most the page size only if the upstream
  honours `per_page`, and the model does not claim that bound.
- **`refetch` goes to page 1**, not to the configured first page.

## Model

| member | source | states |
|---|---|---|
| `Api.MapDevToArticle` | src/lib/api.ts:27-48 | The id is the decimal form of the upstream id and reads back to it. `tags` is `tag_list`, else `tags`, else `[]`. A list is kept as given. A string, from either field, becomes exactly its `,`-separated pieces, each trimmed. `category` is never empty: "Tech" when the first tag is missing or empty, else that tag with only its first character upper-cased. `imageUrl` is cover, else social image, else the placeholder, so it is never empty. `content` is HTML body, else markdown, else description. `readTime` is the decimal form of the minutes (which reads back) followed by " min read". Other fields are copied. |
| `Api.TagTextRoundTrip` | src/lib/api.ts:28-31 | When each comma-separated piece of a tag string is already trimmed, the resulting tags joined with `,` give back the string. |
| `Api.BareRecordDefaults` | src/lib/api.ts:37-45 | A record with no tags and no images gets category "Tech", the placeholder image and `[]` tags. |
| `Api.ListTagsKeptAsGiven` | src/lib/api.ts:28-37 | The tag list `["Python", "webdev"]` is kept in order and case, and the category is "Python". |
| `Api.ArticlesQuery` | src/lib/api.ts:52-65 | The query is `page`, `per_page`, `tags_exclude="jokes,discuss"` and `top`, in that order. A truthy tag adds exactly one more pair: `tags` if it contains a comma, else `tag`. |
| `Api.QueryFixedParams` | src/lib/api.ts:52-57 | Looking up `page` and `per_page` reads back the numbers asked for. `tags_exclude` is "jokes,discuss". `top` is the given number when it is non-zero, else "7". |
| `Api.QueryTagParam` | src/lib/api.ts:59-65 | The tag filter appears under `tag` exactly when it is non-empty and has no comma, under `tags` exactly when it has a comma, and under neither otherwise. |
| `Api.TrendingQuery` | src/lib/api.ts:100 | A trending request asks for `top=7` and the given `per_page`, with no tag filter. |
| `Api.MapAll` | src/lib/api.ts:74 | The records are mapped one to one, in order. |
| `Api.ListOrEmpty` | src/lib/api.ts:69-78 | A delivered body gives its records mapped in order. A transport error, a non-2xx status or an unreadable body gives `[]`. |
| `Api.FetchArticles` | src/lib/api.ts:50-79 | Never fails. It returns the records the upstream sent for this request's own query, mapped one to one in order, or `[]` on any failure. |
| `Api.EmptyListIsAmbiguous` | src/lib/api.ts:75-78 | The result is `[]` exactly when the request failed or the page was empty, so a caller cannot tell the two apart. |
| `Api.FetchTrendingArticles` | src/lib/api.ts:97-108 | Fail-soft like `FetchArticles`. Element i is record i of the trending query's answer, mapped, in order. Any failure gives `[]`. |
| `Api.FetchArticleById` | src/lib/api.ts:81-95 | Never fails. It returns the mapped record when one is delivered, else `None` (a not-found status included). |
| `Strings.ToLower` | src/pages/Categories.tsx:29 | `toLowerCase` keeps the length, lower-cases each character, and the result is all lower case. |
| `Strings.ToLowerIdempotent` | src/pages/Categories.tsx:25 | Lower-casing twice is lower-casing once. The filter string is lower-cased by the page and again by `useArticles`, with no further change. |
| `Strings.ToLowerKeeps` | src/pages/Categories.tsx:25 | Lower-casing keeps the `,` separators, and every other non-letter character, at the same positions; it adds none and removes none. |
| `Strings.Trim` | src/lib/api.ts:30 | `trim` returns a slice of the input. Only whitespace is dropped, at both ends, and the result has no whitespace at either end. |
| `Strings.TrimOfTrimmed` | src/lib/api.ts:30 | A string without whitespace at its ends is its own trim. |
| `Strings.Split` | src/lib/api.ts:30 | `split(',')` gives at least one piece, and no piece contains the separator. |
| `Strings.Join` | src/pages/Categories.tsx:25 | `join(",")`: no pieces give "". The first piece comes first and the separator follows it when there are two or more. For separator-free pieces, the separator occurs exactly when there are two or more pieces. |
| `Strings.JoinSplit` | src/lib/api.ts:30 | Joining the pieces of a split with the same separator gives back the string. |
| `Strings.SplitJoin` | src/pages/Categories.tsx:25 | Splitting a join of separator-free pieces gives back the pieces. |
| `Strings.JoinLower` | src/pages/Categories.tsx:25 | A join of lower-case pieces with a separator that is not an upper-case letter is lower-case. |
| `Strings.JoinHasSep` | src/pages/Categories.tsx:25 | A join of two or more pieces contains the separator. |
| `Strings.IntToDecimal` | src/lib/api.ts:33 | `toString` of an integer is non-empty, and all digits exactly when the integer is not negative. It has no leading zero ("0" itself aside). A negative number is `-` followed by its magnitude's digits, again without a leading zero. |
| `Strings.IntRoundTrip` | src/lib/api.ts:33 | Parsing the decimal form of an integer gives the integer back. |
| `UseNews.WithDefaults` | src/hooks/useNews.ts:37-43 | An absent limit becomes 10 and an absent first page becomes 1. The filter options are kept as given. |
| `UseNews.QueryTag` | src/hooks/useNews.ts:81 | The filter is `tag` when it is truthy, else the lower-cased `category`, else absent. |
| `UseNews.InitialListState` | src/hooks/useNews.ts:44-49 | Before the effects run: no articles, loading, not fetching more, no error, on the first page, more to come. |
| `UseNews.BeginFetch` | src/hooks/useNews.ts:62-82 | A fresh controller replaces the previous one. `loading` (initial) or `isFetchingMore` (load-more) is raised, the other flag is kept, and the error is cleared. The request carries the page, its kind, the page size and the query with the options' filter. |
| `UseNews.CompleteFetch` | src/hooks/useNews.ts:84-113 | After unmount nothing changes. While mounted, a load-more appends the page in order without dedup, and any other request replaces the list. `hasMore` becomes `|data| >= limit`. The flag of the request's kind is lowered. Error, page and controller are untouched. |
| `UseNews.ResetAndFetch` | src/hooks/useNews.ts:119-123 | Back to the first page, with an empty list and more to come. Then an initial fetch of that page goes out, with the options' page size and filter. |
| `UseNews.ChangeOptions` | src/hooks/useNews.ts:115-130 | Same options: nothing happens. Changed options: the result is exactly the reset effect for the new options. The list is reset, and an initial request for the new first page goes out, with the new page size and the new options' filter. Mounted, the fetching-more flag, the cleared error and the fresh controller all follow from that. |
| `UseNews.LoadMoreStep` | src/hooks/useNews.ts:132-138 | While loading, fetching more or exhausted, there is no state change and no request. Otherwise the page moves on by exactly one and a load-more request for that page goes out. It carries the hook's page size and filter and a fresh controller, and the mounted flag is kept. |
| `UseNews.RefetchStep` | src/hooks/useNews.ts:140-144 | Page 1, not the configured first page. `hasMore` becomes true and loading is raised. The articles, the fetching-more flag and the mounted flag are kept. An initial request for page 1 goes out with a fresh controller and the hook's page size and filter. |
| `UseNews.UnmountStep` | src/hooks/useNews.ts:57-60 | Only the mounted flag changes. |
| `UseNews.UnmountSilencesCompletion` | src/hooks/useNews.ts:84 | After unmount, any completion leaves the state as it is. |
| `UseNews.ErrorStaysEmpty` | src/hooks/useNews.ts:98-104 | No step sets the list error, because `fetchArticles` never rejects. |
| `UseNews.FullPagesAppend` | src/hooks/useNews.ts:86-97 | A run of load-mores answered by full pages appends every page in order. The cursor moves by one per page, and the controller stays ready. |
| `UseNews.ShortPageEndsRun` | src/hooks/useNews.ts:93-97 | After the first short page, `hasMore` is false. Later pages are never requested, and `loadMore` is a no-op. |
| `UseNews.SupersededCompletionApplies` | src/lib/api.ts:75-78 | A request superseded by an options change still completes with `[]`. It empties the list and clears `loading` and `hasMore` while the current request is out. |
| `UseNews.SixThenFour` | src/hooks/useNews.ts:86-97 | With page size 6, pages of 6 then 4 give 10 articles and `hasMore` false, and a further `loadMore` changes nothing. |
| `UseNews.ArticlesHook.constructor` | src/hooks/useNews.ts:44-55 | The state cells start at their initial values. |
| `UseNews.ArticlesHook.FetchData` | src/hooks/useNews.ts:62-82 | Updates the fields as `BeginFetch` says. |
| `UseNews.ArticlesHook.ResetEffect` | src/hooks/useNews.ts:119-123 | Updates the fields as `ResetAndFetch` says. |
| `UseNews.ArticlesHook.Mount` | src/hooks/useNews.ts:57-60 | Sets the mounted flag, then runs the initial-fetch effect. |
| `UseNews.ArticlesHook.SetOptions` | src/hooks/useNews.ts:115-130 | Updates the fields as `ChangeOptions` says. |
| `UseNews.ArticlesHook.LoadMore` | src/hooks/useNews.ts:132-138 | Updates the fields as `LoadMoreStep` says. |
| `UseNews.ArticlesHook.Refetch` | src/hooks/useNews.ts:140-144 | Updates the fields as `RefetchStep` says. |
| `UseNews.ArticlesHook.Complete` | src/hooks/useNews.ts:84-113 | Updates the fields as `CompleteFetch` says, and keeps the error empty. |
| `UseNews.ArticlesHook.Unmount` | src/hooks/useNews.ts:59 | Clears the mounted flag. |
| `UseNews.InitialArticleState` | src/hooks/useNews.ts:153-155 | No article, loading, no error. |
| `UseNews.FetchDetailStep` | src/hooks/useNews.ts:159-172 | With no id (absent or empty), nothing happens. Otherwise there is a fresh controller, loading is raised, the error is cleared, the shown article is kept, and a lookup of the id goes out. |
| `UseNews.ArticleEffect` | src/hooks/useNews.ts:183-188 | With an id it fetches. Without one, loading ends and nothing is fetched. |
| `UseNews.ChangeId` | src/hooks/useNews.ts:183-195 | The effect runs again only when the id changed. |
| `UseNews.CompleteDetail` | src/hooks/useNews.ts:172-180 | Loading ends either way. An article replaces the shown one. `null` sets the error "Article not found" and keeps the previous article. |
| `UseNews.SupersededLookupLeavesError` | src/hooks/useNews.ts:172-179 | When the id changes mid-lookup, the aborted lookup's `null` sets "Article not found". The next article arrives and the error stays. |
| `UseNews.ArticleHook.constructor` | src/hooks/useNews.ts:153-157 | The state cells start at their initial values. |
| `UseNews.ArticleHook.FetchDetail` | src/hooks/useNews.ts:159-172 | Updates the fields as `FetchDetailStep` says. |
| `UseNews.ArticleHook.Effect` | src/hooks/useNews.ts:183-188 | Updates the fields as `ArticleEffect` says. |
| `UseNews.ArticleHook.SetId` | src/hooks/useNews.ts:183-195 | Updates the fields as `ChangeId` says. |
| `UseNews.ArticleHook.Complete` | src/hooks/useNews.ts:172-180 | Updates the fields as `CompleteDetail` says. |
| `InfiniteScroll.Take` | src/hooks/useInfiniteScroll.ts:9 | `slice(0, n)` is the first `min(n, |data|)` items, a prefix of `data`. |
| `InfiniteScroll.TakeGrows` | src/hooks/useInfiniteScroll.ts:9 | A longer slice extends a shorter one. |
| `InfiniteScroll.InfiniteScroll.constructor` | src/hooks/useInfiniteScroll.ts:3-6 | Shows the first `itemsPerPage` items (6 by default), with page 1 and `hasMore` true, and establishes the invariant. |
| `InfiniteScroll.InfiniteScroll.LoadMore` | src/hooks/useInfiniteScroll.ts:8-16 | Page goes up by one, and the first `page*itemsPerPage` items are shown, extending what was shown. `hasMore` becomes false exactly when everything is shown, and it never returns to true. The invariant (shown items are a prefix, with `|shown| = min(|data|, page*itemsPerPage)`) is kept. There is no `hasMore` guard. |
| `InfiniteScroll.InfiniteScroll.OnScroll` | src/hooks/useInfiniteScroll.ts:19-28 | At the bottom with more to show, one page more is shown, extending what was shown. Otherwise nothing changes. Once `hasMore` is false everything is shown, and scrolling no longer moves the page. The invariant is kept. |
| `NewsFeed.InitialFeedState` | src/components/home/NewsFeed.tsx:13-17 | No articles, loading, not fetching, page 1, more to come. |
| `NewsFeed.FirstPageSize` | src/components/home/NewsFeed.tsx:23 | The first page size is `limit` when it is truthy, else 6. |
| `NewsFeed.BeginInitial` | src/components/home/NewsFeed.tsx:21-23 | Loading is raised, and page 1 is requested with the first page size and no filter. |
| `NewsFeed.CompleteInitialStep` | src/components/home/NewsFeed.tsx:24-26 | The page replaces the list and loading ends. With a limit, a page of at least `limit` items ends the feed. Page and `hasMore` are not reset. |
| `NewsFeed.LoadMoreStep` | src/components/home/NewsFeed.tsx:32-40 | Nothing happens with infinite scroll off, while loading or fetching, or with a limit. Otherwise fetching is raised and page+1 is requested with size 6. |
| `NewsFeed.CompleteMoreStep` | src/components/home/NewsFeed.tsx:42-48 | An empty page ends the feed and leaves the articles and page unchanged. A non-empty page is appended in order and the page becomes the one asked for. Fetching ends either way. |
| `NewsFeed.ScrollTriggers` | src/components/home/NewsFeed.tsx:52-61 | The handler fires exactly when the page is near the bottom, there is more, and `loadMore` will start a request (infinite scroll on, no limit, nothing loading). |
| `NewsFeed.FeedRunEffect` | src/components/home/NewsFeed.tsx:42-46 | Over any run of pages, the articles are the old ones followed by every page in order, and the page has moved once per non-empty page. `hasMore` survives only if no page was empty. |
| `NewsFeed.LimitedFeedStops` | src/components/home/NewsFeed.tsx:26 | The home page feed (limit 6, no scrolling) stops after one page of 6, and `loadMore` does nothing. |
| `NewsFeed.Feed.constructor` | src/components/home/NewsFeed.tsx:13-17 | The state cells start at their initial values. |
| `NewsFeed.Feed.LoadInitial` | src/components/home/NewsFeed.tsx:21-23 | Updates the fields as `BeginInitial` says. |
| `NewsFeed.Feed.CompleteInitial` | src/components/home/NewsFeed.tsx:24-26 | Updates the fields as `CompleteInitialStep` says. |
| `NewsFeed.Feed.SetProps` | src/components/home/NewsFeed.tsx:20-29 | The initial fetch runs again only when `limit` changed. Otherwise nothing changes. |
| `NewsFeed.Feed.LoadMore` | src/components/home/NewsFeed.tsx:32-40 | Updates the fields as `LoadMoreStep` says. |
| `NewsFeed.Feed.CompleteMore` | src/components/home/NewsFeed.tsx:42-48 | Updates the fields as `CompleteMoreStep` says. |
| `Categories.Without` | src/pages/Categories.tsx:32 | The filter removes every occurrence of the tag and keeps the rest, and is the identity when the tag is absent. |
| `Categories.WithoutAt` | src/pages/Categories.tsx:32 | In a duplicate-free selection, removing the tag at position i leaves the tags before it and after it, in their order. |
| `Categories.ToggleTag` | src/pages/Categories.tsx:28-35 | Exactly the membership of the lower-cased tag flips. An absent tag is appended at the end. A present tag is removed, so the selection shrinks. In a duplicate-free selection the removal leaves the other tags in their order. |
| `Categories.ToggleKeepsValid` | src/pages/Categories.tsx:29-33 | Toggling keeps the selection lower-case and duplicate-free. |
| `Categories.ToggleTwice` | src/pages/Categories.tsx:30-33 | Toggling an absent tag twice gives back the original selection. |
| `Categories.FilterString` | src/pages/Categories.tsx:25 | Absent exactly for an empty selection. Otherwise it is the selection joined with `,` and lower-cased, which contains a comma when two or more tags are selected. |
| `Categories.FilterStringSplits` | src/pages/Categories.tsx:25 | For a non-empty selection of lower-case, comma-free tags, splitting the filter string on `,` gives back the selection, in order. |
| `Categories.PageOptions` | src/pages/Categories.tsx:22-26 | The page asks `useArticles` for 12 articles per page, from page 1, with no `tag` and no `top`, and the filter string as `category`. The hook's own lower-casing leaves that filter as it is. |
| `Categories.SelectionReachesQuery` | src/pages/Categories.tsx:22-26 | Two or more tags reach the API as `tags`. One non-empty tag without a comma reaches it as `tag`. No selection sends neither. |
| `Categories.Insert` | src/pages/Categories.tsx:14 | Puts one tag in its sorted place. The result is strictly sorted and holds exactly that tag plus the old elements. |
| `Categories.SortedUnique` | src/pages/Categories.tsx:14 | The result is strictly sorted and holds exactly the given tags. |
| `Categories.AllTags` | src/pages/Categories.tsx:14 | The result is sorted, duplicate-free, and exactly the union of the two tag lists. |
| `Categories.SortedIsUnique` | src/pages/Categories.tsx:14 | Only one strictly sorted list has a given set of elements, so `AllTags` is that list. |
| `Categories.AllTagsSymmetric` | src/pages/Categories.tsx:14 | The order of the two tag lists does not matter. |
| `Categories.ScrollTriggers` | src/pages/Categories.tsx:40-46 | The handler fires exactly near the bottom when `loadMore` is not busy, and then `loadMore` always starts a request. |
| `Categories.TagSelection.constructor` | src/pages/Categories.tsx:10 | The selection starts as `["react"]`, which is valid. |
| `Categories.TagSelection.Toggle` | src/pages/Categories.tsx:28-35 | The selection becomes `ToggleTag` of the old one and stays lower-case and duplicate-free. |
| `Categories.TagSelection.ClearAll` | src/pages/Categories.tsx:118 | "Clear all" empties the selection. |

## Left out

- Network I/O (`fetch`, `response.json()`, `AbortController`) is a parameter: the
  fetchers take the exchange as a function, and the controllers take the resolved value
  as input. Aborting is modelled only as a fresh controller number per request. The
  model does not decide when an aborted request resolves.
- Interleavings of in-flight continuations are left to the caller, who may complete
  requests in any order. No stale-result suppression is claimed, because the code has
  none.
- `console.error` logging is left out.
- URL percent-encoding by `URLSearchParams.toString()` is left out. A query is the
  ordered list of key/value pairs.
- Scroll listeners and window geometry are left out. Only the boolean gates remain,
  with "near the bottom" as an input.
- Strings.ToLower, Strings.UpperChar and Strings.LowerChar: only ASCII letters are
  case-mapped. JavaScript's full Unicode case mapping (which can change the length, as
  with ß) is not modelled.
- Strings.IntToDecimal: numbers are integers. Fractions, NaN and exponent notation
  above 1e21 are not modelled. `top` may only be a number or absent, so NaN's
  falsiness is not modelled either.
- Api.ArticlesQuery: page and page size are always given, because every caller passes
  both. The defaults of `fetchArticles` (page 1, size 12) are not modelled, nor is the
  default `limit` of 6 of `fetchTrendingArticles` (src/lib/api.ts:97), which every caller
  of the model passes explicitly.
- Api.MapDevToArticle: upstream fields have the declared types. A record whose `user`
  is missing (which would throw inside the `try` and give `[]`) is not modelled.
- Categories.AllTags: JavaScript sorts by UTF-16 code units. The model compares code
  points, which agree for every character outside the supplementary planes.
  `POPULAR_TAGS` and `MORE_TAGS` come from src/constants/tags.ts, which is not part of
  this model, so they are parameters.
- InfiniteScroll.InfiniteScroll.LoadMore: `data` is fixed for the hook's lifetime and
  `itemsPerPage` is not negative. A changed `data` argument, which the hook's initial
  state ignores, is not modelled.
- The useArticle completion has no mounted guard. React discards state updates after
  unmount, so the model has no unmount step for it.
- `fetchArticles`' `catch` branch inside `fetchData`, and the `AbortError` and
  "Failed to fetch article" branches of `fetchDetail`, are not modelled. The fetchers
  never reject, so no input reaches them.
- Theme cycling, date formatting, animation delays, the pricing modal and the page
  components that only configure the hooks (src/pages/Trending.tsx and others) are
  presentation and are left out. So is the view-local article fetch in
  src/pages/Article.tsx, which adds nothing to `useArticle`.
