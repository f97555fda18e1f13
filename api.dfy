/** The article fetch client of src/lib/api.ts: normalisation of upstream dev.to records
    into the internal `Article`, the query each list request carries, and the fail-soft
    wrappers around the HTTP calls. The HTTP exchange itself is a parameter: a function
    from the request to what came back. */
module Api {
  import opened Wrappers
  import opened Strings

  const PLACEHOLDER_IMAGE: string :=
    "https://images.unsplash.com/photo-1518770660439-4636190af475?q=80&w=2000&auto=format&fit=crop"
  const DEFAULT_CATEGORY: string := "Tech"
  const EXCLUDED_TAGS: string := "jokes,discuss"
  const DEFAULT_TOP: string := "7"
  const READ_TIME_SUFFIX: string := " min read"

  // ---------------------------------------------------------------- records

  datatype DevToUser = DevToUser(name: string, profileImage: string, username: string)

  /** A tag field as the upstream sends it: absent (`undefined`/`null`), a comma-separated
      string (the single-article endpoint) or a list of tags. */
  datatype TagField = Missing | TagText(text: string) | TagList(items: seq<string>)

  /** An upstream record. Optional string fields are `None` when absent or `null`. */
  datatype DevToArticle = DevToArticle(
    id: int,
    title: string,
    description: string,
    coverImage: Option<string>,
    socialImage: string,
    publishedAt: string,
    readingTimeMinutes: int,
    tagList: TagField,
    tags: TagField,
    url: string,
    user: DevToUser,
    bodyHtml: Option<string>,
    bodyMarkdown: Option<string>)

  datatype Author = Author(name: string, username: string, avatar: string)

  /** The internal article shape (src/types/index.ts). */
  datatype Article = Article(
    id: string,
    title: string,
    summary: string,
    content: string,
    category: string,
    author: Author,
    publishedAt: string,
    readTime: string,
    imageUrl: string,
    tags: seq<string>)

  // ---------------------------------------------------------------- normalisation

  /** JavaScript truthiness of an optional string: present and non-empty. */
  predicate Truthy(o: Option<string>) {
    o.Some? && o.value != ""
  }

  /** JavaScript truthiness of a tag field: any list (even empty) or a non-empty string. */
  predicate TruthyTags(f: TagField) {
    match f
    case Missing => false
    case TagText(t) => t != ""
    case TagList(_) => true
  }

  /** `a || b` where `a` is an optional string. */
  function OrElse(a: Option<string>, b: string): string {
    if Truthy(a) then a.value else b
  }

  /** Each comma-separated piece trimmed. */
  function TrimAll(parts: seq<string>): (r: seq<string>)
    ensures |r| == |parts|
    ensures forall i :: 0 <= i < |r| ==> r[i] == Trim(parts[i])
  {
    if parts == [] then [] else [Trim(parts[0])] + TrimAll(parts[1..])
  }

  /** `data.tag_list || data.tags || []`, then a string value split on `,` and trimmed. */
  function TagsOf(d: DevToArticle): seq<string> {
    var chosen :=
      if TruthyTags(d.tagList) then d.tagList
      else if TruthyTags(d.tags) then d.tags
      else TagList([]);
    match chosen
    case TagText(t) => TrimAll(Split(t, ','))
    case TagList(items) => items
    case Missing => []
  }

  /** The tag field `||` picks is a string, which is split. */
  predicate TagsFromText(d: DevToArticle) {
    (TruthyTags(d.tagList) && d.tagList.TagText?)
    || (!TruthyTags(d.tagList) && TruthyTags(d.tags) && d.tags.TagText?)
  }

  /** The first tag with its first character upper-cased, or "Tech" when there is no
      first tag or it is empty. */
  function CategoryOf(tags: seq<string>): string {
    if |tags| == 0 || tags[0] == "" then DEFAULT_CATEGORY
    else [UpperChar(tags[0][0])] + tags[0][1..]
  }

  /** `mapDevToArticle`: total, and every field of the result follows the fallback chain
      the client promises. */
  function MapDevToArticle(d: DevToArticle): (a: Article)
    // the id is the decimal form of the upstream id and reads back to it
    ensures a.id == IntToDecimal(d.id) && ParseInt(a.id) == Some(d.id)
    // tags: `tag_list`, else `tags`, else the empty list; a list is taken as it is
    ensures d.tagList.TagList? ==> a.tags == d.tagList.items
    ensures !TruthyTags(d.tagList) && d.tags.TagList? ==> a.tags == d.tags.items
    ensures !TruthyTags(d.tagList) && !TruthyTags(d.tags) ==> a.tags == []
    // a string (from `tag_list`, else from `tags`) is cut at every comma, each piece trimmed
    ensures TruthyTags(d.tagList) && d.tagList.TagText? ==>
      a.tags == TrimAll(Split(d.tagList.text, ','))
    ensures !TruthyTags(d.tagList) && TruthyTags(d.tags) && d.tags.TagText? ==>
      a.tags == TrimAll(Split(d.tags.text, ','))
    ensures TagsFromText(d) ==> forall i :: 0 <= i < |a.tags| ==> IsTrimmed(a.tags[i])
    // category: never empty; the first tag with an upper-cased first character, else "Tech"
    ensures a.category != ""
    ensures |a.tags| == 0 || a.tags[0] == "" ==> a.category == DEFAULT_CATEGORY
    ensures |a.tags| > 0 && a.tags[0] != "" ==>
      |a.category| == |a.tags[0]| && a.category[0] == UpperChar(a.tags[0][0])
      && a.category[1..] == a.tags[0][1..]
    // image: cover image, else social image, else the placeholder; never empty
    ensures a.imageUrl != ""
    ensures Truthy(d.coverImage) ==> a.imageUrl == d.coverImage.value
    ensures !Truthy(d.coverImage) && d.socialImage != "" ==> a.imageUrl == d.socialImage
    ensures !Truthy(d.coverImage) && d.socialImage == "" ==> a.imageUrl == PLACEHOLDER_IMAGE
    // content: HTML body, else markdown body, else the description
    ensures Truthy(d.bodyHtml) ==> a.content == d.bodyHtml.value
    ensures !Truthy(d.bodyHtml) && Truthy(d.bodyMarkdown) ==> a.content == d.bodyMarkdown.value
    ensures !Truthy(d.bodyHtml) && !Truthy(d.bodyMarkdown) ==> a.content == d.description
    // read time: the minutes, read back from the label, followed by " min read"
    ensures a.readTime == IntToDecimal(d.readingTimeMinutes) + READ_TIME_SUFFIX
    ensures |a.readTime| > |READ_TIME_SUFFIX|
    ensures a.readTime[|a.readTime| - |READ_TIME_SUFFIX|..] == READ_TIME_SUFFIX
    ensures ParseInt(a.readTime[..|a.readTime| - |READ_TIME_SUFFIX|]) == Some(d.readingTimeMinutes)
    // copied fields
    ensures a.title == d.title && a.summary == d.description && a.publishedAt == d.publishedAt
    ensures a.author == Author(d.user.name, d.user.username, d.user.profileImage)
  {
    var tags := TagsOf(d);
    var minutes := IntToDecimal(d.readingTimeMinutes);
    IntRoundTrip(d.id);
    IntRoundTrip(d.readingTimeMinutes);
    assert (minutes + READ_TIME_SUFFIX)[..|minutes|] == minutes;
    Article(
      IntToDecimal(d.id),
      d.title,
      d.description,
      OrElse(d.bodyHtml, OrElse(d.bodyMarkdown, d.description)),
      CategoryOf(tags),
      Author(d.user.name, d.user.username, d.user.profileImage),
      d.publishedAt,
      minutes + READ_TIME_SUFFIX,
      OrElse(d.coverImage, if d.socialImage != "" then d.socialImage else PLACEHOLDER_IMAGE),
      tags)
  }

  /** When every comma-separated piece of a tag string is already trimmed, the tags join
      back, with `,`, to that string. */
  lemma TagTextRoundTrip(d: DevToArticle)
    requires d.tagList.TagText? && d.tagList.text != ""
    requires forall i :: 0 <= i < |Split(d.tagList.text, ',')| ==> IsTrimmed(Split(d.tagList.text, ',')[i])
    ensures Join(MapDevToArticle(d).tags, ',') == d.tagList.text
  {
    var parts := Split(d.tagList.text, ',');
    forall i | 0 <= i < |parts| ensures Trim(parts[i]) == parts[i] {
      TrimOfTrimmed(parts[i]);
    }
    assert TrimAll(parts) == parts;
    JoinSplit(d.tagList.text, ',');
  }

  /** A record with no tags and no image fields: category "Tech", the placeholder image
      and an empty tag list. */
  lemma BareRecordDefaults(d: DevToArticle)
    requires d.tagList == Missing && d.tags == Missing
    requires d.coverImage == None && d.socialImage == ""
    ensures var a := MapDevToArticle(d);
      a.category == DEFAULT_CATEGORY && a.imageUrl == PLACEHOLDER_IMAGE && a.tags == []
  {
  }

  /** Tags given as a list keep their order and case; the category is the first one with
      its first letter upper-cased. */
  lemma ListTagsKeptAsGiven(d: DevToArticle)
    requires d.tagList == TagList(["Python", "webdev"])
    ensures var a := MapDevToArticle(d);
      a.tags == ["Python", "webdev"] && a.category == "Python"
  {
  }

  // ---------------------------------------------------------------- queries

  /** One `key=value` pair of a query string, before percent-encoding. */
  datatype Param = Param(key: string, value: string)

  type Query = seq<Param>

  /** `URLSearchParams.get`: the value of the first pair with that key. */
  function Lookup(q: Query, key: string): Option<string> {
    if q == [] then None
    else if q[0].key == key then Some(q[0].value)
    else Lookup(q[1..], key)
  }

  lemma {:induction false} LookupMissing(q: Query, key: string)
    requires forall i :: 0 <= i < |q| ==> q[i].key != key
    ensures Lookup(q, key) == None
  {
    if q != [] {
      LookupMissing(q[1..], key);
    }
  }

  lemma {:induction false} LookupAt(q: Query, key: string, k: nat)
    requires k < |q| && q[k].key == key
    requires forall i :: 0 <= i < k ==> q[i].key != key
    ensures Lookup(q, key) == Some(q[k].value)
  {
    if k > 0 {
      LookupAt(q[1..], key, k - 1);
    }
  }

  /** The `top` value: the given number when it is a non-zero number, else "7". */
  function TopValue(top: Option<int>): string {
    if top.Some? && top.value != 0 then IntToDecimal(top.value) else DEFAULT_TOP
  }

  /** The query of `fetchArticles(page, limit, tag, top)`. */
  function ArticlesQuery(page: int, limit: int, tag: Option<string>, top: Option<int>): (q: Query)
    ensures |q| == (if Truthy(tag) then 5 else 4)
    ensures q[..4] == [Param("page", IntToDecimal(page)), Param("per_page", IntToDecimal(limit)),
                       Param("tags_exclude", EXCLUDED_TAGS), Param("top", TopValue(top))]
    ensures Truthy(tag) ==> q[4] == Param(if ',' in tag.value then "tags" else "tag", tag.value)
  {
    var base := [Param("page", IntToDecimal(page)), Param("per_page", IntToDecimal(limit)),
                 Param("tags_exclude", EXCLUDED_TAGS), Param("top", TopValue(top))];
    if Truthy(tag) then
      if ',' in tag.value then base + [Param("tags", tag.value)] else base + [Param("tag", tag.value)]
    else base
  }

  /** Reading the query back gives the page and page size asked for, the fixed exclusion
      and the ranking window: "7" unless a non-zero number was given. */
  lemma QueryFixedParams(page: int, limit: int, tag: Option<string>, top: Option<int>)
    ensures var q := ArticlesQuery(page, limit, tag, top);
      Lookup(q, "page").Some? && ParseInt(Lookup(q, "page").value) == Some(page)
      && Lookup(q, "per_page").Some? && ParseInt(Lookup(q, "per_page").value) == Some(limit)
      && Lookup(q, "tags_exclude") == Some("jokes,discuss")
      && Lookup(q, "top") == Some(if top.Some? && top.value != 0 then IntToDecimal(top.value) else "7")
  {
    var q := ArticlesQuery(page, limit, tag, top);
    assert q[0] == q[..4][0] && q[1] == q[..4][1] && q[2] == q[..4][2] && q[3] == q[..4][3];
    IntRoundTrip(page);
    IntRoundTrip(limit);
    FixedKeysLookup(q);
  }

  /** In a query that starts with the four fixed keys, each of them is found at its place. */
  lemma FixedKeysLookup(q: Query)
    requires |q| >= 4
    requires q[0].key == "page" && q[1].key == "per_page"
    requires q[2].key == "tags_exclude" && q[3].key == "top"
    ensures Lookup(q, "page") == Some(q[0].value) && Lookup(q, "per_page") == Some(q[1].value)
    ensures Lookup(q, "tags_exclude") == Some(q[2].value) && Lookup(q, "top") == Some(q[3].value)
  {
    assert "page"[1] != "per_page"[1];
    assert "page"[0] != "tags_exclude"[0] && "per_page"[0] != "tags_exclude"[0];
    assert "page"[0] != "top"[0] && "per_page"[0] != "top"[0] && "tags_exclude"[1] != "top"[1];
    LookupAt(q, "page", 0);
    LookupAt(q, "per_page", 1);
    LookupAt(q, "tags_exclude", 2);
    LookupAt(q, "top", 3);
  }

  /** The tag filter reaches the query under exactly one of `tag` (no comma) and `tags`
      (a comma), and under neither when it is absent or empty. */
  lemma QueryTagParam(page: int, limit: int, tag: Option<string>, top: Option<int>)
    ensures var q := ArticlesQuery(page, limit, tag, top);
      Lookup(q, "tag") == (if Truthy(tag) && ',' !in tag.value then tag else None)
      && Lookup(q, "tags") == (if Truthy(tag) && ',' in tag.value then tag else None)
  {
    var q := ArticlesQuery(page, limit, tag, top);
    assert q[0] == q[..4][0] && q[1] == q[..4][1] && q[2] == q[..4][2] && q[3] == q[..4][3];
    assert "tag"[1] != "top"[1] && "tags"[1] != "top"[1];
    assert forall i :: 0 <= i < 4 ==> q[i].key != "tag" && q[i].key != "tags";
    if Truthy(tag) {
      if ',' in tag.value {
        LookupAt(q, "tags", 4);
        LookupMissing(q, "tag");
      } else {
        LookupAt(q, "tag", 4);
        LookupMissing(q, "tags");
      }
    } else {
      LookupMissing(q, "tag");
      LookupMissing(q, "tags");
    }
  }

  /** The query of `fetchTrendingArticles(limit)`, written into its URL as it stands. */
  function TrendingQuery(limit: int): (q: Query)
    ensures Lookup(q, "top") == Some("7")
    ensures Lookup(q, "per_page") == Some(IntToDecimal(limit))
    ensures Lookup(q, "tag") == None && Lookup(q, "tags") == None
  {
    var q := [Param("top", "7"), Param("per_page", IntToDecimal(limit))];
    assert "top"[1] != "tag"[1] && "top"[1] != "tags"[1];
    LookupAt(q, "top", 0);
    LookupAt(q, "per_page", 1);
    LookupMissing(q, "tag");
    LookupMissing(q, "tags");
    q
  }

  // ---------------------------------------------------------------- fetchers

  /** What one HTTP exchange produced: a transport failure (network error or abort), or a
      response with its status and its decoded body, `None` when the body is not JSON of
      the expected shape. */
  datatype Fetched<T> = TransportError | Response(status: int, body: Option<T>)

  /** `response.ok`. */
  predicate IsOk(status: int) {
    200 <= status <= 299
  }

  /** The exchange delivered a usable body. */
  predicate Delivered<T>(f: Fetched<T>) {
    f.Response? && IsOk(f.status) && f.body.Some?
  }

  /** `data.map(mapDevToArticle)`: one article per record, in order. */
  function MapAll(records: seq<DevToArticle>): (r: seq<Article>)
    ensures |r| == |records|
    ensures forall i :: 0 <= i < |r| ==> r[i] == MapDevToArticle(records[i])
  {
    if records == [] then [] else [MapDevToArticle(records[0])] + MapAll(records[1..])
  }

  /** The `try`/`catch` of a list request: the mapped records, or `[]` on any failure. */
  function ListOrEmpty(f: Fetched<seq<DevToArticle>>): (r: seq<Article>)
    ensures Delivered(f) ==>
      |r| == |f.body.value| && forall i :: 0 <= i < |r| ==> r[i] == MapDevToArticle(f.body.value[i])
    ensures !Delivered(f) ==> r == []
  {
    if Delivered(f) then MapAll(f.body.value) else []
  }

  /** `fetchArticles(page, limit, tag, top)`: never fails; the records the upstream sent for
      this very query, mapped one to one in order, or `[]` on a transport error, a status
      outside 200-299 or an unreadable body. */
  function FetchArticles(page: int, limit: int, tag: Option<string>, top: Option<int>,
                         server: Query -> Fetched<seq<DevToArticle>>): (r: seq<Article>)
    ensures var f := server(ArticlesQuery(page, limit, tag, top));
      (Delivered(f) ==>
         |r| == |f.body.value| && forall i :: 0 <= i < |r| ==> r[i] == MapDevToArticle(f.body.value[i]))
      && (!Delivered(f) ==> r == [])
  {
    ListOrEmpty(server(ArticlesQuery(page, limit, tag, top)))
  }

  /** An empty list is all a caller sees both of a failed request and of an empty page:
      the two cannot be told apart. */
  lemma EmptyListIsAmbiguous(page: int, limit: int, tag: Option<string>, top: Option<int>,
                             server: Query -> Fetched<seq<DevToArticle>>)
    ensures var f := server(ArticlesQuery(page, limit, tag, top));
      FetchArticles(page, limit, tag, top, server) == [] <==> !Delivered(f) || f.body.value == []
  {
  }

  /** `fetchTrendingArticles(limit)`: fail-soft like `FetchArticles`. */
  function FetchTrendingArticles(limit: int, server: Query -> Fetched<seq<DevToArticle>>): (r: seq<Article>)
    ensures var f := server(TrendingQuery(limit));
      (Delivered(f) ==>
         |r| == |f.body.value| && forall i :: 0 <= i < |r| ==> r[i] == MapDevToArticle(f.body.value[i]))
      && (!Delivered(f) ==> r == [])
  {
    ListOrEmpty(server(TrendingQuery(limit)))
  }

  /** `fetchArticleById(id)`: never fails; the mapped record, or `None` (`null`) on a
      transport error, a status outside 200-299 (a not-found included) or an unreadable
      body. */
  function FetchArticleById(id: string, server: string -> Fetched<DevToArticle>): (r: Option<Article>)
    ensures var f := server(id);
      (Delivered(f) ==> r == Some(MapDevToArticle(f.body.value))) && (!Delivered(f) ==> r == None)
    ensures r.Some? ==> ParseInt(r.value.id).Some?
  {
    var f := server(id);
    if Delivered(f) then Some(MapDevToArticle(f.body.value)) else None
  }
}
