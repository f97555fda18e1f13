/** The tag selection of src/pages/Categories.tsx: the toggle on the `selectedTags` state
    cell, the filter string it hands to `useArticles`, the sorted list of all tags offered,
    and the scroll handler's gate. `POPULAR_TAGS` and `MORE_TAGS` (src/constants/tags.ts)
    are parameters. */
module Categories {
  import opened Wrappers
  import opened Strings
  import opened Api
  import opened UseNews

  const INITIAL_SELECTION: seq<string> := ["react"]
  const CATEGORIES_LIMIT: int := 12

  // ---------------------------------------------------------------- toggle

  predicate NoDuplicates(s: seq<string>) {
    forall i, j :: 0 <= i < j < |s| ==> s[i] != s[j]
  }

  predicate AllLowerCase(s: seq<string>) {
    forall i :: 0 <= i < |s| ==> IsLowerCase(s[i])
  }

  /** What the selection always is: lower-case tags, each at most once. */
  predicate ValidSelection(s: seq<string>) {
    NoDuplicates(s) && AllLowerCase(s)
  }

  /** `s.filter(t => t !== x)`: every occurrence of `x` removed, the rest kept in order. */
  function Without(s: seq<string>, x: string): (r: seq<string>)
    ensures forall t :: t in r <==> t in s && t != x
    ensures x !in s ==> r == s
  {
    if s == [] then []
    else if s[0] == x then Without(s[1..], x)
    else [s[0]] + Without(s[1..], x)
  }

  /** Removing a tag from a selection keeps it a selection. */
  lemma {:induction false} WithoutKeepsValid(s: seq<string>, x: string)
    requires ValidSelection(s)
    ensures ValidSelection(Without(s, x))
  {
    if s != [] {
      WithoutKeepsValid(s[1..], x);
      if s[0] != x {
        assert s[0] !in s[1..];
        assert s[0] !in Without(s[1..], x);
      }
    }
  }

  /** In a selection without duplicates, removing the tag at `i` leaves the tags before and
      after it, in their order. */
  lemma {:induction false} WithoutAt(s: seq<string>, i: nat)
    requires i < |s| && NoDuplicates(s)
    ensures Without(s, s[i]) == s[..i] + s[i + 1..]
  {
    if i == 0 {
      assert s[0] !in s[1..];
    } else {
      assert NoDuplicates(s[1..]);
      assert s[1..][i - 1] == s[i] && s[0] != s[i];
      WithoutAt(s[1..], i - 1);
      assert s[..i] + s[i + 1..] == [s[0]] + (s[1..][..i - 1] + s[1..][i..]);
    }
  }

  /** `toggleTag(tag)` applied to the selection: the lower-cased tag is removed (every
      occurrence) when present and appended at the end when absent. As a set, exactly the
      membership of that tag flips. */
  function ToggleTag(prev: seq<string>, tag: string): (r: seq<string>)
    ensures forall t :: t in r <==> (t in prev) != (t == ToLower(tag))
    ensures ToLower(tag) !in prev ==> r == prev + [ToLower(tag)]
    ensures ToLower(tag) in prev ==> |r| < |prev|
    ensures NoDuplicates(prev) ==>
      forall i :: 0 <= i < |prev| && prev[i] == ToLower(tag) ==> r == prev[..i] + prev[i + 1..]
  {
    var lowerTag := ToLower(tag);
    if lowerTag in prev then
      var r := Without(prev, lowerTag);
      WithoutShrinks(prev, lowerTag);
      assert NoDuplicates(prev) ==>
        forall i :: 0 <= i < |prev| && prev[i] == lowerTag ==> r == prev[..i] + prev[i + 1..] by {
        if NoDuplicates(prev) {
          forall i | 0 <= i < |prev| && prev[i] == lowerTag
            ensures r == prev[..i] + prev[i + 1..]
          {
            WithoutAt(prev, i);
          }
        }
      }
      r
    else prev + [lowerTag]
  }

  lemma {:induction false} WithoutShrinks(s: seq<string>, x: string)
    requires x in s
    ensures |Without(s, x)| < |s|
  {
    if s[0] != x {
      WithoutShrinks(s[1..], x);
    } else {
      WithoutNoLonger(s[1..], x);
    }
  }

  lemma {:induction false} WithoutNoLonger(s: seq<string>, x: string)
    ensures |Without(s, x)| <= |s|
  {
    if s != [] {
      WithoutNoLonger(s[1..], x);
    }
  }

  /** Toggling keeps the selection lower-case and free of duplicates. */
  lemma ToggleKeepsValid(prev: seq<string>, tag: string)
    requires ValidSelection(prev)
    ensures ValidSelection(ToggleTag(prev, tag))
  {
    if ToLower(tag) in prev {
      WithoutKeepsValid(prev, ToLower(tag));
    }
  }

  lemma {:induction false} WithoutAppended(s: seq<string>, x: string)
    requires x !in s
    ensures Without(s + [x], x) == s
  {
    if s != [] {
      WithoutAppended(s[1..], x);
      assert (s + [x])[1..] == s[1..] + [x];
    }
  }

  /** Toggling an absent tag twice gives back the selection. */
  lemma ToggleTwice(prev: seq<string>, tag: string)
    requires ToLower(tag) !in prev
    ensures ToggleTag(ToggleTag(prev, tag), tag) == prev
  {
    ToLowerIdempotent(tag);
    WithoutAppended(prev, ToLower(tag));
  }

  // ---------------------------------------------------------------- filter string

  /** The `category` option: absent for an empty selection, else the tags joined with `,`
      and lower-cased. */
  function FilterString(selected: seq<string>): (r: Option<string>)
    ensures r.None? <==> selected == []
    ensures r.Some? ==> r.value == ToLower(Join(selected, ',')) && IsLowerCase(r.value)
    ensures |selected| >= 2 ==> r.Some? && ',' in r.value
  {
    if |selected| > 0 then
      var joined := Join(selected, ',');
      assert |selected| >= 2 ==> ',' in ToLower(joined) by {
        if |selected| >= 2 {
          JoinHasSep(selected, ',');
          ToLowerKeeps(joined, ',');
        }
      }
      Some(ToLower(joined))
    else None
  }

  /** The filter string carries the selection: splitting it on `,` gives back the selected
      tags, in order, when they are lower-case and comma-free. */
  lemma FilterStringSplits(selected: seq<string>)
    requires selected != [] && AllLowerCase(selected)
    requires forall i :: 0 <= i < |selected| ==> ',' !in selected[i]
    ensures FilterString(selected).Some?
    ensures Split(FilterString(selected).value, ',') == selected
  {
    var joined := Join(selected, ',');
    JoinLower(selected, ',');
    ToLowerOfLowerCase(joined);
    SplitJoin(selected, ',');
  }

  /** The options the page gives `useArticles`: limit 12 and the filter string. */
  function PageOptions(selected: seq<string>): (o: ListOptions)
    ensures o.limit == CATEGORIES_LIMIT && o.tag == None && o.top == None
    ensures o.initialPage == DEFAULT_INITIAL_PAGE && o.category == FilterString(selected)
    ensures QueryTag(o) == FilterString(selected)
  {
    var o := ListOptions(CATEGORIES_LIMIT, None, FilterString(selected), None, DEFAULT_INITIAL_PAGE);
    assert QueryTag(o) == o.category by {
      if o.category.Some? {
        ToLowerOfLowerCase(o.category.value);
      }
    }
    o
  }

  /** The selection reaches the API as `tags` when two or more tags are selected, as `tag`
      for one non-empty tag without a comma, and not at all when none is selected. */
  lemma SelectionReachesQuery(selected: seq<string>, pageNum: int)
    ensures var q := ArticlesQuery(pageNum, CATEGORIES_LIMIT, QueryTag(PageOptions(selected)), None);
      (|selected| >= 2 ==> Lookup(q, "tags") == FilterString(selected) && Lookup(q, "tag") == None)
      && (|selected| == 1 && selected[0] != "" && ',' !in selected[0] ==>
            Lookup(q, "tag") == Some(ToLower(selected[0])) && Lookup(q, "tags") == None)
      && (selected == [] ==> Lookup(q, "tag") == None && Lookup(q, "tags") == None)
  {
    var o := PageOptions(selected);
    var f := FilterString(selected);
    if f.Some? {
      ToLowerOfLowerCase(f.value);
      assert QueryTag(o) == f;
    }
    if |selected| == 1 {
      ToLowerKeeps(selected[0], ',');
    }
    QueryTagParam(pageNum, CATEGORIES_LIMIT, QueryTag(o), None);
  }

  // ---------------------------------------------------------------- all tags

  /** The default order of `Array.prototype.sort` on strings: code unit by code unit, a
      proper prefix first. */
  predicate Before(a: string, b: string) {
    if a == [] then b != []
    else if b == [] then false
    else if a[0] != b[0] then a[0] < b[0]
    else Before(a[1..], b[1..])
  }

  lemma {:induction false} BeforeIrreflexive(a: string)
    ensures !Before(a, a)
  {
    if a != [] {
      BeforeIrreflexive(a[1..]);
    }
  }

  lemma {:induction false} BeforeTransitive(a: string, b: string, c: string)
    requires Before(a, b) && Before(b, c)
    ensures Before(a, c)
  {
    if a != [] && b != [] && c != [] && a[0] == b[0] && b[0] == c[0] {
      BeforeTransitive(a[1..], b[1..], c[1..]);
    }
  }

  lemma {:induction false} BeforeTotal(a: string, b: string)
    requires a != b
    ensures Before(a, b) || Before(b, a)
  {
    if a != [] && b != [] && a[0] == b[0] {
      assert a == [a[0]] + a[1..] && b == [b[0]] + b[1..];
      BeforeTotal(a[1..], b[1..]);
    }
  }

  predicate StrictlySorted(s: seq<string>) {
    forall i, j :: 0 <= i < j < |s| ==> Before(s[i], s[j])
  }

  /** One tag put in its place in a sorted list without duplicates. */
  function Insert(x: string, s: seq<string>): (r: seq<string>)
    requires StrictlySorted(s)
    ensures StrictlySorted(r)
    ensures forall t :: t in r <==> t == x || t in s
  {
    if s == [] then [x]
    else if x == s[0] then s
    else if Before(x, s[0]) then
      assert forall j :: 0 < j < |s| ==> Before(x, s[j]) by {
        forall j | 0 < j < |s| ensures Before(x, s[j]) {
          BeforeTransitive(x, s[0], s[j]);
        }
      }
      [x] + s
    else
      BeforeTotal(x, s[0]);
      var rest := Insert(x, s[1..]);
      assert forall t :: t in rest ==> Before(s[0], t);
      [s[0]] + rest
  }

  /** The tags sorted, each once. */
  function SortedUnique(tags: seq<string>): (r: seq<string>)
    ensures StrictlySorted(r)
    ensures forall t :: t in r <==> t in tags
  {
    if tags == [] then []
    else Insert(tags[|tags| - 1], SortedUnique(tags[..|tags| - 1]))
  }

  /** `Array.from(new Set([...POPULAR_TAGS, ...MORE_TAGS])).sort()`. */
  function AllTags(popular: seq<string>, more: seq<string>): (r: seq<string>)
    ensures StrictlySorted(r) && NoDuplicates(r)
    ensures forall t :: t in r <==> t in popular || t in more
  {
    var r := SortedUnique(popular + more);
    assert NoDuplicates(r) by {
      forall i, j | 0 <= i < j < |r| ensures r[i] != r[j] {
        if r[i] == r[j] {
          BeforeIrreflexive(r[i]);
        }
      }
    }
    r
  }

  lemma SameElementsBothEmpty(a: seq<string>, b: seq<string>)
    requires forall t :: t in a <==> t in b
    ensures a == [] <==> b == []
  {
    if a != [] {
      assert a[0] in b;
    }
    if b != [] {
      assert b[0] in a;
    }
  }

  /** A sorted list without duplicates is fixed by its elements: so `AllTags` is the one
      such list of the union, whatever order the two lists came in. */
  lemma {:induction false} SortedIsUnique(a: seq<string>, b: seq<string>)
    requires StrictlySorted(a) && StrictlySorted(b)
    requires forall t :: t in a <==> t in b
    ensures a == b
  {
    SameElementsBothEmpty(a, b);
    if a != [] {
      if a[0] != b[0] {
        assert b[0] in a && a[0] in b;
        var i :| 0 <= i < |a| && a[i] == b[0];
        var j :| 0 <= j < |b| && b[j] == a[0];
        if i == 0 {
          assert false;
        } else if j == 0 {
          assert false;
        } else {
          assert Before(a[0], a[i]) && Before(b[0], b[j]);
          BeforeTransitive(a[0], b[0], a[0]);
          BeforeIrreflexive(a[0]);
          assert false;
        }
      }
      assert a == [a[0]] + a[1..] && b == [b[0]] + b[1..];
      BeforeIrreflexive(a[0]);
      forall t ensures t in a[1..] <==> t in b[1..] {
        if t in a[1..] {
          var k :| 0 <= k < |a[1..]| && a[1..][k] == t;
          assert Before(a[0], a[k + 1]);
          assert t != b[0] && t in b;
        }
        if t in b[1..] {
          var k :| 0 <= k < |b[1..]| && b[1..][k] == t;
          assert Before(b[0], b[k + 1]);
          assert t != a[0] && t in a;
        }
      }
      SortedIsUnique(a[1..], b[1..]);
    }
  }

  lemma AllTagsSymmetric(popular: seq<string>, more: seq<string>)
    ensures AllTags(popular, more) == AllTags(more, popular)
  {
    SortedIsUnique(AllTags(popular, more), AllTags(more, popular));
  }

  // ---------------------------------------------------------------- scroll gate

  /** The scroll handler calls `loadMore` near the bottom while there is more and nothing
      is loading; that is exactly when `loadMore` does not return at once. */
  function ScrollTriggers(s: ListState, nearBottom: bool): (b: bool)
    ensures b <==> nearBottom && !Busy(s)
    ensures b ==> forall o :: LoadMoreStep(s, o).1.Some?
  {
    nearBottom && s.hasMore && !s.loading && !s.isFetchingMore
  }

  // ---------------------------------------------------------------- state cell

  /** The `selectedTags` state cell. */
  class TagSelection {
    var selectedTags: seq<string>

    constructor ()
      ensures selectedTags == INITIAL_SELECTION && ValidSelection(selectedTags)
    {
      selectedTags := INITIAL_SELECTION;
    }

    method Toggle(tag: string)
      requires ValidSelection(selectedTags)
      modifies this
      ensures selectedTags == ToggleTag(old(selectedTags), tag)
      ensures ValidSelection(selectedTags)
    {
      ToggleKeepsValid(selectedTags, tag);
      var lowerTag := ToLower(tag);
      if lowerTag in selectedTags {
        selectedTags := Without(selectedTags, lowerTag);
      } else {
        selectedTags := selectedTags + [lowerTag];
      }
    }

    /** "Clear all" / "Clear filters". */
    method ClearAll()
      modifies this
      ensures selectedTags == [] && ValidSelection(selectedTags)
    {
      selectedTags := [];
    }
  }
}
