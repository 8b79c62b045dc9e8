/**
 * One pane of search results (components/MainViewQueryResults.tsx): the choice between tag
 * mode and fuzzy search, the code typed into the query, and the paging of the results.
 * The fuzzy search is the `search` parameter.
 */
module QueryResults {
  import opened Wrappers
  import opened Text
  import opened Catalog
  import opened Lodash

  // ---------------------------------------------------------------------------
  // Tag mode: `new RegExp(`${itemTagPrefix}(\S*)`)`
  // ---------------------------------------------------------------------------

  /** The length of the leading run of characters outside `\s`. */
  function NonSpaceRun(s: string): (n: nat)
    ensures n <= |s|
    ensures forall k :: 0 <= k < n ==> !IsWhitespace(s[k])
    ensures n < |s| ==> IsWhitespace(s[n])
  {
    if s != [] && !IsWhitespace(s[0]) then 1 + NonSpaceRun(s[1..]) else 0
  }

  /** The capture of `prefix(\S*)` in the query: the pattern matches at the leftmost occurrence
      of the prefix (`\S*` may match nothing), and the capture is the longest run of
      non-white-space characters after it. No match at all is `None`. */
  function TagToken(query: string, prefix: string): (r: Option<string>)
    requires |prefix| > 0
    ensures r.None? <==> !Contains(query, prefix)
    ensures r.Some? ==> (Find(query, prefix, 0).Some? &&
      var after := Find(query, prefix, 0).value + |prefix|;
      && after + |r.value| <= |query| && r.value == query[after..after + |r.value|]
      && (forall k :: 0 <= k < |r.value| ==> !IsWhitespace(r.value[k]))
      && (after + |r.value| < |query| ==> IsWhitespace(query[after + |r.value|])))
  {
    FindNoneIffAbsent(query, prefix);
    match Find(query, prefix, 0)
    case None => None
    case Some(i) =>
      var rest := query[i + |prefix|..];
      var n := NonSpaceRun(rest);
      assert rest[..n] == query[i + |prefix|..i + |prefix| + n];
      Some(rest[..n])
  }

  /** A tag after some words is found. */
  lemma TagTokenExample()
    ensures TagToken("milk #dairy", "#") == Some("dairy")
  {
    var q := "milk #dairy";
    HashInMilkDairy();
    DairyIsOneWord();
    assert q[6..] == "dairy";
    assert "dairy"[..5] == "dairy";
  }

  lemma HashInMilkDairy()
    ensures Find("milk #dairy", "#", 0) == Some(5)
  {
    var q := "milk #dairy";
    assert OccursAt(q, "#", 5);
    forall j | 0 <= j < 5 ensures !OccursAt(q, "#", j) {
      assert q[j..j + 1][0] == q[j];
    }
  }

  lemma DairyIsOneWord()
    ensures NonSpaceRun("dairy") == 5
  {
    assert NonSpaceRun("dairy"[5..]) == 0;
    assert NonSpaceRun("dairy"[4..]) == 1;
    assert NonSpaceRun("dairy"[3..]) == 2;
    assert NonSpaceRun("dairy"[2..]) == 3;
    assert NonSpaceRun("dairy"[1..]) == 4;
  }

  /** Only the leftmost prefix counts: a bare prefix before a tag gives an empty capture, and
      the query goes to the fuzzy search. */
  lemma TagTokenLeftmostExample()
    ensures TagToken("# #dairy", "#") == Some("")
  {
    var q := "# #dairy";
    assert OccursAt(q, "#", 0);
    assert Find(q, "#", 0) == Some(0);
    assert q[1..][0] == ' ';
  }

  /** `compiledItemData.filter(v => v.tags?.includes(tag))`. */
  function FilterByTag(items: seq<Item>, tag: string): (r: seq<Item>)
    ensures |r| <= |items|
    ensures forall x :: x in r <==> x in items && HasTag(x, tag)
  {
    if items == [] then []
    else (if HasTag(items[0], tag) then [items[0]] else []) + FilterByTag(items[1..], tag)
  }

  /** Filtering keeps catalog order: the filter of a concatenation is the concatenation of the
      filters. */
  lemma {:induction false} FilterByTagConcat(a: seq<Item>, b: seq<Item>, tag: string)
    ensures FilterByTag(a + b, tag) == FilterByTag(a, tag) + FilterByTag(b, tag)
  {
    if a == [] {
      assert a + b == b;
    } else {
      assert (a + b)[1..] == a[1..] + b;
      FilterByTagConcat(a[1..], b, tag);
    }
  }

  /** A catalog whose items all carry the tag is returned whole. */
  lemma {:induction false} FilterByTagAll(items: seq<Item>, tag: string)
    requires forall i :: 0 <= i < |items| ==> HasTag(items[i], tag)
    ensures FilterByTag(items, tag) == items
  {
    if items != [] {
      FilterByTagAll(items[1..], tag);
    }
  }

  /** `ignoreModifier(str)`: every occurrence of the organic modifier removed. */
  function IgnoreModifier(query: string, modifier: string): (r: string)
    ensures |r| <= |query|
    ensures modifier == "" ==> r == query
  {
    if modifier != "" then RemoveAll(query, modifier) else query
  }

  /** A one-character modifier leaves the rest of the query, in order, and none of itself. */
  lemma IgnoreSingleModifier(query: string, c: char)
    ensures IgnoreModifier(query, [c]) == Without(query, c)
    ensures !Contains(IgnoreModifier(query, [c]), [c])
  {
    RemoveAllSingle(query, c);
    var r := Without(query, c);
    forall i | 0 <= i <= |r| ensures !OccursAt(r, [c], i) {
      if i + 1 <= |r| {
        assert r[i..i + 1] == [r[i]];
      }
    }
  }

  // ---------------------------------------------------------------------------
  // The typed code: `query.match(/\d{4,24}/)?.[0]`
  // ---------------------------------------------------------------------------

  /** The length of the leading run of digits. */
  function DigitRun(s: string): (n: nat)
    ensures n <= |s| && AllDigits(s[..n])
    ensures n < |s| ==> !IsDigit(s[n])
  {
    if s != [] && IsDigit(s[0]) then
      var n := DigitRun(s[1..]);
      assert s[..1 + n] == [s[0]] + s[1..][..n];
      1 + n
    else 0
  }

  /** Four digits start at position `i`. */
  predicate FourDigitsAt(s: string, i: nat) {
    i <= |s| && DigitRun(s[i..]) >= 4
  }

  /** The leftmost position at or after `from` where four digits start. */
  function CodeStart(s: string, from: nat): (r: Option<nat>)
    ensures r.Some? ==> from <= r.value && FourDigitsAt(s, r.value)
    ensures r.Some? ==> forall j :: from <= j < r.value ==> !FourDigitsAt(s, j)
    ensures r.None? ==> forall j :: from <= j ==> !FourDigitsAt(s, j)
    decreases |s| - from
  {
    if from + 4 > |s| then
      assert forall j :: from <= j ==> !FourDigitsAt(s, j) by {
        forall j | from <= j && j <= |s| ensures DigitRun(s[j..]) < 4 { }
      }
      None
    else if DigitRun(s[from..]) >= 4 then Some(from)
    else CodeStart(s, from + 1)
  }

  /** The first match of `\d{4,24}`: the leftmost place with four digits, and the greedy run
      of up to 24 digits there. */
  function TypedCode(query: string): (r: Option<string>)
    ensures r.None? <==> forall j :: 0 <= j ==> !FourDigitsAt(query, j)
    ensures r.Some? ==> 4 <= |r.value| <= 24 && AllDigits(r.value)
    ensures r.Some? ==> var i := CodeStart(query, 0).value;
      && i + |r.value| <= |query| && r.value == query[i..i + |r.value|]
      && (forall j :: 0 <= j < i ==> !FourDigitsAt(query, j))
      && (|r.value| < 24 ==> i + |r.value| == |query| || !IsDigit(query[i + |r.value|]))
  {
    var start := CodeStart(query, 0);
    if start.None? then None
    else
      var i := start.value;
      assert FourDigitsAt(query, i);
      var run := DigitRun(query[i..]);
      var n := if run <= 24 then run else 24;
      GreedyCode(query, i);
      Some(query[i..i + n])
  }

  /** The greedy run of at most 24 digits at `i` is all digits and, when shorter than 24, is
      followed by the end of the string or by a non-digit. */
  lemma GreedyCode(s: string, i: nat)
    requires i <= |s|
    ensures var run := DigitRun(s[i..]); var n := if run <= 24 then run else 24;
      && i + n <= |s| && AllDigits(s[i..i + n])
      && (n < 24 ==> i + n == |s| || !IsDigit(s[i + n]))
  {
    var rest := s[i..];
    var run := DigitRun(rest);
    var n := if run <= 24 then run else 24;
    assert s[i..i + n] == rest[..run][..n];
    if run < |rest| {
      assert rest[run] == s[i + run];
    }
  }

  /** A query made of a PLU and a word: the PLU is the typed code. */
  lemma TypedCodeExample()
    ensures TypedCode("4011 bananas") == Some("4011")
  {
    var q := "4011 bananas";
    PluBeforeWord();
    assert CodeStart(q, 0) == Some(0);
    assert q[0..4] == "4011";
  }

  lemma PluBeforeWord()
    ensures DigitRun("4011 bananas"[0..]) == 4
  {
    var q := "4011 bananas";
    assert DigitRun(q[4..]) == 0;
    assert DigitRun(q[3..]) == 1;
    assert DigitRun(q[2..]) == 2;
    assert DigitRun(q[1..]) == 3;
  }

  /** Three digits are too few. */
  lemma TypedCodeTooShort()
    ensures TypedCode("401") == None
  {
    assert CodeStart("401", 0) == None;
  }

  // ---------------------------------------------------------------------------
  // Paging
  // ---------------------------------------------------------------------------

  /** Where `slice(0, end)` stops: a negative end counts from the back. */
  function SliceEnd(len: nat, end: int): (k: nat)
    ensures k <= len
    ensures 0 <= end ==> k == if end < len then end else len
  {
    if end < 0 then (if len + end >= 0 then len + end else 0)
    else if end < len then end else len
  }

  /** `renderSearchResults`: the first `n` results when paging, all of them otherwise. */
  function RenderSearchResults(results: seq<Item>, paging: bool, n: int): (r: seq<Item>)
    ensures !paging ==> r == results
    ensures paging ==> r == results[..SliceEnd(|results|, n)]
  {
    if paging then results[..SliceEnd(|results|, n)] else results
  }

  /** `renderShowMoreButton`. */
  predicate RenderShowMoreButton(results: seq<Item>, paging: bool, n: int) {
    paging && n < |results|
  }

  /** For a non-negative count, the button is shown exactly when some result is held back, and
      otherwise every result is on screen. */
  lemma ShowMoreIffHidden(results: seq<Item>, paging: bool, n: int)
    requires n >= 0
    ensures RenderShowMoreButton(results, paging, n) <==> |RenderSearchResults(results, paging, n)| < |results|
    ensures !RenderShowMoreButton(results, paging, n) ==> RenderSearchResults(results, paging, n) == results
  {
  }

  /** A click on a shown button reveals more, and never more than there are. */
  lemma ShowMoreProgress(n: int, itemsPerPage: int, total: nat)
    requires 0 <= n < total && itemsPerPage >= 1
    ensures n < Clamp(n + itemsPerPage, 1, total) <= total
  {
  }

  // ---------------------------------------------------------------------------
  // The pane's state
  // ---------------------------------------------------------------------------

  /** The application state the pane reads. */
  datatype ResultsContext = ResultsContext(
    itemTagPrefix: string,
    organicModifier: string,
    itemsPerPage: int,
    compiledItemData: seq<Item>,
    search: string -> seq<Item>)

  class ResultsPane {
    var searchResults: seq<Item>
    var numRenderResultItems: int
    var typedCode: string
    var showTypedCode: bool
    var enablePaging: bool

    /** The state before the first effect runs: the search of the query, one page, paging on. */
    constructor(query: string, ctx: ResultsContext)
      ensures searchResults == ctx.search(query) && numRenderResultItems == ctx.itemsPerPage
      ensures typedCode == "" && !showTypedCode && enablePaging
    {
      searchResults := ctx.search(query);
      numRenderResultItems := ctx.itemsPerPage;
      typedCode := "";
      showTypedCode := false;
      enablePaging := true;
    }

    function Rendered(): seq<Item>
      reads this
    {
      RenderSearchResults(searchResults, enablePaging, numRenderResultItems)
    }

    predicate ShowMoreButton()
      reads this
    {
      RenderShowMoreButton(searchResults, enablePaging, numRenderResultItems)
    }

    /** `update`, the effect run when the query or the catalog changes. */
    method Update(query: string, ctx: ResultsContext)
      modifies this
      ensures |query| == 0 ==>
        && searchResults == old(searchResults) && numRenderResultItems == old(numRenderResultItems)
        && typedCode == old(typedCode) && showTypedCode == old(showTypedCode)
        && enablePaging == old(enablePaging)
      ensures |query| > 0 ==> numRenderResultItems == ctx.itemsPerPage
      ensures |query| > 0 && ctx.itemTagPrefix == "" ==>
        searchResults == old(searchResults) && enablePaging == old(enablePaging)
      ensures |query| > 0 && ctx.itemTagPrefix != "" ==>
        var tag := TagToken(query, ctx.itemTagPrefix);
        if tag.Some? && tag.value != "" then
          !enablePaging && searchResults == FilterByTag(ctx.compiledItemData, tag.value)
        else
          enablePaging && searchResults == ctx.search(IgnoreModifier(query, ctx.organicModifier))
      ensures |query| > 0 ==>
        var code := TypedCode(query);
        && showTypedCode == code.Some?
        && typedCode == (if code.Some? then code.value else old(typedCode))
    {
      if |query| == 0 {
        return;
      }
      numRenderResultItems := ctx.itemsPerPage;
      if ctx.itemTagPrefix != "" {
        var tag := TagToken(query, ctx.itemTagPrefix);
        if tag.Some? && tag.value != "" {
          enablePaging := false;
          searchResults := FilterByTag(ctx.compiledItemData, tag.value);
        } else {
          enablePaging := true;
          searchResults := ctx.search(IgnoreModifier(query, ctx.organicModifier));
        }
      }
      var code := TypedCode(query);
      if code.Some? {
        typedCode := code.value;
        showTypedCode := true;
      } else {
        showTypedCode := false;
      }
    }

    /** The reset delegate: back to one page. */
    method OnResetQuery(itemsPerPage: int)
      modifies this
      ensures numRenderResultItems == itemsPerPage
      ensures searchResults == old(searchResults) && typedCode == old(typedCode)
      ensures showTypedCode == old(showTypedCode) && enablePaging == old(enablePaging)
    {
      numRenderResultItems := itemsPerPage;
    }

    /** One more page, bounded by the number of results and never below one. */
    method OnClickShowMoreButton(itemsPerPage: int)
      modifies this
      ensures numRenderResultItems == Clamp(old(numRenderResultItems) + itemsPerPage, 1, |searchResults|)
      ensures 1 <= numRenderResultItems
      ensures |searchResults| >= 1 ==> numRenderResultItems <= |searchResults|
      ensures searchResults == old(searchResults) && typedCode == old(typedCode)
      ensures showTypedCode == old(showTypedCode) && enablePaging == old(enablePaging)
    {
      numRenderResultItems := Clamp(numRenderResultItems + itemsPerPage, 1, |searchResults|);
    }
  }
}
