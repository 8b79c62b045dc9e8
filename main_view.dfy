/**
 * The main view (components/MainView.tsx): the query, its split into segments, the active
 * segment and its navigation, the keyboard shortcuts, and the calculator and round-up
 * results shown beside the segments.
 */
module MainView {
  import opened Wrappers
  import opened Text
  import opened Lodash
  import opened Keys
  import RoundUp

  // ---------------------------------------------------------------------------
  // Splitting the query
  // ---------------------------------------------------------------------------

  /** `str.split(sep)` for a non-empty literal separator: the text between the occurrences
      found left to right. */
  function JsSplit(s: string, sep: string): (ps: seq<string>)
    requires |sep| > 0
    ensures |ps| >= 1
    ensures forall k :: 0 <= k < |ps| ==> !Contains(ps[k], sep)
    decreases |s|
  {
    match Find(s, sep, 0)
    case None =>
      FindNoneIffAbsent(s, sep);
      [s]
    case Some(i) =>
      BeforeFirstOccurrence(s, sep, i);
      [s[..i]] + JsSplit(s[i + |sep|..], sep)
  }

  /** The text before the first occurrence holds no occurrence. */
  lemma BeforeFirstOccurrence(s: string, sep: string, i: nat)
    requires |sep| > 0 && Find(s, sep, 0) == Some(i)
    ensures !Contains(s[..i], sep)
  {
    var r := Find(s, sep, 0);
    forall j | 0 <= j <= i ensures !OccursAt(s[..i], sep, j) {
      if j + |sep| <= i {
        assert s[..i][j..j + |sep|] == s[j..j + |sep|];
        assert !OccursAt(s, sep, j);
      }
    }
  }

  /** `pieces.join(sep)`. */
  function Join(ps: seq<string>, sep: string): string {
    if ps == [] then [] else if |ps| == 1 then ps[0] else ps[0] + sep + Join(ps[1..], sep)
  }

  /** Joining the pieces with the separator gives back the string. */
  lemma {:induction false} JoinJsSplit(s: string, sep: string)
    requires |sep| > 0
    ensures Join(JsSplit(s, sep), sep) == s
    decreases |s|
  {
    match Find(s, sep, 0)
    case None =>
    case Some(i) =>
      var rest := s[i + |sep|..];
      JoinJsSplit(rest, sep);
      JoinCons(s[..i], JsSplit(rest, sep), sep);
      SplitAround(s, i, i + |sep|);
      assert s[i..i + |sep|] == sep;
  }

  lemma JoinCons(x: string, ys: seq<string>, sep: string)
    requires |ys| >= 1
    ensures Join([x] + ys, sep) == x + sep + Join(ys, sep)
  {
    assert ([x] + ys)[1..] == ys;
  }

  /** `splitQuery(str)`: split at the separator (not at all when it is empty), then drop the
      empty pieces. */
  function SplitQuery(str: string, sep: string): (r: seq<string>)
    ensures forall k :: 0 <= k < |r| ==> r[k] != []
    ensures sep != [] ==> forall k :: 0 <= k < |r| ==> !Contains(r[k], sep)
    ensures sep == [] ==> r == (if str == [] then [] else [str])
  {
    if sep == [] then
      NonEmptySingle(str);
      NonEmpty([str])
    else
      var ps := JsSplit(str, sep);
      var r := NonEmpty(ps);
      forall k | 0 <= k < |r| ensures r[k] != [] && !Contains(r[k], sep) {
        assert r[k] in r;
        NonEmptyMembers(ps, r[k]);
        var j :| 0 <= j < |ps| && ps[j] == r[k];
      }
      r
  }

  /** The segments are the non-empty pieces of a split that joins back to the query. */
  lemma SplitQueryRoundTrip(str: string, sep: string)
    requires sep != []
    ensures SplitQuery(str, sep) == NonEmpty(JsSplit(str, sep))
    ensures Join(JsSplit(str, sep), sep) == str
  {
    JoinJsSplit(str, sep);
  }

  /** The leftmost occurrence is determined by the occurrences. */
  lemma FindLeftmost(s: string, sub: string, i: nat)
    requires OccursAt(s, sub, i) && forall j :: 0 <= j < i ==> !OccursAt(s, sub, j)
    ensures Find(s, sub, 0) == Some(i)
  {
  }

  /** In `a + [c] + b`, the first `c` is the first one in `a`, or the appended one. */
  lemma FindInExtended(a: string, c: char, b: string, i: nat)
    requires i <= |a| && forall j :: 0 <= j < i ==> !OccursAt(a, [c], j)
    requires i == |a| || a[i] == c
    ensures Find(a + [c] + b, [c], 0) == Some(i)
  {
    var s := a + [c] + b;
    forall j | 0 <= j < i ensures !OccursAt(s, [c], j) {
      assert !OccursAt(a, [c], j);
      assert s[j..j + 1] == a[j..j + 1];
    }
    assert s[i..i + 1] == [c];
    FindLeftmost(s, [c], i);
  }

  /** With a one-character separator, the split of `a + sep + b` is the split of `a` followed
      by the split of `b`. */
  lemma {:induction false} JsSplitAtSeparator(a: string, c: char, b: string)
    ensures JsSplit(a + [c] + b, [c]) == JsSplit(a, [c]) + JsSplit(b, [c])
    decreases |a|
  {
    var s := a + [c] + b;
    match Find(a, [c], 0)
    case None =>
      FindInExtended(a, c, b, |a|);
      assert s[..|a|] == a && s[|a| + 1..] == b;
    case Some(i) =>
      assert a[i..i + 1] == [c];
      FindInExtended(a, c, b, i);
      assert s[..i] == a[..i];
      assert s[i + 1..] == a[i + 1..] + [c] + b;
      JsSplitAtSeparator(a[i + 1..], c, b);
  }

  /** With a one-character separator, the segments of `a + sep + b` are those of `a` followed
      by those of `b`. */
  lemma SplitQueryAtSeparator(a: string, c: char, b: string)
    ensures SplitQuery(a + [c] + b, [c]) == SplitQuery(a, [c]) + SplitQuery(b, [c])
  {
    JsSplitAtSeparator(a, c, b);
    NonEmptyConcat(JsSplit(a, [c]), JsSplit(b, [c]));
  }

  lemma NonEmptySingle(x: string)
    ensures NonEmpty([x]) == if x == [] then [] else [x]
  {
    assert [x][1..] == [];
    assert NonEmpty([x]) == (if x == [] then [] else [x]) + NonEmpty([]);
  }

  /** A query without the separator is its own single segment (if non-empty). */
  lemma SplitQueryWithoutSeparator(str: string, sep: string)
    requires |sep| > 0 && !Contains(str, sep)
    ensures SplitQuery(str, sep) == if str == [] then [] else [str]
  {
    FindNoneIffAbsent(str, sep);
    NonEmptySingle(str);
  }

  /** "a;b;;c" gives three segments: the empty piece between the two separators is dropped. */
  lemma SplitQueryExample()
    ensures SplitQuery("a;b;;c", ";") == ["a", "b", "c"]
  {
    ExampleFirstSegment();
    ExampleSecondSegment();
    ExampleEmptyPiece();
    SingleCharNoSeparator('a', ';');
  }

  lemma ExampleFirstSegment()
    ensures SplitQuery("a;b;;c", ";") == SplitQuery("a", ";") + SplitQuery("b;;c", ";")
  {
    SplitQueryAtSeparator("a", ';', "b;;c");
    assert "a" + [';'] + "b;;c" == "a;b;;c";
  }

  lemma ExampleSecondSegment()
    ensures SplitQuery("b;;c", ";") == ["b"] + SplitQuery(";c", ";")
  {
    SplitQueryAtSeparator("b", ';', ";c");
    assert "b" + [';'] + ";c" == "b;;c";
    SingleCharNoSeparator('b', ';');
  }

  lemma ExampleEmptyPiece()
    ensures SplitQuery(";c", ";") == ["c"]
  {
    SplitQueryAtSeparator("", ';', "c");
    assert "" + [';'] + "c" == ";c";
    SingleCharNoSeparator('c', ';');
    assert !Contains("", ";");
    SplitQueryWithoutSeparator("", ";");
  }

  lemma SingleCharNoSeparator(x: char, c: char)
    requires x != c
    ensures SplitQuery([x], [c]) == [[x]]
  {
    assert [x][0..1] == [x];
    assert !OccursAt([x], [c], 0);
    assert !Contains([x], [c]);
    SplitQueryWithoutSeparator([x], [c]);
  }

  // ---------------------------------------------------------------------------
  // The calculator guard
  // ---------------------------------------------------------------------------

  /** `tryMath(query)`: an all-digit query is a code, never a sum, so it is not evaluated;
      anything else is whatever the evaluator makes of it (`None` for an error or a value
      that is not a number). */
  function TryMath(query: string, evaluate: string -> Option<real>): (r: Option<real>)
    ensures |query| >= 1 && AllDigits(query) ==> r.None?
    ensures !(|query| >= 1 && AllDigits(query)) ==> r == evaluate(query)
  {
    if |query| >= 1 && AllDigits(query) then None else evaluate(query)
  }

  // ---------------------------------------------------------------------------
  // Keyboard shortcuts
  // ---------------------------------------------------------------------------

  /** What the key-down handler does with an event. */
  datatype KeyOutcome =
    | Ignored                  // the view is not active
    | ClickResult(index: int)  // Ctrl+Alt+F<n>: click the n-th result
    | SelectSegment(index: int)
    | HeldModifier             // any modifier held: nothing further is checked
    | Reset
    | NavLeft
    | NavRight
    | ClearInput               // Enter: focus and clear the input
    | FocusInput               // a printable key while the input is not focused
    | Unhandled

  /** The preferences and the page state the handler reads. */
  datatype KeyContext = KeyContext(
    resetQueryKey: string,
    navLeftKey: string,
    navRightKey: string,
    active: bool,
    showShadowbox: bool,
    segments: nat,
    inputFocused: bool,
    tabbableFocused: bool)

  predicate AnyModifier(e: KeyEvent) {
    e.ctrlKey || e.altKey || e.shiftKey || e.metaKey
  }

  /** `^F\d{1,2}$`, with its number. */
  function FunctionKeyNumber(key: string): (r: Option<nat>)
    ensures r.Some? ==> r.value < 100
  {
    if 2 <= |key| <= 3 && key[0] == 'F' && AllDigits(key[1..]) then
      ParseDigitsBound(key[1..]);
      assert Pow10(2) == 100;
      assert Pow10(1) == 10;
      Some(ParseDigits(key[1..]))
    else None
  }

  /** `[e.key, e.code].includes(k)` for a configured, non-empty key. */
  predicate PlainKeyIs(e: KeyEvent, k: string) {
    k != "" && (e.key == k || e.code == k)
  }

  /** The handler, check by check in the order of the source. */
  function KeyDispatch(e: KeyEvent, kc: KeyContext): KeyOutcome {
    if !kc.active then Ignored
    else if e.ctrlKey && e.altKey && FunctionKeyNumber(e.key).Some? then
      ClickResult(FunctionKeyNumber(e.key).value - 1)
    else if e.ctrlKey && |e.key| == 1 && IsDigit(e.key[0]) then
      SelectSegment(if e.key == "0" then 9 else DigitValue(e.key[0]) - 1)
    else if AnyModifier(e) then HeldModifier
    else if PlainKeyIs(e, kc.resetQueryKey) then Reset
    else if !kc.showShadowbox && kc.segments > 1 && PlainKeyIs(e, kc.navLeftKey) then NavLeft
    else if !kc.showShadowbox && kc.segments > 1 && PlainKeyIs(e, kc.navRightKey) then NavRight
    else if e.key == "Enter" && (kc.inputFocused || !kc.tabbableFocused) then ClearInput
    else if !kc.inputFocused && |e.key| == 1 && !IsWhitespace(e.key[0]) then FocusInput
    else Unhandled
  }

  /** Ctrl+1 .. Ctrl+9 select segments 0 .. 8, and Ctrl+0 selects segment 9. */
  lemma CtrlDigitSelectsSegment(e: KeyEvent, kc: KeyContext)
    requires kc.active && e.ctrlKey && |e.key| == 1 && IsDigit(e.key[0])
    ensures KeyDispatch(e, kc) == SelectSegment((DigitValue(e.key[0]) + 9) % 10)
  {
    assert FunctionKeyNumber(e.key).None?;
    if e.key[0] == '0' {
      assert e.key == "0";
    } else {
      assert e.key != "0";
    }
  }

  /** Once a modifier is held, only the two Ctrl shortcuts can act. */
  lemma HeldModifierEndsHandling(e: KeyEvent, kc: KeyContext)
    requires kc.active && AnyModifier(e)
    ensures KeyDispatch(e, kc).ClickResult? || KeyDispatch(e, kc).SelectSegment? || KeyDispatch(e, kc) == HeldModifier
    ensures KeyDispatch(e, kc).ClickResult? || KeyDispatch(e, kc).SelectSegment? ==> e.ctrlKey
  {
  }

  /** The reset key acts exactly when an unmodified key or code equals it. */
  lemma ResetKeyRule(e: KeyEvent, kc: KeyContext)
    requires kc.active && !AnyModifier(e)
    ensures KeyDispatch(e, kc) == Reset <==> PlainKeyIs(e, kc.resetQueryKey)
  {
  }

  /** The navigation keys act only with more than one segment and no shadowbox; under those
      conditions, an unmodified left key that is not also the reset key navigates left. */
  lemma NavigationGuard(e: KeyEvent, kc: KeyContext)
    ensures KeyDispatch(e, kc) == NavLeft || KeyDispatch(e, kc) == NavRight ==>
      kc.active && !AnyModifier(e) && !kc.showShadowbox && kc.segments > 1 && !PlainKeyIs(e, kc.resetQueryKey)
    ensures KeyDispatch(e, kc) == NavLeft ==> PlainKeyIs(e, kc.navLeftKey)
    ensures KeyDispatch(e, kc) == NavRight ==> PlainKeyIs(e, kc.navRightKey) && !PlainKeyIs(e, kc.navLeftKey)
    ensures (kc.active && !AnyModifier(e) && !kc.showShadowbox && kc.segments > 1
      && !PlainKeyIs(e, kc.resetQueryKey) && PlainKeyIs(e, kc.navLeftKey)) ==> KeyDispatch(e, kc) == NavLeft
  {
  }

  /** The reset and navigation keys are compared as plain strings, not as combos: a binding
      "^x" is reset by a key literally named "^x", and Ctrl+X does nothing. */
  lemma PlainComparisonNotCombo(kc: KeyContext)
    requires kc.active && kc.resetQueryKey == "^x"
    ensures KeyDispatch(KeyEvent("x", "KeyX", true, false, false, false), kc) == HeldModifier
  {
    assert FunctionKeyNumber("x").None?;
  }

  // ---------------------------------------------------------------------------
  // Navigation among segments
  // ---------------------------------------------------------------------------

  /** For an index in range, the left button shows exactly when moving left changes the
      index, and the right button exactly when moving right does. */
  lemma ButtonsShowWhenMoving(i: int, len: int)
    requires 0 <= i < len
    ensures i > 0 <==> Clamp(i - 1, 0, len - 1) != i
    ensures i < len - 1 <==> Clamp(i + 1, 0, len - 1) != i
    ensures Clamp(i - 1, 0, len - 1) == (if i > 0 then i - 1 else 0)
    ensures Clamp(i + 1, 0, len - 1) == (if i < len - 1 then i + 1 else len - 1)
  {
  }

  /** The preferences the view reads. */
  datatype ViewPrefs = ViewPrefs(
    querySeparator: string,
    defaultQuery: string,
    resetQueryKey: string,
    navLeftKey: string,
    navRightKey: string)

  /** The component's state. `splitVersion` stands for the identity of the `splitQueries`
      array, which a new split replaces even when its contents are equal. */
  class MainViewState {
    const prefs: ViewPrefs
    const evaluate: string -> Option<real>
    var query: string
    var splitQueries: seq<string>
    var splitVersion: nat
    var activeQueryIndex: int
    var highlightQuery: Option<string>
    var showThrobber: bool
    var mathResult: real
    var showMathResult: bool
    var roundUpResult: int
    var showRoundUpResult: bool
    var showShadowbox: bool
    var useNumInput: bool
    var history: seq<string>
    /** Whether the location's query string holds an `sb` parameter. */
    var urlHasSb: bool

    /** The segment invariants, and the shadowbox as `updateQueryParams` leaves it: the view
        re-renders on every location change, and that effect runs after every render. */
    ghost predicate Valid()
      reads this
    {
      SegmentsValid() && showShadowbox == urlHasSb
    }

    /** The active index is 0 or names a segment, the highlight is the active segment, and a
        shown round-up is a real suggestion. */
    ghost predicate SegmentsValid()
      reads this
    {
      && 0 <= activeQueryIndex && (activeQueryIndex == 0 || activeQueryIndex < |splitQueries|)
      && (highlightQuery.Some? ==> activeQueryIndex < |splitQueries|)
      && (highlightQuery.Some? ==> highlightQuery.value == splitQueries[activeQueryIndex])
      && (showRoundUpResult ==> 1 <= roundUpResult <= 99)
    }

    /** The math box and the round-up box: whether each is shown, and its stored result. */
    function Boxes(): (bool, real, bool, int)
      reads this
    {
      (showMathResult, mathResult, showRoundUpResult, roundUpResult)
    }

    /** The boxes as `onChangedQuery` leaves them for the query `q`: each shown exactly for a
        non-zero result, and its stored result replaced only then. */
    predicate BoxesFor(q: string, prevMath: real, prevRoundUp: int)
      reads this
    {
      var m := TryMath(q, evaluate);
      var r := RoundUp.TryRoundUp(q);
      && showMathResult == (m.Some? && m.value != 0.0)
      && mathResult == (if showMathResult then m.value else prevMath)
      && showRoundUpResult == (r.Some? && r.value != 0)
      && roundUpResult == (if showRoundUpResult then r.value else prevRoundUp)
    }

    /** The state `setQuery(q)` and the effects it triggers leave, from a state whose query
        was `was`, with segments `segs`, history `hist`, boxes `boxes` and the `sb` parameter
        `sb`: nothing happens for the same query; a new one goes back to the first segment,
        and then "" keeps the rest, "wc" navigates to the weight calculator, and any other
        query is split, fills the boxes and removes `sb`, which closes the shadowbox. */
    predicate QuerySet(q: string, was: string, segs: seq<string>, hist: seq<string>, boxes: (bool, real, bool, int), sb: bool)
      reads this
    {
      && query == q
      && urlHasSb == (sb && (q == was || q == "" || q == "wc"))
      && showShadowbox == urlHasSb
      && (q == was ==> splitQueries == segs && history == hist && Boxes() == boxes)
      && (q != was ==> activeQueryIndex == 0 && highlightQuery.None?)
      && (q != was && q == "" ==> splitQueries == segs && history == hist && Boxes() == boxes)
      && (q != was && q == "wc" ==> splitQueries == segs && history == hist + ["/wcalc"] && Boxes() == boxes)
      && (q != was && q != "" && q != "wc" ==>
            splitQueries == SplitQuery(q, prefs.querySeparator) && history == hist && BoxesFor(q, boxes.1, boxes.3))
    }

    /** The active segment is highlighted (nothing, when there are no segments). */
    predicate HighlightsActive()
      reads this
    {
      highlightQuery == if 0 <= activeQueryIndex < |splitQueries| then Some(splitQueries[activeQueryIndex]) else None
    }

    predicate ShowViewLeftButton()
      reads this
    {
      activeQueryIndex > 0
    }

    predicate ShowViewRightButton()
      reads this
    {
      activeQueryIndex < |splitQueries| - 1
    }

    /** The state after the first render's effects: the shadowbox as the URL says, the
        default query, split unless it is empty or the weight-calculator command, and the
        boxes for it. */
    constructor(prefs: ViewPrefs, evaluate: string -> Option<real>, hasShadowboxParam: bool)
      ensures this.prefs == prefs && this.evaluate == evaluate && Valid()
      ensures query == prefs.defaultQuery && activeQueryIndex == 0 && highlightQuery.None?
      ensures splitQueries == if query == "" || query == "wc" then [query] else SplitQuery(query, prefs.querySeparator)
      ensures history == if query == "wc" then ["/wcalc"] else []
      ensures query != "" && query != "wc" ==> BoxesFor(query, 0.0, 0)
      ensures query == "" || query == "wc" ==> Boxes() == (false, 0.0, false, 0)
      ensures urlHasSb == hasShadowboxParam && showShadowbox == hasShadowboxParam
      ensures !showThrobber && !useNumInput
    {
      this.prefs := prefs;
      this.evaluate := evaluate;
      query := prefs.defaultQuery;
      splitQueries := [prefs.defaultQuery];
      splitVersion := 0;
      activeQueryIndex := 0;
      highlightQuery := None;
      showThrobber := false;
      mathResult := 0.0;
      showMathResult := false;
      roundUpResult := 0;
      showRoundUpResult := false;
      showShadowbox := false;
      useNumInput := false;
      history := [];
      urlHasSb := hasShadowboxParam;
      new;
      UpdateQueryParams();
      OnChangedQuery(true);
      UpdateChangedSplitQueries();
    }

    /** `onChangedQuery`, the effect of a new query; after the first render a split query
        also removes `sb` from the location. */
    method OnChangedQuery(firstRender: bool)
      requires SegmentsValid()
      modifies this
      ensures query == old(query) && showThrobber == old(showThrobber)
      ensures showShadowbox == old(showShadowbox) && useNumInput == old(useNumInput)
      ensures urlHasSb == (old(urlHasSb) && (query == "" || query == "wc" || firstRender))
      ensures query == "" ==>
        && splitQueries == old(splitQueries) && splitVersion == old(splitVersion)
        && history == old(history) && showMathResult == old(showMathResult)
        && showRoundUpResult == old(showRoundUpResult) && roundUpResult == old(roundUpResult)
        && mathResult == old(mathResult)
      ensures query == "wc" ==>
        && splitQueries == old(splitQueries) && splitVersion == old(splitVersion)
        && history == old(history) + ["/wcalc"] && showMathResult == old(showMathResult)
        && showRoundUpResult == old(showRoundUpResult) && roundUpResult == old(roundUpResult)
        && mathResult == old(mathResult)
      ensures query != "" && query != "wc" ==>
        && splitQueries == SplitQuery(query, prefs.querySeparator) && splitVersion == old(splitVersion) + 1
        && history == old(history)
        && var m := TryMath(query, evaluate);
        && showMathResult == (m.Some? && m.value != 0.0)
        && mathResult == (if showMathResult then m.value else old(mathResult))
        && var r := RoundUp.TryRoundUp(query);
        && showRoundUpResult == (r.Some? && r.value != 0)
        && roundUpResult == (if showRoundUpResult then r.value else old(roundUpResult))
      ensures activeQueryIndex == old(activeQueryIndex) && highlightQuery == old(highlightQuery)
      ensures (query == "" || query == "wc") ==> SegmentsValid()
    {
      if |query| == 0 {
        return;
      }
      if query == "wc" {
        history := history + ["/wcalc"];
        return;
      }
      splitQueries := SplitQuery(query, prefs.querySeparator);
      splitVersion := splitVersion + 1;
      if !firstRender {
        urlHasSb := false;
      }
      ShowMath();
      ShowRoundUp();
    }

    /** The math box of `onChangedQuery`: shown for a non-zero value. */
    method ShowMath()
      modifies this
      ensures var m := TryMath(query, evaluate);
        && showMathResult == (m.Some? && m.value != 0.0)
        && mathResult == (if showMathResult then m.value else old(mathResult))
      ensures query == old(query) && splitQueries == old(splitQueries) && splitVersion == old(splitVersion)
      ensures activeQueryIndex == old(activeQueryIndex) && highlightQuery == old(highlightQuery)
      ensures showThrobber == old(showThrobber) && showShadowbox == old(showShadowbox) && useNumInput == old(useNumInput)
      ensures showRoundUpResult == old(showRoundUpResult) && roundUpResult == old(roundUpResult)
      ensures history == old(history) && urlHasSb == old(urlHasSb)
    {
      var gotMath := TryMath(query, evaluate);
      if gotMath.Some? && gotMath.value != 0.0 {
        mathResult := gotMath.value;
        showMathResult := true;
      } else {
        showMathResult := false;
      }
    }

    /** The round-up box of `onChangedQuery`: shown for a non-zero suggestion. */
    method ShowRoundUp()
      modifies this
      ensures var r := RoundUp.TryRoundUp(query);
        && showRoundUpResult == (r.Some? && r.value != 0)
        && roundUpResult == (if showRoundUpResult then r.value else old(roundUpResult))
      ensures query == old(query) && splitQueries == old(splitQueries) && splitVersion == old(splitVersion)
      ensures activeQueryIndex == old(activeQueryIndex) && highlightQuery == old(highlightQuery)
      ensures showThrobber == old(showThrobber) && showShadowbox == old(showShadowbox) && useNumInput == old(useNumInput)
      ensures showMathResult == old(showMathResult) && mathResult == old(mathResult)
      ensures history == old(history) && urlHasSb == old(urlHasSb)
    {
      var gotRoundUp := RoundUp.TryRoundUp(query);
      if gotRoundUp.Some? && gotRoundUp.value != 0 {
        roundUpResult := gotRoundUp.value;
        showRoundUpResult := true;
      } else {
        showRoundUpResult := false;
      }
    }

    /** `updateChangedSplitQueries`, run after any change of the split list, the query or the
        default query: back to the first segment, nothing highlighted. */
    method UpdateChangedSplitQueries()
      modifies this
      ensures activeQueryIndex == 0 && highlightQuery.None?
      ensures query == old(query) && splitQueries == old(splitQueries) && splitVersion == old(splitVersion)
      ensures history == old(history) && showMathResult == old(showMathResult) && mathResult == old(mathResult)
      ensures showRoundUpResult == old(showRoundUpResult) && roundUpResult == old(roundUpResult)
      ensures showThrobber == old(showThrobber) && showShadowbox == old(showShadowbox)
      ensures useNumInput == old(useNumInput) && urlHasSb == old(urlHasSb)
      ensures (showRoundUpResult ==> 1 <= roundUpResult <= 99) ==> SegmentsValid()
    {
      activeQueryIndex := 0;
      highlightQuery := None;
    }

    /** `setQuery(q)` after the first render, followed by the effects it triggers and the
        render that a removal of `sb` causes. Setting the same query again changes nothing. */
    method SetQuery(q: string)
      requires Valid()
      modifies this
      ensures Valid()
      ensures QuerySet(q, old(query), old(splitQueries), old(history), old(Boxes()), old(urlHasSb))
      ensures q == old(query) ==> activeQueryIndex == old(activeQueryIndex) && highlightQuery == old(highlightQuery)
      ensures showThrobber == old(showThrobber) && useNumInput == old(useNumInput)
    {
      if q != query {
        query := q;
        OnChangedQuery(false);
        UpdateChangedSplitQueries();
        UpdateQueryParams();
      }
    }

    /** `setActiveQueryTo(index)`: the clamped index becomes active and its segment is
        highlighted (nothing, when there are no segments). */
    method SetActiveQueryTo(index: int)
      requires Valid()
      modifies this
      ensures Valid()
      ensures activeQueryIndex == Clamp(index, 0, |splitQueries| - 1) && HighlightsActive()
      ensures query == old(query) && splitQueries == old(splitQueries) && history == old(history)
      ensures showThrobber == old(showThrobber) && useNumInput == old(useNumInput)
      ensures showShadowbox == old(showShadowbox) && urlHasSb == old(urlHasSb) && Boxes() == old(Boxes())
    {
      var clamped := Clamp(index, 0, |splitQueries| - 1);
      activeQueryIndex := clamped;
      highlightQuery := if clamped < |splitQueries| then Some(splitQueries[clamped]) else None;
    }

    method SetActiveQueryLeft()
      requires Valid()
      modifies this
      ensures Valid()
      ensures activeQueryIndex == Clamp(old(activeQueryIndex) - 1, 0, |splitQueries| - 1) && HighlightsActive()
      ensures query == old(query) && splitQueries == old(splitQueries) && history == old(history)
      ensures showThrobber == old(showThrobber) && useNumInput == old(useNumInput)
      ensures showShadowbox == old(showShadowbox) && urlHasSb == old(urlHasSb) && Boxes() == old(Boxes())
    {
      SetActiveQueryTo(activeQueryIndex - 1);
    }

    method SetActiveQueryRight()
      requires Valid()
      modifies this
      ensures Valid()
      ensures activeQueryIndex == Clamp(old(activeQueryIndex) + 1, 0, |splitQueries| - 1) && HighlightsActive()
      ensures query == old(query) && splitQueries == old(splitQueries) && history == old(history)
      ensures showThrobber == old(showThrobber) && useNumInput == old(useNumInput)
      ensures showShadowbox == old(showShadowbox) && urlHasSb == old(urlHasSb) && Boxes() == old(Boxes())
    {
      SetActiveQueryTo(activeQueryIndex + 1);
    }

    /** `resetQuery`: back to the default query, the first segment and the text keyboard,
        and `sb` is removed from the location, which closes the shadowbox. */
    method ResetQuery()
      requires Valid()
      modifies this
      ensures Valid()
      ensures QuerySet(prefs.defaultQuery, old(query), old(splitQueries), old(history), old(Boxes()), false)
      ensures activeQueryIndex == 0 && highlightQuery.None?
      ensures !showThrobber && !useNumInput && !urlHasSb && !showShadowbox
    {
      highlightQuery := None;
      activeQueryIndex := 0;
      showThrobber := false;
      useNumInput := false;
      urlHasSb := false;
      UpdateQueryParams();
      SetQuery(prefs.defaultQuery);
    }

    /** The keyboard toggle: switch the input type and clear the query. */
    method OnClickToggleKbButton()
      requires Valid()
      modifies this
      ensures Valid()
      ensures useNumInput == !old(useNumInput)
      ensures QuerySet("", old(query), old(splitQueries), old(history), old(Boxes()), old(urlHasSb))
      ensures old(query) == "" ==> activeQueryIndex == old(activeQueryIndex) && highlightQuery == old(highlightQuery)
      ensures showThrobber == old(showThrobber) && showShadowbox == old(showShadowbox)
    {
      useNumInput := !useNumInput;
      SetQuery("");
    }

    /** `updateQueryParams`: the shadowbox is shown while the URL has an `sb` parameter. */
    method UpdateQueryParams()
      modifies this
      ensures showShadowbox == urlHasSb && urlHasSb == old(urlHasSb)
      ensures query == old(query) && splitQueries == old(splitQueries) && splitVersion == old(splitVersion)
      ensures activeQueryIndex == old(activeQueryIndex) && highlightQuery == old(highlightQuery)
      ensures history == old(history) && showThrobber == old(showThrobber) && useNumInput == old(useNumInput)
      ensures Boxes() == old(Boxes())
      ensures old(SegmentsValid()) ==> Valid()
    {
      showShadowbox := urlHasSb;
    }

    /** A change of the location made elsewhere, such as the shadowbox's own close button
        removing `sb`: the view re-renders and the shadowbox follows the new URL. */
    method LocationChanged(hasSb: bool)
      requires Valid()
      modifies this
      ensures Valid() && urlHasSb == hasSb && showShadowbox == hasSb
      ensures query == old(query) && splitQueries == old(splitQueries) && history == old(history)
      ensures activeQueryIndex == old(activeQueryIndex) && highlightQuery == old(highlightQuery)
      ensures showThrobber == old(showThrobber) && useNumInput == old(useNumInput) && Boxes() == old(Boxes())
    {
      urlHasSb := hasSb;
      UpdateQueryParams();
    }

    /** A navigation key: the throbber is stopped and the neighbouring segment on that side
        becomes active. */
    method Navigate(left: bool)
      requires Valid()
      modifies this
      ensures Valid() && !showThrobber && HighlightsActive()
      ensures activeQueryIndex == Clamp(old(activeQueryIndex) + (if left then -1 else 1), 0, |splitQueries| - 1)
      ensures query == old(query) && splitQueries == old(splitQueries) && history == old(history)
      ensures useNumInput == old(useNumInput) && showShadowbox == old(showShadowbox) && urlHasSb == old(urlHasSb)
      ensures Boxes() == old(Boxes())
    {
      showThrobber := false;
      if left {
        SetActiveQueryLeft();
      } else {
        SetActiveQueryRight();
      }
    }

    /** `handleKeyDown`: the decision of `KeyDispatch` and the state changes it makes. The
        focus of the page is given as two flags. */
    method HandleKeyDown(e: KeyEvent, active: bool, inputFocused: bool, tabbableFocused: bool) returns (outcome: KeyOutcome)
      requires Valid()
      modifies this
      ensures Valid()
      ensures outcome == KeyDispatch(e, KeyContext(prefs.resetQueryKey, prefs.navLeftKey, prefs.navRightKey,
        active, old(showShadowbox), old(|splitQueries|), inputFocused, tabbableFocused))
      ensures outcome == Reset ==>
        && QuerySet(prefs.defaultQuery, old(query), old(splitQueries), old(history), old(Boxes()), false)
        && activeQueryIndex == 0 && highlightQuery.None? && !showThrobber && !useNumInput && !showShadowbox
      ensures outcome != Reset ==>
        && query == old(query) && splitQueries == old(splitQueries) && history == old(history)
        && Boxes() == old(Boxes()) && useNumInput == old(useNumInput)
        && showShadowbox == old(showShadowbox) && urlHasSb == old(urlHasSb)
      ensures outcome.SelectSegment? ==> activeQueryIndex == Clamp(outcome.index, 0, |splitQueries| - 1)
      ensures outcome == NavLeft ==> activeQueryIndex == Clamp(old(activeQueryIndex) - 1, 0, |splitQueries| - 1)
      ensures outcome == NavRight ==> activeQueryIndex == Clamp(old(activeQueryIndex) + 1, 0, |splitQueries| - 1)
      ensures outcome.SelectSegment? || outcome == NavLeft || outcome == NavRight ==> HighlightsActive()
      ensures outcome.SelectSegment? ==> showThrobber == old(showThrobber)
      ensures outcome == NavLeft || outcome == NavRight ==> !showThrobber
      ensures !(outcome.SelectSegment? || outcome == Reset || outcome == NavLeft || outcome == NavRight) ==> (
        && activeQueryIndex == old(activeQueryIndex)
        && highlightQuery == old(highlightQuery) && showThrobber == old(showThrobber))
    {
      var kc := KeyContext(prefs.resetQueryKey, prefs.navLeftKey, prefs.navRightKey,
        active, showShadowbox, |splitQueries|, inputFocused, tabbableFocused);
      outcome := KeyDispatch(e, kc);
      match outcome {
        case SelectSegment(i) =>
          SetActiveQueryTo(i);
        case Reset =>
          ResetQuery();
        case NavLeft =>
          Navigate(true);
        case NavRight =>
          Navigate(false);
        case _ =>
      }
    }
  }
}
