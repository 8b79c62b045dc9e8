/**
 * The key-combination mini-language (src/keys.ts).
 *
 * A combo is a run of modifier sigils (`^` Ctrl, `!` Alt, `+` Shift, `#` Meta) followed by a
 * key name; a configuration value holds alternatives separated by commas or white space.
 */
module Keys {
  import opened Wrappers
  import opened Text

  /** The fields of a keyboard event that the matcher reads. */
  datatype KeyEvent = KeyEvent(key: string, code: string, ctrlKey: bool, altKey: bool, shiftKey: bool, metaKey: bool)

  datatype KeyCombo = KeyCombo(ctrl: bool, alt: bool, shift: bool, meta: bool, key: string)

  predicate IsSigil(c: char) {
    c == '^' || c == '!' || c == '+' || c == '#'
  }

  predicate AllSigils(s: string) {
    forall i :: 0 <= i < |s| ==> IsSigil(s[i])
  }

  predicate HasLineTerminator(s: string) {
    exists i :: 0 <= i < |s| && IsLineTerminator(s[i])
  }

  /** The length of the leading run of sigils. */
  function SigilRun(s: string): (n: nat)
    ensures n <= |s| && AllSigils(s[..n])
    ensures n < |s| ==> !IsSigil(s[n])
  {
    if s != [] && IsSigil(s[0]) then
      var n := SigilRun(s[1..]);
      assert s[..1 + n] == [s[0]] + s[1..][..n];
      1 + n
    else 0
  }

  /** `getKeyCombo(str)`: the match of `^((?:\^?|!?|\+?|#?)*)(.+)$`. The sigil group is greedy
      but must leave at least one character; `.` refuses line terminators. When the pattern
      fails every field is undefined, which is `None` here. */
  function GetKeyCombo(s: string): (r: Option<KeyCombo>)
    ensures r.Some? <==> s != [] && !HasLineTerminator(s)
    ensures r.Some? ==> var p := |s| - |r.value.key|;
      && 1 <= |r.value.key| <= |s| && s[p..] == r.value.key && AllSigils(s[..p])
      && (|r.value.key| > 1 ==> !IsSigil(r.value.key[0]))
      && r.value.ctrl == ('^' in s[..p]) && r.value.alt == ('!' in s[..p])
      && r.value.shift == ('+' in s[..p]) && r.value.meta == ('#' in s[..p])
  {
    if s == [] || HasLineTerminator(s) then None
    else
      var n := SigilRun(s);
      var p := if n < |s| then n else |s| - 1;
      assert s[..p] == s[..n][..p];
      var mods := s[..p];
      Some(KeyCombo('^' in mods, '!' in mods, '+' in mods, '#' in mods, s[p..]))
  }

  /** A sigil prefix in any order and with any repetition, before a key that does not itself
      start a longer sigil run, parses to the flags of the sigils present and that key. */
  lemma ParseSigilPrefix(mods: string, key: string)
    requires AllSigils(mods) && |key| >= 1 && !HasLineTerminator(key)
    requires |key| > 1 ==> !IsSigil(key[0])
    ensures GetKeyCombo(mods + key) == Some(KeyCombo('^' in mods, '!' in mods, '+' in mods, '#' in mods, key))
  {
    var s := mods + key;
    assert !HasLineTerminator(s) by {
      forall i | 0 <= i < |s| ensures !IsLineTerminator(s[i]) {
        if i >= |mods| { assert s[i] == key[i - |mods|]; }
      }
    }
    SigilRunAfterSigils(mods, key);
    assert s[..|mods|] == mods;
  }

  lemma {:induction false} SigilRunAfterSigils(mods: string, key: string)
    requires AllSigils(mods) && |key| >= 1
    requires |key| > 1 ==> !IsSigil(key[0])
    ensures SigilRun(mods + key) == if IsSigil(key[0]) then |mods| + 1 else |mods|
  {
    if mods == [] {
      assert mods + key == key;
      if |key| == 1 && IsSigil(key[0]) {
        assert key[1..] == [];
      }
    } else {
      assert (mods + key)[1..] == mods[1..] + key;
      SigilRunAfterSigils(mods[1..], key);
    }
  }

  /** `"+"` is the Shift key itself, with no modifier. */
  lemma ParsePlusAlone()
    ensures GetKeyCombo("+") == Some(KeyCombo(false, false, false, false, "+"))
  {
    ParseSigilPrefix("", "+");
    assert "" + "+" == "+";
  }

  /** `"^+"` is Ctrl with the key "+". */
  lemma ParseCtrlPlus()
    ensures GetKeyCombo("^+") == Some(KeyCombo(true, false, false, false, "+"))
  {
    ParseSigilPrefix("^", "+");
    assert "^" + "+" == "^+";
  }

  lemma ParseCtrlShiftC()
    ensures GetKeyCombo("^+c") == Some(KeyCombo(true, false, true, false, "c"))
  {
    ParseSigilPrefix("^+", "c");
    assert "^+" + "c" == "^+c";
  }

  /** Order and repetition of sigils do not matter. */
  lemma ParseSigilOrder()
    ensures GetKeyCombo("+^c") == GetKeyCombo("^^+c")
  {
    ParseShiftCtrlC();
    ParseCtrlCtrlShiftC();
  }

  lemma ParseShiftCtrlC()
    ensures GetKeyCombo("+^c") == Some(KeyCombo(true, false, true, false, "c"))
  {
    ParseSigilPrefix("+^", "c");
    assert "+^" + "c" == "+^c";
  }

  lemma ParseCtrlCtrlShiftC()
    ensures GetKeyCombo("^^+c") == Some(KeyCombo(true, false, true, false, "c"))
  {
    assert AllSigils("^^+") by {
      forall i | 0 <= i < 3 ensures IsSigil("^^+"[i]) {
      }
    }
    assert "^^+" + "c" == "^^+c";
    assert '!' !in "^^+" && '#' !in "^^+";
    ParseSigilPrefix("^^+", "c");
  }

  /** `matchKeyCombo(event, str)`: all four modifier flags equal, and the combo's key equals
      either the event's key lowercased or the event's code as it is. */
  predicate MatchKeyCombo(e: KeyEvent, s: string) {
    match GetKeyCombo(s)
    case None => false
    case Some(kc) =>
      && kc.ctrl == e.ctrlKey && kc.alt == e.altKey && kc.shift == e.shiftKey && kc.meta == e.metaKey
      && (kc.key == Lower(e.key) || kc.key == e.code)
  }

  lemma EmptyComboNeverMatches(e: KeyEvent)
    ensures !MatchKeyCombo(e, "")
  {
  }

  /** The `^+c` example: Ctrl+Shift+C matches (the browser reports the key as "C"); the same
      with Alt also held does not, and neither does Ctrl+C without Shift. */
  lemma CtrlShiftCExample()
    ensures MatchKeyCombo(KeyEvent("C", "KeyC", true, false, true, false), "^+c")
    ensures !MatchKeyCombo(KeyEvent("C", "KeyC", true, true, true, false), "^+c")
    ensures !MatchKeyCombo(KeyEvent("c", "KeyC", true, false, false, false), "^+c")
    ensures MatchKeyCombo(KeyEvent(" ", "Space", true, false, false, false), "^Space")
  {
    ParseCtrlShiftC();
    assert Lower("C") == "c";
    ParseCtrlSpace();
  }

  lemma ParseCtrlSpace()
    ensures GetKeyCombo("^Space") == Some(KeyCombo(true, false, false, false, "Space"))
  {
    assert !HasLineTerminator("Space") by {
      forall i | 0 <= i < 5 ensures !IsLineTerminator("Space"[i]) {
      }
    }
    assert "^Space" == "^" + "Space";
    ParseSigilPrefix("^", "Space");
  }

  // ---------------------------------------------------------------------------
  // Alternatives: `str.split(/[\s,]+/)` and `some`
  // ---------------------------------------------------------------------------

  predicate IsSeparator(c: char) {
    IsWhitespace(c) || c == ','
  }

  predicate NoSeparator(s: string) {
    forall i :: 0 <= i < |s| ==> !IsSeparator(s[i])
  }

  /** `str.split(/[\s,]+/)`, scanning from the left: `cur` is the piece being read and
      `afterSep` says that the previous character was a separator (then `cur` is empty, and
      a further separator extends the same maximal run instead of ending a piece). */
  function SplitRuns(s: string, cur: string, afterSep: bool): (ps: seq<string>)
    ensures |ps| >= 1
    decreases |s|
  {
    if s == [] then [cur]
    else if !IsSeparator(s[0]) then SplitRuns(s[1..], cur + [s[0]], false)
    else if afterSep then SplitRuns(s[1..], [], true)
    else [cur] + SplitRuns(s[1..], [], true)
  }

  /** The pieces of `str.split(/[\s,]+/)`: the text between maximal separator runs, including
      the empty pieces before a leading and after a trailing run. */
  function Pieces(s: string): (ps: seq<string>)
    ensures |ps| >= 1
  {
    SplitRuns(s, [], false)
  }

  /** A leading separator gives an empty first piece; a run of separators ends one piece. */
  lemma PiecesExample()
    ensures Pieces(",^c, x") == ["", "^c", "x"]
  {
    ExampleAfterCaret();
    assert ",^c, x"[1..] == "^c, x";
  }

  lemma ExampleLastPiece()
    ensures SplitRuns("x", [], true) == ["x"]
  {
    assert "x"[1..] == [] && [] + "x" == "x";
  }

  lemma ExampleAfterC()
    ensures SplitRuns(", x", "^c", false) == ["^c", "x"]
  {
    ExampleLastPiece();
    assert ", x"[1..] == " x" && " x"[1..] == "x";
  }

  lemma ExampleAfterCaret()
    ensures SplitRuns("^c, x", [], true) == ["^c", "x"]
  {
    ExampleAfterC();
    assert "^c, x"[1..] == "c, x" && "c, x"[1..] == ", x" && [] + "^" + "c" == "^c";
  }

  /** `matchKeyCombos(event, str)`: some piece matches. */
  predicate MatchKeyCombos(e: KeyEvent, s: string) {
    exists p :: p in Pieces(s) && MatchKeyCombo(e, p)
  }

  /** The non-empty strings of a list, in order. */
  function NonEmpty(ps: seq<string>): seq<string>
  {
    if ps == [] then [] else (if ps[0] == [] then [] else [ps[0]]) + NonEmpty(ps[1..])
  }

  lemma {:induction false} NonEmptyMembers(ps: seq<string>, x: string)
    ensures x in NonEmpty(ps) <==> x in ps && x != []
  {
    if ps != [] {
      NonEmptyMembers(ps[1..], x);
      assert ps == [ps[0]] + ps[1..];
    }
  }

  lemma {:induction false} NonEmptyConcat(a: seq<string>, b: seq<string>)
    ensures NonEmpty(a + b) == NonEmpty(a) + NonEmpty(b)
  {
    if a == [] {
      assert a + b == b;
    } else {
      assert (a + b)[1..] == a[1..] + b;
      NonEmptyConcat(a[1..], b);
    }
  }

  /** Without separators the scan reads a single piece. */
  lemma {:induction false} SplitRunsWord(s: string, cur: string, afterSep: bool)
    requires NoSeparator(s) && (afterSep ==> cur == [])
    ensures SplitRuns(s, cur, afterSep) == [cur + s]
    decreases |s|
  {
    if s == [] {
      assert cur + s == cur;
    } else {
      SplitRunsWord(s[1..], cur + [s[0]], false);
      assert cur + [s[0]] + s[1..] == cur + s;
    }
  }

  /** After a separator the scan differs from a fresh one only by an empty first piece. */
  lemma SplitRunsAfterSeparator(b: string)
    ensures NonEmpty(SplitRuns(b, [], true)) == NonEmpty(SplitRuns(b, [], false))
  {
    if b != [] && IsSeparator(b[0]) {
      NonEmptyConcat([[]], SplitRuns(b[1..], [], true));
    }
  }

  /** The scan across a separator character: the non-empty pieces of `a + [c] + b` are those
      of `a` followed by those of `b`. */
  lemma {:induction false} SplitRunsAtSeparator(a: string, c: char, b: string, cur: string, afterSep: bool)
    requires IsSeparator(c) && (afterSep ==> cur == [])
    ensures NonEmpty(SplitRuns(a + [c] + b, cur, afterSep))
         == NonEmpty(SplitRuns(a, cur, afterSep)) + NonEmpty(SplitRuns(b, [], true))
    decreases |a|
  {
    var s := a + [c] + b;
    var rb := SplitRuns(b, [], true);
    if a == [] {
      assert s == [c] + b && s[1..] == b;
      if !afterSep {
        NonEmptyConcat([cur], rb);
      }
    } else {
      assert s[0] == a[0] && s[1..] == a[1..] + [c] + b;
      if !IsSeparator(a[0]) {
        SplitRunsAtSeparator(a[1..], c, b, cur + [a[0]], false);
      } else if afterSep {
        SplitRunsAtSeparator(a[1..], c, b, [], true);
      } else {
        var ra := SplitRuns(a[1..], [], true);
        SplitRunsAtSeparator(a[1..], c, b, [], true);
        NonEmptyConcat([cur], SplitRuns(s[1..], [], true));
        NonEmptyConcat([cur], ra);
        calc {
          NonEmpty(SplitRuns(s, cur, false));
          NonEmpty([cur]) + NonEmpty(SplitRuns(s[1..], [], true));
          NonEmpty([cur]) + (NonEmpty(ra) + NonEmpty(rb));
          (NonEmpty([cur]) + NonEmpty(ra)) + NonEmpty(rb);
          NonEmpty(SplitRuns(a, cur, false)) + NonEmpty(rb);
        }
      }
    }
  }

  /** Splitting at a separator character: the non-empty pieces of `a + [c] + b` are those of
      `a` followed by those of `b`. */
  lemma PiecesAtSeparator(a: string, c: char, b: string)
    requires IsSeparator(c)
    ensures NonEmpty(Pieces(a + [c] + b)) == NonEmpty(Pieces(a)) + NonEmpty(Pieces(b))
  {
    SplitRunsAtSeparator(a, c, b, [], false);
    SplitRunsAfterSeparator(b);
  }

  /** Only non-empty pieces can match, since an empty combo never does. */
  lemma MatchNonEmptyPieces(e: KeyEvent, s: string)
    ensures MatchKeyCombos(e, s) <==> exists p :: p in NonEmpty(Pieces(s)) && MatchKeyCombo(e, p)
  {
    if MatchKeyCombos(e, s) {
      var p :| p in Pieces(s) && MatchKeyCombo(e, p);
      NonEmptyMembers(Pieces(s), p);
    }
    if exists p :: p in NonEmpty(Pieces(s)) && MatchKeyCombo(e, p) {
      var p :| p in NonEmpty(Pieces(s)) && MatchKeyCombo(e, p);
      NonEmptyMembers(Pieces(s), p);
    }
  }

  /** Alternatives separated by a comma or white space: the whole matches iff either side does. */
  lemma AlternativesAreDisjunction(e: KeyEvent, a: string, c: char, b: string)
    requires IsSeparator(c)
    ensures MatchKeyCombos(e, a + [c] + b) <==> MatchKeyCombos(e, a) || MatchKeyCombos(e, b)
  {
    PiecesAtSeparator(a, c, b);
    MatchNonEmptyPieces(e, a + [c] + b);
    MatchNonEmptyPieces(e, a);
    MatchNonEmptyPieces(e, b);
  }

  /** A configuration value without separators is a single combo. */
  lemma SingleAlternative(e: KeyEvent, s: string)
    requires NoSeparator(s)
    ensures MatchKeyCombos(e, s) <==> MatchKeyCombo(e, s)
  {
    SplitRunsWord(s, [], false);
    assert [] + s == s;
  }
}
