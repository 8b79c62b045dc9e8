/**
 * String helpers shared by the model: the pieces of JavaScript's string and regular-expression
 * built-ins that the application uses (`\d`, `\s`, `indexOf`, `endsWith`, `padStart`,
 * `replace(/x/g, '')`, `toLowerCase`, `Number(...)`, `String(n)`).
 * Strings are sequences of code points.
 */
module Text {
  import opened Wrappers

  // ---------------------------------------------------------------------------
  // Digits and numbers
  // ---------------------------------------------------------------------------

  /** The regular-expression class `\d` (ASCII digits only, as in JavaScript without the `u` flag). */
  predicate IsDigit(c: char) {
    '0' <= c <= '9'
  }

  predicate AllDigits(s: string) {
    forall i :: 0 <= i < |s| ==> IsDigit(s[i])
  }

  /** The anchored regular expression `^\d{lo,hi}$`. */
  predicate DigitsBetween(s: string, lo: nat, hi: nat) {
    lo <= |s| <= hi && AllDigits(s)
  }

  function DigitValue(c: char): (d: nat)
    requires IsDigit(c)
    ensures d < 10
  {
    (c as int) - ('0' as int)
  }

  function DigitChar(d: nat): (c: char)
    requires d < 10
    ensures IsDigit(c) && DigitValue(c) == d
  {
    (('0' as int) + d) as char
  }

  function Pow10(k: nat): (p: nat)
    ensures p >= 1
  {
    if k == 0 then 1 else 10 * Pow10(k - 1)
  }

  /** `Number(s)` for a non-empty all-digit string: its decimal value. */
  function ParseDigits(s: string): nat
    requires AllDigits(s)
  {
    if s == [] then 0 else 10 * ParseDigits(s[..|s| - 1]) + DigitValue(s[|s| - 1])
  }

  lemma {:induction false} ParseDigitsBound(s: string)
    requires AllDigits(s)
    ensures ParseDigits(s) < Pow10(|s|)
  {
    if s != [] {
      ParseDigitsBound(s[..|s| - 1]);
    }
  }

  /** `String(n)` for a non-negative integer: its decimal digits without leading zeros. */
  function NatToString(n: nat): (r: string)
    ensures |r| >= 1 && AllDigits(r)
  {
    if n < 10 then [DigitChar(n)] else NatToString(n / 10) + [DigitChar(n % 10)]
  }

  lemma {:induction false} NatToStringLength(n: nat, k: nat)
    requires k >= 1
    ensures |NatToString(n)| <= k <==> n < Pow10(k)
  {
    if n >= 10 && k >= 2 {
      NatToStringLength(n / 10, k - 1);
    } else if n >= 10 {
      assert |NatToString(n)| == |NatToString(n / 10)| + 1;
    }
  }

  /** `String(n)` has exactly four characters precisely for 1000..9999 among non-negative integers. */
  lemma FourCharacterNumbers(n: nat)
    ensures |NatToString(n)| == 4 <==> 1000 <= n <= 9999
  {
    NatToStringLength(n, 4);
    NatToStringLength(n, 3);
  }

  lemma {:induction false} ParseNatToString(n: nat)
    ensures ParseDigits(NatToString(n)) == n
  {
    if n >= 10 {
      var s := NatToString(n);
      assert s[..|s| - 1] == NatToString(n / 10);
      ParseNatToString(n / 10);
    }
  }

  // ---------------------------------------------------------------------------
  // Character classes
  // ---------------------------------------------------------------------------

  /** The regular-expression class `\s`: ECMAScript white space and line terminators. */
  predicate IsWhitespace(c: char) {
    c == ' ' || c == '\t' || c == '\n' || c == '\r' || c == '\U{000B}' || c == '\U{000C}'
    || c == '\U{00A0}' || c == '\U{1680}' || ('\U{2000}' <= c <= '\U{200A}')
    || c == '\U{2028}' || c == '\U{2029}' || c == '\U{202F}' || c == '\U{205F}'
    || c == '\U{3000}' || c == '\U{FEFF}'
  }

  /** The characters that `.` in a regular expression does not match. */
  predicate IsLineTerminator(c: char) {
    c == '\n' || c == '\r' || c == '\U{2028}' || c == '\U{2029}'
  }

  function LowerChar(c: char): char {
    if 'A' <= c <= 'Z' then ((c as int) + 32) as char else c
  }

  /** `toLowerCase()`, on the ASCII letters. */
  function Lower(s: string): (r: string)
    ensures |r| == |s|
    ensures forall i :: 0 <= i < |s| ==> r[i] == LowerChar(s[i])
  {
    if s == [] then [] else [LowerChar(s[0])] + Lower(s[1..])
  }

  // ---------------------------------------------------------------------------
  // Substrings
  // ---------------------------------------------------------------------------

  predicate OccursAt(s: string, sub: string, i: nat) {
    i + |sub| <= |s| && s[i..i + |sub|] == sub
  }

  /** `s.includes(sub)`. */
  predicate Contains(s: string, sub: string) {
    exists i :: 0 <= i <= |s| && OccursAt(s, sub, i)
  }

  /** `s.endsWith(suffix)`. */
  predicate EndsWith(s: string, suffix: string) {
    |suffix| <= |s| && s[|s| - |suffix|..] == suffix
  }

  /** `s.indexOf(sub, from)`: the leftmost occurrence of `sub` at or after `from`. */
  function Find(s: string, sub: string, from: nat): (r: Option<nat>)
    ensures r.Some? ==> from <= r.value && OccursAt(s, sub, r.value)
    ensures r.Some? ==> forall j :: from <= j < r.value ==> !OccursAt(s, sub, j)
    ensures r.None? ==> forall j :: from <= j ==> !OccursAt(s, sub, j)
    decreases |s| - from
  {
    if from + |sub| > |s| then None
    else if s[from..from + |sub|] == sub then Some(from)
    else Find(s, sub, from + 1)
  }

  lemma FindNoneIffAbsent(s: string, sub: string)
    ensures Find(s, sub, 0).None? <==> !Contains(s, sub)
  {
    var r := Find(s, sub, 0);
    if r.Some? {
      assert OccursAt(s, sub, r.value);
    }
  }

  /** `sub` occurs in the lowercased string where it matches the lowercased characters. */
  lemma LowerOccursAt(s: string, sub: string, i: nat)
    requires i + |sub| <= |s|
    requires forall k :: 0 <= k < |sub| ==> LowerChar(s[i + k]) == sub[k]
    ensures OccursAt(Lower(s), sub, i)
  {
    var l := Lower(s);
    assert l[i..i + |sub|] == sub by {
      forall k | 0 <= k < |sub| ensures l[i..i + |sub|][k] == sub[k] {
        assert l[i + k] == LowerChar(s[i + k]);
      }
    }
  }

  /** A string is the part before `i`, the part from `i` to `j`, and the rest. */
  lemma SplitAround(s: string, i: nat, j: nat)
    requires i <= j <= |s|
    ensures s == s[..i] + s[i..j] + s[j..]
  {
    assert s[..j] == s[..i] + s[i..j];
    assert s == s[..j] + s[j..];
  }

  /** `s.padStart(n, c)` with a one-character pad string. */
  function PadStart(s: string, n: nat, c: char): (r: string)
    ensures |r| == if |s| >= n then |s| else n
    ensures EndsWith(r, s)
    ensures forall i :: 0 <= i < |r| - |s| ==> r[i] == c
  {
    if |s| >= n then s else seq(n - |s|, _ => c) + s
  }

  lemma PadStartDigits(s: string, n: nat)
    requires AllDigits(s)
    ensures AllDigits(PadStart(s, n, '0'))
  {
    var r := PadStart(s, n, '0');
    forall i | 0 <= i < |r| ensures IsDigit(r[i]) {
      if i >= |r| - |s| {
        assert r[i] == s[i - (|r| - |s|)];
      }
    }
  }

  /** `s.replace(new RegExp(sub, 'g'), '')` for a pattern without metacharacters: every
      non-overlapping occurrence of `sub`, scanned from the left, is removed. */
  function RemoveAll(s: string, sub: string): (r: string)
    requires |sub| > 0
    ensures |r| <= |s|
    decreases |s|
  {
    match Find(s, sub, 0)
    case None => s
    case Some(i) => s[..i] + RemoveAll(s[i + |sub|..], sub)
  }

  /** The characters of `s` other than `c`, in order. */
  function Without(s: string, c: char): (r: string)
    ensures forall i :: 0 <= i < |r| ==> r[i] != c
  {
    if s == [] then [] else (if s[0] == c then [] else [s[0]]) + Without(s[1..], c)
  }

  lemma {:induction false} WithoutConcat(a: string, b: string, c: char)
    ensures Without(a + b, c) == Without(a, c) + Without(b, c)
  {
    if a == [] {
      assert a + b == b;
    } else {
      assert (a + b)[1..] == a[1..] + b;
      WithoutConcat(a[1..], b, c);
    }
  }

  lemma {:induction false} WithoutAbsent(s: string, c: char)
    requires forall i :: 0 <= i < |s| ==> s[i] != c
    ensures Without(s, c) == s
  {
    if s != [] {
      WithoutAbsent(s[1..], c);
    }
  }

  /** Removing a one-character pattern deletes exactly the occurrences of that character. */
  lemma {:induction false} RemoveAllSingle(s: string, c: char)
    ensures RemoveAll(s, [c]) == Without(s, c)
    decreases |s|
  {
    match Find(s, [c], 0)
    case None =>
      forall i | 0 <= i < |s| ensures s[i] != c {
        assert !OccursAt(s, [c], i);
      }
      WithoutAbsent(s, c);
    case Some(i) =>
      var pre, rest := s[..i], s[i + 1..];
      SplitAround(s, i, i + 1);
      assert s[i..i + 1] == [c];
      forall j | 0 <= j < |pre| ensures pre[j] != c {
        assert !OccursAt(s, [c], j);
      }
      WithoutAbsent(pre, c);
      WithoutConcat(pre + [c], rest, c);
      WithoutConcat(pre, [c], c);
      assert [c][1..] == [];
      assert Without(pre + [c], c) == pre;
      RemoveAllSingle(rest, c);
  }

  /** `s.replace(/\D/g, '')`: the digits of `s`, in order. */
  function DigitsOnly(s: string): (r: string)
    ensures AllDigits(r)
    ensures |r| <= |s|
  {
    if s == [] then [] else (if IsDigit(s[0]) then [s[0]] else []) + DigitsOnly(s[1..])
  }

  /** The digits of the input are kept and nothing else, and nothing is removed exactly when
      the input is all digits. */
  lemma {:induction false} DigitsOnlyMembers(s: string)
    ensures forall c :: c in DigitsOnly(s) <==> c in s && IsDigit(c)
    ensures |DigitsOnly(s)| == |s| <==> AllDigits(s)
  {
    if s != [] {
      DigitsOnlyMembers(s[1..]);
      assert s == [s[0]] + s[1..];
      if !IsDigit(s[0]) {
        assert !AllDigits(s);
      }
    }
  }

  lemma {:induction false} DigitsOnlyOfDigits(s: string)
    requires AllDigits(s)
    ensures DigitsOnly(s) == s
  {
    if s != [] {
      DigitsOnlyOfDigits(s[1..]);
    }
  }
}
