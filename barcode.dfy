/**
 * UPC / PLU / SKU code classification and conversion (lib/barcode.ts).
 *
 * The check digit is the GS1 modulo-10 check digit of UPC-A (GS1 General Specifications,
 * section 7.9): with weights 3 and 1 alternating from the left of the eleven data digits,
 * the check digit brings the weighted sum of all twelve digits to a multiple of ten.
 */
module Barcode {
  import opened Wrappers
  import opened Text

  // ---------------------------------------------------------------------------
  // Classification: the four regular expressions at the top of the file
  // ---------------------------------------------------------------------------

  /** `^\d{11,12}$` */
  predicate IsUpc(s: string) { DigitsBetween(s, 11, 12) }

  /** `^\d{12}$` */
  predicate IsUpcFull(s: string) { DigitsBetween(s, 12, 12) }

  /** `^\d{4,5}$` */
  predicate IsPlu(s: string) { DigitsBetween(s, 4, 5) }

  /** `^\d{14}$` */
  predicate IsSku(s: string) { DigitsBetween(s, 14, 14) }

  /** The three code shapes exclude one another, so a value is tried as at most one of them. */
  lemma PatternsDisjoint(s: string)
    ensures !(IsPlu(s) && IsUpc(s)) && !(IsPlu(s) && IsSku(s)) && !(IsUpc(s) && IsSku(s))
    ensures IsUpcFull(s) ==> IsUpc(s)
  {
  }

  // ---------------------------------------------------------------------------
  // Check digit
  // ---------------------------------------------------------------------------

  /** The sum of the digits of `v` at positions k, k + 2, k + 4, ... */
  function StrideSum(v: string, k: nat): nat
    requires AllDigits(v)
    decreases |v| - k
  {
    if k >= |v| then 0 else DigitValue(v[k]) + StrideSum(v, k + 2)
  }

  /** The check digit as `calcUpcCheckDigit` computes it: three times the digits at even
      positions plus the digits at odd positions, over ALL the characters of an 11- or
      12-character input, then the complement modulo ten. Undefined unless `^\d{11,12}$`. */
  function CheckDigit(v: string): (r: Option<nat>)
    ensures r.Some? <==> IsUpc(v)
    ensures r.Some? ==> r.value < 10
  {
    if IsUpc(v) then
      var m := (3 * StrideSum(v, 0) + StrideSum(v, 1)) % 10;
      Some(if m == 0 then 0 else 10 - m)
    else None
  }

  /** `calcUpcCheckDigit`: pads to eleven characters, then accumulates the even-position
      digits, triples them, adds the odd-position digits and complements modulo ten. */
  method CalcUpcCheckDigit(value: string) returns (r: Option<nat>)
    ensures r == CheckDigit(value)
  {
    if !IsUpc(value) {
      return None;
    }
    // The padding loop of the source: the pattern above already guarantees eleven characters.
    var v := PadStart(value, 11, '0');
    var result := 0;
    var i := 0;
    while i < |v|
      invariant 0 <= i <= |v| + 1
      invariant result == StrideSum(v, 0) - StrideSum(v, i)
      decreases |v| - i
    {
      result := result + DigitValue(v[i]);
      i := i + 2;
    }
    result := result * 3;
    i := 1;
    while i < |v|
      invariant 1 <= i <= |v| + 1
      invariant result == 3 * StrideSum(v, 0) + StrideSum(v, 1) - StrideSum(v, i)
      decreases |v| - i
    {
      result := result + DigitValue(v[i]);
      i := i + 2;
    }
    result := result % 10;
    result := if result == 0 then result else 10 - result;
    return Some(result);
  }

  // ---------------------------------------------------------------------------
  // The GS1 reference definition and its agreement with CheckDigit
  // ---------------------------------------------------------------------------

  /** The GS1 weighted sum: weights 1, 3, 1, 3, ... from the rightmost digit leftwards
      (`w` is the weight of the rightmost digit). */
  function RightWeighted(s: string, w: nat): nat
    requires AllDigits(s)
    requires w == 1 || w == 3
  {
    if s == [] then 0 else w * DigitValue(s[|s| - 1]) + RightWeighted(s[..|s| - 1], 4 - w)
  }

  /** A complete GS1 code: all digits, weighted sum a multiple of ten. */
  predicate Gs1Valid(code: string) {
    AllDigits(code) && RightWeighted(code, 1) % 10 == 0
  }

  lemma {:induction false} StrideSnoc(s: string, c: char, k: nat)
    requires AllDigits(s) && IsDigit(c) && k <= |s|
    ensures AllDigits(s + [c])
    ensures StrideSum(s + [c], k) == StrideSum(s, k) + (if (|s| - k) % 2 == 0 then DigitValue(c) else 0)
    decreases |s| - k
  {
    var t := s + [c];
    assert AllDigits(t) by {
      forall i | 0 <= i < |t| ensures IsDigit(t[i]) {
        if i < |s| { assert t[i] == s[i]; }
      }
    }
    if k + 2 <= |s| {
      assert t[k] == s[k];
      StrideSnoc(s, c, k + 2);
    } else if k + 1 == |s| {
      assert t[k] == s[k];
    }
  }

  /** The GS1 weighted sum, taken from the right, in terms of the left-to-right even/odd sums. */
  lemma {:induction false} RightWeightedStrides(s: string)
    requires AllDigits(s)
    ensures RightWeighted(s, 1) == if |s| % 2 == 0 then 3 * StrideSum(s, 0) + StrideSum(s, 1)
                                   else StrideSum(s, 0) + 3 * StrideSum(s, 1)
    ensures RightWeighted(s, 3) == if |s| % 2 == 0 then StrideSum(s, 0) + 3 * StrideSum(s, 1)
                                   else 3 * StrideSum(s, 0) + StrideSum(s, 1)
  {
    if |s| == 1 {
      assert s[..0] == [];
    } else if |s| > 1 {
      var t, c := s[..|s| - 1], s[|s| - 1];
      assert s == t + [c];
      assert AllDigits(t) by {
        forall i | 0 <= i < |t| ensures IsDigit(t[i]) { assert t[i] == s[i]; }
      }
      assert s[..|s| - 1] == t;
      assert RightWeighted(s, 1) == DigitValue(c) + RightWeighted(t, 3);
      assert RightWeighted(s, 3) == 3 * DigitValue(c) + RightWeighted(t, 1);
      RightWeightedStrides(t);
      StrideSnoc(t, c, 0);
      StrideSnoc(t, c, 1);
      var e, o, dc := StrideSum(t, 0), StrideSum(t, 1), DigitValue(c);
      if |t| % 2 == 0 {
        assert (|t| - 1) % 2 == 1;
        assert StrideSum(s, 0) == e + dc && StrideSum(s, 1) == o;
      } else {
        assert (|t| - 1) % 2 == 0;
        assert StrideSum(s, 0) == e && StrideSum(s, 1) == o + dc;
      }
    }
  }

  lemma AppendDigitSum(s: string, c: char)
    requires DigitsBetween(s, 11, 11) && IsDigit(c)
    ensures AllDigits(s + [c])
    ensures RightWeighted(s + [c], 1) == 3 * StrideSum(s, 0) + StrideSum(s, 1) + DigitValue(c)
    ensures StrideSum(s + [c], 0) == StrideSum(s, 0) && StrideSum(s + [c], 1) == StrideSum(s, 1) + DigitValue(c)
  {
    StrideSnoc(s, c, 0);
    StrideSnoc(s, c, 1);
    RightWeightedStrides(s + [c]);
  }

  /** For eleven data digits, the computed check digit is the one and only digit that makes
      the twelve-digit code GS1-valid. */
  lemma CheckDigitIsGs1(s: string)
    requires DigitsBetween(s, 11, 11)
    ensures CheckDigit(s).Some?
    ensures Gs1Valid(s + [DigitChar(CheckDigit(s).value)])
    ensures forall d :: 0 <= d < 10 && Gs1Valid(s + [DigitChar(d)]) ==> d == CheckDigit(s).value
  {
    var x := 3 * StrideSum(s, 0) + StrideSum(s, 1);
    var cd := CheckDigit(s).value;
    AppendDigitSum(s, DigitChar(cd));
    forall d | 0 <= d < 10 && Gs1Valid(s + [DigitChar(d)]) ensures d == cd {
      AppendDigitSum(s, DigitChar(d));
      TensComplementUnique(x, d);
    }
  }

  /** The only digit that brings `x` to a multiple of ten is its complement modulo ten. */
  lemma TensComplementUnique(x: nat, d: nat)
    requires d < 10 && (x + d) % 10 == 0
    ensures d == if x % 10 == 0 then 0 else 10 - x % 10
  {
    var m := x % 10;
    assert x == 10 * (x / 10) + m;
    assert x + d == 10 * ((x + d) / 10);
    assert (m + d) % 10 == 0;
  }

  /** The 12-character quirk: recomputing over a completed code (its check digit sits at an
      odd position, weight 1) gives 0. */
  lemma CheckDigitOfCompleted(s: string)
    requires DigitsBetween(s, 11, 11)
    ensures CheckDigit(s).Some?
    ensures CheckDigit(s + [DigitChar(CheckDigit(s).value)]) == Some(0)
  {
    AppendDigitSum(s, DigitChar(CheckDigit(s).value));
  }

  /** Over a twelve-digit code the computation yields 0 exactly when the code is GS1-valid. */
  lemma CheckDigitZeroIffValid(code: string)
    requires IsUpcFull(code)
    ensures CheckDigit(code) == Some(0) <==> Gs1Valid(code)
  {
    RightWeightedStrides(code);
  }

  // ---------------------------------------------------------------------------
  // Conversions
  // ---------------------------------------------------------------------------

  /** `skuToUpc(str, safe)`: a 14-digit SKU (or anything, when not `safe`) loses its first two
      characters; `substring(2)` of a shorter string is empty. */
  function SkuToUpc(s: string, safe: bool): (r: Option<string>)
    ensures r.Some? <==> IsSku(s) || !safe
    ensures r.Some? && |s| >= 2 ==> s == s[..2] + r.value
    ensures r.Some? && |s| < 2 ==> r.value == []
    ensures IsSku(s) ==> r.Some? && IsUpcFull(r.value)
  {
    if IsSku(s) || !safe then Some(if |s| >= 2 then s[2..] else []) else None
  }

  /** `pluToUpc(str, safe)`: pad to eleven with '0', then append the check digit unless it is
      undefined or 0 (`if (cd)`). */
  function PluToUpc(s: string, safe: bool): (r: Option<string>)
    ensures r.Some? <==> IsPlu(s) || !safe
    ensures r.Some? ==> var pad := PadStart(s, 11, '0');
      |pad| <= |r.value| <= |pad| + 1 && r.value[..|pad|] == pad
  {
    if IsPlu(s) || !safe then
      var upc := PadStart(s, 11, '0');
      var cd := CheckDigit(upc);
      Some(if cd.Some? && cd.value != 0 then upc + [DigitChar(cd.value)] else upc)
    else None
  }

  /** What `pluToUpc` produces for a PLU: eleven or twelve digits starting with the padded
      PLU; twelve exactly when the check digit is non-zero, and then a GS1-valid UPC-A; in
      both cases a string whose own recomputed check digit is 0, and one that a second call
      leaves alone. */
  lemma PluToUpcOfPlu(s: string)
    requires IsPlu(s)
    ensures var pad := PadStart(s, 11, '0');
      && DigitsBetween(pad, 11, 11)
      && PluToUpc(s, true).Some?
      && var r := PluToUpc(s, true).value;
      && IsUpc(r) && r[..11] == pad
      && (|r| == 11 <==> CheckDigit(pad) == Some(0))
      && (|r| == 12 ==> Gs1Valid(r) && r == pad + [DigitChar(CheckDigit(pad).value)])
      && (|r| == 11 ==> Gs1Valid(r + "0"))
      && CheckDigit(r) == Some(0)
      && PluToUpc(r, true).None?
  {
    var pad := PadStart(s, 11, '0');
    PadStartDigits(s, 11);
    CheckDigitIsGs1(pad);
    CheckDigitOfCompleted(pad);
    var cd := CheckDigit(pad).value;
    if cd == 0 {
      assert DigitChar(0) == '0';
      assert pad + [DigitChar(cd)] == pad + "0";
    } else {
      assert AllDigits(pad + [DigitChar(cd)]) by { StrideSnoc(pad, DigitChar(cd), 0); }
    }
  }

  /** The PLU of bananas, 4011, becomes the twelve-digit UPC-A 000000040112. */
  lemma PluToUpcBananas()
    ensures PluToUpc("4011", true) == Some("000000040112")
  {
    var pad := PadStart("4011", 11, '0');
    PadFourToEleven("4011");
    assert pad == "00000004011";
    assert StrideSum(pad, 0) == 1;
    assert StrideSum(pad, 1) == 5;
    assert CheckDigit(pad) == Some(2);
    assert DigitChar(2) == '2';
    assert pad + ['2'] == "000000040112";
  }

  /** A PLU whose check digit is 0 comes back with only eleven digits. */
  lemma PluToUpcZeroCheckDigit()
    ensures PluToUpc("4060", true) == Some("00000004060")
  {
    var pad := PadStart("4060", 11, '0');
    PadFourToEleven("4060");
    assert pad == "00000004060";
    assert StrideSum(pad, 0) == 0;
    assert StrideSum(pad, 1) == 10;
  }

  /** A four-character string is padded with seven zeros. */
  lemma PadFourToEleven(s: string)
    requires |s| == 4
    ensures PadStart(s, 11, '0') == "0000000" + s
  {
    assert seq(7, _ => '0') == "0000000";
  }

  /** `prettyUpc(str)`: a twelve-digit UPC split 1-5-5-1 and joined with single spaces. */
  function PrettyUpc(s: Option<string>): (r: Option<string>)
    ensures r.Some? <==> s.Some? && IsUpcFull(s.value)
    ensures r.Some? ==> (
      && |r.value| == 15
      && r.value[1] == ' ' && r.value[7] == ' ' && r.value[13] == ' '
      && r.value[..1] == s.value[..1] && r.value[2..7] == s.value[1..6]
      && r.value[8..13] == s.value[6..11] && r.value[14..] == s.value[11..])
  {
    if s.Some? && IsUpcFull(s.value) then
      var v := s.value;
      Some(v[0..1] + " " + v[1..6] + " " + v[6..11] + " " + v[11..12])
    else None
  }

  lemma SpaceJoinWithout(x: string, y: string)
    ensures Without(x + " " + y, ' ') == Without(x, ' ') + Without(y, ' ')
  {
    var xs := x + " ";
    WithoutConcat(xs, y, ' ');
    WithoutConcat(x, " ", ' ');
    WithoutOwnChar(' ');
    assert Without(xs, ' ') == Without(x, ' ');
  }

  lemma WithoutOwnChar(c: char)
    ensures Without([c], c) == []
  {
    assert [c][1..] == [];
  }

  lemma SliceJoin(s: string, i: nat, j: nat, k: nat)
    requires i <= j <= k <= |s|
    ensures s[i..j] + s[j..k] == s[i..k]
  {
  }

  lemma DigitSliceWithout(s: string, i: nat, j: nat)
    requires AllDigits(s) && i <= j <= |s|
    ensures Without(s[i..j], ' ') == s[i..j]
  {
    var t := s[i..j];
    forall k | 0 <= k < |t| ensures t[k] != ' ' { assert IsDigit(s[i + k]); }
    WithoutAbsent(t, ' ');
  }

  /** Removing the spaces of a pretty-printed UPC gives the UPC back. */
  lemma PrettyUpcRoundTrip(s: string)
    requires IsUpcFull(s)
    ensures PrettyUpc(Some(s)).Some? && Without(PrettyUpc(Some(s)).value, ' ') == s
  {
    var a, b, c, d := s[0..1], s[1..6], s[6..11], s[11..12];
    var x2 := a + " " + b;
    var x3 := x2 + " " + c;
    assert PrettyUpc(Some(s)).value == x3 + " " + d;
    DigitSliceWithout(s, 0, 1);
    DigitSliceWithout(s, 1, 6);
    DigitSliceWithout(s, 6, 11);
    DigitSliceWithout(s, 11, 12);
    SpaceJoinWithout(a, b);
    SpaceJoinWithout(x2, c);
    SpaceJoinWithout(x3, d);
    SliceJoin(s, 0, 1, 6);
    SliceJoin(s, 0, 6, 11);
    SliceJoin(s, 0, 11, 12);
    assert s[0..12] == s;
  }
}
