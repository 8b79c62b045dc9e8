/**
 * The choice of symbology in components/Barcode.tsx (`renderBarcode`): an ordered chain of
 * attempts, each of which the rendering library may reject, ending at the first that
 * succeeds. The libraries themselves are the `succeeds` oracle.
 */
module BarcodeRender {
  import opened Text
  import opened Barcode

  datatype Format = QR | UPC | CODE128

  /** One call into a rendering library: the symbology and the string encoded. */
  datatype Attempt = Attempt(format: Format, data: string)

  /** The attempts made, in order, and whether the last one drew a barcode. */
  datatype Outcome = Outcome(success: bool, tried: seq<Attempt>)

  /** One `try` block: skipped once something has been drawn, otherwise made and recorded. */
  function Then(o: Outcome, a: Attempt, succeeds: Attempt -> bool): Outcome {
    if o.success then o else Outcome(succeeds(a), o.tried + [a])
  }

  /** `renderBarcode(org, elem, value)`, block by block. Its contract is stated by
      `RenderIsFirstSuccess` and `RenderOutcome` below. */
  function RenderBarcode(org: string, value: string, succeeds: Attempt -> bool): Outcome {
    var o0 := Outcome(false, []);
    var o1 := if IsPlu(value) && org == "TARGET" then Then(o0, Attempt(QR, value), succeeds) else o0;
    var o2 := if IsPlu(value) then Then(o1, Attempt(UPC, PluToUpc(value, false).value), succeeds) else o1;
    var o3 := if IsUpc(value) then Then(o2, Attempt(UPC, PadStart(value, 11, '0')), succeeds) else o2;
    var o4 := if IsSku(value) then Then(o3, Attempt(UPC, SkuToUpc(value, false).value), succeeds) else o3;
    var o5 := Then(o4, Attempt(CODE128, value), succeeds);
    Then(o5, Attempt(QR, value), succeeds)
  }

  /** The candidates for a value, in order: a QR code for a Target PLU; the UPC form of a PLU,
      of an 11- or 12-digit UPC, or of a SKU; then CODE 128; then a QR code. */
  function Candidates(org: string, value: string): (cs: seq<Attempt>)
    ensures 2 <= |cs| <= 4
    ensures cs[|cs| - 2..] == [Attempt(CODE128, value), Attempt(QR, value)]
  {
    PatternsDisjoint(value);
    (if IsPlu(value) && org == "TARGET" then [Attempt(QR, value)] else [])
    + (if IsPlu(value) then [Attempt(UPC, PluToUpc(value, false).value)] else [])
    + (if IsUpc(value) then [Attempt(UPC, PadStart(value, 11, '0'))] else [])
    + (if IsSku(value) then [Attempt(UPC, SkuToUpc(value, false).value)] else [])
    + [Attempt(CODE128, value), Attempt(QR, value)]
  }

  /** Trying a list in order and stopping at the first success. */
  function FirstSuccess(cs: seq<Attempt>, succeeds: Attempt -> bool): (o: Outcome)
    ensures o.success <==> exists i :: 0 <= i < |cs| && succeeds(cs[i])
    ensures |o.tried| <= |cs| && o.tried == cs[..|o.tried|]
    ensures forall i :: 0 <= i < |o.tried| - 1 ==> !succeeds(o.tried[i])
    ensures o.success ==> |o.tried| >= 1 && succeeds(o.tried[|o.tried| - 1])
    ensures !o.success ==> o.tried == cs
  {
    if cs == [] then Outcome(false, [])
    else if succeeds(cs[0]) then Outcome(true, [cs[0]])
    else
      var r := FirstSuccess(cs[1..], succeeds);
      assert forall i :: 1 <= i < |cs| ==> cs[i] == cs[1..][i - 1];
      Outcome(r.success, [cs[0]] + r.tried)
  }

  /** Making one more attempt after trying a list is trying the longer list. */
  lemma {:induction false} ThenExtends(p: seq<Attempt>, a: Attempt, succeeds: Attempt -> bool)
    ensures Then(FirstSuccess(p, succeeds), a, succeeds) == FirstSuccess(p + [a], succeeds)
  {
    if p == [] {
      assert p + [a] == [a];
      assert [a][1..] == [];
    } else {
      assert (p + [a])[0] == p[0];
      assert (p + [a])[1..] == p[1..] + [a];
      ThenExtends(p[1..], a, succeeds);
    }
  }

  /** The block-by-block chain makes exactly the candidate attempts up to the first success. */
  lemma RenderIsFirstSuccess(org: string, value: string, succeeds: Attempt -> bool)
    ensures RenderBarcode(org, value, succeeds) == FirstSuccess(Candidates(org, value), succeeds)
  {
    var p1: seq<Attempt> := if IsPlu(value) && org == "TARGET" then [Attempt(QR, value)] else [];
    var p2 := p1 + (if IsPlu(value) then [Attempt(UPC, PluToUpc(value, false).value)] else []);
    var p3 := p2 + (if IsUpc(value) then [Attempt(UPC, PadStart(value, 11, '0'))] else []);
    var p4 := p3 + (if IsSku(value) then [Attempt(UPC, SkuToUpc(value, false).value)] else []);
    var p5 := p4 + [Attempt(CODE128, value)];
    var p6 := p5 + [Attempt(QR, value)];
    var o0 := Outcome(false, []);
    var o1 := if IsPlu(value) && org == "TARGET" then Then(o0, Attempt(QR, value), succeeds) else o0;
    var o2 := if IsPlu(value) then Then(o1, Attempt(UPC, PluToUpc(value, false).value), succeeds) else o1;
    var o3 := if IsUpc(value) then Then(o2, Attempt(UPC, PadStart(value, 11, '0')), succeeds) else o2;
    var o4 := if IsSku(value) then Then(o3, Attempt(UPC, SkuToUpc(value, false).value), succeeds) else o3;
    var o5 := Then(o4, Attempt(CODE128, value), succeeds);
    MaybeThen(IsPlu(value) && org == "TARGET", [], Attempt(QR, value), succeeds);
    assert [] + p1 == p1;
    MaybeThen(IsPlu(value), p1, Attempt(UPC, PluToUpc(value, false).value), succeeds);
    MaybeThen(IsUpc(value), p2, Attempt(UPC, PadStart(value, 11, '0')), succeeds);
    MaybeThen(IsSku(value), p3, Attempt(UPC, SkuToUpc(value, false).value), succeeds);
    ThenExtends(p4, Attempt(CODE128, value), succeeds);
    ThenExtends(p5, Attempt(QR, value), succeeds);
    assert p6 == p4 + [Attempt(CODE128, value), Attempt(QR, value)] by {
      SnocSnoc(p4, Attempt(CODE128, value), Attempt(QR, value));
    }
  }

  lemma SnocSnoc(p: seq<Attempt>, a: Attempt, b: Attempt)
    ensures p + [a] + [b] == p + [a, b]
  {
  }

  /** A guarded block: made when its test holds, skipped otherwise. */
  lemma MaybeThen(guard: bool, p: seq<Attempt>, a: Attempt, succeeds: Attempt -> bool)
    ensures (if guard then Then(FirstSuccess(p, succeeds), a, succeeds) else FirstSuccess(p, succeeds))
         == FirstSuccess(p + (if guard then [a] else []), succeeds)
  {
    if guard {
      ThenExtends(p, a, succeeds);
    } else {
      assert p + [] == p;
    }
  }

  /** What a render does: it stops at the first attempt that draws something, every earlier
      attempt failed, and it fails only after CODE 128 and the QR code have both failed. */
  lemma RenderOutcome(org: string, value: string, succeeds: Attempt -> bool)
    ensures var o := RenderBarcode(org, value, succeeds);
      && (o.success <==> exists i :: 0 <= i < |Candidates(org, value)| && succeeds(Candidates(org, value)[i]))
      && 1 <= |o.tried| && o.tried == Candidates(org, value)[..|o.tried|]
      && (forall i :: 0 <= i < |o.tried| - 1 ==> !succeeds(o.tried[i]))
      && (o.success ==> succeeds(o.tried[|o.tried| - 1]))
      && (!o.success ==> o.tried[|o.tried| - 2..] == [Attempt(CODE128, value), Attempt(QR, value)])
  {
    RenderIsFirstSuccess(org, value, succeeds);
  }

  /** An 11- or 12-digit UPC is encoded as it is: padding to eleven changes nothing. */
  lemma UpcEncodedUnchanged(value: string)
    requires IsUpc(value)
    ensures PadStart(value, 11, '0') == value
  {
  }

  /** The first attempt for each kind of value. */
  lemma FirstAttempt(org: string, value: string, succeeds: Attempt -> bool)
    ensures var a := RenderBarcode(org, value, succeeds).tried[0];
      && (IsPlu(value) && org == "TARGET" ==> a == Attempt(QR, value))
      && (IsPlu(value) && org != "TARGET" ==> a == Attempt(UPC, PluToUpc(value, false).value))
      && (IsUpc(value) ==> a == Attempt(UPC, value))
      && (IsSku(value) ==> a == Attempt(UPC, value[2..]))
      && (!IsPlu(value) && !IsUpc(value) && !IsSku(value) ==> a == Attempt(CODE128, value))
  {
    RenderIsFirstSuccess(org, value, succeeds);
    PatternsDisjoint(value);
  }

  /** The component's state: whether the last render drew something (`data-error` is its
      negation). Without a canvas nothing is drawn and the flag keeps its value. */
  class BarcodeView {
    var renderSuccess: bool

    constructor()
      ensures !renderSuccess
    {
      renderSuccess := false;
    }

    method UpdateValue(org: string, value: string, succeeds: Attempt -> bool, hasCanvas: bool)
      modifies this
      ensures renderSuccess == if hasCanvas then RenderBarcode(org, value, succeeds).success else old(renderSuccess)
    {
      if hasCanvas {
        renderSuccess := RenderBarcode(org, value, succeeds).success;
      }
    }
  }
}
