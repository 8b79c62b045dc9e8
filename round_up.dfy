/**
 * The round-up suggestion: for a one- or two-digit amount of cents, the cents that round the
 * purchase up to the next dollar (src/useRoundUp.ts, hooks/useRoundUp.ts and a third copy in
 * components/MainView.tsx, all the same function).
 */
module RoundUp {
  import opened Wrappers
  import opened Text
  import opened Lodash

  /** `tryRoundUp(query)`: `100 - n` for `^\d{1,2}$` with `n` in 1..99, 0 for "0" and "00",
      and no number otherwise. */
  function TryRoundUp(query: string): (r: Option<int>)
    ensures r.Some? <==> DigitsBetween(query, 1, 2)
    ensures r.Some? ==> 0 <= r.value <= 99
  {
    if DigitsBetween(query, 1, 2) then
      var n := ParseDigits(query);
      ParseDigitsBound(query);
      Some(if InRange(n, 1, 100) then 100 - n else 0)
    else None
  }

  /** The amount and the suggestion always add up to a dollar, except for a zero amount. */
  lemma RoundUpCompletesDollar(query: string)
    requires DigitsBetween(query, 1, 2)
    ensures var n := ParseDigits(query);
      && (n == 0 <==> TryRoundUp(query) == Some(0))
      && (n != 0 ==> n + TryRoundUp(query).value == 100)
  {
    ParseDigitsBound(query);
    assert Pow10(2) == 100;
    if |query| == 1 {
      assert Pow10(1) == 10;
    }
  }

  /** A shown suggestion is never zero: it is shown only for "1".."99", "01".."09". */
  lemma RoundUpZeroOnlyForZero(query: string)
    ensures TryRoundUp(query) == Some(0) <==> query == "0" || query == "00"
  {
    if TryRoundUp(query) == Some(0) {
      RoundUpCompletesDollar(query);
      ZeroDigits(query);
    }
    if query == "0" || query == "00" {
      assert DigitsBetween(query, 1, 2);
      assert ParseDigits(query) == 0 by {
        if query == "00" { assert query[..1] == "0"; }
      }
    }
  }

  /** A string of one or two digits whose value is zero is a string of zeros. */
  lemma ZeroDigits(query: string)
    requires DigitsBetween(query, 1, 2) && ParseDigits(query) == 0
    ensures query == "0" || query == "00"
  {
    if |query| == 2 {
      assert query[..1] == [query[0]];
      assert DigitValue(query[1]) == 0 && DigitValue(query[0]) == 0;
      assert query == [query[0], query[1]];
    } else {
      assert query == [query[0]];
    }
  }

  /** The state of `useRoundUp` in src/useRoundUp.ts: the result is shown only when truthy,
      and a hidden update keeps the previous result. */
  class TruthyRoundUp {
    var roundUpResult: int
    var showRoundUpResult: bool

    /** The shown result is always a real suggestion. */
    ghost predicate Valid()
      reads this
    {
      showRoundUpResult ==> 1 <= roundUpResult <= 99
    }

    constructor()
      ensures roundUpResult == 0 && !showRoundUpResult && Valid()
    {
      roundUpResult := 0;
      showRoundUpResult := false;
    }

    /** The effect run on every query change. */
    method Update(query: string)
      requires Valid()
      modifies this
      ensures Valid()
      ensures var r := TryRoundUp(query);
        && showRoundUpResult == (r.Some? && r.value != 0)
        && roundUpResult == (if showRoundUpResult then r.value else old(roundUpResult))
    {
      var got := TryRoundUp(query);
      if got.Some? && got.value != 0 {
        roundUpResult := got.value;
      }
      showRoundUpResult := got.Some? && got.value != 0;
    }
  }

  /** The state of `useRoundUp` in hooks/useRoundUp.ts: the result is rendered whenever it is a
      number, so "0" and "00" render 0, and a non-matching query hides the previous result. */
  class NumberRoundUp {
    var result: int
    var renderResult: bool

    /** The stored result is always one that `TryRoundUp` can give. */
    ghost predicate Valid()
      reads this
    {
      0 <= result <= 99
    }

    constructor()
      ensures result == 0 && !renderResult && Valid()
    {
      result := 0;
      renderResult := false;
    }

    method Update(query: string)
      requires Valid()
      modifies this
      ensures Valid()
      ensures var r := TryRoundUp(query);
        && renderResult == r.Some?
        && result == (if r.Some? then r.value else old(result))
    {
      var got := TryRoundUp(query);
      if got.Some? {
        result := got.value;
        renderResult := true;
      } else {
        renderResult := false;
      }
    }
  }
}
