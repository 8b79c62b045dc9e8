/** Speech input (hooks/useSpeechRecognition.ts): the listening flag driven by the recogniser's
    callbacks, and the clean-up of spoken numbers before a transcript becomes a query. */
module Speech {
  import opened Text

  /** The class `[\d\s-+/]`: in a class, `\s-+` is not a range, so the dash is literal. */
  predicate IsSpokenNumberChar(c: char) {
    IsDigit(c) || IsWhitespace(c) || c == '-' || c == '+' || c == '/'
  }

  predicate IsSpokenNumber(t: string) {
    forall i :: 0 <= i < |t| ==> IsSpokenNumberChar(t[i])
  }

  /** `formatSpokenNumbers(transcript)`: a transcript of digits, white space, `-`, `+` and `/`
      is reduced to its digits; anything else is left as it is. */
  function FormatSpokenNumbers(t: string): (r: string)
    ensures IsSpokenNumber(t) ==> r == DigitsOnly(t) && AllDigits(r) && |r| <= |t|
    ensures !IsSpokenNumber(t) ==> r == t
  {
    if IsSpokenNumber(t) then DigitsOnly(t) else t
  }

  /** Formatting twice is formatting once. */
  lemma FormatSpokenNumbersIdempotent(t: string)
    ensures FormatSpokenNumbers(FormatSpokenNumbers(t)) == FormatSpokenNumbers(t)
  {
    var r := FormatSpokenNumbers(t);
    if IsSpokenNumber(t) {
      assert IsSpokenNumber(r) by {
        forall i | 0 <= i < |r| ensures IsSpokenNumberChar(r[i]) {
          assert IsDigit(r[i]);
        }
      }
      DigitsOnlyOfDigits(r);
    }
  }

  /** The digits of a spoken number survive in order: pieces of it are cleaned independently. */
  lemma {:induction false} DigitsOnlyConcat(a: string, b: string)
    ensures DigitsOnly(a + b) == DigitsOnly(a) + DigitsOnly(b)
  {
    if a == [] {
      assert a + b == b;
    } else {
      assert (a + b)[1..] == a[1..] + b;
      DigitsOnlyConcat(a[1..], b);
    }
  }

  /** One character is kept exactly when it is a digit; with `DigitsOnlyConcat` this fixes
      `DigitsOnly` as the input's digits in their order. */
  lemma DigitsOnlySingle(c: char)
    ensures DigitsOnly([c]) == if IsDigit(c) then [c] else []
  {
    assert [c][1..] == [];
  }

  /** A dictated PLU with a pause becomes the bare code. */
  lemma SpokenPluExample()
    ensures FormatSpokenNumbers("40 11") == "4011"
  {
    var t := "40 11";
    assert IsSpokenNumber(t) by {
      forall i | 0 <= i < |t| ensures IsSpokenNumberChar(t[i]) {
        if i != 2 { assert IsDigit(t[i]); }
      }
    }
    var a, b := "40", "11";
    assert t == a + ([' '] + b);
    DigitsOnlyConcat(a, [' '] + b);
    DigitsOnlyConcat([' '], b);
    DigitsOnlySingle(' ');
    DigitsOnlyOfDigits(a);
    DigitsOnlyOfDigits(b);
    assert DigitsOnly(t) == a + ([] + b);
  }

  /** Words are left for the search. */
  lemma SpokenWordsExample()
    ensures FormatSpokenNumbers("4 bananas") == "4 bananas"
  {
    assert !IsSpokenNumberChar("4 bananas"[2]);
  }

  /** The recogniser's state as the hook sees it: `listening`, the `enableSpeech` preference
      its error callback may switch off, and the transcripts handed on to the query. */
  class SpeechSession {
    var listening: bool
    var enableSpeech: bool
    var delivered: seq<string>

    constructor(enabled: bool)
      ensures !listening && enableSpeech == enabled && delivered == []
    {
      listening := false;
      enableSpeech := enabled;
      delivered := [];
    }

    method OnStart()
      modifies this
      ensures listening && enableSpeech == old(enableSpeech) && delivered == old(delivered)
    {
      listening := true;
    }

    method OnEnd()
      modifies this
      ensures !listening && enableSpeech == old(enableSpeech) && delivered == old(delivered)
    {
      listening := false;
    }

    /** Any error stops listening; only a refused permission turns speech input off. */
    method OnError(error: string)
      modifies this
      ensures !listening && delivered == old(delivered)
      ensures enableSpeech == (old(enableSpeech) && error != "not-allowed")
    {
      listening := false;
      if error == "not-allowed" {
        enableSpeech := false;
      }
    }

    /** The first alternative of the first result, formatted, goes to the query. */
    method OnResult(transcript: string)
      modifies this
      ensures !listening && enableSpeech == old(enableSpeech)
      ensures delivered == old(delivered) + [FormatSpokenNumbers(transcript)]
    {
      delivered := delivered + [FormatSpokenNumbers(transcript)];
      listening := false;
    }
  }
}
