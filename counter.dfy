/** The tally counter of hooks/useCounter.ts and its three key bindings. */
module Counter {
  import opened Keys
  import opened Wrappers
  import Lodash
  import Text

  /** The key bindings, as the preferences hold them (`appToggleCounterKey`,
      `appCounterUpKey`, `appCounterDownKey`). */
  datatype CounterKeys = CounterKeys(toggle: string, up: string, down: string)

  const DefaultCounterKeys := CounterKeys("^+c", "!k", "!j")

  /** What a key press does to the counter. */
  datatype CounterAction = Toggle | Up | Down | NoAction

  /** The handler's decision: the bindings are tried in the order toggle, up, down, and the
      first that matches is the only one handled. */
  function ActionFor(e: KeyEvent, keys: CounterKeys): (a: CounterAction)
    ensures a == Toggle <==> MatchKeyCombos(e, keys.toggle)
    ensures a == Up <==> !MatchKeyCombos(e, keys.toggle) && MatchKeyCombos(e, keys.up)
    ensures a == Down <==> !MatchKeyCombos(e, keys.toggle) && !MatchKeyCombos(e, keys.up)
                           && MatchKeyCombos(e, keys.down)
  {
    if MatchKeyCombos(e, keys.toggle) then Toggle
    else if MatchKeyCombos(e, keys.up) then Up
    else if MatchKeyCombos(e, keys.down) then Down
    else NoAction
  }

  /** The stored count (from local storage) and the `showCounter` preference it toggles. */
  class TallyCounter {
    var count: int
    var showCounter: bool

    constructor(stored: int, shown: bool)
      ensures count == stored && showCounter == shown
    {
      count := stored;
      showCounter := shown;
    }

    method CountUp()
      modifies this
      ensures count == old(count) + 1 && showCounter == old(showCounter)
    {
      count := count + 1;
    }

    /** One down, but never below zero. */
    method CountDown()
      modifies this
      ensures count == Lodash.Clamp(old(count) - 1, 0, old(count) - 1)
      ensures count == if old(count) >= 1 then old(count) - 1 else 0
      ensures old(count) >= 0 ==> count >= 0
      ensures showCounter == old(showCounter)
    {
      var n := count - 1;
      n := if n >= 0 then n else 0;
      count := n;
    }

    /** The key-down listener. Returns whether the event was handled (and its default
        action prevented). */
    method HandleKeyDown(e: KeyEvent, keys: CounterKeys) returns (handled: bool)
      modifies this
      ensures handled <==> ActionFor(e, keys) != NoAction
      ensures ActionFor(e, keys) == Toggle ==>
        showCounter == !old(showCounter) && count == old(count)
      ensures ActionFor(e, keys) == Up ==>
        count == old(count) + 1 && showCounter == old(showCounter)
      ensures ActionFor(e, keys) == Down ==>
        count == (if old(count) >= 1 then old(count) - 1 else 0) && showCounter == old(showCounter)
      ensures ActionFor(e, keys) == NoAction ==>
        count == old(count) && showCounter == old(showCounter)
    {
      if MatchKeyCombos(e, keys.toggle) {
        showCounter := !showCounter;
        return true;
      }
      if MatchKeyCombos(e, keys.up) {
        CountUp();
        return true;
      }
      if MatchKeyCombos(e, keys.down) {
        CountDown();
        return true;
      }
      return false;
    }
  }

  /** The default toggle binding needs Ctrl and excludes Alt. */
  lemma ToggleBindingModifiers(e: KeyEvent)
    ensures MatchKeyCombos(e, "^+c") ==> e.ctrlKey && e.shiftKey && !e.altKey
  {
    ToggleIsSingle(e);
    ParseCtrlShiftC();
  }

  lemma ToggleIsSingle(e: KeyEvent)
    ensures MatchKeyCombos(e, "^+c") <==> MatchKeyCombo(e, "^+c")
  {
    assert NoSeparator("^+c") by {
      forall i | 0 <= i < 3 ensures !IsSeparator("^+c"[i]) {
      }
    }
    SingleAlternative(e, "^+c");
  }

  /** `"!x"` for a letter `x` is Alt and that key, with the other modifiers released. */
  lemma AltBindingModifiers(e: KeyEvent, x: char)
    requires 'a' <= x <= 'z'
    ensures MatchKeyCombos(e, ['!', x]) <==>
      !e.ctrlKey && e.altKey && !e.shiftKey && !e.metaKey && ([x] == Text.Lower(e.key) || [x] == e.code)
  {
    assert NoSeparator(['!', x]) by {
      forall i | 0 <= i < 2 ensures !IsSeparator(['!', x][i]) {
      }
    }
    SingleAlternative(e, ['!', x]);
    ParseAlt(x);
  }

  /** `"!x"` for a letter `x` parses to Alt and the key `x`. */
  lemma ParseAlt(x: char)
    requires 'a' <= x <= 'z'
    ensures GetKeyCombo(['!', x]) == Some(KeyCombo(false, true, false, false, [x]))
  {
    ParseSigilPrefix("!", [x]);
    assert "!" + [x] == ['!', x];
  }

  /** With the default bindings, an event that toggles the counter never also counts. */
  lemma DefaultToggleExcludesCounting(e: KeyEvent)
    ensures MatchKeyCombos(e, DefaultCounterKeys.toggle) ==>
      !MatchKeyCombos(e, DefaultCounterKeys.up) && !MatchKeyCombos(e, DefaultCounterKeys.down)
  {
    ToggleBindingModifiers(e);
    AltBindingModifiers(e, 'k');
    AltBindingModifiers(e, 'j');
  }

  /** Alt+K counts up. */
  lemma AltKCountsUp()
    ensures ActionFor(KeyEvent("k", "KeyK", false, true, false, false), DefaultCounterKeys) == Up
  {
    var e := KeyEvent("k", "KeyK", false, true, false, false);
    ToggleBindingModifiers(e);
    AltBindingModifiers(e, 'k');
    assert Text.Lower("k") == "k";
  }
}
