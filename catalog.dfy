/**
 * The catalog record that every part of the application passes around (`IItemData`), and
 * JavaScript's `String(value)` on its value field.
 */
module Catalog {
  import opened Wrappers
  import opened Text

  /** The `value` field: absent, a string, or an integer. Fractional numbers are not modelled. */
  datatype ItemValue = Absent | Str(s: string) | Whole(n: int)

  /** One catalog entry. Every field is optional in the data. */
  datatype Item = Item(
    name: Option<string>,
    value: ItemValue,
    tags: Option<seq<string>>,
    keywords: Option<seq<string>>,
    priorityKeywords: Option<seq<string>>,
    uiColor: Option<string>,
    duplicate: bool,
    ignore: bool)

  /** `String(value)`: missing becomes "undefined", an integer its decimal digits with a minus
      sign when negative. */
  function StringOf(v: ItemValue): (r: string)
    ensures v.Str? ==> r == v.s
    ensures v.Whole? && v.n >= 0 ==> r == NatToString(v.n) && AllDigits(r)
    ensures v.Whole? && v.n < 0 ==> r == "-" + NatToString(-v.n)
    ensures v.Absent? ==> r == "undefined"
  {
    match v
    case Absent => "undefined"
    case Str(s) => s
    case Whole(n) => if n >= 0 then NatToString(n) else "-" + NatToString(-n)
  }

  /** `v.tags?.includes(t)`. */
  predicate HasTag(item: Item, t: string) {
    item.tags.Some? && t in item.tags.value
  }

  /** A number's string form reads back as that number. */
  lemma StringOfWholeRoundTrip(n: nat)
    ensures AllDigits(StringOf(Whole(n))) && ParseDigits(StringOf(Whole(n))) == n
  {
    ParseNatToString(n);
  }
}
