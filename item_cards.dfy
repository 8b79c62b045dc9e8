/**
 * The two result cards of components/item-cards.tsx: a catalog item's card, which may turn a
 * four-digit PLU into its organic five-digit form, and the card for a code typed by the user.
 */
module ItemCards {
  import opened Wrappers
  import opened Text
  import opened Catalog
  import Barcode

  /** What a store card shows: its name, the value given to the barcode and the value printed
      under it, and whether the barcode is greyed out. */
  datatype StoreCard = StoreCard(name: Option<string>, barcodeValue: string, textValue: string, disabled: bool)

  datatype GeneratedCard = GeneratedCard(barcodeValue: string)

  const OrganicNamePrefix := "[Organic] "

  /** A name as a template string shows it: a missing name reads "undefined". */
  function NameText(name: Option<string>): string {
    name.GetOr("undefined")
  }

  /** The organic rule: a modifier is configured, the query ends with it, the value has four
      characters and the name does not already say "organic" in any case. */
  predicate OrganicApplies(query: Option<string>, item: Item, organicModifier: string) {
    && organicModifier != ""
    && query.Some? && EndsWith(query.value, organicModifier)
    && |StringOf(item.value)| == 4
    && !(item.name.Some? && Contains(Lower(item.name.value), "organic"))
  }

  /** `StoreItemCard`: the organic transform and the no-cheat flag. */
  function StoreItemCard(query: Option<string>, item: Item, organicModifier: string, organization: string, noCheat: bool): (c: StoreCard)
    ensures c.barcodeValue == c.textValue
    ensures OrganicApplies(query, item, organicModifier) ==>
      && c.name == Some(OrganicNamePrefix + NameText(item.name))
      && c.textValue == "9" + StringOf(item.value) && |c.textValue| == 5
    ensures !OrganicApplies(query, item, organicModifier) ==>
      c.name == item.name && c.textValue == StringOf(item.value)
    ensures c.disabled <==> organization == "GIANT_EAGLE" && noCheat && HasTag(item, "produce")
  {
    var name := item.name;
    var value := StringOf(item.value);
    var organic := OrganicApplies(query, item, organicModifier);
    var name' := if organic then Some(OrganicNamePrefix + NameText(name)) else name;
    var value' := if organic then "9" + value else value;
    var disabled := organization == "GIANT_EAGLE" && noCheat && HasTag(item, "produce");
    StoreCard(name', value', value', disabled)
  }

  /** `GeneratedItemCard`: the typed code goes to the barcode unchanged. */
  function GeneratedItemCard(value: string): (c: GeneratedCard)
    ensures c.barcodeValue == value
  {
    GeneratedCard(value)
  }

  /** The no-cheat preference only greys the barcode out; what is shown is the same. */
  lemma NoCheatOnlyDisables(query: Option<string>, item: Item, modifier: string, organization: string)
    ensures var on := StoreItemCard(query, item, modifier, organization, true);
      var off := StoreItemCard(query, item, modifier, organization, false);
      && on.name == off.name && on.barcodeValue == off.barcodeValue && on.textValue == off.textValue
      && !off.disabled
  {
  }

  /** The organic form of a four-digit PLU is a five-digit PLU, so the barcode still treats it
      as a PLU; and as it has five characters it is never transformed again. */
  lemma OrganicPluIsPlu(query: Option<string>, item: Item, modifier: string, organization: string, noCheat: bool)
    requires OrganicApplies(query, item, modifier) && AllDigits(StringOf(item.value))
    ensures var c := StoreItemCard(query, item, modifier, organization, noCheat);
      && Barcode.IsPlu(c.barcodeValue)
      && !OrganicApplies(query, item.(value := Str(c.textValue)), modifier)
  {
    var c := StoreItemCard(query, item, modifier, organization, noCheat);
    var v := StringOf(item.value);
    assert c.barcodeValue == "9" + v;
    assert AllDigits(c.barcodeValue) by {
      forall i | 0 <= i < |c.barcodeValue| ensures IsDigit(c.barcodeValue[i]) {
        if i > 0 { assert c.barcodeValue[i] == v[i - 1]; }
      }
    }
  }

  /** A value of any other length than four is never transformed. */
  lemma OnlyFourCharacterValues(query: Option<string>, item: Item, modifier: string, organization: string, noCheat: bool)
    requires |StringOf(item.value)| != 4
    ensures StoreItemCard(query, item, modifier, organization, noCheat).textValue == StringOf(item.value)
  {
  }

  /** "bananas!" with modifier "!" shows the organic bananas. */
  lemma OrganicBananasExample()
    ensures var item := Item(Some("Bananas"), Str("4011"), Some(["produce"]), None, None, None, false, false);
      StoreItemCard(Some("bananas!"), item, "!", "GIANT_EAGLE", true)
        == StoreCard(Some("[Organic] Bananas"), "94011", "94011", true)
  {
    var item := Item(Some("Bananas"), Str("4011"), Some(["produce"]), None, None, None, false, false);
    assert EndsWith("bananas!", "!");
    BananasIsNotOrganic();
    assert OrganicApplies(Some("bananas!"), item, "!");
    assert OrganicNamePrefix + NameText(item.name) == "[Organic] Bananas";
    assert "9" + StringOf(item.value) == "94011";
  }

  lemma BananasIsNotOrganic()
    ensures !Contains(Lower("Bananas"), "organic")
  {
    assert |Lower("Bananas")| == 7;
    forall i | 0 <= i <= 7 ensures !OccursAt(Lower("Bananas"), "organic", i) {
      if i == 0 { assert Lower("Bananas")[0] == 'b'; }
    }
  }

  /** A name that already says "Organic" is left alone. */
  lemma AlreadyOrganicExample()
    ensures var item := Item(Some("Organic Kale"), Str("4627"), None, None, None, None, false, false);
      StoreItemCard(Some("kale!"), item, "!", "", false).textValue == "4627"
  {
    KaleSaysOrganic();
  }

  lemma KaleSaysOrganic()
    ensures Contains(Lower("Organic Kale"), "organic")
  {
    var n := "Organic Kale";
    assert forall k :: 0 <= k < 7 ==> LowerChar(n[k]) == "organic"[k];
    LowerOccursAt(n, "organic", 0);
  }
}
