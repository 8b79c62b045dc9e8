# Cashier barcode lookup — a Dafny model

This project models the query-to-barcode engine of a cashier lookup application. A cashier
types or dictates a query. The application splits the query into segments and searches a
catalog of store items for each one. It shows the items as cards whose barcodes can be
scanned at the till.

The model covers:

- the code formats (PLU, UPC-A, SKU), their conversions and the GS1 check digit
  (`barcode.dfy`);
- the ordered choice of symbology when a barcode is drawn (`barcode_render.dfy`);
- the key-combination language of the keyboard shortcuts (`keys.dfy`);
- the main view: query splitting, segment navigation, keyboard dispatch, the calculator guard
  and the round-up suggestion (`main_view.dfy`, `round_up.dfy`);
- one pane of results: tag mode versus fuzzy search, the organic modifier, the typed-in code
  and paging (`query_results.dfy`);
- the item cards and their organic PLU transform (`item_cards.dfy`);
- the application state provider: preferences, catalog compilation, organization precedence
  and the chain of rebuilds after a state change (`app_state.dfy`);
- the tally counter and the speech-input hook (`counter.dfy`, `speech.dfy`).

`text.dfy`, `catalog.dfy`, `lodash.dfy` and `wrappers.dfy` hold the JavaScript string built-ins,
the catalog record and the two lodash helpers used by the modules above.

Pure code is modelled as functions with lemmas. Each React component or hook whose state
changes step by step is modelled as a class. Its `setState` calls become field assignments
in methods, and its effects become methods run in the order React runs them.

Identity comparisons of arrays (`!==` in `componentDidUpdate`, or a new `splitQueries` array
with equal contents) are modelled by version numbers. Each rebuild takes a fresh version.

Foreign code becomes parameters:

- the Fuse.js search is a function `string -> seq<Item>`;
- mathjs evaluation is a function `string -> Option<real>`;
- YAML parsing is an optional list of pairs;
- whether a rendering library accepts an attempt is an oracle `Attempt -> bool`;
- DOM focus and URL parameters are boolean arguments.

In these places the model follows the code, which differs from what one might expect:

- Tag mode uses the leftmost occurrence of the tag prefix. If the token there is empty, the
  query goes to the fuzzy search, even when a later occurrence carries a tag.
- With an empty separator, `splitQuery` returns `[str]` and then drops it when `str` is empty.
  The result is `[]` for an empty query, not `[""]`.
- The two round-up hooks differ on `"0"` and `"00"`. The hook in src/useRoundUp.ts hides the
  0, and the one in hooks/useRoundUp.ts renders it.
- The default counter bindings for up and down are different letters. The key patterns
  themselves are not disjoint, so a press matching both counts up, because up is checked first.

## Model

| member | source | states |
|---|---|---|
| Barcode.PatternsDisjoint | lib/barcode.ts:1-4 | No string is both a PLU and a UPC, a PLU and a SKU, or a UPC and a SKU; a 12-digit UPC is a UPC |
| Barcode.IsPlu | lib/barcode.ts:3 | `^\d{4,5}$`; `PatternsDisjoint` states that it excludes the other shapes |
| Barcode.IsUpc | lib/barcode.ts:1 | `^\d{11,12}$`; `PatternsDisjoint` states that it excludes the other shapes |
| Barcode.IsSku | lib/barcode.ts:4 | `^\d{14}$`; `PatternsDisjoint` states that it excludes the other shapes |
| Barcode.CheckDigit | lib/barcode.ts:28-42 | Defined exactly for `^\d{11,12}$` inputs, and then a digit 0..9 |
| Barcode.CalcUpcCheckDigit | lib/barcode.ts:28-42 | The two stride loops compute the check digit: undefined off the pattern, otherwise `CheckDigit` of the input |
| Barcode.CheckDigitIsGs1 | lib/barcode.ts:33-39 | For eleven data digits, the computed digit completes a GS1-valid UPC-A (weights 1,3 from the right), and it is the only digit that does |
| Barcode.CheckDigitOfCompleted | lib/barcode.ts:31-39 | Recomputing over the completed twelve characters, with the check digit at an odd index, gives 0 |
| Barcode.CheckDigitZeroIffValid | lib/barcode.ts:31-39 | Over twelve digits the computation gives 0 exactly when the code is GS1-valid |
| Barcode.AppendDigitSum | lib/barcode.ts:33-37 | Appending a digit to eleven digits adds it to the odd-position sum; the GS1 sum of the twelve is 3·even + odd + digit |
| Barcode.RightWeightedStrides | lib/barcode.ts:33-37 | The GS1 right-to-left weighted sum equals the source's left-to-right stride sums, with the weights depending on the parity of the length |
| Barcode.SkuToUpc | lib/barcode.ts:6-9 | Defined exactly for 14 digits or when not safe; the input is two characters followed by the result; a SKU gives a 12-digit UPC |
| Barcode.PluToUpc | lib/barcode.ts:11-18 | Defined exactly for 4–5 digits or when not safe; the result starts with the input padded to eleven with '0' and has at most one more character |
| Barcode.PluToUpcOfPlu | lib/barcode.ts:11-16 | For a PLU: 11 digits exactly when the check digit is 0, otherwise 12 and GS1-valid; the result's own check digit is 0; a second safe call refuses it |
| Barcode.PluToUpcBananas | lib/barcode.ts:11-16 | "4011" becomes "000000040112" |
| Barcode.PluToUpcZeroCheckDigit | lib/barcode.ts:14-15 | "4060", whose check digit is 0, comes back with eleven digits only |
| Text.PadStart | lib/barcode.ts:13 | `padStart(n, '0')`: the input is a suffix of the result, which is `n` long or the input when longer, and every added character is the pad |
| Barcode.PrettyUpc | lib/barcode.ts:20-26 | Defined exactly for twelve digits; then 15 characters, with groups 1-5-5-1 of the input separated by single spaces |
| Barcode.PrettyUpcRoundTrip | lib/barcode.ts:20-26 | Removing the spaces of the pretty form gives the UPC back |
| BarcodeRender.Candidates | components/Barcode.tsx:63-128 | Between two and four attempts are planned, and CODE128 then QR of the raw value always come last |
| BarcodeRender.RenderBarcode | components/Barcode.tsx:63-128 | The chain of `try` blocks, each run only while nothing has drawn; `RenderIsFirstSuccess` states that it is the first success over `Candidates` |
| BarcodeRender.FirstSuccess | components/Barcode.tsx:63-128 | Trying a list in order: success iff some candidate succeeds; the attempts made are a prefix of the list, each failed except possibly the last, and all when nothing succeeds |
| BarcodeRender.RenderIsFirstSuccess | components/Barcode.tsx:63-128 | The block-by-block chain of `try` blocks makes exactly the candidate attempts up to the first success |
| BarcodeRender.RenderOutcome | components/Barcode.tsx:108-127 | A render stops at the first attempt that draws; every earlier one failed; it fails only after CODE128 and QR both failed |
| BarcodeRender.FirstAttempt | components/Barcode.tsx:64-101 | The first attempt is QR for a Target PLU, the UPC form for another PLU, the value itself for a UPC, the value without two characters for a SKU, CODE128 otherwise |
| BarcodeRender.UpcEncodedUnchanged | components/Barcode.tsx:87-90 | Padding an 11- or 12-digit UPC to eleven leaves it unchanged |
| BarcodeRender.ThenExtends | components/Barcode.tsx:78-125 | A further `try` block after a list of attempts is the same as trying the longer list |
| BarcodeRender.BarcodeView.UpdateValue | components/Barcode.tsx:47-52 | With a canvas, the success flag becomes the render's outcome; without one it is kept |
| BarcodeRender.BarcodeView.constructor | components/Barcode.tsx:17 | No successful render yet |
| Keys.SigilRun | src/keys.ts:4 | The leading run of sigils is all sigils and is followed by a non-sigil or the end |
| Keys.GetKeyCombo | src/keys.ts:3-14 | Parses exactly the non-empty strings without line terminators; the key is a non-empty suffix after a run of sigils that starts with no sigil unless it is one character; each flag is set iff its sigil is in the run |
| Keys.ParseSigilPrefix | src/keys.ts:4-11 | Any sigil prefix, in any order and with repetition, before a key that does not start a longer run, gives the flags of the sigils present and that key |
| Keys.ParsePlusAlone | src/keys.ts:4-6 | "+" is the key "+" with no modifier |
| Keys.ParseCtrlPlus | src/keys.ts:4-6 | "^+" is Ctrl with the key "+" |
| Keys.ParseSigilOrder | src/keys.ts:4-11 | "+^c" and "^^+c" parse alike: order and repetition do not matter |
| Keys.ParseCtrlShiftC | src/keys.ts:4-11 | "^+c" is Ctrl and Shift with the key "c" |
| Keys.MatchKeyCombo | src/keys.ts:17-23 | Defined as: the combo parses, all four modifier flags equal the event's, and its key equals the event key lowercased or the event code; its one contract fact, that the empty combo matches nothing, is what `EmptyComboNeverMatches` states |
| Keys.EmptyComboNeverMatches | src/keys.ts:4-21 | An empty combo matches no event |
| Keys.CtrlShiftCExample | src/keys.ts:17-23 | "^+c" matches Ctrl+Shift+C reported as "C", but not with Alt also held nor without Shift; "^Space" matches Ctrl+Space by code |
| Keys.SplitRuns | src/keys.ts:26 | The scan of `split(/[\s,]+/)` gives at least one piece |
| Keys.PiecesExample | src/keys.ts:26 | ",^c, x" splits into "", "^c" and "x" |
| Keys.SplitRunsWord | src/keys.ts:26 | A string without separators is one piece |
| Keys.SplitRunsAtSeparator | src/keys.ts:26 | Across one separator character, the non-empty pieces of the whole are those of the left side followed by those of the right |
| Keys.PiecesAtSeparator | src/keys.ts:26 | The non-empty pieces of `a + sep + b` are those of `a` followed by those of `b` |
| Keys.MatchNonEmptyPieces | src/keys.ts:25-28 | Some piece matches iff some non-empty piece matches |
| Keys.AlternativesAreDisjunction | src/keys.ts:25-28 | A list with a comma or white space matches iff one side or the other matches |
| Keys.SingleAlternative | src/keys.ts:25-28 | A value without separators matches iff it matches as one combo |
| Keys.NonEmptyMembers | src/keys.ts:27 | A string is among the non-empty pieces iff it is a piece and non-empty |
| Keys.Pieces | src/keys.ts:26 | `str.split(/[\s,]+/)`: at least one piece, with the values `PiecesExample`, `PiecesAtSeparator` and `SplitRunsWord` state |
| Keys.MatchKeyCombos | src/keys.ts:25-28 | Some piece matches; `MatchNonEmptyPieces`, `AlternativesAreDisjunction` and `SingleAlternative` state what that means |
| Counter.ActionFor | hooks/useCounter.ts:16-32 | Toggle iff the toggle combo matches; up iff toggle does not and up does; down iff neither of those does and down does |
| Counter.TallyCounter.constructor | hooks/useCounter.ts:12 | The count is the stored one and the visibility is the provider's |
| Counter.TallyCounter.CountUp | hooks/useCounter.ts:40-42 | The count goes up by one, nothing else changes |
| Counter.TallyCounter.CountDown | hooks/useCounter.ts:44-48 | The count becomes `clamp(count-1, 0, ∞)`: one less, but never below zero; a non-negative count stays non-negative |
| Counter.TallyCounter.HandleKeyDown | hooks/useCounter.ts:16-32 | Handled iff some binding matches; toggle flips `showCounter` only; up and down change the count only; otherwise nothing changes |
| Counter.ToggleBindingModifiers | hooks/useCounter.ts:17 | The default toggle "^+c" needs Ctrl and Shift and excludes Alt |
| Counter.AltBindingModifiers | hooks/useCounter.ts:22-27 | "!x" for a letter matches exactly Alt alone with key or code `x` |
| Counter.DefaultToggleExcludesCounting | hooks/useCounter.ts:16-32 | With the default bindings, an event that toggles never also counts up or down |
| Counter.AltKCountsUp | hooks/useCounter.ts:22-25 | Alt+K counts up with the default bindings |
| MainView.JsSplit | components/MainView.tsx:221 | `str.split(sep)` gives at least one piece and no piece contains the separator |
| MainView.JoinJsSplit | components/MainView.tsx:221 | Joining the pieces with the separator gives the string back |
| MainView.JsSplitAtSeparator | components/MainView.tsx:221 | With a one-character separator, the pieces of `a + sep + b` are those of `a` followed by those of `b` |
| MainView.SplitQuery | components/MainView.tsx:219-223 | No segment is empty or contains the separator; with an empty separator the result is the query alone, or nothing for an empty query |
| MainView.SplitQueryRoundTrip | components/MainView.tsx:219-223 | The segments are the non-empty pieces of a split that joins back to the query |
| MainView.SplitQueryAtSeparator | components/MainView.tsx:219-223 | With a one-character separator, the segments of `a + sep + b` are those of `a` followed by those of `b` |
| MainView.SplitQueryWithoutSeparator | components/MainView.tsx:219-223 | A query without the separator is its own single segment, if non-empty |
| MainView.SplitQueryExample | components/MainView.tsx:219-223 | "a;b;;c" gives "a", "b", "c": the empty piece is dropped |
| MainView.TryMath | components/MainView.tsx:354-362 | An all-digit query is never evaluated; anything else is whatever the evaluator returns |
| MainView.FunctionKeyNumber | components/MainView.tsx:63-65 | The number of an `F\d{1,2}` key is below 100 |
| MainView.CtrlDigitSelectsSegment | components/MainView.tsx:76-80 | Ctrl+1..Ctrl+9 select segments 0..8 and Ctrl+0 selects segment 9 |
| MainView.HeldModifierEndsHandling | components/MainView.tsx:62-84 | With a modifier held only the two Ctrl shortcuts act, and both need Ctrl |
| MainView.ResetKeyRule | components/MainView.tsx:86-90 | Unmodified, the reset key acts exactly when the event's key or code equals it |
| MainView.NavigationGuard | components/MainView.tsx:92-106 | Navigation needs no modifier, no shadowbox, more than one segment and a key that is not the reset key, and then the left key navigates left |
| MainView.PlainComparisonNotCombo | components/MainView.tsx:83-90 | The reset key is compared as a plain string: Ctrl+X does not trigger a reset bound to "^x" |
| MainView.ButtonsShowWhenMoving | components/MainView.tsx:256-265 | For an index in range, the left button shows iff moving left changes the index, and the right button iff moving right does |
| MainView.MainViewState.constructor | components/MainView.tsx:23-44 | After the first render's effects: the shadowbox exactly as the URL's `sb` says; the default query and its segments (kept whole when empty or "wc", and "wc" navigates to /wcalc); the math and round-up boxes filled for it from zero results; index 0, no highlight, no throbber, text keyboard; the first render never removes `sb` |
| MainView.MainViewState.OnChangedQuery | components/MainView.tsx:140-174 | An empty query changes nothing; "wc" only navigates to /wcalc; any other query is re-split, removes `sb` from the location unless this is the first render, and shows the math and round-up boxes only for non-zero results |
| MainView.MainViewState.ShowMath | components/MainView.tsx:159-165 | The math box is shown exactly for a non-zero number, and the stored result changes only then |
| MainView.MainViewState.ShowRoundUp | components/MainView.tsx:167-173 | The round-up box is shown exactly for a non-zero suggestion, and the stored suggestion changes only then |
| MainView.MainViewState.UpdateChangedSplitQueries | components/MainView.tsx:176-182 | Back to segment 0 with nothing highlighted, all else unchanged |
| MainView.MainViewState.SetQuery | components/MainView.tsx:42-44 | `QuerySet`: the same query changes nothing; a new one goes back to segment 0 with nothing highlighted, and then "" keeps segments, history and boxes, "wc" only pushes /wcalc, any other query is split, both boxes are set as `onChangedQuery` says and `sb` is removed, so the shadowbox closes; otherwise `sb` and the shadowbox stay; throbber and keyboard stay |
| MainView.MainViewState.SetActiveQueryTo | components/MainView.tsx:250-254 | The index becomes `clamp(i, 0, len-1)` and that segment is highlighted; query, segments, history, throbber, shadowbox, keyboard and both boxes stay |
| MainView.MainViewState.SetActiveQueryLeft | components/MainView.tsx:256-258 | The index becomes `clamp(index-1, 0, len-1)` and that segment is highlighted; everything else stays |
| MainView.MainViewState.SetActiveQueryRight | components/MainView.tsx:260-262 | The index becomes `clamp(index+1, 0, len-1)` and that segment is highlighted; everything else stays |
| MainView.MainViewState.ResetQuery | components/MainView.tsx:204-217 | Segment 0, nothing highlighted, no throbber, text keyboard, and `QuerySet` for the default query: segments, history and boxes stay when the query already was the default, and otherwise follow `onChangedQuery` for it; `sb` is removed and the shadowbox is closed |
| MainView.MainViewState.OnClickToggleKbButton | components/MainView.tsx:236-239 | The keyboard type flips and `QuerySet` for "": segments, history and boxes stay, and a query that was not empty sends the view back to segment 0 with nothing highlighted; throbber and shadowbox stay |
| MainView.MainViewState.UpdateQueryParams | components/MainView.tsx:130-133 | The shadowbox is shown exactly when the URL has `sb`; nothing else changes |
| MainView.MainViewState.LocationChanged | components/MainView.tsx:22-41 | A location change made elsewhere re-renders the view, and the shadowbox then follows the new `sb`; nothing else changes |
| MainView.MainViewState.HandleKeyDown | components/MainView.tsx:58-127 | The outcome is `KeyDispatch` of the event; Reset is `ResetQuery`, which closes the shadowbox; segment selection and navigation move to the clamped segment and highlight it, navigation also stops the throbber; every outcome but Reset keeps query, segments, history, keyboard, boxes, `sb` and the shadowbox, and the others keep index, highlight and throbber too |
| MainView.MainViewState.Navigate | components/MainView.tsx:96-105 | A navigation key stops the throbber and activates and highlights the clamped neighbouring segment; everything else stays |
| MainView.KeyDispatch | components/MainView.tsx:58-127 | The checks of `handleKeyDown` in source order; what they decide is stated by `CtrlDigitSelectsSegment`, `HeldModifierEndsHandling`, `ResetKeyRule`, `NavigationGuard` and `PlainComparisonNotCombo` |
| RoundUp.TryRoundUp | components/MainView.tsx:364-370 | A number exactly for one or two digits, and then one in 0..99 |
| RoundUp.RoundUpCompletesDollar | src/useRoundUp.ts:19-23 | The amount and the suggestion add up to 100, except that an amount of 0 gives 0 |
| RoundUp.RoundUpZeroOnlyForZero | hooks/useRoundUp.ts:24-30 | The suggestion is 0 exactly for "0" and "00" |
| RoundUp.TruthyRoundUp.constructor | src/useRoundUp.ts:5-6 | No suggestion, nothing shown |
| RoundUp.NumberRoundUp.constructor | hooks/useRoundUp.ts:5-6 | No suggestion, nothing rendered |
| RoundUp.TruthyRoundUp.Update | src/useRoundUp.ts:10-14 | Shown iff the suggestion is truthy; the stored result changes only then, so a shown result is in 1..99 |
| RoundUp.NumberRoundUp.Update | hooks/useRoundUp.ts:10-19 | Rendered iff the query gives a number, 0 included; otherwise hidden with the stored result kept; the stored result stays in 0..99 |
| QueryResults.NonSpaceRun | components/MainViewQueryResults.tsx:89 | The leading run of `\S` characters is followed by white space or the end |
| QueryResults.TagToken | components/MainViewQueryResults.tsx:89-90 | Nothing iff the prefix is absent; otherwise the longest run, possibly empty, of non-white-space characters right after the leftmost prefix |
| QueryResults.TagTokenExample | components/MainViewQueryResults.tsx:89-90 | "milk #dairy" has the tag "dairy" |
| QueryResults.TagTokenLeftmostExample | components/MainViewQueryResults.tsx:89-91 | In "# #dairy" the token after the leftmost prefix is empty, so the later "#dairy" is never used as a tag |
| QueryResults.FilterByTag | components/MainViewQueryResults.tsx:93 | Exactly the items carrying the tag |
| QueryResults.FilterByTagConcat | components/MainViewQueryResults.tsx:93 | Filtering keeps catalog order |
| QueryResults.FilterByTagAll | components/MainViewQueryResults.tsx:93 | A catalog whose items all carry the tag is returned whole |
| QueryResults.IgnoreModifier | components/MainViewQueryResults.tsx:98-102 | Never longer than the query; the query itself when no modifier is set |
| QueryResults.IgnoreSingleModifier | components/MainViewQueryResults.tsx:98-102 | A one-character modifier is removed everywhere and the rest of the query is kept in order |
| QueryResults.DigitRun | components/MainViewQueryResults.tsx:106 | The leading run of digits is all digits and is followed by a non-digit or the end |
| QueryResults.CodeStart | components/MainViewQueryResults.tsx:106 | The leftmost position where four digits start, or nothing when there is none |
| QueryResults.TypedCode | components/MainViewQueryResults.tsx:106 | Nothing iff no four digits occur; otherwise 4..24 digits taken greedily at the leftmost place with four digits |
| QueryResults.GreedyCode | components/MainViewQueryResults.tsx:106 | The greedy run of at most 24 digits is all digits and, when shorter, ends at a non-digit or the end |
| QueryResults.TypedCodeExample | components/MainViewQueryResults.tsx:106-109 | "4011 bananas" gives the code "4011" |
| QueryResults.TypedCodeTooShort | components/MainViewQueryResults.tsx:106-111 | "401" gives no code |
| QueryResults.SliceEnd | components/MainViewQueryResults.tsx:39 | `slice(0, end)` stops within the list, and for a non-negative end at `end` bounded by the length |
| QueryResults.RenderSearchResults | components/MainViewQueryResults.tsx:39 | The first `n` results when paging, all of them otherwise |
| QueryResults.ShowMoreIffHidden | components/MainViewQueryResults.tsx:39-40 | For a non-negative count, the button shows iff some result is held back, and otherwise all are shown |
| QueryResults.ShowMoreProgress | components/MainViewQueryResults.tsx:120-123 | A click on a shown button reveals more results, never more than there are |
| QueryResults.ResultsPane.constructor | components/MainViewQueryResults.tsx:19-23 | The initial state: the search of the query, one page, no typed code, paging on |
| QueryResults.ResultsPane.Update | components/MainViewQueryResults.tsx:79-113 | An empty query changes nothing; otherwise one page; a non-empty tag shows exactly the tagged items without paging; otherwise the search of the query without the modifier, with paging; no tag prefix keeps the results; the typed-code card shows iff there is a code |
| QueryResults.ResultsPane.OnResetQuery | components/MainViewQueryResults.tsx:115-118 | Back to one page, nothing else changes |
| QueryResults.ResultsPane.OnClickShowMoreButton | components/MainViewQueryResults.tsx:120-123 | The count becomes `clamp(count + perPage, 1, total)`: at least one and, with results, at most their number |
| Catalog.StringOf | components/item-cards.tsx:15 | `String(value)`: a string as it is, a whole number in decimal with a minus sign when negative, a missing value as "undefined" |
| Catalog.StringOfWholeRoundTrip | components/item-cards.tsx:15 | The decimal string of a number reads back as that number |
| Text.NatToString | components/item-cards.tsx:15 | `String(n)`: at least one character, all digits |
| Text.ParseNatToString | components/item-cards.tsx:15 | Reading the decimal string of `n` gives `n` |
| Text.FourCharacterNumbers | components/item-cards.tsx:18 | `String(n)` has four characters exactly for 1000..9999 |
| ItemCards.StoreItemCard | components/item-cards.tsx:14-38 | When the organic rule holds, the name gets "[Organic] " and the value a leading "9" (five characters); otherwise both are unchanged; barcode and text agree; disabled iff Giant Eagle, no-cheat and a "produce" tag |
| ItemCards.OrganicApplies | components/item-cards.tsx:18 | The organic rule: a modifier is set, the query ends with it, `String(value)` has four characters, and the lowercased name does not contain "organic"; `OrganicPluIsPlu`, `OnlyFourCharacterValues` and the examples state its consequences |
| ItemCards.GeneratedItemCard | components/item-cards.tsx:51-52 | The typed code goes to the barcode unchanged |
| ItemCards.NoCheatOnlyDisables | components/item-cards.tsx:23-38 | The no-cheat preference changes only the disabled flag |
| ItemCards.OrganicPluIsPlu | components/item-cards.tsx:18-20 | The organic form of a four-digit PLU is a five-digit PLU and is never transformed again |
| ItemCards.OnlyFourCharacterValues | components/item-cards.tsx:18 | A value of any other length is never transformed |
| ItemCards.OrganicBananasExample | components/item-cards.tsx:18-26 | "bananas!" turns Bananas 4011 into "[Organic] Bananas" 94011, greyed out at Giant Eagle with no-cheat |
| ItemCards.AlreadyOrganicExample | components/item-cards.tsx:18 | A name already saying "Organic" keeps its value |
| Speech.FormatSpokenNumbers | hooks/useSpeechRecognition.ts:70-76 | A transcript of digits, white space, '-', '+' and '/' becomes `DigitsOnly` of itself, its own digits in order and nothing else; any other is returned unchanged |
| Speech.IsSpokenNumber | hooks/useSpeechRecognition.ts:71 | `^[\d\s-+/]*$`, the dash taken literally; `FormatSpokenNumbers` and `SpokenWordsExample` state its use |
| Speech.FormatSpokenNumbersIdempotent | hooks/useSpeechRecognition.ts:70-76 | Formatting twice is formatting once |
| Speech.DigitsOnlyConcat | hooks/useSpeechRecognition.ts:72 | Dropping the non-digits works piece by piece, so the digits keep their order |
| Speech.DigitsOnlySingle | hooks/useSpeechRecognition.ts:72 | One character is kept exactly when it is a digit; with `DigitsOnlyConcat` this fixes the result as the input's digits in order |
| Speech.SpokenPluExample | hooks/useSpeechRecognition.ts:70-72 | "40 11" becomes "4011" |
| Speech.SpokenWordsExample | hooks/useSpeechRecognition.ts:73-74 | "4 bananas" is left for the search |
| Text.DigitsOnly | hooks/useSpeechRecognition.ts:72 | `replace(/\D/g, '')` leaves only digits and never lengthens the text; `DigitsOnlyMembers`, `DigitsOnlySingle` and `DigitsOnlyConcat` state which characters stay and their order |
| Text.DigitsOnlyMembers | hooks/useSpeechRecognition.ts:72 | A character survives exactly when it occurs in the input and is a digit, and nothing is removed exactly when the input is all digits |
| Text.DigitsOnlyOfDigits | hooks/useSpeechRecognition.ts:72 | An all-digit text has nothing removed |
| Speech.SpeechSession.constructor | hooks/useSpeechRecognition.ts:9 | Not listening, nothing delivered, speech input as the preference says |
| Speech.SpeechSession.OnStart | hooks/useSpeechRecognition.ts:33-36 | Listening starts |
| Speech.SpeechSession.OnEnd | hooks/useSpeechRecognition.ts:38-41 | Listening stops |
| Speech.SpeechSession.OnError | hooks/useSpeechRecognition.ts:43-54 | Any error stops listening; only "not-allowed" switches speech input off |
| Speech.SpeechSession.OnResult | hooks/useSpeechRecognition.ts:60-65 | The formatted transcript is handed on and listening stops |
| AppState.DefaultPrefs | components/AppStateProvider.tsx:12-36 | Its keys are exactly the preference names |
| AppState.InitialPrefs | components/AppStateProvider.tsx:88 | The saved preferences laid over the defaults; `InitialPrefsLayering` states the layering |
| AppState.InitialPrefsLayering | components/AppStateProvider.tsx:88 | A saved preference wins over its default; every default is present; nothing else is added |
| AppState.InitialUserItemsText | components/AppStateProvider.tsx:73-74 | The user items are read from the saved preferences, or are empty |
| AppState.Reject | components/AppStateProvider.tsx:161 | No flagged item survives |
| AppState.RejectMembers | components/AppStateProvider.tsx:161 | An item survives iff it is in the input and flagged neither `duplicate` nor `ignore` |
| AppState.RejectConcat | components/AppStateProvider.tsx:161 | Rejection works piece by piece, so survivors keep their order |
| AppState.RejectUnflagged | components/AppStateProvider.tsx:161 | A list without flagged items is kept whole |
| AppState.BuildItemData | components/AppStateProvider.tsx:159-163 | The unflagged items of both lists; `BuildItemDataLayout` states the order and membership |
| AppState.BuildItemDataLayout | components/AppStateProvider.tsx:159-163 | The catalog is the unflagged remote items, in order, then the unflagged user items, in order; an item is in it iff it came from either list unflagged; compiling again changes nothing |
| AppState.BuildUserItemsData | components/AppStateProvider.tsx:165-178 | Nothing when the text does not parse; otherwise one item per pair, in order, with that name and value and the tag "user" |
| AppState.UserItemsAllCompiled | components/AppStateProvider.tsx:159-178 | Every user item reaches the catalog, after the surviving remote items |
| AppState.GetOrganization | components/AppStateProvider.tsx:133-135 | The override if set, else the database's organization, else ""; empty exactly when both are |
| AppState.Provider.Organization | components/AppStateProvider.tsx:133-135 | `_getOrganization` on the state: `GetOrganization` of the override and the database's organization |
| AppState.Provider.SpeechEnabled | components/AppStateProvider.tsx:129-131 | Browser support and the `enableSpeech` flag; `Mount` states that without support it is false |
| AppState.Provider.constructor | components/AppStateProvider.tsx:60-91 | Defaults under the saved preferences; the cached database's description and items, or none (`InitialRemoteItems`); the user items, the catalog and the index built from them |
| AppState.Provider.DidUpdate | components/AppStateProvider.tsx:107-123 | One `componentDidUpdate`: the remote items are cleared iff the address became empty; the user items are rebuilt iff their text changed; the catalog iff a source list changed; the index iff the catalog changed; every rebuild reads the entry state |
| AppState.Provider.ClearRemote | components/AppStateProvider.tsx:111-112 | The description and remote items are cleared under a fresh version; the other lists are untouched |
| AppState.Provider.RebuildUser | components/AppStateProvider.tsx:114-115 | The user items are rebuilt from the current text under a fresh version; the other lists are untouched |
| AppState.Provider.RebuildCompiled | components/AppStateProvider.tsx:117-119 | The catalog is rebuilt from the current remote and user items under a fresh version; the other lists are untouched |
| AppState.Provider.RebuildIndex | components/AppStateProvider.tsx:121-122 | The search index is rebuilt from the current catalog and takes its version; nothing else changes |
| AppState.Provider.Rerender | components/AppStateProvider.tsx:107-123 | One render and its update move the rebuild chain at least one stage on |
| AppState.Provider.Settle | components/AppStateProvider.tsx:107-123 | The renders after a change end with every derived list built from its current sources |
| AppState.Provider.SetPref | components/AppStateProvider.tsx:107-123 | A preference change settles; the user items are rebuilt only when their text changed; the remote items are cleared only when the address became empty |
| AppState.Provider.ResetAll | components/AppStateProvider.tsx:137-139 | Every preference is back to its default, other keys are kept, and the state settles; the description and remote items are cleared when the address changed to an empty one, and kept otherwise |
| AppState.Provider.ReceiveRemoteDb | components/AppStateProvider.tsx:180-189 | A fetched database replaces the description and the remote items, and the state settles; a failed fetch changes nothing |
| AppState.Provider.Mount | components/AppStateProvider.tsx:100-105 | Without an address the description and remote items are cleared, with one both are kept for the fetch; without browser support speech is switched off and unavailable; the state settles |
| AppState.StateRemoteAsWritten | components/AppStateProvider.tsx:63-88 | As written: the state's remote items are set only from a cached database and are `undefined` otherwise |
| AppState.RemoteAfterMount | components/AppStateProvider.tsx:180-196 | With an address the remote items are left for the fetch; without one they become `[]` |
| AppState.RemoteAfterFetch | components/AppStateProvider.tsx:182-188 | A fetched database replaces the remote items; a failed fetch leaves them |
| AppState.BuildItemDataAsWritten | components/AppStateProvider.tsx:159-163 | Throws exactly when the remote items are `undefined`; otherwise the unflagged remote items then the unflagged user items |
| AppState.UncachedEditThrows | components/AppStateProvider.tsx:107-123 | With no cache, an address and a failed fetch, the remote items are still `undefined` and the catalog rebuild after a user-items edit throws |
| AppState.InitialRemoteItems | components/AppStateProvider.tsx:75 | The cached database's items, or `[]`; it agrees with the state as written whenever a cache exists |
| AppState.InitialRemoteNeverThrows | components/AppStateProvider.tsx:75-77 | Starting from `InitialRemoteItems`, the catalog rebuild never throws, whatever the mount and fetch do; in the failing scenario it is the user's unflagged items |
| Lodash.Clamp | components/MainViewQueryResults.tsx:121 | `clamp(x, lo, hi)`: bounded above by `hi`, then below by `lo`, so `lo` wins when the bounds cross |
| Text.RemoveAllSingle | components/MainViewQueryResults.tsx:100 | A global replace of a one-character pattern deletes exactly that character |
| Text.Find | components/MainViewQueryResults.tsx:89-90 | `indexOf`: the leftmost occurrence at or after the start, and nothing only when there is none |
| Text.Lower | components/item-cards.tsx:18 | `toLowerCase` character by character (ASCII letters) |

## Left out

- Catalog.StringOf: item values are strings or whole numbers. A fractional number such as 40.5 has the four-character `String()` form "40.5", so item-cards.tsx:18 would apply the organic transform to it. The model has no such value.
- Math evaluation: mathjs and its floating-point results are the `evaluate` parameter of `TryMath`. A non-number result and an error are both `None`, so a NaN result is not modelled.
- The Fuse.js index and `_search`: the search is the `search` parameter. The index is modelled only by the catalog it was built from and that catalog's version.
- YAML parsing of the user items: the parse is a parameter returning pairs of strings, and a failed parse is `None`.
- Barcode and QR rendering (jsbarcode, qrcode, canvas sizes): a success/failure oracle per attempt.
- The DOM and routing:
  - focus, selection and scrolling (`select`, `focusInputField`, `resetScroll`) are left out;
  - the removal of the `sb` URL parameter in `onChangedQuery` and `resetQuery` is modelled only as the `urlHasSb` flag becoming false. The `history.push` of the remaining query string is not recorded in `history`;
  - the click on the n-th result card is left out: only its index is modelled (`ClickResult`);
  - `history.push` is modelled only for "/wcalc", as a list of the paths pushed.
- `updateHighlightedQuery` is left out. It only selects text in the input element.
- The `onResetQueryDelegate` set is left out: `ResetQuery` does not call the panes' `OnResetQuery`, which is modelled as a separate method.
- Regular-expression sources built from preferences (`itemTagPrefix`, `organicModifier`, `querySeparator`) are modelled only for values without metacharacters.
- Strings are sequences of code points, not UTF-16 code units. `toLowerCase` is modelled on ASCII letters only.
- Local storage is left out. Saving preferences and the cache, and loading them, become constructor arguments. The asynchronous fetch of the remote database is left out; its result arrives through `ReceiveRemoteDb`.
- Timers and vibration are left out, and so is binding the recogniser's callbacks. The hook's keydown listener is hooks/useKeyDown.ts, which is not part of this model.
- AppState.Provider.constructor: the state starts with `InitialRemoteItems`, the corrected value (see "## Findings"), not the `undefined` of the code. Saved preferences are layered over the defaults as stored, even if they hold keys that are not preferences. A non-text `userItems` value reads as "".
- AppState.Provider: preferences that the view components read from the context are passed to them as arguments. A change of those preferences while the views are mounted is not modelled.
- MainView.MainViewState.SetQuery: the text input's `onCommit` guard (an empty value is not committed) belongs to the input component and is left out; `SetQuery("")` is reached through the keyboard toggle, and through `ResetQuery` when the default query is empty (its default value). Neither passes through `onCommit`.
- AppState.Provider.SpeechEnabled has no contract of its own: it is browser support and the `enableSpeech` flag (components/AppStateProvider.tsx:129-131). `Mount` states its one consequence.
- KeyDispatch has no contract of its own. Its dispatch order is stated by the lemmas after it and by `HandleKeyDown`.

## Findings

| source | as written | input that shows it | evidently intended | confidence | as-written member | corrected member |
|---|---|---|---|---|---|---|
| components/AppStateProvider.tsx:75-88 | Without a valid cached database the constructor compiles from `remoteItemData ?? []` but never stores that list. `state.remoteItemData` stays `undefined` until the mount clears it or a fetch answers. | No cached database, the default non-empty address, a fetch that fails, then an edit of the user items: the update rebuilds the catalog with `_buildItemData(undefined, …)`, and `[...remoteData]` at line 160 throws a `TypeError` | The state starts with the same `[]` the constructor compiled from, so every rebuild has a list | not executed | AppState.UncachedEditThrows | AppState.InitialRemoteNeverThrows |
