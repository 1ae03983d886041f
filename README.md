# PandaManage session logic in Dafny

PandaManage is a React Native shopping-list and cash calculator. All of its logic sits
in the single `App` component in `App.tsx`. This project models that component's
state logic without the React wiring. It has three parts.

- **The session's line items.** A list of product lines (`FullData`: name, quantity,
  price, stored line total `multi`) and a cash amount. The operations are adding a line
  from the form drafts, updating one field of one line, adding or removing one unit,
  and deleting one line. The total is the sum of the line totals. The remaining money is
  the cash less the total.
- **The numeric-field sanitiser.** `sanitizeNumericInput` keeps only digits and dots,
  cuts the text before its second dot, and reads what is left as a decimal number, or 0.
- **The history archive.** A session is saved either as a new entry under a fresh id,
  or, when it was restored from an entry, by overwriting that entry's data in place. An
  entry can be restored into the session, and `deleteAll` archives the session and
  then resets it.

Modules and files:

| file | module | contents |
|---|---|---|
| `wrappers.dfy` | `Wrappers` | `Option`, for `multi?` and `historyId: string \| null` |
| `line_items.dfy` | `LineItems` | the `FullData` record and the list transforms, as pure functions over `seq`, with their lemmas |
| `numeric_input.dfy` | `NumericInput` | `sanitizeNumericInput`, step by step, with its lemmas |
| `history_archive.dfy` | `HistoryArchive` | the `History` record and the archive update, as pure functions, with their lemmas |
| `session.dfy` | `Session` | `class App`: the component's state as fields, each handler as a method built on the pure functions; then short sessions run through the handlers (add a line, add a unit, pay, delete), alone and chained, with their exact outcomes |

Names follow the source, except for the misspelled fields. `proudct` is `product`
and `numberProudcts` is `quantity`. A stored `History` entry's data fields are grouped
in a `Snapshot`. Numbers are `real`, so sums and products are exact. The class
invariant `Valid()` says three things:

- every line's `multi` equals its price times its quantity;
- the same holds in every archived entry;
- archive ids are unique.

Every handler is proved to keep `Valid()`. Some need a hypothesis for that: an archive id not yet in use, a restored entry whose totals are current, or an update that does not set `multi` directly.

## Model

| member | source | states |
|---|---|---|
| `LineItems.NewLine` | App.tsx:93 | a new line's stored total is its price times its quantity |
| `LineItems.AddItem` | App.tsx:88-94 | an empty product name is refused; otherwise exactly one line is appended at the end; earlier lines are unchanged, and the new line is built from the drafts |
| `LineItems.AddItemTotal` | App.tsx:93-94 | a successful add raises the total by price times quantity and keeps every line total current |
| `LineItems.MapAt` | App.tsx:110-121 | mapping at one index keeps the length and changes only that index, so `items[index := f(items[index])]` |
| `LineItems.ApplyUpdate` | App.tsx:113-116 | the named key takes the new value and the other fields are kept; after a quantity or price change `multi` is price times quantity; after a name change `multi` is unchanged |
| `LineItems.UpdateProduct` | App.tsx:109-122 | the length is kept; only line `index` changes, and it becomes `ApplyUpdate` of the old line; an index outside the list changes nothing |
| `LineItems.UpdateProductTotal` | App.tsx:109-122 | the total (App.tsx:167-169) changes by the change in the updated line's total |
| `LineItems.UpdateProductConsistent` | App.tsx:114-116 | a name, quantity or price update keeps every line total current |
| `LineItems.WithQuantity` | App.tsx:128-141 | a line given a new quantity keeps its name and price, and its total is recomputed |
| `LineItems.IncrementQuantity` | App.tsx:124-134 | the length is kept; only line `index` changes; its quantity grows by exactly 1; its name and price stay; `multi` is price times the new quantity |
| `LineItems.DecrementQuantity` | App.tsx:136-146 | the same, with the quantity lowered by exactly 1 and no floor at zero |
| `LineItems.IncrementTotal` | App.tsx:124-134 | with current line totals, adding one unit raises the total by the line's price and keeps the totals current |
| `LineItems.DecrementTotal` | App.tsx:136-146 | with current line totals, removing one unit lowers the total by the line's price and keeps the totals current |
| `LineItems.RemoveAt` | App.tsx:156 | the filter keeps the lines before `index` followed by the lines after it, in order; an index outside the list changes nothing |
| `LineItems.RemoveAtTotal` | App.tsx:156 | deleting a line lowers the total by that line's total |
| `LineItems.TotalSumWithout` | App.tsx:167-169 | taking one line out of the middle of a list lowers the total by that line's total |
| `LineItems.RemoveAtConsistent` | App.tsx:156 | deleting a line keeps the other line totals current |
| `LineItems.LineTotal` | App.tsx:168 | a line adds its stored total to the sum, and adds 0 when it has none; so a line whose total is current adds its price times its quantity |
| `LineItems.TotalSum` | App.tsx:167-169 | `calculateTotalSum` adds the line totals left to right starting from 0: a one-line list totals that line's total, and lines whose totals are not negative give a total that is not negative |
| `LineItems.TotalSumIsSum` | App.tsx:167-169 | the left-to-right `reduce`, with a missing `multi` counted as 0, equals the sum of the line totals taken from the front |
| `LineItems.SumOfLineTotalsConcat` | App.tsx:168 | the sum of line totals distributes over concatenation |
| `LineItems.TotalSumConcat` | App.tsx:168 | the total of two lists joined is the sum of their totals |
| `LineItems.TotalSumReplace` | App.tsx:168 | replacing one line changes the total by the difference of the two line totals |
| `LineItems.ReplaceConsistent` | App.tsx:113-141 | replacing a line by one whose total is current keeps all totals current |
| `LineItems.ConsistentTotal` | App.tsx:167-169 | when every line total is current, the total is the sum of price times quantity |
| `LineItems.ConsistentSum` | App.tsx:168 | the same equality, for the sum taken from the front |
| `NumericInput.KeepNumeric` | App.tsx:191 | the filtered text holds only digits and dots, is no longer than the input, and has no digit when the input has none |
| `NumericInput.KeepNumericChar` | App.tsx:191 | a single character survives the filter exactly when it is a digit or a dot; any other character is dropped |
| `NumericInput.KeepNumericConcat` | App.tsx:191 | the filter works character by character: it distributes over concatenation |
| `NumericInput.KeepNumericFixpoint` | App.tsx:191 | the filter leaves a text unchanged exactly when that text holds only digits and dots |
| `NumericInput.Split` | App.tsx:193 | `split('.')` gives one more piece than there are dots, and no piece contains a dot |
| `NumericInput.CountConcat` | App.tsx:193 | the number of dots in two texts joined is the sum of their counts |
| `NumericInput.CountAbsent` | App.tsx:193 | a text without dots has a dot count of zero |
| `NumericInput.JoinSplit` | App.tsx:193 | `join('.')` undoes `split('.')` |
| `NumericInput.Join` | App.tsx:193 | joining starts with the first piece, and when there are two or more pieces the separator comes right after it |
| `NumericInput.JoinPrefix` | App.tsx:193 | joining the first `k` pieces gives a prefix of joining all of them, followed by a separator when any piece is left out |
| `NumericInput.JoinCount` | App.tsx:193 | joining dot-free pieces puts exactly one dot between neighbours |
| `NumericInput.FirstTwoSegments` | App.tsx:193 | keeping the first two pieces of the dot split, joined again, gives a prefix of the text with at most one dot; a text with at most one dot is kept whole; a text that is cut is cut just before its second dot |
| `NumericInput.PrefixAllNumeric` | App.tsx:191-193 | a prefix of a digit-and-dot text is a digit-and-dot text |
| `NumericInput.PrefixNoDigit` | App.tsx:191-193 | a prefix of a digit-free text is digit-free |
| `NumericInput.CleanText` | App.tsx:191-193 | the first two cleaning steps give a text of digits and at most one dot, and that text is a prefix of the filtered input |
| `NumericInput.CleanTextSpec` | App.tsx:191-193 | the cleaned text holds only digits and at most one dot, and is a prefix of the filtered input; it is the whole filtered input when that has at most one dot, and is otherwise cut at the second dot |
| `NumericInput.CleanTextIdempotent` | App.tsx:191-193 | cleaning a cleaned text changes nothing |
| `NumericInput.CleanTextOfClean` | App.tsx:191-193 | a digit-and-dot text with at most one dot comes through cleaning unchanged |
| `NumericInput.CleanTextTwoDots` | App.tsx:191-193 | for `a.b.rest` with digit-only `a` and `b` and any text `rest`, cleaning keeps exactly `a.b` |
| `NumericInput.DecimalValue` | App.tsx:195 | the value of `whole.fraction` is at least the value of `whole`, which is at least 0 |
| `NumericInput.LeadingDigits` | App.tsx:195 | the leading run of digits is a digit-only prefix, and the rest does not start with a digit |
| `NumericInput.LeadingDigitsOf` | App.tsx:195 | for a digit run followed by a non-digit, the leading run is exactly that digit run |
| `NumericInput.SanitizeNumericInput` | App.tsx:190-196 | the result is never negative |
| `NumericInput.SanitizeNoDigit` | App.tsx:190-196 | a text without digits does not parse (the `NaN` case), so the result is 0 |
| `NumericInput.DecimalText` | App.tsx:193 | `whole.fraction` of digits holds only digits and exactly one dot |
| `NumericInput.ParseFloat` | App.tsx:195 | `parseFloat` on a cleaned text gives a number exactly when the text starts with a digit or with a dot followed by a digit, and that number is never negative; otherwise it is `NaN` (`None`) |
| `NumericInput.ParseFloatDecimal` | App.tsx:195 | `parseFloat` reads `whole.fraction` as its decimal value |
| `NumericInput.ParseFloatWhole` | App.tsx:195 | `parseFloat` reads a run of digits as its natural number |
| `NumericInput.SanitizeDecimal` | App.tsx:190-196 | a well-formed decimal or run of digits comes through the sanitiser as its value |
| `NumericInput.SplitAtSeparator` | App.tsx:193 | a dot-free piece followed by a dot splits off as the first piece |
| `NumericInput.FirstTwoSegmentsOfTwoDots` | App.tsx:193 | with two or more dots, keeping two pieces keeps the text before the second dot |
| `NumericInput.SanitizeTwoDots` | App.tsx:190-196 | `a.b.rest`, with digit-only `a` and `b` not both empty and any text `rest`, sanitises to the value of `a.b`: everything from the second dot on is ignored |
| `NumericInput.NatOfTwoDigits` | App.tsx:195 | a two-digit run has the value 10 times its first digit plus its second |
| `NumericInput.SanitizeTwoDotsExample` | App.tsx:190-196 | `"12.34.56"` cleans to `"12.34"` and sanitises to 12.34 |
| `NumericInput.SanitizeNoDigitExamples` | App.tsx:190-196 | `"abc"` and `""` sanitise to 0 |
| `HistoryArchive.EditHistory` | App.tsx:252-265 | the length is kept; entries with a different id are kept; the entry with the id keeps its id, name and date and takes the session's data |
| `HistoryArchive.SaveInHistory` | App.tsx:269-291 | when `historyId` is `null` or the empty id (both falsy), one entry is appended (fresh id, current name and date, the session's data) and the earlier entries are unchanged; for any other id the length and every id are kept, each entry with that id takes the session's data and keeps its name and date, and every other entry is unchanged |
| `HistoryArchive.EditHistoryReplacesOne` | App.tsx:252-265 | with unique ids, editing replaces exactly the one entry with the id |
| `HistoryArchive.EditHistoryAbsent` | App.tsx:252-265 | editing under an id that no entry has changes nothing |
| `HistoryArchive.EditHistoryLastWins` | App.tsx:252-265 | editing twice under one id equals editing once with the later data |
| `HistoryArchive.SaveInHistoryKeepsEntries` | App.tsx:269-291 | every entry other than the one being overwritten, and its id, is still in the archive |
| `HistoryArchive.SaveInHistoryUnique` | App.tsx:269-291 | archiving under an id not yet in use keeps the ids unique |
| `HistoryArchive.SaveInHistoryConsistent` | App.tsx:269-291 | archiving a session whose totals are current keeps every entry's totals current |
| `HistoryArchive.ArchiveAfterRestore` | App.tsx:252-291 | a session bound to entry `k` overwrites entry `k` in place, keeping its id, name and date |
| `HistoryArchive.SaveInHistoryAsWritten` | App.tsx:252-291 | the code as written: the append path extends the stored list, and the edit path writes back the edited view cache, whose length it keeps |
| `HistoryArchive.AsWrittenAgreesWhenCacheCurrent` | App.tsx:252-291 | while the view cache equals the stored list, the code as written and the corrected update give the same archive, so the defect needs a stale cache |
| `HistoryArchive.StaleCacheLosesEntry` | App.tsx:252-298 | after the view cache `[a]` is loaded and entry `a` is tapped, an archive holding two entries is overwritten by one holding only `a`; the appended entry's id is gone |
| `HistoryArchive.CorrectedKeepsEntry` | App.tsx:252-291 | in the same scenario the corrected archive keeps both entries, and the appended one is unchanged |
| `Session.App.constructor` | App.tsx:38-51 | the initial state: no lines, zero cash and drafts, unbound, an empty archive; `Valid()` holds and the total is 0 |
| `Session.App.TotalSum` | App.tsx:167-170 | the total is the sum of the line totals, and while every line total is current it is the sum of price times quantity |
| `Session.App.RemainingMoney` | App.tsx:172-175 | the remaining money is the cash less the sum of the line totals, and while the totals are current the cash less the sum of price times quantity |
| `Session.App.SetDraftProduct` | App.tsx:434 | the name field sets the draft name |
| `Session.App.SetDraftQuantity` | App.tsx:440 | the quantity field sets the draft quantity |
| `Session.App.SetDraftPrice` | App.tsx:452 | the price field sets the draft price |
| `Session.App.SetHistoryName` | App.tsx:371 | the name field sets the history name |
| `Session.App.Clear` | App.tsx:99-103 | the drafts become `""`, 0 and 0 |
| `Session.App.FullDataEnter` | App.tsx:88-97 | a line is added exactly when the draft name is not empty; a refused add changes neither the lines nor the drafts; a successful one appends the new line, clears the drafts and raises the total by price times quantity; `Valid()` is kept |
| `Session.App.UpdateProduct` | App.tsx:109-122 | the lines become `LineItems.UpdateProduct` of the old lines; the total changes by the change in that line's total; `Valid()` is kept unless `multi` itself is set |
| `Session.App.HandlePriceChange` | App.tsx:198-201 | the lines become `LineItems.UpdateProduct` with the sanitised text as the new price; that line's price is non-negative and its total is current; `Valid()` is kept |
| `Session.App.HandleProductNumberChange` | App.tsx:208-211 | the lines become `LineItems.UpdateProduct` with the sanitised text as the new quantity; that line's quantity is non-negative and its total is current; `Valid()` is kept |
| `Session.App.IncrementProductQuantity` | App.tsx:124-134 | the lines become `IncrementQuantity` of the old lines; when every line total is current, the total rises by the line's price; `Valid()` is kept |
| `Session.App.SubtractedProductQuantity` | App.tsx:136-146 | the lines become `DecrementQuantity` of the old lines; when every line total is current, the total falls by the line's price; `Valid()` is kept |
| `Session.App.HandleMoneyAmountChange` | App.tsx:203-206 | the cash is the sanitised, non-negative value, and the remaining money is that cash less the total |
| `Session.App.SaveInHistory` | App.tsx:269-292 | the archive becomes `HistoryArchive.SaveInHistory` of the old archive and the current session; it grows by one entry when unbound and keeps its ids when bound; `Valid()` is kept under a new id |
| `Session.App.DeleteCard` | App.tsx:148-165 | the session is archived first, then the lines become `RemoveAt` of the old lines; for an index in the list, the length drops by one and the total by that line's total; `Valid()` is kept |
| `Session.App.RestoreHistory` | App.tsx:305-312 | the session is bound to the entry's id and takes the entry's lines, drafts and cash |
| `Session.App.DeleteAll` | App.tsx:313-321 | the session is archived as it stood; then it is unbound with no lines, zero cash, empty drafts, a total of 0 and remaining money of 0 |
| `Session.App.OpenHistoryEntry` | App.tsx:389-391 | tapping an entry archives the session, then binds it to the entry and takes the entry's data |
| `Session.NewSessionWithDraft` | App.tsx:434-452 | a new session after typing a product at quantity 3 and price 2 has those drafts, no lines, a total of 0, and `Valid()` |
| `Session.NewSessionWithLine` | App.tsx:88-97 | adding those drafts gives exactly one line, 3 x 2 with a total of 6, clears the drafts, and leaves the archive empty and the session unbound |
| `Session.PenScenario` | App.tsx:172-175 | after that line is added and 20 is typed as the cash, the total is 6 and the remaining money is 14 |
| `Session.IncrementScenario` | App.tsx:124-134 | adding one unit to that line makes it 4 x 2 with a stored total of 8, and the session total 8 |
| `Session.DeleteScenario` | App.tsx:148-165 | deleting that line from an unbound session first archives the session as one new entry holding the line, then leaves no lines and a total of 0 |
| `Session.NewSessionWithCash` | App.tsx:203-206 | typing 20 as the cash after the 3 x 2 line is added sets the cash to 20, with that one line still there, the archive empty, the session unbound and `Valid()` |
| `Session.AddOneUnit` | App.tsx:124-134 | one more unit of the 3 x 2 line makes it 4 x 2 with a stored total of 8, keeping `Valid()` |
| `Session.ShoppingTrip` | App.tsx:88-206 | one session end to end: after the line is added and 20 typed, 14 remains; one more unit makes the total 8 and leaves 12; deleting the line archives the session as one entry, and then the total is 0 and 20 remains |

## Left out

- Persistence: `saveData`, `loadData` and the AsyncStorage reads and writes inside `saveInHistory`, `editHistory` and `loadHistory` (App.tsx:213-250, 266, 272, 287, 294-298). This is I/O and JSON through a library that is not part of this model. The archive is the `history` field, which stands for the stored `history_v3` list.
- `loadHistory`'s in-memory copy (`historyData`) appears only in `HistoryArchive.SaveInHistoryAsWritten`. The class uses the corrected archive update; see Findings.
- `uuidv4()` and `new Date()` (App.tsx:275, 282) are foreign calls. Their values are the `freshId` and `date` parameters. Ids stay unique only when `freshId` is not yet in the archive, which the class contracts take as a hypothesis.
- `Alert.alert` dialogs (App.tsx:90, 150-164, 546-557) are UI. An empty-name add is modelled as refused; for `deleteCard` and the delete-all button only the confirmed branch is modelled.
- The `useEffect` wiring and asynchronous ordering (App.tsx:53-86) are not modelled. This includes the un-awaited `editHistory()` at App.tsx:289. `totalSum` and `remainingMoney` are functions of the state here, not fields refreshed after each change. `remainingMoney` starts as `null` in the source. Here it is always defined.
- Floating point: numbers are exact `real`s. Rounding, `NaN` and the NaN resets at App.tsx:79-86 are not modelled. `Number(text)` on the draft fields (App.tsx:440, 452) is not modelled either, so the draft setters take a number.
- `NumericInput.SanitizeNumericInput`: `parseFloat` is modelled only on text made of digits and at most one dot. That is all the two cleaning steps can produce, so no sign, exponent, `Infinity` or whitespace handling is needed. Text without a digit (`NaN`) gives 0, and so does `0` itself, which matches `|| 0`.
- Out-of-range indices: the map and filter in the source leave the list unchanged for an index outside it, and so do the Dafny functions. No error is raised.
- On the archive's append path (App.tsx:270-287) the session does not become bound to the new entry, because the source never sets `historyId` there. The model follows the code.
- `lang`, `showOnlyList`, `toggleEdit`, `historyNameToggle`, `openHistoryModal` and all JSX and styles (App.tsx:105-107, 177-188, 300-303, 322-714) are presentation only and are not modelled.

## Findings

| source | as written | input that shows it | evidently intended | confidence | as-written member | corrected member |
|---|---|---|---|---|---|---|
| App.tsx:252-287 | `editHistory` edits and writes back `historyData`, the copy loaded when the history view was last opened, while the append path reads the stored list. | Open the history view with a stored list `[a]` and tap `a`. `deleteAll` appends the current session as `b`, giving `[a, b]`, and the session is bound to `a`. Deleting a line then archives the session again and writes `[a']`, so the new entry `b` is lost. | A bound session overwrites only its own entry in the stored list and keeps every other entry. | not executed | `HistoryArchive.SaveInHistoryAsWritten`, `HistoryArchive.StaleCacheLosesEntry` | `HistoryArchive.SaveInHistory`, `HistoryArchive.CorrectedKeepsEntry` |
