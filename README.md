# MTG card helper: a Dafny model of the form logic

The page looks a Magic card up on Scryfall, fills a form from the card
record, lets the user adjust it, and on submit adds the card to a list of
processed cards whose `CALL SP_Insert_Card(...)` statements are shown in an
output box. This project models the logic of `script.js` that sits between
the network and the page:

- `parseColorIdentity` and the colour identity table (`ColorIdentity`);
- `parseManaSymbols` (`ManaCost`);
- the type-line computations of `populateForm`: primary type, supertype and
  subtypes (`TypeLine`);
- `populateForm` itself, its three slot-filling loops, and the record the
  submit handler reads from the form (`CardForm`);
- `generateSqlCall` and `updateSqlOutput` (`SqlExport`);
- the page state that the submit handler, `removeCard` and `loadState`
  change (`CardStore`, a class over the list of processed cards and the
  text of the output box).

`JsText` holds the JavaScript built-ins these depend on: `split`
with a one-character separator, `join`, `trim`, `includes`, the quote
doubling `replace`, the default `sort` of strings and `splice(index, 1)`.
`Wrappers` holds `Option`, which models absent fields.

Pure code (parsing, the statement template) is written as functions. The
loops of `populateForm` are methods with loop invariants, each proved equal
to a function that specifies it. The mutable page state is a class whose
methods reassign its `seq` field.

Quirks of `script.js` that the model keeps:

- The colour identity key is the sorted list of letters joined as it is,
  repeats included. A repeated letter gives "Colorless". Only "", the five
  single letters, BR, BG, RW, GW, GU and BGU match a table entry, because
  the other keys are not in code-unit order.
- Ability slot `i` is written only by `keywords[i]`, and only when that
  keyword is a combat ability. A slot with no match keeps its value.
- The statement has 22 arguments. Three of them, the counts, are written
  without quotes.
- The card text is the only value whose quotes are doubled. A quote in any
  other value ends its string literal early.
- An index past the end of the list makes `removeCard` leave the list as
  it is.
- Oracle text separates abilities with line breaks, and the statement
  copies the card text as it is, so one statement can span several lines
  of the output box (StatementOnOneLine needs a record without line breaks).

## Model

| member | source | states |
|---|---|---|
| ColorIdentity.ColorKey | script.js:168 | the lookup key: the letters sorted and joined with nothing between; PermutationInvariant and SortedKeyAttained state what it reaches |
| ColorIdentity.ParseColorIdentity | script.js:166-170 | an absent or empty colour list gives "Colorless"; the result is always a name of the table; a sorted key missing from the table gives "Colorless" |
| ColorIdentity.TableKeys | script.js:13-41 | `COLOR_IDENTITY_MAP`: every key is a run of distinct colour letters from W, U, B, R and G; ColorlessEntry and TableLookups give the entries the rest of the model looks up |
| ColorIdentity.ColorlessEntry | script.js:14 | the empty key names "Colorless", so the fallback of `parseColorIdentity` is itself a name of the table |
| ColorIdentity.PermutationInvariant | script.js:168 | the name depends only on which letters occur how often, not on their order |
| ColorIdentity.SortedKeyAttained | script.js:13-41 | every table key whose letters are in code-unit order is reached by the list of its letters and gives its table name |
| ColorIdentity.OnlyReachableNames | script.js:168-169 | a list of single colour letters only ever yields one of twelve names |
| ColorIdentity.NeverAzoriusIzzetFiveColor | script.js:168-169 | no list of colour letters yields Azorius, Izzet, Esper or Five Color |
| ColorIdentity.BorosExample | script.js:168-169 | ["W","R"] and ["R","W"] both give Boros |
| ColorIdentity.AzoriusFallsBack | script.js:169 | ["U","W"] sorts to "UW", which is not a key, so it gives Colorless |
| ColorIdentity.RepeatedLetterFallsBack | script.js:168-169 | ["W","W"] gives "WW", not a key: Colorless |
| JsText.Join | script.js:168 | `join`: the parts with the separator between them; SplitJoin gives the parts back, and JoinSnoc adds one part at the end |
| JsText.LexLe | script.js:168 | the comparison of the default `sort`; LexLeFirstDifference characterises it, and LexLeTotal, LexLeAntisymmetric and LexLeTransitive make it a total order |
| JsText.LexLeFirstDifference | script.js:168 | a string sorts first when it is a prefix of the other, or when its character is the smaller at the first position where the two differ |
| JsText.LexLeTotal | script.js:168 | any two strings are ordered one way or the other |
| JsText.LexLeAntisymmetric | script.js:168 | two strings each ordered before the other are equal |
| JsText.LexLeTransitive | script.js:168 | the order is transitive |
| JsText.MapSeq | script.js:250-251 | `array.map(f)`: the same length, and at every index the image of the element there |
| JsText.Contains | script.js:216 | `includes`: the substring occurs at some position; FindContained states the supertype search built on it |
| JsText.Sort | script.js:168 | the default sort's result is ordered and holds the same elements |
| JsText.SortedUnique | script.js:168 | two ordered lists with the same elements are equal, so the sort result is determined |
| JsText.Split | script.js:198 | no part holds the separator, and joining the parts with it gives the input back |
| JsText.SplitJoin | script.js:250-252 | splitting a join on a separator no part holds gives the parts back |
| JsText.Trim | script.js:198 | the result is a slice of the input with only white space outside it and none at its ends |
| JsText.EscapeQuotes | script.js:246 | every quote is doubled: the length grows by the number of quotes, and quote-free text is unchanged |
| JsText.UnescapeEscape | script.js:246 | reading doubled quotes back as single ones undoes the escaping |
| JsText.Splice | script.js:256 | the element at the index is taken out, the others keep their order, and an index past the end changes nothing |
| ManaCost.ParseManaSymbols | script.js:172-188 | an absent or empty cost gives generic 0 and no pips; the pips are one colour name per `{W}`..`{G}` token in order; generic is the value of the leftmost `{digits}` token, or 0 when there is none |
| ManaCost.DecimalValue | script.js:174 | `parseInt` of a run of decimal digits; SqlExport.DecimalValueOfNat reads back every printed natural number |
| ManaCost.PipColorName | script.js:177-185 | the `switch` naming a pip letter, "n/a" otherwise; PipsAtNamesColors shows "n/a" never reaches the pips |
| ManaCost.ScanPips | script.js:175 | `matchAll` with the global pip pattern, resuming past each match; ScanFindsEveryToken proves it finds the token at every index |
| ManaCost.FirstGenericIndex | script.js:174 | finds the leftmost generic token, or reports that there is none |
| ManaCost.ScanFindsEveryToken | script.js:175 | resuming the global search after each match finds exactly the tokens at each index |
| ManaCost.PipsAtNamesColors | script.js:175-186 | one pip per token, each a colour name and never "n/a" |
| ManaCost.ExampleCost | script.js:172-188 | "{2}{W}{W}{U}" gives generic 2 and White, White, Blue |
| ManaCost.ExampleCostRedWhite | script.js:172-188 | "{3}{R}{W}" gives generic 3 and Red, White |
| ManaCost.HybridAndColorlessIgnored | script.js:174-175 | "{W/U}{C}" gives generic 0 and no pips |
| TypeLine.PrimaryType | script.js:198 | the type is the last space-separated word of the trimmed text before the first em dash |
| TypeLine.FindContained | script.js:216 | the first candidate contained in the line, or none exactly when no candidate is contained |
| TypeLine.Supertype | script.js:215-216 | "n/a" exactly when no supertype occurs in the line; otherwise the first of Legendary, Basic, Snow, World that occurs |
| TypeLine.EachSupertypeAlone | script.js:215 | the candidates are Legendary, Basic, Snow and World, in that order, and none contains an earlier one, so a line naming only one of them gives that one |
| TypeLine.LegendaryFirst | script.js:215-216 | a line holding "Legendary" always gives Legendary |
| TypeLine.SubtypeTokens | script.js:220 | no em dash gives no subtypes; otherwise the words, joined by spaces, are the trimmed text between the first em dash and the next one (or the end) |
| TypeLine.ExampleTypeLine | script.js:198-220 | "Legendary Creature — Human Soldier" gives Creature, Legendary and Human, Soldier |
| CardForm.AbilityOptions | script.js:43-61 | `COMBAT_ABILITIES`: "n/a" first, then sixteen abilities, all 17 distinct |
| CardForm.ColorOptions | script.js:63-71 | `MANA_COLORS`: seven distinct options, among them "n/a", "Colorless" and every colour a mana symbol can name |
| CardForm.CapitalizeRarity | script.js:197 | same length and tail; a lower-case first letter is raised, anything else is left |
| CardForm.OrDefault | script.js:208 | JavaScript's or-default on a string: the fallback exactly when the value is empty; used by the pip slots and by the submit handler at script.js:296-303 |
| CardForm.PipSlots | script.js:207-209 | the five pip slot values; FillPipSlots computes them and PipSlotsOfCost states them for a cost |
| CardForm.SubtypeSlots | script.js:221-223 | the three subtype slot values; FillSubtypeSlots computes them |
| CardForm.AbilitySlots | script.js:226-230 | the five ability slot values; FillAbilitySlots computes them and LateKeywordsIgnored states that late keywords change none |
| CardForm.Prefill | script.js:191-231 | every value `populateForm` writes; PopulateForm writes it and PrefillChoosesOptions shows each select receives one of its options |
| CardForm.FillPipSlots | script.js:207-209 | the loop writes the first five pips in order and "n/a" after them |
| CardForm.FillSubtypeSlots | script.js:221-223 | the loop writes the first three subtypes and "" after them |
| CardForm.FillAbilitySlots | script.js:226-230 | slot `i` becomes `keywords[i]` when `i` < 5 and it is a combat ability, and keeps its value otherwise |
| CardForm.LateKeywordsIgnored | script.js:227 | keywords at position five or later never change a slot |
| CardForm.PopulateForm | script.js:191-231 | the form after the call holds the values `Prefill` computes from the card and the form before |
| CardForm.PipSlotsOfCost | script.js:204-209 | the pip slots show the cost's pips in order, then "n/a" |
| CardForm.PrefillChoosesOptions | script.js:191-231 | the identity, pip and ability values written are options of their selects, or an ability slot's own earlier value |
| CardForm.ExamplePrefill | script.js:191-231 | the whole prefill of a Boros legendary creature costing "{3}{R}{W}" with Haste, Flying, Trample |
| CardForm.DefaultsApplied | script.js:296-303 | each of the eight defaulted values is never empty: a non-empty input is kept and an empty one becomes "n/a" |
| CardForm.Submit | script.js:289-313 | builds the `formData` record (`CardRecord`, one field per key of the object): the name is copied twice; an empty subtype or ability becomes "n/a" and a non-empty one is kept; every other value is copied |
| SqlExport.GenerateSqlCall | script.js:245-247 | `generateSqlCall`: TemplateLiteral proves it is the source's template, StatementReadsBack and StatementQuoteCount state what can be read back from it |
| SqlExport.IntToString | script.js:246 | a number as the template prints it; IntToStringRoundTrip reads it back |
| SqlExport.TemplateLiteral | script.js:245-247 | the statement is the source's template: strings quoted, numbers bare, only the card text escaped |
| SqlExport.IntToStringRoundTrip | script.js:246 | a number printed into the statement reads back as itself |
| SqlExport.StatementReadsBack | script.js:245-247 | when no field but the card text holds a quote, the statement reads back as the record's 22 values, the card text included |
| SqlExport.StatementQuoteCount | script.js:246 | the statement holds 38 quotes, plus those of the 18 unescaped values, plus twice those of the card text |
| SqlExport.OddQuotesBreakStatement | script.js:246 | with an odd number of quotes in the unescaped values, the statement is not the rendering of any list of values |
| SqlExport.StatementOnOneLine | script.js:246 | a record without line breaks gives a one-line statement |
| SqlExport.Statements | script.js:250-251 | the `map`: one statement per card, the statement of the card at the same index |
| SqlExport.SqlOutput | script.js:249-253 | the statements joined by line breaks; SqlOutputAppend and OutputLines state how it grows and that its lines are the statements |
| SqlExport.SqlOutputEmpty | script.js:249-253 | no cards give an empty output |
| SqlExport.SqlOutputAppend | script.js:249-253 | one more card adds its statement at the end, after a line break unless it is the only one |
| SqlExport.OutputLines | script.js:249-253 | if no record holds a line break, the output's lines are the statements, in list order |
| SqlExport.StatementsSplice | script.js:250-256 | removing a card from the list removes its statement, in place, from the statements |
| SqlExport.RemoveFirstOfTwo | script.js:249-256 | with two cards listed, removing index 0 leaves only the second card's statement |
| CardStore.PushThenRemove | script.js:256 | removing the card just pushed restores the list and its output |
| CardStore.RemoveListed | script.js:256 | removing a listed card leaves one card fewer and its statement gone |
| CardStore.Session.constructor | script.js:87-90 | the list of processed cards starts empty; the model assumes the output box starts empty too, since its first text comes from the page markup and not from script.js |
| CardStore.Session.UpdateSqlOutput | script.js:249-253 | the box is rewritten to the statements of the list, whatever it held; the list is unchanged |
| CardStore.Session.SubmitCard | script.js:287-318 | the submitted record is pushed at the end and the box shows the new list's statements; with an empty old list that is the new statement alone, and when the old list was non-empty and the box was in step it is the old text, a line break and the new statement |
| CardStore.Session.RemoveCard | script.js:255-260 | the list loses the card at the index, or is unchanged past the end; the box is rewritten |
| CardStore.Session.LoadState | script.js:93-100 | a saved list replaces the current one and the box is rewritten; with nothing saved nothing changes |

## Left out

- The DOM is not modelled: element lookups, the preview, the card image, rendering the processed-card list, the copy button and the form reset after submit. Form values are the `FormFields` record, and the output box is a field of `Session`.
- The network calls (`fetchAutocomplete`, `fetchCardDetails`) and `selectCard`, which sets `state.currentCard`, are not modelled. The card record arrives as a `RawCard` parameter.
- `saveState` and the JSON parsing in `loadState` are not modelled. `Session.LoadState` receives the saved list already parsed, or `None`.
- `showError` and its timer, the copy button's timer, and `VALIDATION_RULES` are not modelled. `VALIDATION_RULES` is declared but never used.
- Absent `type_line`, `rarity` or `keywords` make the source throw; this is not modelled, and `RawCard` holds those fields as plain values. An absent `oracle_text` is not modelled either.
- CardForm.Submit: the three counts are taken as integers already. The `parseInt` of the input text (and NaN for a non-number) is not modelled.
- ManaCost.ParseManaSymbols: the generic value is exact. `parseInt` rounds digit runs longer than about 15 digits, and that rounding is not modelled.
- CardForm.CapitalizeRarity: only ASCII letters are raised. This stands in for `toUpperCase`, which maps all of Unicode.
- JsText.Sort: strings compare by Dafny character. JavaScript compares UTF-16 code units, which differ only for characters outside the Basic Multilingual Plane.
- ColorIdentity.ParseColorIdentity: the table is a map, so inherited object keys such as "constructor" are not keys of it.
- CardStore.Session.RemoveCard: the index is a natural number. `splice` with a negative index, which counts from the end, is not modelled; the page only passes list positions.
- CardStore.Session.constructor: the output box is assumed to start empty. Its first text comes from the page markup, which is not part of this model.
- JsText.Sort: the result is a new list. `colors.sort()` sorts `color_identity` in place, and the same object is kept as `state.currentCard`. Nothing in the model reads the card's list again.
