# Recipe-text parsing, modelled in Dafny

The application asks a text-generation service for a recipe that uses a list
of ingredients. The service replies with free text. `parseRecipeText` turns
that text into a `Recipe` record in one forward pass over its lines:

- a title, a cooking time and a difficulty;
- an ingredient list and an instruction list.

`createStructuredRecipe` refuses an empty ingredient list before the service
is asked. This project models both functions and the `Recipe` record, and
proves what the parser promises.

Files:

- `recipe_store.dfy`: the `Recipe` record (`RecipeStore.Recipe`, from
  `src/recipeStore.ts` lines 4-10).
- `text.dfy`: the JavaScript string built-ins the parser relies on, written
  out and proved. These are `trim`, `toLowerCase`, `includes`,
  `split` on one character, `split(':')[1]`, and the `^\d+\.` test with the
  `^\d+\.\s*` replacement.
- `generate_recipe.dfy`: the scanner, in two forms.
  - `ParseRecipeText` is a pure function. It classifies every line on its
    own (`Classify`) and then folds the per-line step (`Step`) over the
    lines.
  - `ParseRecipe`, `ScanLines` and `ScanLine` are the loop and the if-chain
    as the source writes them. Each is proved equal to the function.
  - The module also holds `CreateStructuredRecipe`.
- `generate_recipe_proofs.dfy`: the scanner's properties, stated against
  reference definitions that never mention the scan state.
  - `SectionAfter` is the section of the last header line.
  - `Collected` is the entries taken in line order while their section is in
    force.

Modelling decisions:

- White space is the exact set that ECMAScript's `trim` and `\s` remove:
  U+0009-000D, U+0020, U+00A0, U+1680, U+2000-200A, U+2028, U+2029, U+202F,
  U+205F, U+3000 and U+FEFF.
- `\d` is the ASCII digits 0-9, as in JavaScript.
- Label values come from `line.split(':')[1]`, as the code computes them.
  That is the text between the first and the second colon, so
  `"Cooking Time: 12:30"` gives `"12"` (`CookingTimeStopsAtSecondColon`).
- `src/utils/generateRecipe.ts` lines 72-73 change nothing, so an empty
  ingredient or instruction list stays empty.
- The fetch is a parameter, `fetchRecipe`, which is either a reply text or an
  error message.
  - The source calls `aiRecipeService.fetchRecipeFromAI`.
  - The service class in `src/services/aiRecipeService.ts` has no
    `fetchRecipeFromAI` method (its request method is `generateRecipe`).
  - `CreateStructuredRecipeAsWritten` models the call as written (see
    "## Findings"). `CreateStructuredRecipe` takes the service's reply as the
    parameter and is the version the rest of the model uses.

## Model

| member | source | states |
|---|---|---|
| GenerateRecipe.Lines | src/utils/generateRecipe.ts:5-8 | every line the scanner visits is non-empty, has no white space at either end and holds no line break |
| GenerateRecipe.NonBlankTrimmed | src/utils/generateRecipe.ts:7-8 | trimming the pieces and dropping the blank ones keeps no more pieces than there were, and every kept piece is non-empty and trimmed |
| GenerateRecipe.NonBlankTrimmedNoBreak | src/utils/generateRecipe.ts:5-8 | trimming and dropping blank pieces never brings in a line break that the split pieces did not hold |
| GenerateRecipeProofs.LinesOfJoin | src/utils/generateRecipe.ts:5-8 | round trip: joining non-empty, trimmed, break-free lines with line breaks and splitting again gives back exactly those lines |
| GenerateRecipeProofs.NonBlankTrimmedAppend | src/utils/generateRecipe.ts:7-8 | cleaning works piece by piece: cleaning a concatenation gives the concatenation of the cleaned parts, in order |
| GenerateRecipeProofs.BlankPieceDropped | src/utils/generateRecipe.ts:7-8 | a piece that is only white space is dropped wherever it stands, and nothing else changes |
| GenerateRecipeProofs.PaddedKept | src/utils/generateRecipe.ts:7-8 | pieces made of white space, a non-empty trimmed line and white space clean to exactly those lines, in order |
| GenerateRecipeProofs.TrimmedKept | src/utils/generateRecipe.ts:7-8 | trimming and dropping blanks leaves a list of non-empty trimmed lines unchanged |
| Text.Trim | src/utils/generateRecipe.ts:7 | the trimmed string has no white space at either end, is no longer than the input and holds only characters of the input |
| Text.TrimStart | src/utils/generateRecipe.ts:64 | `\s*` after the period removes a run of white space only: the result is a suffix of the input, everything removed is white space, and the result does not start with white space |
| Text.TrimIsCore | src/utils/generateRecipe.ts:7 | the trimmed string occurs in the input with only white space before and after it |
| Text.TrimPadded | src/utils/generateRecipe.ts:7 | trimming a trimmed string padded with white space on both sides gives that string back |
| Text.TrimIdempotent | src/utils/generateRecipe.ts:7 | trimming twice is trimming once |
| Text.TrimEmptyIff | src/utils/generateRecipe.ts:7-8 | a line is dropped as blank exactly when it is all white space |
| Text.Split | src/utils/generateRecipe.ts:6 | a split gives at least one piece, more than one exactly when the separator occurs, and no piece holds the separator |
| Text.JoinSplit | src/utils/generateRecipe.ts:6 | joining the pieces of a split with the separator restores the input |
| Text.SplitJoin | src/utils/generateRecipe.ts:6 | splitting a join of separator-free pieces gives back those pieces |
| Text.Lower | src/utils/generateRecipe.ts:19 | lower-casing keeps the length and maps each character to its lower-case form |
| Text.Contains | src/utils/generateRecipe.ts:19 | `includes` finds a text only when it is no longer than the line, and always finds the empty text |
| Text.ContainsIff | src/utils/generateRecipe.ts:19 | `includes` holds exactly when the label occurs at some position of the line |
| Text.SecondSegment | src/utils/generateRecipe.ts:20 | `split(':')[1]` exists exactly when the line holds a colon, and it holds no colon |
| Text.SecondSegmentIsBetweenColons | src/utils/generateRecipe.ts:20 | `split(':')[1]` is the text right after the first colon, up to the second colon or the end of the line |
| Text.SecondSegmentOf | src/utils/generateRecipe.ts:20 | for a line built as prefix, colon, segment and then nothing or another colon, `split(':')[1]` is that segment |
| GenerateRecipe.LabelOf | src/utils/generateRecipe.ts:19-34 | a line is claimed by a label rule exactly when its lower-cased form contains one of the three labels; the label chosen occurs in the line, and an earlier label in the order `recipe name:`, `cooking time:`, `difficulty:` always wins |
| GenerateRecipe.LabelValue | src/utils/generateRecipe.ts:19-34 | a label value is never empty: it is the field's default or a trimmed, colon-free text |
| GenerateRecipeProofs.LabelValueOfSegment | src/utils/generateRecipe.ts:20 | the value of a label line is the trimmed text between its first and second colon, whatever white space surrounds it |
| GenerateRecipeProofs.LabelValueOfBlank | src/utils/generateRecipe.ts:20 | a label line whose text after the first colon is only white space, up to the end or another colon, gives the field's default (`'Custom Recipe'`, `'25 minutes'` or `'Medium'`, as at lines 20, 26 and 32) |
| GenerateRecipeProofs.CookingTimeStopsAtSecondColon | src/utils/generateRecipe.ts:26 | `Cooking Time: 12:30` sets the cooking time to `12` |
| GenerateRecipeProofs.LabelLineHasColon | src/utils/generateRecipe.ts:19-34 | every line a label rule claims holds a colon, so its value always comes from the text after a colon |
| GenerateRecipeProofs.LabelLineTouchesNoList | src/utils/generateRecipe.ts:18-34 | a label line sets only its field; the section and both lists stay as they were, even when the line also looks like a bullet or a step |
| GenerateRecipe.HeaderOf | src/utils/generateRecipe.ts:37-51 | a header never closes the current section; the header rule names ingredients exactly when the lower-cased line is `ingredients:` or contains `ingredients list:`, and names instructions exactly when it does not name ingredients and the lower-cased line is `instructions:` or contains `steps:` |
| GenerateRecipe.Classify | src/utils/generateRecipe.ts:19-64 | a label line carries `split(':')[1]?.trim() || default` for the label its lower-cased form contains, never empty; a header names a real section; a bullet starts with `-` and its item is the trimmed text after the `-`; a step passes the `^\d+\.` test and its item is the line with the marker and following white space removed, trimmed |
| GenerateRecipeProofs.RulePriority | src/utils/generateRecipe.ts:19-63 | a line is a label line exactly when its lower-cased form contains a label, whatever it starts with; it is a bullet exactly when no label or header rule claims it and it starts with `-`; it is a step exactly when none of those apply and it passes the `^\d+\.` test |
| GenerateRecipe.Step | src/utils/generateRecipe.ts:19-67 | one line adds at most one entry, at the end of one list: an ingredient only for a non-empty bullet in the ingredients section, a step only for a non-empty numbered line in the instructions section; only a header changes the section, and only a label changes a scalar field |
| GenerateRecipeProofs.SectionSwitch | src/utils/generateRecipe.ts:36-51 | only a header line changes the section; a line is a header exactly when no label matches and a header rule does; a header sets the section it names |
| GenerateRecipeProofs.LastLabelWins | src/utils/generateRecipe.ts:17-34 | after a scan, a field holds the value of the last line that labels it |
| GenerateRecipeProofs.UnlabelledFieldKept | src/utils/generateRecipe.ts:10-12 | a field no line labels keeps its starting value |
| GenerateRecipeProofs.ParsedField | src/utils/generateRecipe.ts:10-34 | every scalar field of the parsed recipe is the value of the last line labelling it, or the field's default when no line does |
| GenerateRecipe.Scanned | src/utils/generateRecipe.ts:17-69 | after any sequence of lines, neither list holds an empty entry |
| GenerateRecipe.ScanKeepsScalars | src/utils/generateRecipe.ts:10-34 | cooking time and difficulty are never empty at any point of the scan |
| GenerateRecipe.Finish | src/utils/generateRecipe.ts:76-82 | the returned title is never empty and is the scanned title whenever one was set; the lists, cooking time and difficulty are returned as scanned |
| GenerateRecipe.ParseRecipeText | src/utils/generateRecipe.ts:4-83 | title, cooking time and difficulty of the parsed recipe are never empty |
| GenerateRecipe.ParseRecipe | src/utils/generateRecipe.ts:4-83 | the loop as written returns the recipe that `ParseRecipeText` defines |
| GenerateRecipe.ScanLines | src/utils/generateRecipe.ts:17-69 | the loop threads the state through the lines in order and ends in the folded state |
| GenerateRecipe.ScanLine | src/utils/generateRecipe.ts:18-68 | the if-chain with its `continue`s makes the same change as the per-line step for the line's kind |
| GenerateRecipeProofs.ScanIsCollection | src/utils/generateRecipe.ts:36-68 | the section is the one opened by the last header so far, and each list holds its entries in line order, taken only while its section was in force |
| GenerateRecipeProofs.ParsedLists | src/utils/generateRecipe.ts:53-79 | the parsed ingredient and instruction lists are exactly those collections of the text's lines |
| GenerateRecipeProofs.LastHeaderWins | src/utils/generateRecipe.ts:36-51 | the section in force is the one named by the last header; with no header there is none |
| GenerateRecipeProofs.CollectedMembers | src/utils/generateRecipe.ts:53-68 | an entry is in a list exactly when some line supplies it while that list's section is in force |
| GenerateRecipeProofs.NoHeaderNoEntries | src/utils/generateRecipe.ts:53-68 | without a header for a section, that section is never in force and its list is empty |
| GenerateRecipeProofs.NoStructureGivesDefaults | src/utils/generateRecipe.ts:10-15 | a text with no label line and no header line parses to the all-default recipe |
| GenerateRecipeProofs.BlankTextGivesDefaults | src/utils/generateRecipe.ts:4-83 | the empty text and a lone line break both parse to the all-default recipe |
| Text.StepNumberIff | src/utils/generateRecipe.ts:63 | the `^\d+\.` test holds exactly when the line starts with one or more digits and a period, and the digit run is unique |
| Text.StartsWithStepNumber | src/utils/generateRecipe.ts:63 | a line that passes the `^\d+\.` test has at least two characters, starts with a digit and holds a period |
| Text.StripStepMarker | src/utils/generateRecipe.ts:64 | removing the step marker leaves a trimmed text shorter than the line |
| GenerateRecipeProofs.StripNumberedStep | src/utils/generateRecipe.ts:63-64 | a line made of digits, a period, white space and a step passes the test, and its whole marker is removed, however many digits it has |
| GenerateRecipeProofs.MultiDigitStep | src/utils/generateRecipe.ts:63-64 | `10. Preheat oven` is recognised as a step and becomes `Preheat oven` |
| GenerateRecipe.CreateStructuredRecipe | src/utils/generateRecipe.ts:85-94 | an empty ingredient list fails with `Please add at least one ingredient`; otherwise the result is the parsed reply, or the fetch's own error |
| GenerateRecipeProofs.EmptyListNeverFetches | src/utils/generateRecipe.ts:88-90 | with an empty ingredient list the result is the same error whatever the fetch would do, so the fetch is never consulted |
| GenerateRecipe.CreateStructuredRecipeAsWritten | src/utils/generateRecipe.ts:85-94 | as written the call always fails: with the guard's message exactly when the list is empty, otherwise with the missing-method error |
| GenerateRecipeProofs.AsWrittenNeverParses | src/utils/generateRecipe.ts:92-93 | as written no ingredient list ever yields a parsed recipe; every non-empty list fails on the missing service method |
| GenerateRecipeProofs.CorrectedParsesReply | src/utils/generateRecipe.ts:92-93 | with the service's reply passed in, a non-empty list and a reply give the parsed reply, which the as-written call never returns |

## Left out

- Text.Lower: models `toLowerCase` on ASCII `A`-`Z` only. Full Unicode case mapping is a large table, and every label and header the scanner looks for is ASCII. A line whose only match would come from a non-ASCII capital, such as the Kelvin sign U+212A lower-casing to `k`, is classified differently.
- Strings are sequences of Unicode scalar values, not of UTF-16 code units. No rule here depends on surrogate pairs.
- The network request is left out. So are the prompt text and the service object (`src/services/aiRecipeService.ts`): the fetch is an abstract parameter.
- The async/`Promise` plumbing is left out: a thrown error is an `Err` value.
- The zustand store and its loading and error flags are not part of this model (`src/recipeStore.ts` beyond the `Recipe` record), and neither are the React components, the styling and the build tooling. They hold no parsing logic.
- There are no whole-text examples that run the classifier on literal lines (for instance a line with both a label and a leading `-`). `RulePriority` states the rule order for every line instead, and `LabelLineTouchesNoList` states that a label line changes only its field.
- The `Recipe` record (`src/recipeStore.ts` lines 4-10) is the datatype `RecipeStore.Recipe`. It has no row in the table because it is a type, not an operation.
- The TypeScript compiler would also reject the call to `fetchRecipeFromAI`. The model follows the JavaScript that would run anyway.

## Findings

| source | as written | input that shows it | evidently intended | confidence | as-written member | corrected member |
|---|---|---|---|---|---|---|
| src/utils/generateRecipe.ts:92 | calls `aiRecipeService.fetchRecipeFromAI`, a method the service class does not have, so every non-empty list fails with a missing-method error before the parser runs | `["egg"]` | call the service's request method `generateRecipe` and parse its reply | high; not executed | GenerateRecipeProofs.AsWrittenNeverParses | GenerateRecipeProofs.CorrectedParsesReply |
