# Fairfield school-tax breakdown: the calculation layer in Dafny

The page script lets a resident type in the amounts of their property-tax bill and
their household income. It then shows four things:

- the bill's total and the county portion;
- a reference list of the six taxing authorities and the five county items;
- how the school-district (CSD) line of the bill is attributed across the
  district's spending categories for a chosen fiscal year;
- a flat 1.25% earned-income-tax (EIT) estimate.

Two versions of the script exist, and both are modelled side by side:

- `app.js` (module `App`) has unscaled totals. In its spending table only the
  category with id `"instruction"` gets detail rows. Those rows split the
  instruction share against the instruction amount.
- `form/app.js` (module `FormApp`) adds a per-unit mode that divides every parcel
  figure by a unit count. It expands every category that has children, and it
  takes every detail row's share against the district total. It also has an
  address auto-fill that looks amounts up by authority name.

The modules they share:

- `Coercion`: `toNumber` (delete every `$`, `,` and space, trim with ECMAScript
  white space, parse a decimal literal, and give 0 for empty or unparsable text).
  Also the character filter of `applyMoneyToInput`, and the decimal and en-US
  currency renderings that `toNumber` is proved to read back exactly.
- `Sums`: left-to-right sums, as `reduce((a, b) => a + b, 0)` computes them.
- `Inputs`: the thirteen text inputs as one value, the reference-list rows and
  the EIT estimate.
- `Spending`: the year-keyed dataset (`Use(id, name, values, children)`), the
  district total over top-level categories, the divisor that falls back to 1, and
  the table rows `Row(id, amount, share, isChild)`.
- `Wrappers`: `Option`, standing for `null`/`undefined` and for a NaN parse.

Amounts are `real`, so the sum identities hold exactly.

Each script's page is a class, `App.Page` or `FormApp.Page`. Its fields are the
input texts, the per-unit controls (form only), the loaded dataset, the selected
year and the two rendered views. Its event methods (`ClearAll`, `FillExample`,
`SelectYear`, `Input`, …) reassign those fields, and each one re-establishes
`Rendered()`: every view equals the function of the inputs that specifies it. The
exception is `FormApp.Page.AutoFill`. It re-renders only when the lookup succeeds.
A blank address or a failed lookup changes nothing. A county list that throws
leaves the six newly written lines with the old views, because the script throws
before it re-renders.

`renderSchools` is modelled by methods. `AllocateSchools` and the child loops
(`App.AllocateInstruction`, `FormApp.AllocateChildren`) append rows in a `while`
loop, and `AllocateUse` is the loop body. Each is proved equal to its table
function: `SchoolRows`, `InstructionChildRows` or `ChildRows`, and `UseRows`. The running invariant of `AllocateSchools` is
that the running top-level share total is the running year total over the
divisor, times the CSD line.

In `form/app.js`, `autoFillFromAddress` guards the optional county total with
`if (inputs.countyTotal)`. No input has that name (the input is
`countyTotalOptional`), so that field is never filled. The model follows the code:
`FormApp.AutoFillScope` proves the field keeps its text.

## Model

| member | source | states |
|---|---|---|
| `Coercion.ToNumberIgnoresNoise` | app.js:5-11 | inserting a `$`, `,` or space anywhere in the text never changes what `toNumber` returns |
| `Coercion.ToNumberOfUsdText` | form/app.js:5-11 | `toNumber` reads en-US currency text `-$1,234.56` back as exactly cents/100: the sign, the `$` and the thousands separators are handled, and negatives are not clamped |
| `Coercion.ToNumberOfDecimalText` | app.js:5-11 | `toNumber` reads plain two-decimal text back as exactly the amount |
| `Coercion.ToNumberOfIntText` | app.js:9 | `toNumber(String(i)) == i` for every integer |
| `Coercion.ParseIntText` | app.js:9 | `Number(String(i))` is `i` for every integer |
| `Coercion.ToNumberOfWord` | app.js:8-10 | text made of ASCII letters, upper or lower case, gives 0: it is not a number (or, for "Infinity", not a finite one) |
| `Coercion.ToNumberCurrencyExample` | form/app.js:5-11 | `toNumber("$1,234.56") == 1234.56` |
| `Coercion.ToNumberNegativeExample` | app.js:5-11 | `toNumber("-50") == -50`: a negative amount passes through unclamped |
| `Coercion.ToNumberLettersExample` | app.js:8-10 | `toNumber("abc") == 0` |
| `Coercion.TrimEnds` | app.js:7 | after `trim()` neither end of the text is white space |
| `Coercion.TrimStartDropsWhiteSpace` | form/app.js:7 | trimming the start keeps a suffix and drops only white space before it |
| `Coercion.TrimEndDropsWhiteSpace` | form/app.js:7 | trimming the end keeps a prefix and drops only white space after it |
| `Coercion.CleanProperties` | form/app.js:44-50 | the cleaner's output holds only `0-9`, `.` and `-`; cleaning twice changes nothing more; text is left alone exactly when every character is one of those |
| `Coercion.CleanUsdText` | form/app.js:47-48 | the cleaner turns en-US currency text into plain decimal text, keeping a leading minus sign |
| `Coercion.KeepPasses` | form/app.js:48 | a regex character filter never lengthens its input, and every character it keeps passes the filter |
| `Coercion.KeepIdentity` | form/app.js:48 | a filter leaves text unchanged exactly when every character passes it |
| `Coercion.KeepAppend` | app.js:7 | a global character filter distributes over concatenation |
| `Inputs.Set` | app.js:338-341 | an input event changes that one input's text and no other |
| `Inputs.Cleared` | app.js:303-307 | `clearAll` leaves every input's text empty |
| `Inputs.ClearedAmountsAreZero` | app.js:303-309 | with every input empty, every amount read from an input is 0, and so is any total over them |
| `Inputs.EstimateEit` | app.js:287-294 | the yearly EIT is income × 1.25% (income / 80), and twelve months make the yearly figure |
| `Inputs.EitIncomeExample` | app.js:327 | the example income 80000 gives 1000 a year and 1000/12 a month |
| `Spending.YearKeyRoundTrip` | app.js:333-336 | `Number(String(year))` is the year again, so rebuilding the year from the selector's text never changes it |
| `Spending.SafeDivisor` | app.js:201-202 | the divisor is always positive; it is the district total when that is positive, else 1 |
| `Spending.YearTotal` | app.js:188-189 | the reduce loop computes the sum of the top-level categories' year amounts, with a missing year counting 0 and children not counted |
| `Spending.YearAmounts` | form/app.js:316 | one year amount per category, in order, 0 where the year is missing |
| `Spending.PortionAdd` | form/app.js:344 | the parts of one line attributed to two amounts add up to the part attributed to their sum |
| `Spending.PortionWhole` | form/app.js:342-344 | the divisor's own portion is the whole line, and on a non-zero line only the divisor gets the whole line |
| `Spending.PortionScales` | form/app.js:313-314 | scaling the line by the factor scales every portion of it by the factor |
| `Spending.PortionChain` | app.js:256-263 | `c/p` of the portion `p/d` of a line is `c/d` of the line, for positive `p` |
| `Spending.PortionInjective` | form/app.js:357 | on a non-zero line two amounts get the same portion only when they are equal |
| `Spending.RowTotalsAppend` | app.js:238-274 | the share totals, top-level rows and amounts of two runs of rows are those of each run, joined |
| `Spending.ChildRowsAreNotTop` | form/app.js:359-365 | detail rows add nothing to the top-level share total and are not top-level rows |
| `Sums.SumScaled` | form/app.js:301-303 | scaling each amount by the factor scales their sum by the factor |
| `Sums.SumOfSix` | app.js:175 | a fold over six amounts is their sum |
| `Sums.SumOfFive` | app.js:121-122 | a fold over five amounts is their sum |
| `Sums.SumZeros` | app.js:303-309 | a sum of zeros is zero |
| `App.Clamp` | app.js:18-20 | for `a <= b` the result lies in `[a, b]`; it is `n` when `n` is in range and the nearer end otherwise; with the bounds reversed it is `a` |
| `App.TotalPropertyTaxIsSixLines` | app.js:277-281 | total property tax is the six tax-line amounts added up, unscaled |
| `App.CountyPortionIsFiveItems` | app.js:113-124 | the county portion is the five county items added up; the optional county total is not one of them |
| `App.TaxReferenceRows` | app.js:127-179 | the list is the six line rows, a separator, then the county rows; the line rows add up to the total property tax and the county rows to the county portion |
| `App.ReferenceRowsLayout` | app.js:133-173 | when the library line comes last, the county rows follow all line rows, and each group adds up to its own total |
| `App.ReferenceRowsWithoutLibrary` | app.js:151 | before the library line the list holds line rows only |
| `App.BuildReferenceRows` | app.js:133-173 | the loop appends each line's row and, after the library line, the separator and the county rows |
| `App.BuildCountyRows` | app.js:157-171 | one county mini row per item, in order |
| `App.InstructionChildShape` | app.js:258-272 | one detail row per child of instruction, in order, each flagged as a child and carrying the child's year amount |
| `App.InstructionChildShares` | app.js:256-263 | the detail shares add up to the children's year total over the instruction divisor, times the instruction share |
| `App.InstructionChildTotals` | app.js:253-273 | the detail rows add no top-level share or row, carry the children's amounts, and their shares total the children's portion |
| `App.InstructionChildrenSumToShare` | app.js:253-263 | for a positive instruction amount and a non-zero share, the detail shares sum to the instruction share exactly when the detail amounts sum to the instruction amount |
| `App.UseRowsTop` | app.js:238-252 | each category's own row is its only top-level row, and it is its whole output when it does not expand |
| `App.OnlyInstructionExpands` | app.js:253-254 | with no expanding "instruction" category, the table is one top-level row per category |
| `App.RowsFromTopShares` | app.js:238-251 | the top-level shares add up to the categories' year total over the divisor, times the CSD line |
| `App.RowsFromTopRows` | app.js:238-274 | the top-level rows are the categories' own rows, in dataset order |
| `App.TopSharesSumToCsdLine` | app.js:186-243 | when the district total is positive the top-level shares sum to the raw CSD line; otherwise (divisor 1) they sum to total × CSD line |
| `App.ZeroCsdLineZeroShares` | app.js:243 | with a zero CSD line every share in the table, parent or detail, is 0 |
| `App.InstructionChildZeroShares` | app.js:263 | a zero instruction share gives zero detail shares |
| `App.AllocateInstruction` | app.js:253-273 | the detail loop produces the instruction detail rows with `instructionTotal` = the amount if positive, else 1 |
| `App.AllocateUse` | app.js:238-273 | one loop step appends the category's row, then its instruction detail rows |
| `App.AllocateSchools` | app.js:181-275 | returns the district total and exactly the specified table; when the total is positive the top-level shares sum to the CSD line |
| `App.RenderTax` | app.js:277-299 | the totals, the EIT estimate and the reference list for the current inputs, with the list totals equal to the page totals |
| `App.RenderSchools` | app.js:181-192 | the school view for the dataset, year and inputs; a positive district total means the shares sum to the shown CSD line |
| `App.Page.constructor` | app.js:22-24 | before loading, no dataset and nothing rendered |
| `App.Page.OnAnyChange` | app.js:296-301 | re-renders everything from the inputs and changes no input, year or dataset |
| `App.Page.Init` | app.js:352-364 | stores the dataset, selects the last listed year (2024 when there is none) and renders |
| `App.Page.Input` | app.js:338-341 | one input takes new text and everything re-renders |
| `App.Page.SelectYear` | app.js:333-336 | a year change sets only the selected year; no tax or county input changes, and the views are recomputed |
| `App.Page.ClearAll` | app.js:303-309 | every input is empty; afterwards both totals, the list totals, the EIT, the CSD line and every share are 0 |
| `App.Page.FillExample` | app.js:311-330 | the inputs take the demo texts and the page re-renders |
| `FormApp.Round` | form/app.js:160 | `Math.round`: the nearest integer, with halves rounding up |
| `FormApp.Factor` | form/app.js:158-163 | the factor lies in (0, 1]; it is 1 exactly when the toggle is off or the units are at most 1; otherwise factor × units = 1 |
| `FormApp.StatusOf` | form/app.js:165-178 | the status is "Off" exactly when the toggle is off, and "1/n" exactly when the factor is below 1, with n the divisor |
| `FormApp.UnitCountExamples` | form/app.js:407-408 | the unit count "72" gives the factor 1/72 and status 1/72; an empty count gives factor 1 and asks for units |
| `FormApp.ApartmentCsdLine` | form/app.js:392-408 | the apartment demo's CSD line 56508.66, divided over 72 units, is 56508.66/72 (about 784.84) |
| `FormApp.DemoIncomeEit` | form/app.js:429 | both demos' income 50000 gives 625 a year |
| `FormApp.ParcelTotalsMatchApp` | form/app.js:209-235 | the parcel totals of the six lines and five items, in this file's order, equal app.js's totals |
| `FormApp.TaxViewTotals` | form/app.js:237-248 | total property tax and county portion are app.js's totals × the factor, and the reference list adds up to the figures under it |
| `FormApp.BreakdownTotals` | form/app.js:301-303 | the list's line rows add up to the scaled line total and its county rows to the scaled county total |
| `FormApp.ScaledListTotals` | form/app.js:259-304 | for any lines and items, the scaled line rows, a separator and the scaled county rows add up, group by group, to the scaled sums |
| `FormApp.BreakdownLayout` | form/app.js:264-299 | the list has twelve rows, with the separator seventh, after all six lines |
| `FormApp.LineRowsOfTotals` | form/app.js:266-280 | one scaled line row per line, adding up to the scaled amounts' sum |
| `FormApp.CountyRowsOfTotals` | form/app.js:287-299 | one scaled county row per item, adding up to the scaled amounts' sum |
| `FormApp.RefListTotals` | form/app.js:282-285 | the separator adds nothing to either list total |
| `FormApp.BuildLineRows` | form/app.js:266-280 | the loop appends one scaled row per tax line, in order |
| `FormApp.BuildCountyRows` | form/app.js:287-299 | the loop appends one scaled mini row per county item, in order |
| `FormApp.BuildBreakdown` | form/app.js:259-304 | the list is the line rows, the separator and the county rows |
| `FormApp.ChildRowsShape` | form/app.js:355-366 | detail row k is child k, flagged as a child, with its year amount and that amount's portion against the district divisor |
| `FormApp.ChildShareTotal` | form/app.js:355-357 | the detail shares add up to the children's year total over the district divisor, times the line |
| `FormApp.ChildTotals` | form/app.js:354-367 | the detail rows' shape, their absence from the top level, and their share total |
| `FormApp.ChildrenSumToShare` | form/app.js:342-368 | on a non-zero CSD line, a category's detail shares sum to its share exactly when the detail amounts sum to its amount |
| `FormApp.UseRowsTop` | form/app.js:342-352 | each category's own row is its only top-level row |
| `FormApp.RowsFromAppend` | form/app.js:342 | the table of two runs of categories is the first run's rows, then the second's |
| `FormApp.RowsInDatasetOrder` | form/app.js:342-368 | rows come in dataset order: the rows before category i, then its row immediately followed by its detail rows, then the rest |
| `FormApp.RowsFromTopShares` | form/app.js:342-352 | the top-level shares add up to the categories' year total over the divisor, times the line |
| `FormApp.RowsFromTopRows` | form/app.js:342-368 | the top-level rows are the categories' own rows, in dataset order |
| `FormApp.TopSharesSumToCsdLine` | form/app.js:313-344 | when the district total is positive the top-level shares sum to the scaled CSD line; otherwise they sum to total × line |
| `FormApp.InstructionShareScenario` | form/app.js:342-344 | a district of 1,000,000 with instruction at 600,000 and a line of 3066.17 gives instruction a share of 1839.702, and the shares sum to the line |
| `FormApp.EveryShareIsPortion` | form/app.js:342-368 | every row's share, parent or detail, is its amount over the same district divisor, times the line |
| `FormApp.ZeroLineZeroShares` | form/app.js:344 | a zero line gives a zero share in every row |
| `FormApp.ChildRowsScale` | form/app.js:357 | scaling the line scales every detail share and nothing else |
| `FormApp.RowsFromScale` | form/app.js:313-314 | scaling the line scales every share in the table and leaves ids, amounts and layout unchanged |
| `FormApp.PerUnitScalesOnlyShares` | form/app.js:309-317 | the per-unit factor reaches the table only through the CSD line: the table under factor f is the unscaled table with every share × f |
| `FormApp.InstructionDetailAgrees` | app.js:253-263 | for a positive instruction amount, app.js's split against the parent amount gives each detail row the share form/app.js gives it against the district total |
| `FormApp.TablesAgreeWithApp` | form/app.js:342-368 | the two scripts build the same table whenever the only category with children is "instruction" and its year amount is positive |
| `FormApp.OtherCategoriesExpandOnlyHere` | form/app.js:345-354 | a category other than "instruction" that has children gets one row in app.js and 1 + children rows here |
| `FormApp.AllocateChildren` | form/app.js:354-367 | the detail loop produces the detail rows against the district divisor |
| `FormApp.AllocateUse` | form/app.js:342-368 | one loop step appends the category's row, then one row per child |
| `FormApp.AllocateSchools` | form/app.js:306-369 | returns the district total and exactly the specified table; when the total is positive the top-level shares sum to the CSD line |
| `FormApp.MapOfKeys` | form/app.js:75 | the lookup map holds exactly the entries' trimmed, lowercased authority names |
| `FormApp.MapOfLastWins` | form/app.js:75 | under each key the map holds the amount of the last entry with that key, so a later duplicate overwrites an earlier one |
| `FormApp.GetAmtIsFirstTruthy` | form/app.js:77-83 | `getAmt` is `""` exactly when no key's lowercased lookup is truthy; otherwise it is the value under the first key whose lookup is |
| `FormApp.SameKeySpellings` | form/app.js:86 | a second spelling that lowercases to the same key never changes what `getAmt` finds |
| `FormApp.CGet` | form/app.js:97 | `cGet(key)` is `getAmt` with the single key |
| `FormApp.AutoFillScope` | form/app.js:85-105 | auto-fill never touches the optional county total or the income, and every input it fills holds only digits, `.` and `-` |
| `FormApp.AutoFillFindsAuthority` | form/app.js:74-85 | when the last distribution entry whose trimmed, lowercased authority is "butler county" has a non-empty amount, the county line gets that amount through the cleaner (a later entry with the same name overrides an earlier one, even with an empty amount) |
| `FormApp.LinesOnlyScope` | form/app.js:85-95 | an auto-fill that stops at the county list leaves the county items, the optional total and the income as they were, and fills the six lines as a complete auto-fill would, whatever its county list |
| `FormApp.CleanExample` | form/app.js:47-48 | `"$1,626.45"` becomes `"1626.45"`, and cleaning again changes nothing |
| `FormApp.RenderTax` | form/app.js:237-304 | the status, scaled totals, EIT estimate and scaled reference list for the current inputs and controls |
| `FormApp.ClearedTaxView` | form/app.js:379-388 | with every input empty and the toggle off, the status is "Off" and every figure is 0, whatever the unit count |
| `FormApp.ClearedSchoolView` | form/app.js:379-388 | with every input empty and the toggle off, the CSD line and every share are 0 |
| `FormApp.RenderSchools` | form/app.js:306-324 | the school view with the scaled CSD line; a positive district total means the shares sum to the shown line |
| `FormApp.Page.constructor` | form/app.js:19-20 | before loading: no dataset and nothing rendered; the inputs, the toggle and the unit count hold whatever the page markup gives them |
| `FormApp.Page.OnAnyChange` | form/app.js:371-377 | re-renders everything under the current factor and changes no input or control |
| `FormApp.Page.Init` | form/app.js:458-469 | stores the dataset, selects the last listed year (2024 when none) and renders |
| `FormApp.Page.Input` | form/app.js:439-442 | one input takes new text and everything re-renders |
| `FormApp.Page.SelectYear` | form/app.js:434-437 | a year change sets only the selected year; inputs and per-unit controls are unchanged |
| `FormApp.Page.TogglePerUnit` | form/app.js:454 | the toggle's change sets only the toggle and re-renders |
| `FormApp.Page.InputUnits` | form/app.js:455 | a unit-count edit sets only the unit count and re-renders |
| `FormApp.Page.SetControls` | form/app.js:380-385 | the assignments of `clearAll`/`fillExample` set the inputs, toggle and unit count, and leave the dataset, the year and both views alone |
| `FormApp.Page.ClearAll` | form/app.js:379-388 | every input is empty, the toggle is off and the unit count empty; the status is "Off" and every figure and share is 0 |
| `FormApp.Page.FillExample` | form/app.js:390-431 | "apt72" loads the apartment figures with per-unit mode on and 72 units; anything else loads the house figures with per-unit mode off |
| `FormApp.Page.AutoFill` | form/app.js:52-116 | a blank address or a failed lookup changes nothing; a lookup whose county list throws leaves the six tax lines filled and all else, views included, unchanged (no re-render); a complete lookup fills the eleven inputs and re-renders |

## Left out

- DOM construction and rendering (element lookup, `innerHTML` templates, class toggles, status text). Rows are abstract records (`Row`, `RefRow`), and labels, descriptions and `descMap` are static text, so they are not modelled.
- `money()` / `toLocaleString`: locale-dependent formatting done by the host. Views hold the numbers it would format.
- `loadJson`'s fetch over candidate paths, and the `fetch` of `autoFillFromAddress` with its button and status handling. The dataset is a parameter of `Init`. The lookup's outcome is a parameter of `AutoFill`: `Failed` for a failed request, a response without `ok: true` or a distribution list that throws; `LinesOnly` for a county list that throws after the six lines are written; `Succeeded` otherwise. `window.open` is not modelled.
- IEEE floating point and rounding to cents: amounts are `real`, so the sum identities hold exactly where floating point is only within tolerance.
- Coercion.ToNumber: `Number()` is modelled for decimal literals (sign, digits, optional fraction) only. Exponents (`1e3`) and hex/octal/binary prefixes are not modelled: such text reads as 0 here, while JavaScript reads it as a number. Overflow is not modelled either: a numeral beyond `Number.MAX_VALUE` (a numeral above about 1.8e308, such as any integer of 310 digits or more) reads as its exact value here, while JavaScript gets `Infinity` and the `isFinite` test then gives 0. The word `"Infinity"` reads as 0, as in the code.
- FormApp.LowerAscii: `toLowerCase` is modelled on ASCII letters only; the Unicode case mapping is not modelled.
- The dataset's year keys are modelled as integers, and authority amounts as text. The code reads the selected year back with `Number(yearSelect.value)`, so a non-numeric key such as "2023-24" would become NaN. The key would then be "NaN" and every amount 0. The model cannot express such a key: `Spending.YearKeyRoundTrip` holds only because years are integers. A JSON number amount, which the code would pass through `String()`, is not distinguished from its decimal text.
- The "memo/included" child flag: neither script reads it, so it is not modelled.
- `buildYearSelect` and the `!DATA` early return before loading are covered only as "no school view until `Init`".
