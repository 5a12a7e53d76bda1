# Sales insights and brand dashboard: a Dafny model

The application is a single-page front end for branded pharmaceutical sales
sheets. This model covers the two pages that hold its logic.

The insights page keeps the sheets uploaded for a brand and shows the rows of the
selected sheet. Above them it shows a "Grand Total" row:

- three columns are summed exactly: target doctors, CRM doctors and PD;
- three are summed and then rounded to one decimal with `Number(sum.toFixed(1))`:
  overall secondary, CRM doctor secondary and MTD sales.

Cells are printed with `toFixed(1)` in those three columns and with `toString`
elsewhere. An MTD Sales cell is coloured red below 0 and green above 1. The page
also chooses which request fetches the sheets, picks the first sheet returned, and
switches sheets when one is clicked.

The dashboard page keeps the brand list, the add/edit dialog's text, the brand
being edited and whether the dialog is open. Its handlers add, rename, delete and
edit brands and close the dialog. Its "Get Insights" button builds the link
`/insights/<brandName>?id=<brandId>` without escaping either part.

Modules:

- `Wrappers`: `Option`.
- `Text`: ECMAScript `String.prototype.trim` and first-index search.
- `Numbers`: the JavaScript numbers involved, modelled as exact reals:
  - decimal digit text;
  - `Number.prototype.toFixed` of ECMA-262 (sign, round half up on the magnitude,
    zero padding);
  - `toString` for numbers with at most six fraction digits;
  - `Number(text)` on decimal text.
- `Insights`: rows, the grand total, cell text and colour, sheet lookup, the sheet
  request, and the `SheetView` class holding the page's sheet state.
- `Dashboard`: brands, the list operations, the insights link and how the insights
  page reads it back, and the `BrandBoard` class holding the page's brand state.

Two facts about the code shape the data model:

- `SalesData` types every column as `number`, so all six columns are reals,
  the doctor counts included.
- `formatValue` prints the unrounded columns with `toString`, which keeps fractions.

## Model

| member | source | states |
|---|---|---|
| Text.Trim | src/views/dashboard/index.tsx:47 | `trim` cuts only white space from the two ends of a contiguous piece, and what is left neither starts nor ends with white space |
| Text.TrimEmptyIff | src/views/dashboard/index.tsx:47 | a name trims to the empty text (is falsy) exactly when it is all white space |
| Text.TrimIdempotent | src/views/dashboard/index.tsx:51 | trimming a trimmed name changes nothing |
| Numbers.NatText | src/views/insights/index.tsx:172 | the decimal text of a natural number is non-empty digits with no leading zero |
| Numbers.NatTextValue | src/views/insights/index.tsx:172 | the digits of a natural number read back as that number |
| Numbers.PaddedValue | src/views/insights/index.tsx:172 | the zero-padded fraction digits read back as the fraction |
| Numbers.ScaledMagnitude | src/views/insights/index.tsx:172 | the `toFixed` integer is the nearest whole number to \|x\|·10^k, halves rounded up |
| Numbers.RoundTo | src/views/insights/index.tsx:163 | `Number(x.toFixed(k))` is within half a unit of the k-th decimal of x |
| Numbers.RoundToTenth | src/views/insights/index.tsx:163 | `Number(x.toFixed(1))` is within 0.05 of x |
| Numbers.RoundToTenthText | src/views/insights/index.tsx:163 | the text `x.toFixed(1)` reads back as the rounded number |
| Numbers.FixedTextValue | src/views/insights/index.tsx:163 | `Number` of the text `x.toFixed(k)` is the rounding of x to k decimals |
| Numbers.FixedTextShape | src/views/insights/index.tsx:172 | `toFixed(k)` text with k > 0 is digits, a point, then exactly k digits, with a leading minus exactly for negative x |
| Numbers.RoundToExact | src/views/insights/index.tsx:163 | a number with at most k decimals is unchanged by `Number(x.toFixed(k))` |
| Numbers.RoundToHasDecimals | src/views/insights/index.tsx:163 | the rounded number has at most k decimals |
| Numbers.HasDecimalsAdd | src/views/insights/index.tsx:163 | sums of numbers with at most k decimals have at most k decimals |
| Numbers.FractionDigitsFrom | src/views/insights/index.tsx:174 | `toString` uses the fewest fraction digits that represent the number exactly, if there are at most six |
| Numbers.NumberTextValue | src/views/insights/index.tsx:174 | `toString` text of a number with at most six decimals reads back as that number |
| Numbers.NumberTextOfInteger | src/views/insights/index.tsx:174 | `toString` of a whole number is its integer digits, with no point |
| Numbers.FixedOneOfInteger | src/views/insights/index.tsx:172 | `toFixed(1)` of a whole number is its integer digits followed by ".0" |
| Numbers.FixedText | src/views/insights/index.tsx:172 | `x.toFixed(k)` is non-empty and starts with a minus exactly when x is negative, a digit otherwise; `FixedTextValue` and `FixedTextShape` give its value and layout |
| Numbers.NumberText | src/views/insights/index.tsx:174 | `x.toString()` is non-empty and starts with a minus exactly when x is negative, a digit otherwise; `NumberTextValue` gives its value |
| Numbers.ParseUnsigned | src/views/insights/index.tsx:163 | accepted text is digits with at most one point, starting and ending with a digit |
| Numbers.ParseDecimal | src/views/insights/index.tsx:163 | `Number(text)` accepts only digits, points and a leading minus, ending with a digit; `FixedTextValue` gives the value it reads from `toFixed` text |
| Numbers.PointIndex | src/views/insights/index.tsx:163 | finds the first decimal point of the text, or reports that there is none |
| Numbers.ParseWithPoint | src/views/insights/index.tsx:163 | `Number` of "digits.digits" is the whole part plus the fraction digits shifted right |
| Insights.ReduceIsSum | src/views/insights/index.tsx:161-166 | `Reduce`, the left fold `reduce((sum, item) => sum + item.col, acc)`, is acc plus the column sum |
| Insights.SumConcat | src/views/insights/index.tsx:161-166 | the column sum of two row sequences put together is the sum of their sums |
| Insights.SumPermutation | src/views/insights/index.tsx:161-166 | the column sum does not depend on row order |
| Insights.SumOfTenths | src/views/insights/index.tsx:163-166 | a column whose rows have at most one decimal has a sum with at most one decimal |
| Insights.CalculateGrandTotal | src/views/insights/index.tsx:158-168 | the total row is labelled "Grand Total"; target doctors, CRM doctors and PD are exact column sums; the three one-decimal columns are their sums rounded to one decimal |
| Insights.GrandTotalOfNoRows | src/views/insights/index.tsx:161-166 | no rows give the "Grand Total" row with every figure 0 |
| Insights.GrandTotalPermutation | src/views/insights/index.tsx:158-168 | reordering the rows leaves the whole grand-total row unchanged |
| Insights.GrandTotalConcat | src/views/insights/index.tsx:161-166 | over concatenated rows an unrounded total adds the parts' totals; a rounded one rounds the sum of the parts' exact sums |
| Insights.OneDecimalTotal | src/views/insights/index.tsx:163-166 | a one-decimal total is within 0.05 of the exact sum, has one decimal at most, and is exact when every row has one decimal at most |
| Insights.GrandTotalRow | src/views/insights/index.tsx:188 | the grand total exists exactly when the table has rows, and is then the total of those rows |
| Insights.FormatValue | src/views/insights/index.tsx:170-175 | text passes through; a number in a one-decimal column prints with exactly one digit after the point and reads back as its rounding to one decimal; in other columns a number with at most six decimals prints as text that reads back as itself |
| Insights.FormatWholeNumber | src/views/insights/index.tsx:170-175 | a whole number prints as "4.0" in a one-decimal column and as "4" in any other |
| Insights.FormatGrandTotal | src/views/insights/index.tsx:448-457 | a rounded total prints as text that reads back as exactly that total |
| Insights.GetCellColor | src/views/insights/index.tsx:177-181 | red exactly for MTD Sales below 0; green exactly for MTD Sales above 1; no class exactly for other columns or MTD Sales from 0 to 1 inclusive |
| Insights.SampleTotals | src/views/insights/index.tsx:161 | two sample rows total 305 target doctors, printed "305" |
| Insights.SampleMtdSales | src/views/insights/index.tsx:166 | the same rows' MTD sales 0.2 and 1.4 total 1.6, printed "1.6" |
| Insights.SampleOneDecimalText | src/views/insights/index.tsx:164 | CRM doctor secondary figures 0.7, 2.8 and 0.6 total 4.1, printed "4.1" |
| Insights.FirstWithId | src/views/insights/index.tsx:79 | the index of the first sheet with the id, or the list length when none has it |
| Insights.FindSheet | src/views/insights/index.tsx:79 | `find` fails exactly when no sheet has the id, and otherwise returns the first listed sheet with that id |
| Insights.WeekArgument | src/views/insights/index.tsx:228 | the week argument is absent exactly when the selected week is "All", and is otherwise the selected week |
| Insights.SheetRequestFor | src/views/insights/index.tsx:222-232 | a monthly timeframe asks for the filtered sheets of year "2025" with the selected month and week; any other timeframe asks for all the brand's sheets |
| Insights.WeekParameter | src/axios/api.tsx:56-59 | the request gets a `week` parameter exactly when the week is neither absent, empty nor "All" |
| Insights.WeekParameterOfSelection | src/views/insights/index.tsx:228 | a monthly request carries the selected week exactly when it is neither "All" nor empty |
| Insights.SheetView.constructor | src/views/insights/index.tsx:46-76 | no sheets, no selection and no rows at first |
| Insights.SheetView.SelectSheet | src/views/insights/index.tsx:78-83 | shows the rows of the first sheet with the id, and leaves everything unchanged when none has it |
| Insights.SheetView.ClickSheet | src/views/insights/index.tsx:368-371 | selects the clicked id and shows its sheet's rows, so the rows shown then belong to the selection |
| Insights.SheetView.ReceiveManagerSheets | src/views/insights/index.tsx:206 | the first fetch replaces the sheets on offer and touches nothing else |
| Insights.SheetView.ReceiveFilteredSheets | src/views/insights/index.tsx:250-260 | a non-empty result selects its first sheet and shows its rows; an empty one clears the selection and the rows; either way the rows shown belong to the selection |
| Insights.SheetView.GrandTotal | src/views/insights/index.tsx:188 | a "Grand Total" row exists exactly when the table has rows, and it is the total of those rows |
| Dashboard.Names | src/views/dashboard/index.tsx:159 | the names the cards show are the entries' `brandName`s, in list order |
| Dashboard.FromServer | src/views/dashboard/index.tsx:29-32 | each server brand maps to a page brand with the same id and name, in the same order |
| Dashboard.Renamed | src/views/dashboard/index.tsx:70-74 | the update leaves the length, order, ids and shown names as they were; matching entries get a `name` field and the others are untouched |
| Dashboard.RenamedIdempotent | src/views/dashboard/index.tsx:70-74 | saving the same name twice is the same as saving it once |
| Dashboard.WithoutBrand | src/views/dashboard/index.tsx:82 | an entry survives exactly when it was listed and has a different id; a list without the id is unchanged |
| Dashboard.WithoutBrandConcat | src/views/dashboard/index.tsx:82 | deleting keeps the original order: the filter of a concatenation is the concatenation of the filters |
| Dashboard.WithoutBrandLength | src/views/dashboard/index.tsx:82 | deleting removes exactly as many entries as carry the id |
| Dashboard.WithoutBrandIdempotent | src/views/dashboard/index.tsx:82 | deleting an id twice is deleting it once |
| Dashboard.InsightsPath | src/views/dashboard/index.tsx:93 | the link starts with "/insights/" and is longer than that prefix and the name together |
| Dashboard.InsightsPathQueryStart | src/views/dashboard/index.tsx:93 | when the name has no `?`, the link's first `?` comes right after the name and is followed by exactly "id=" and the id |
| Dashboard.QueryParam | src/views/insights/index.tsx:75 | the `id` value found never contains `&`, which separates parameters; `QueryParamFirstPair` and `QueryParamLastPair` pin it to the value of the first pair named `id`, or none when no pair has that name |
| Dashboard.QueryParamFirstPair | src/views/insights/index.tsx:75 | the first pair decides: its value when it has the name, otherwise the answer for the pairs after it |
| Dashboard.QueryParamLastPair | src/views/insights/index.tsx:75 | a single pair gives its value when it has the name, and none otherwise |
| Dashboard.TrimTrailingSlashes | src/App.tsx:11 | route matching drops only trailing slashes from the path |
| Dashboard.ParseInsightsPath | src/views/insights/index.tsx:73-75 | the brand name read from a link is a non-empty path segment with no `/` and no `?` |
| Dashboard.QueryOfId | src/views/insights/index.tsx:75 | the query "id=<brandId>" gives back the id when it has no `&` |
| Dashboard.InsightsPathRoundTrip | src/views/dashboard/index.tsx:91-94 | when the name is not "." or "..", the name and id hold no character that a link treats specially, and the id does not end in a space or control character, the insights page reads back exactly the brand name and id |
| Dashboard.InsightsPathTrailingSlash | src/App.tsx:11 | the brand "a/" with id "1" is read back as brand "a", because route matching ignores trailing slashes |
| Dashboard.InsightsPathQuestionMark | src/views/dashboard/index.tsx:93 | without escaping, the brand "a?b" with id "1" is read back as brand "a" with no id |
| Dashboard.InsightsPathAmbiguous | src/views/dashboard/index.tsx:93 | without escaping, two different brands can produce the same link |
| Dashboard.BrandBoard.constructor | src/views/dashboard/index.tsx:12-18 | no brands, empty text, no brand being edited, dialog closed |
| Dashboard.BrandBoard.CanSubmit | src/views/dashboard/index.tsx:271 | the submit button is enabled exactly when the text is not all white space |
| Dashboard.BrandBoard.LoadBrands | src/views/dashboard/index.tsx:27-33 | the fetched brands replace the list; the dialog state is untouched |
| Dashboard.BrandBoard.OpenModal | src/views/dashboard/index.tsx:203 | opens the dialog and changes nothing else |
| Dashboard.BrandBoard.SetNewBrandName | src/views/dashboard/index.tsx:248-249 | typing replaces the text and changes nothing else |
| Dashboard.BrandBoard.AddBrand | src/views/dashboard/index.tsx:46-60 | all-white-space text changes nothing and sends nothing; otherwise the untrimmed text is sent, the trimmed name is appended as the one new last entry, the text is cleared and the dialog closes |
| Dashboard.BrandBoard.EditBrand | src/views/dashboard/index.tsx:62-66 | the brand becomes the edited one, its shown name becomes the text, and the dialog opens |
| Dashboard.BrandBoard.UpdateBrand | src/views/dashboard/index.tsx:68-79 | nothing changes unless the text is not all white space and a brand is being edited; then the list becomes the renamed list, the shown names stay the same, and the dialog is reset and closed |
| Dashboard.BrandBoard.DeleteBrand | src/views/dashboard/index.tsx:81-83 | the list becomes the filtered list, which has no entry with the id; nothing else changes |
| Dashboard.BrandBoard.ModalClose | src/views/dashboard/index.tsx:85-89 | closes the dialog, clears the text and forgets the edited brand, leaving the list alone |
| Dashboard.BrandBoard.Submit | src/views/dashboard/index.tsx:253-270 | while editing, sends nothing and does the whole update (unchanged for all-white-space text, otherwise the renamed list and the reset dialog); otherwise the whole add, including the appended entry, the cleared text and the closed dialog |

## Left out

- Floating point: JavaScript numbers are exact reals here. Binary rounding in `reduce` and in `toFixed` (for example `(1.005).toFixed(2)`) is not reproduced.
- Numbers.NumberText: `toString` is exact only for decimals with at most six fraction digits. Other numbers are written with six rounded fraction digits, which is not JavaScript's shortest round-trip text.
- Numbers.FixedText: for magnitudes from 1e21 up, ECMA-262 `toFixed` falls back to `toString`, which uses exponent notation. Neither `toFixed` nor `toString` models that notation.
- Numbers.ParseDecimal: `Number(text)` is modelled only for `[-]digits[.digits]`, the notation `toFixed` produces.
- Insights.FormatValue: a number whose `toString` needs more than six fraction digits gets no read-back guarantee.
- Network: `src/axios/api.tsx` apart from its week-parameter rule. The requests, their failure paths and the server are parameters of the methods (the sheets or brands received).
- Async behaviour: effect ordering, races between the two fetch effects, the loading and error flags, `alert` and `console`.
- Rendering: JSX, CSS classes other than the three cell colours, and the `en-GB` date text of each sheet (it depends on the locale). A sheet's `date` is kept as opaque text.
- The upload form and the sheet-upload handlers of the insights page, which are not part of this model.
- Dashboard.BrandBoard.AddBrand: the new id comes from `Date.now()` in the source. Here it is the caller's `newId` argument. The server call is fire-and-forget, so its failure never stops the local append. The model therefore sends the text and appends unconditionally.
- Dashboard.ParseInsightsPath: `useParams` and `URLSearchParams` percent-decode, and a `#` starts a fragment. The model does neither, so the round-trip lemma rules out `%` and `#` in both parts and `+` in the id.
- Dashboard.ParseInsightsPath: URL normalisation is not modelled. The dot segments "." and ".." are resolved away, `\` counts as `/`, tab, line feed and carriage return are removed, and spaces and C0 control characters (U+0000 to U+0020) are stripped from the end of the whole link, which is where the id sits. The round-trip lemma therefore rules out the names "." and "..", `\` in the name, those three characters in either part, and an id ending in a space or control character.
- Routing beyond the one `/insights/:brandName` route, and navigation itself.
- The commented-out older versions of both pages.
