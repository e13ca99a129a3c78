# Techrhym lecture catalog: a verified model of the page's view model

The course page (`app/page.tsx`) shows a lecture roadmap for three tracks:
school English, school computers and college. Each track is a plan, a list of
numbered lecture rows. The page keeps four pieces of state: the course type,
the school batch, the search text and the number of visible rows. From these it
derives, on every render:

- the active plan;
- the rows whose topic, lecture number or printed duration contains the
  trimmed, lower-cased query;
- the first `visibleCount` of those rows;
- whether a "Load more" button is offered.

Load more adds 20 rows. Changing the course, the batch or the search text puts
the window back to 20.

The model is split into five modules:

- `Wrappers` (text.dfy) holds `Option`. `None` stands for JavaScript's `null`
  and `undefined`.
- `Text` (text.dfy) models the string operations the search uses:
  - `trim`, with the exact ECMAScript whitespace and line-terminator set;
  - `toLowerCase`, on ASCII letters;
  - `includes`, as a recursive search proved equal to "occurs at some position";
  - `String(n)` for non-negative integers, proved to round-trip through a
    digit parser.
- `Lectures` (lectures.dfy) holds the row, course and batch types, the duration
  printer and `toLecturePlanFromTopics`.
- `Curriculum` (curriculum.dfy) holds the three literal topic lists and the
  plans built from them.
- `Catalog` (catalog.dfy) holds plan selection, the search filter, the visible
  window and "can load more". They are pure functions, with lemmas for:
  - the identity on a blank query;
  - the order-preserving subsequence, with the if-and-only-if per row;
  - the multiplicity of every row, so nothing is duplicated;
  - the prefix and length of the window;
  - the load-more flag.
- `Page` (page.dfy) holds the class `CatalogPage`:
  - four mutable fields, with the handlers `SetCourse`, `SetBatch`,
    `SetSearch` and `LoadMore`;
  - an invariant `Valid()`: the window is 20·k rows with k ≥ 1, and once it is
    wider than 20 it is less than 20 rows past the end of the filtered rows.

Facts about the code that the model keeps:

- The school English topic list has 47 entries.
- JavaScript prints the college duration `2.0` as `"2"`, so that is the text
  a search on the duration sees.
- The reset of `visibleCount` is a React effect keyed on `[courseType,
  schoolBatch, searchTerm]`. React re-runs an effect only when one of its
  dependencies changes, so setting the same course, batch or search text
  again does not reset the window. `SetCourse`, `SetBatch` and `SetSearch`
  reset only on a real change.

Durations are fixed-point tenths of an hour (`Tenths(15)` is 1.5 hours).
`DurationToString` prints them the way JavaScript prints such numbers: `"1.5"`
and `"2"`.

## Model

| member | source | states |
|---|---|---|
| `Text.IsWhitespace` | app/page.tsx:327 | the characters `trim` strips: the ECMAScript whitespace and line-terminator code points |
| `Text.TrimStartIndex` | app/page.tsx:327 | the leading-whitespace run ends at the returned position, which is the first non-whitespace character or the end |
| `Text.TrimEndIndex` | app/page.tsx:327 | the trailing-whitespace run starts at the returned position, which follows the last non-whitespace character |
| `Text.Trim` | app/page.tsx:327 | the result is the slice of the input with only whitespace before and after it, and it neither starts nor ends with whitespace |
| `Text.TrimEmptyIff` | app/page.tsx:327-328 | the trimmed query is empty exactly when the input is all whitespace, including the empty input |
| `Text.TrimUnchanged` | app/page.tsx:327 | a string without leading or trailing whitespace is left as it is |
| `Text.TrimIdempotent` | app/page.tsx:327 | trimming twice is trimming once |
| `Text.LowerChar` | app/page.tsx:327 | an ASCII capital becomes its small letter; every other character is unchanged |
| `Text.ToLower` | app/page.tsx:327 | same length; each character lower-cased in place |
| `Text.ToLowerIdempotent` | app/page.tsx:327 | a lower-cased string has no capitals, and lower-casing it again changes nothing |
| `Text.Contains` | app/page.tsx:331-333 | `includes`: the empty needle is found in every string, and a found needle is never longer than the haystack |
| `Text.ContainsIff` | app/page.tsx:331-333 | `includes` holds exactly when the needle occurs at some position of the haystack |
| `Text.ToLowerSlice` | app/page.tsx:331 | lower-casing a slice of a topic equals slicing the lower-cased topic |
| `Text.ContainsToLower` | app/page.tsx:331 | a piece of a topic, lower-cased, is found in the lower-cased topic; so a piece typed in the topic's own case meets the premise of `Catalog.SearchFindsTopicPiece` |
| `Text.DigitChar` | app/page.tsx:332 | the digit printed for a value below ten has that value |
| `Text.NatToString` | app/page.tsx:332 | `String(n)`: a non-empty run of digits, with a leading zero only for 0 |
| `Text.DecimalRoundTrip` | app/page.tsx:332 | reading the printed digits back gives the number |
| `Text.NatToStringInjective` | app/page.tsx:332 | different lecture numbers print differently |
| `Lectures.DurationToString` | app/page.tsx:333 | a whole number of hours prints as that number alone; otherwise it is the hours, a point and the tenths digit |
| `Lectures.DurationToStringInjective` | app/page.tsx:333 | different durations print differently |
| `Lectures.PresetNotes` | app/page.tsx:49 | `presets?.[i]?.notesUrl ?? null`: the notes link of preset i, or none when there is no preset i |
| `Lectures.PresetDpp` | app/page.tsx:50 | `presets?.[i]?.dppUrl ?? null`: the practice-problem link of preset i, or none when there is no preset i |
| `Lectures.ToLecturePlanFromTopics` | app/page.tsx:40-52 | one row per topic |
| `Lectures.Topics` | app/page.tsx:45-47 | the topics of a row list, in order |
| `Lectures.PlanRowAt` | app/page.tsx:45-50 | row i has number i + 1, topic i and the given duration; its links come from preset i when there is one, else they are absent |
| `Lectures.PlanWellFormed` | app/page.tsx:45-47 | a built plan is numbered 1, 2, ..., its numbers are unique, and its topics are exactly the input topics |
| `Lectures.NoPresetsNoLinks` | app/page.tsx:49-50 | rows beyond the presets, and every row when there are none, have no notes or practice-problem link |
| `Curriculum.SchoolEnglishPlanShape` | app/page.tsx:55-103 | the English plan has 47 numbered rows of 1.5 hours, with no links |
| `Curriculum.SchoolComputersPlanShape` | app/page.tsx:104-153 | the computers plan has 46 numbered rows of 1.5 hours, with no links |
| `Curriculum.CollegePlanShape` | app/page.tsx:156-214 | the college plan has 56 numbered rows of 2 hours, with no links |
| `Catalog.CurrentPlan` | app/page.tsx:319-324 | the active plan is one of the three plans, and the college course always gets the college plan |
| `Catalog.SelectionExhaustive` | app/page.tsx:319-324 | school + English picks the English plan, school + computers picks the computers plan, college picks the college plan whatever the batch |
| `Catalog.Normalize` | app/page.tsx:327 | the normalized query is never longer than the search text |
| `Catalog.NormalizeEmptyIff` | app/page.tsx:327-328 | the normalized query is empty exactly when the search text is all whitespace |
| `Catalog.RowMatches` | app/page.tsx:330-333 | the filter's test: the lower-cased topic, the printed lecture number or the printed duration contains the query; the empty query matches every row |
| `Catalog.FilterRows` | app/page.tsx:329-334 | the result is no longer than the input, and every row kept matches the query |
| `Catalog.Filtered` | app/page.tsx:326-335 | the filtered list is never longer than the plan |
| `Catalog.FilterBlankIsIdentity` | app/page.tsx:327-328 | a blank or all-whitespace search returns the plan unchanged |
| `Catalog.FilterRowsPicks` | app/page.tsx:329-334 | filtering a suffix takes rows at strictly increasing positions, and takes position j exactly when row j matches |
| `Catalog.SubsequenceCons` | app/page.tsx:329-334 | a matching row in front of a subsequence taken from later positions is still a subsequence |
| `Catalog.FilteredIsMatchingSubsequence` | app/page.tsx:329-334 | for a non-blank query the result is an order-preserving subsequence of the plan that keeps row j exactly when it matches |
| `Catalog.FilterRowsCounts` | app/page.tsx:329-334 | each matching row appears as often as in the plan and a non-matching row not at all, so nothing is duplicated |
| `Catalog.FilteredLecturesIncrease` | app/page.tsx:329-334 | on a numbered plan the filtered rows have strictly increasing, hence distinct, lecture numbers |
| `Catalog.SearchFindsTopicPiece` | app/page.tsx:327-331 | a query without surrounding blanks that, lower-cased, is a piece of the row's lower-cased topic keeps that row, whatever letter case either is typed in |
| `Catalog.SearchFindsLectureNumber` | app/page.tsx:332 | searching for a lecture's number keeps that lecture |
| `Catalog.Shown` | app/page.tsx:337 | the shown rows are the prefix of the filtered rows of length min(visibleCount, number filtered) |
| `Catalog.CanLoadMore` | app/page.tsx:338 | "can load more" holds exactly when the window hides some filtered rows |
| `Catalog.WiderWindowExtends` | app/page.tsx:337-338 | a wider window keeps the earlier rows in front, and shows more whenever rows were hidden |
| `Page.CatalogPage.Valid` | app/page.tsx:287-290 | the invariant of the page state: the window is 20·k rows with k ≥ 1, and once it is wider than 20 it is less than 20 rows past the end of the filtered rows |
| `Page.CatalogPage.ActivePlan` | app/page.tsx:319-324 | `currentPlan` for the page's course and batch |
| `Page.CatalogPage.Results` | app/page.tsx:326-335 | `filtered`: the active plan filtered by the page's search text |
| `Page.CatalogPage.ShownRows` | app/page.tsx:337 | `shown`: the page's window over its filtered rows |
| `Page.CatalogPage.LoadMoreOffered` | app/page.tsx:338 | `canLoadMore` for the page's filtered rows and window |
| `Page.CatalogPage.constructor` | app/page.tsx:283-287 | starts on school / English with an empty search and 20 visible rows: the English plan's first 20 rows, with load more offered when it has more |
| `Page.CatalogPage.SetCourse` | app/page.tsx:290 | sets the course and keeps the batch and search; the window becomes 20 when the course changes and is kept otherwise |
| `Page.CatalogPage.SetBatch` | app/page.tsx:290 | sets the batch and keeps the course and search; the window becomes 20 when the batch changes and is kept otherwise |
| `Page.CatalogPage.SetSearch` | app/page.tsx:508 | sets the search text and keeps the course and batch; the window becomes 20 when the text changes and is kept otherwise |
| `Page.DefaultSession` | app/page.tsx:283-290 | on the shipped English plan, opening the page shows rows 1-20; one load more shows rows 1-40 with more still offered; then typing a search resets the window to 20 |
| `Page.CatalogPage.LoadMore` | app/page.tsx:584-587 | adds exactly 20 to the window and changes nothing else; earlier rows stay in front, at least one more row shows, and the invariant holds |

## Left out

- `ResourceButton` (the click handler and the `sonner` toast) is UI over a foreign library. Only the fact that a missing link is a valid value is kept, as `Option`.
- `ThemeToggle` and `currentInfo` are theme-library state and display strings.
- The `isLoaded` animation flag and the footer's current year are left out: one is an animation flag and the other reads the wall clock.
- All JSX markup and styling, the external links and the "No lectures found." empty state are left out.
- `app/layout.tsx` is left out: it is font loading, metadata and provider wiring, with no logic.
- Text.ToLower: lower-cases ASCII letters only, because full Unicode case mapping is out of scope. Every topic in the three plans uses ASCII letters only; its two non-ASCII characters, an en dash and a right quotation mark, have no case. The query is lower-cased too, and there the model differs from JavaScript: a query with a non-ASCII capital is not lowered. For example, JavaScript lowers U+212A KELVIN SIGN to ASCII `k`, so such a query matches "Knapsack" in JavaScript and nothing in the model.
- Durations are not IEEE doubles. They are tenths of an hour, printed as JavaScript prints such values. Numbers at or beyond 1e21, where JavaScript switches to exponent notation, are not modelled.
- The reset of `visibleCount` is modelled as happening in the same step as the state change. React, by contrast, renders once with the old window before its effect runs.
- Changing a value and back within one React batch is merged by React into "no change"; the model does not capture this.
- The `presets` argument is a sequence. An omitted argument behaves exactly like an empty one. An `undefined` element of the array is written as a preset with both links absent.
- The `defaultDuration = 1.5` default is the constant `Lectures.DefaultDuration`. The shipped plans pass their durations explicitly, as the source does.
- The three plans reach the page as a `Plans` value held in a constant field of `CatalogPage`. The shipped value is `Curriculum.StaticPlans`. This keeps the literal topic text out of every proof that does not need it.
- Claims about what a particular literal query returns on the shipped plans are not stated. For example, searching "pronunciation" in the English plan finds two rows. The general lemmas about topic pieces and lecture numbers cover such queries instead.
- Page.CatalogPage.LoadMore: requires that the button is offered (`canLoadMore`), because the page renders it only then. This is what lets the invariant bound the window by the filtered rows.
