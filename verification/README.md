# Page summaries and formula columns of a grid extension

This project models the page-summary and formula logic of a grid-column
extension for Yii 2 (`kartik\grid`) in Dafny.

A **page summary** is one extra row under the data. Each column can fill its
cell with an aggregate of the values it shows on the current page: sum,
count, average, maximum or minimum. It can also fill the cell with a literal,
or with the result of a user closure applied to that aggregate and the rows.

A **formula column** computes its value with a user closure. That closure can
ask sibling columns, by position, for their per-row content, their summary
content or their footer content through `col`. Two reserved negative row
indices, `SUMMARY` and `FOOTER`, select the last two.

The model also covers the small decision tables of the columns:
- when a header cell spans two rows;
- when a filter cell is suppressed;
- which filter control a data column emits.

Modules, one per file:

- `Values`: `Option` and `Val`, the cell values the code inspects (`null`, string, integer, exact quotient).
- `GridContext`: the grid as a column sees it: the current page of `(key, model)` rows, the `showPageSummary` switch, the filter model and filter position, the empty-cell placeholder, and the formatter.
- `Aggregation`: `calculateSummary`'s aggregation table and its properties.
- `PageSummaries`: the summary code that DataColumn and SerialColumn share word for word. It covers the `pageSummary` setting, the row-collection gate, the row collection itself, and the raw summary content.
- `DataColumns`, `SerialColumns`, `FormulaColumns`: one module per column class.

The design is functional. A column is an immutable datatype. `Init` returns the column with its collected rows, and every render step is a pure function of the column and the grid. Some collaborators are passed in as function values:
- the formatter;
- the base class's per-row content (`getDataCellContent`);
- the user closures (`value`, a closure `pageSummary`).

`col` returns a descriptor of what it asks the sibling for (`SummaryOf`, `FooterOf` or `CellOf`). `ColValue` then evaluates that descriptor against the column registry. A SerialColumn declares its summary and footer methods `protected` outside FormulaColumn's class hierarchy, so PHP refuses those two calls. For a SerialColumn sibling, `ColValue` reports that refusal as `ProtectedAccess`.

## Model

| member | source | states |
|---|---|---|
| Aggregation.CalculateSummary | grid/DataColumn.php:191-213 | the empty string is returned exactly when there are no rows or the function is unknown; a null function and `F_SUM` give the sum; `F_COUNT` gives the number of rows; `F_AVG` gives a quotient that times the count equals the sum; `F_MAX`/`F_MIN` give a row that bounds every row from above/below |
| Aggregation.Total | grid/DataColumn.php:200 | `array_sum` of no rows is 0, of non-negative rows is non-negative, and of non-positive rows is non-positive |
| Aggregation.Largest | grid/DataColumn.php:207-208 | `max` of a non-empty row list is one of the rows and no row exceeds it |
| Aggregation.Smallest | grid/DataColumn.php:209-210 | `min` of a non-empty row list is one of the rows and no row is below it |
| Aggregation.TotalAppend | grid/DataColumn.php:200 | `array_sum` of a concatenation is the sum of the two parts' sums |
| Aggregation.AverageWithinRange | grid/DataColumn.php:205-210 | over a non-empty page the average lies between the minimum and the maximum |
| Aggregation.ThreeRowExample | grid/DataColumn.php:198-211 | over the rows 3, 5, 2: sum and null function 10, count 3, average 10/3, max 5, min 2 |
| PageSummaries.CollectRows | grid/DataColumn.php:177-180 | the collected list has one entry per model, and entry `i` is the cell content for the `i`-th model, its key and index `i` |
| PageSummaries.CollectRowsPrefix | grid/DataColumn.php:177-180 | collecting a prefix of the page gives the same prefix of the collected rows, so rows are appended in page order |
| PageSummaries.SummaryRows | grid/DataColumn.php:173-181 | rows are collected (one per model, in page order) exactly when the grid shows page summaries and `pageSummary` is set, not `false` and not a string; otherwise the list stays empty |
| PageSummaries.SummaryContent | grid/DataColumn.php:229-236 | `true` gives the aggregate; a closure gets the aggregate and the collected rows; any other non-false value comes back verbatim; `false` gives null |
| PageSummaries.OrEmptyCell | grid/DataColumn.php:252 | unformatted content is never shown as null: null becomes the placeholder and anything else passes through |
| PageSummaries.LiteralIgnoresPage | grid/DataColumn.php:173 | a string summary collects no rows and its content is that string whatever the page holds |
| PageSummaries.CountOfCollectedIsPageSize | grid/DataColumn.php:203-204 | with the summary on and `F_COUNT`, the content over a non-empty page is the page size |
| PageSummaries.EmptyPageSummary | grid/DataColumn.php:193-195 | with the summary on, an empty page gives the empty string |
| DataColumns.Init | grid/DataColumn.php:106-117 | `init` changes nothing but the rows, so the per-row content function is kept; it holds one row per model in page order when the gate is open, and no rows otherwise |
| DataColumns.Default | grid/DataColumn.php:62-98 | a freshly configured column has no page summary, `F_SUM`, a visible summary, no header merging and no collected rows |
| DataColumns.PageSummaryCellContent | grid/DataColumn.php:227-237 | `true` gives the aggregate of the collected rows; a closure gets that aggregate and the rows; any other non-false value comes back verbatim; `false` gives null |
| DataColumns.RenderPageSummaryCellContent | grid/DataColumn.php:243-253 | the shown summary is never null; hidden gives the placeholder; `true` gives the formatted aggregate; every other setting, a closure included, shows its content unformatted, with null shown as the placeholder |
| DataColumns.HeaderRowSpan | grid/DataColumn.php:151-158 | the header spans two rows exactly when a filter model is attached, `mergeHeader` is set and the filter row is not in the footer |
| DataColumns.RenderFilterCellContent | grid/DataColumn.php:123-146 | the base content comes back unchanged exactly when the filter type is empty or the base content is the placeholder; an option list gives a radio list for the radio type and otherwise a widget given the options; a scalar filter gives a checkbox for the checkbox type and otherwise a widget without data |
| DataColumns.FilterControlDependsOnlyOnSettings | grid/DataColumn.php:129-145 | once the base content is real and a filter type is set, the control is never the base content and depends only on the filter type and the `filter` setting, not on the grid or the base content |
| DataColumns.RenderFilterCell | grid/DataColumn.php:163-169 | the filter cell is suppressed exactly when a filter model is attached and `mergeHeader` is set, whatever the filter position |
| DataColumns.HeaderBandCovered | grid/DataColumn.php:151-169 | when the filter row is under the header, the header's row span plus the filter cells of the column is always 2 |
| DataColumns.FooterFilterStillSuppressed | grid/DataColumn.php:153-166 | with the filter row in the footer, a merged column keeps a one-row header but still loses its filter cell |
| DataColumns.HidingKeepsRowsAndContent | grid/DataColumn.php:245-247 | hiding the summary leaves the collected rows and the raw content as they are, and the cell shows the placeholder |
| DataColumns.DefaultSumOfPage | grid/DataColumn.php:249-251 | with `true` and `F_SUM`, the cell shows the formatted sum of the page's cell values |
| SerialColumns.Init | grid/SerialColumn.php:107-118 | `init` changes nothing but the rows, so the per-row content function is kept; it holds one row per model in page order when the gate is open, and no rows otherwise |
| SerialColumns.Default | grid/SerialColumn.php:56-72 | a freshly configured serial column aggregates with `F_COUNT`, has no page summary, a visible summary and no collected rows |
| SerialColumns.PageSummaryCellContent | grid/SerialColumn.php:163-173 | `true` gives the aggregate of the collected rows; a closure gets that aggregate and the rows; any other non-false value comes back verbatim; `false` gives null |
| SerialColumns.RenderPageSummaryCellContent | grid/SerialColumn.php:179-186 | the shown summary is never null and never formatted: hidden gives the placeholder; `true` gives the raw aggregate; non-null content passes through; null content gives the placeholder |
| SerialColumns.HeaderRowSpan | grid/SerialColumn.php:90-97 | the header spans two rows exactly when a filter model is attached and the filter row is not in the footer |
| SerialColumns.RenderFilterCell | grid/SerialColumn.php:102-105 | the filter cell is always suppressed, whatever the configuration |
| SerialColumns.HeaderBandCovered | grid/SerialColumn.php:90-105 | when the filter row is under the header, the two-row header alone covers the column's two slots |
| SerialColumns.DefaultSummaryIsRowCount | grid/SerialColumn.php:61 | with the default `F_COUNT` and `true`, a non-empty page shows the number of its rows |
| SerialColumns.SummaryIsUnformattedDataSummary | grid/SerialColumn.php:184-185 | a serial column shows what a data column with the same settings and rows shows, except that a computed summary is not formatted |
| FormulaColumns.ContextOf | grid/FormulaColumn.php:83-91 | an index is a summary or footer request exactly when it equals that sentinel; any non-negative index is a row request |
| FormulaColumns.Invoke | grid/FormulaColumn.php:101 | the formula is called with the given model and index; an unset `value` yields null |
| FormulaColumns.Default | grid/FormulaColumn.php:46-53 | a freshly configured formula column has `value` unset and `autoFooter` on, over the given data column |
| FormulaColumns.Col | grid/FormulaColumn.php:67-92 | a missing column fails first, then a value that is not a closure, then self-reference; success happens exactly when none of these applies, names the requested existing column, and asks for its summary, its footer or its cell with the given parameters |
| FormulaColumns.ColValue | grid/FormulaColumn.php:83-91 | `col` fails with `Col`'s error; a SerialColumn sibling asked for its summary or footer fails with a protected-access error; otherwise `col` returns the sibling's raw summary content, footer content or cell content |
| FormulaColumns.CellContent | grid/FormulaColumn.php:90 | a row request gives the integer the sibling's per-row content function returns for the given model, key and index |
| FormulaColumns.SummaryContentOf | grid/FormulaColumn.php:84 | a summary request reaches a data or formula sibling's raw summary content, and never a SerialColumn's, whose method is protected outside FormulaColumn's hierarchy |
| FormulaColumns.FooterContentOf | grid/FormulaColumn.php:87 | a footer request reaches a data sibling's static footer or a formula sibling's footer content, and never a SerialColumn's |
| FormulaColumns.SerialSiblingOnlyServesCells | grid/FormulaColumn.php:83-91 | a SerialColumn sibling answers row requests with its per-row content, and summary and footer requests with a protected-access error |
| FormulaColumns.PageSummaryCellContent | grid/FormulaColumn.php:98-105 | `true` calls the formula with the summary sentinel; a closure gets that result and an empty row list; other settings behave as in DataColumn |
| FormulaColumns.RenderPageSummaryCellContent | grid/FormulaColumn.php:111-121 | the shown summary is never null; hidden gives the placeholder; `true` gives the formatted formula result; other non-null content passes through; null content gives the placeholder |
| FormulaColumns.RenderFallsBackToDataColumn | grid/FormulaColumn.php:104-120 | for `false` and literal settings, a formula column shows exactly what its underlying data column shows |
| FormulaColumns.FooterCellContent | grid/FormulaColumn.php:123-129 | with `autoFooter` the footer is the formula at the footer sentinel; otherwise it is the static footer |
| FormulaColumns.RenderFooterCellContent | grid/FormulaColumn.php:135-141 | the footer is formatted exactly when `autoFooter` is set, and the formatted text is the formula result at the footer sentinel |
| FormulaColumns.SentinelsNeverRowIndices | grid/FormulaColumn.php:27-28 | the two sentinels differ, and a zero-based row index is always a row request |
| FormulaColumns.ColErrors | grid/FormulaColumn.php:69-78 | a reference to the column's own position fails with a self-reference error; a missing position fails with an invalid-column error even when `value` is unset |
| FormulaColumns.SiblingSummaryIgnoresHiding | grid/FormulaColumn.php:83-84 | a data sibling's summary requested through `col` is its raw aggregate, even when that sibling hides its summary cell |
| FormulaColumns.AutoFooterIgnoresStaticFooter | grid/FormulaColumn.php:125-128 | with `autoFooter`, the static footer has no effect on the footer content |
| FormulaColumns.ClosureSummaryIgnoresRows | grid/FormulaColumn.php:100-102 | a closure summary of a formula column does not depend on the collected rows |

## Left out

- HTML generation is not modelled: `Html::tag`, CSS classes, `activeRadioList` and `activeCheckbox`. Widget instantiation is not modelled either. A filter control is a `FilterContent` tag, and a filter cell is `Suppressed` or `Rendered`.
- The `init` styling is not modelled: `formatColumn` width and alignment, the `valign` default and the `form-control` class removal. These lines are presentation only.
- The Yii base classes are not part of this model. This covers their per-row content (`getDataCellContent`, including serial numbering), their base filter content and their footer rendering. Per-row content is a function parameter, base filter content is a string parameter, and base footer rendering is the `BaseFooter` tag.
- The formatter is a function parameter. The `value` and `pageSummary` closures are function values. Side effects of closures are not modelled, so "hidden does not evaluate the content" has no observable counterpart.
- Cells are integers. PHP's loose typing inside `array_sum`, `max` and `min` is not modelled. Integer overflow to float is not modelled either.
- Averages are exact rational quotients, not floating-point values.
- `pageSummaryFunc` is an enumeration, not the grid's string constants. PHP's loose `switch` comparison is reduced to `NoFunc` for a null setting.
- Formula recursion is not evaluated. The user closures are opaque, so a sibling formula column's content is its closure's result at the sentinel, and transitive cycles cannot arise in the model.
- FormulaColumns.ColValue: the registry holds only the three column classes of this model. Other column classes cannot be registry entries: action, checkbox and radio columns, and the framework's own data column. A SerialColumn's `getFooterCellContent` is assumed to be declared only in SerialColumn itself, and so to be protected against a FormulaColumn caller. The framework's base column is not part of this model and could declare it.
- FormulaColumns.CellContent: the row content of a formula sibling is its base per-row content function, not its `value` closure. The framework's base column turns `value` into per-row content, with arguments that are not part of this model. Row requests to a SerialColumn sibling assume that `getDataCellContent` is declared in the framework's base column. That base is an ancestor of both classes, so FormulaColumn may call it.
- FormulaColumns.Col: `$col === $this` is modelled as equality of the requested position with `at`, the registry key under which the formula column is stored. A column missing from the registry is given a key that is not in it.
- FormulaColumns.Col: the `index` parameter is modelled as an optional integer. Loose comparison of non-integer indices with the sentinels is not modelled.
- FormulaColumns.Invoke: calling an unset `value` yields null; PHP's warning is not modelled. A non-closure `value` is called as an opaque callable.
- DataColumns.FooterCellContent and SerialColumns.FooterCellContent only return the static footer. They carry no contract of their own. FormulaColumns.FooterCellContent states the fallback to them.
