/** The page-summary machinery DataColumn and SerialColumn share word for
    word: the `pageSummary` setting, the gate that decides whether rows are
    collected, the row collection itself and the raw summary content. */
module PageSummaries {
  import opened Values
  import opened GridContext
  import opened Aggregation

  /** The `pageSummary` setting: `false`, `true`, a closure
      `(summary, rows) -> content`, or any other value, which is shown as it
      is. `Verbatim(Null)` is an unset (`null`) setting. */
  datatype PageSummary = Off | On | Verbatim(v: Val) | Fn(f: (Val, seq<int>) -> Val)

  /** The summary settings every summarising column carries. */
  datatype SummarySettings = SummarySettings(
    pageSummary: PageSummary,
    func: AggFunc,
    hide: bool)

  /** The gate of `setSummaryRows`: the grid shows page summaries, and the
      setting is set, is not `false` and is not a string. */
  predicate CollectsRows(showPageSummary: bool, ps: PageSummary)
  {
    showPageSummary && !ps.Off? && !(ps.Verbatim? && (ps.v.Null? || ps.v.Str?))
  }

  /** The cell value of every row of the page, appended in page order. */
  function CollectRows<K, M>(page: seq<Row<K, M>>, cell: Params<K, M> -> int): (rows: seq<int>)
    ensures |rows| == |page|
    ensures forall i :: 0 <= i < |page| ==> rows[i] == cell(RowParams(page, i))
  {
    if |page| == 0 then []
    else
      var n := |page| - 1;
      CollectRows(page[..n], cell) + [cell(RowParams(page, n))]
  }

  /** The rows a column holds after `init`: one entry per model of the page,
      in page order, when the gate is open, and none otherwise. */
  function SummaryRows<K, M>(g: Grid<K, M>, ps: PageSummary, cell: Params<K, M> -> int): (rows: seq<int>)
    ensures CollectsRows(g.showPageSummary, ps) ==> |rows| == |g.page|
    ensures CollectsRows(g.showPageSummary, ps) ==>
      forall i :: 0 <= i < |g.page| ==> rows[i] == cell(RowParams(g.page, i))
    ensures !CollectsRows(g.showPageSummary, ps) ==> rows == []
  {
    if CollectsRows(g.showPageSummary, ps) then CollectRows(g.page, cell) else []
  }

  /** The raw summary content (`getPageSummaryCellContent`). */
  function SummaryContent(s: SummarySettings, rows: seq<int>): (r: Val)
    ensures s.pageSummary.On? ==> r == CalculateSummary(rows, s.func)
    ensures s.pageSummary.Fn? ==> r == s.pageSummary.f(CalculateSummary(rows, s.func), rows)
    ensures s.pageSummary.Verbatim? ==> r == s.pageSummary.v
    ensures s.pageSummary.Off? ==> r == Null
  {
    match s.pageSummary
    case On => CalculateSummary(rows, s.func)
    case Fn(f) => f(CalculateSummary(rows, s.func), rows)
    case Verbatim(v) => v
    case Off => Null
  }

  /** Unformatted content as it is displayed: `null` becomes the empty-cell
      placeholder, anything else is shown as it is. */
  function OrEmptyCell(content: Val, emptyCell: string): (r: Val)
    ensures r != Null
    ensures content != Null ==> r == content
    ensures content == Null ==> r == Str(emptyCell)
  {
    if content == Null then Str(emptyCell) else content
  }

  /** A string summary never triggers row collection and is shown exactly as
      written, whatever the page holds. */
  lemma LiteralIgnoresPage<K, M>(g: Grid<K, M>, s: SummarySettings, text: string, cell: Params<K, M> -> int)
    requires s.pageSummary == Verbatim(Str(text))
    ensures SummaryRows(g, s.pageSummary, cell) == []
    ensures SummaryContent(s, SummaryRows(g, s.pageSummary, cell)) == Str(text)
  {
  }

  /** With the summary switched on, the raw content is the aggregate of
      exactly the page's cell values; under `Count` it is the page size. */
  lemma CountOfCollectedIsPageSize<K, M>(g: Grid<K, M>, s: SummarySettings, cell: Params<K, M> -> int)
    requires g.showPageSummary && s.pageSummary.On? && s.func.Count?
    requires |g.page| > 0
    ensures SummaryContent(s, SummaryRows(g, s.pageSummary, cell)) == Int(|g.page|)
  {
  }

  /** Collection follows page order: collecting a prefix of the page gives
      the same prefix of the collected rows. */
  lemma CollectRowsPrefix<K, M>(page: seq<Row<K, M>>, cell: Params<K, M> -> int, k: nat)
    requires k <= |page|
    ensures CollectRows(page[..k], cell) == CollectRows(page, cell)[..k]
  {
  }

  /** With the summary switched on, an empty page yields the empty string
      under every aggregation function, whether or not the grid shows page
      summaries. */
  lemma EmptyPageSummary<K, M>(g: Grid<K, M>, s: SummarySettings, cell: Params<K, M> -> int)
    requires |g.page| == 0 && s.pageSummary.On?
    ensures SummaryContent(s, SummaryRows(g, s.pageSummary, cell)) == Str("")
  {
  }
}
