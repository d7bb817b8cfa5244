/** SerialColumn: the row-number column. Its summary machinery is the one
    DataColumn uses, with `F_COUNT` as the default function and no
    formatting of the rendered summary; it never has a filter cell and
    merges its header automatically. */
module SerialColumns {
  import opened Values
  import opened GridContext
  import opened Aggregation
  import opened PageSummaries
  import DataColumns

  datatype SerialColumn<!K, !M> = SerialColumn(
    summary: SummarySettings,
    footer: Val,
    /** The base column's per-row content (the serial number). */
    cell: Params<K, M> -> int,
    /** The rows collected by `init`. */
    rows: seq<int>)

  /** A serial column as configured before `init`, with the PHP class's
      defaults: no page summary, `F_COUNT`, not hidden. */
  function Default<K, M>(cell: Params<K, M> -> int): (c: SerialColumn<K, M>)
    ensures c.summary.func == Count
    ensures c.summary.pageSummary.Off? && !c.summary.hide && c.rows == []
  {
    SerialColumn(SummarySettings(Off, Count, false), Null, cell, [])
  }

  /** `init`: collect the summary rows from the current page. */
  function Init<K, M>(c: SerialColumn<K, M>, g: Grid<K, M>): (c': SerialColumn<K, M>)
    ensures c' == c.(rows := c'.rows)
    ensures CollectsRows(g.showPageSummary, c.summary.pageSummary) ==> |c'.rows| == |g.page|
    ensures CollectsRows(g.showPageSummary, c.summary.pageSummary) ==>
      forall i :: 0 <= i < |g.page| ==> c'.rows[i] == c.cell(RowParams(g.page, i))
    ensures !CollectsRows(g.showPageSummary, c.summary.pageSummary) ==> c'.rows == []
  {
    c.(rows := SummaryRows(g, c.summary.pageSummary, c.cell))
  }

  /** `getPageSummaryCellContent`. */
  function PageSummaryCellContent<K, M>(c: SerialColumn<K, M>): (r: Val)
    ensures c.summary.pageSummary.On? ==> r == CalculateSummary(c.rows, c.summary.func)
    ensures c.summary.pageSummary.Fn? ==>
      r == c.summary.pageSummary.f(CalculateSummary(c.rows, c.summary.func), c.rows)
    ensures c.summary.pageSummary.Verbatim? ==> r == c.summary.pageSummary.v
    ensures c.summary.pageSummary.Off? ==> r == Null
  {
    SummaryContent(c.summary, c.rows)
  }

  /** `renderPageSummaryCellContent`: never formatted; a hidden summary and
      a `null` content both show the placeholder. */
  function RenderPageSummaryCellContent<K, M>(c: SerialColumn<K, M>, g: Grid<K, M>): (r: Val)
    ensures r != Null
    ensures c.summary.hide ==> r == Str(g.emptyCell)
    ensures !c.summary.hide && c.summary.pageSummary.On? ==> r == CalculateSummary(c.rows, c.summary.func)
    ensures !c.summary.hide && PageSummaryCellContent(c) != Null ==> r == PageSummaryCellContent(c)
    ensures !c.summary.hide && PageSummaryCellContent(c) == Null ==> r == Str(g.emptyCell)
  {
    if c.summary.hide then Str(g.emptyCell)
    else OrEmptyCell(PageSummaryCellContent(c), g.emptyCell)
  }

  /** `getFooterCellContent`: the static footer. */
  function FooterCellContent<K, M>(c: SerialColumn<K, M>): Val
  {
    c.footer
  }

  /** The header's row span (`renderHeaderCell`): two rows exactly when a
      filter model is attached and the filter row is not moved to the
      footer; there is no `mergeHeader` switch. */
  function HeaderRowSpan<K, M>(c: SerialColumn<K, M>, g: Grid<K, M>): (span: nat)
    ensures span == 1 || span == 2
    ensures span == 2 <==> FilterRowBesideHeader(g)
  {
    if g.hasFilterModel && g.filterPosition != FilterPosFooter then 2 else 1
  }

  /** `renderFilterCell`: always `null`, whatever the configuration. */
  function RenderFilterCell<K, M>(c: SerialColumn<K, M>, g: Grid<K, M>): (cell: DataColumns.FilterCell)
    ensures cell == DataColumns.Suppressed
  {
    DataColumns.Suppressed
  }

  /** When the filter row sits under the header, the header cell alone
      covers both slots of this column. */
  lemma HeaderBandCovered<K, M>(c: SerialColumn<K, M>, g: Grid<K, M>)
    requires FilterRowBesideHeader(g)
    ensures HeaderRowSpan(c, g) + DataColumns.CellCount(RenderFilterCell(c, g)) == 2
  {
  }

  /** With the default `F_COUNT` and the summary switched on, the shown
      summary of a non-empty page is the number of rows on it, unformatted. */
  lemma DefaultSummaryIsRowCount<K, M>(cell: Params<K, M> -> int, g: Grid<K, M>)
    requires g.showPageSummary && |g.page| > 0
    ensures RenderPageSummaryCellContent(Init(Default(cell).(summary := Default(cell).summary.(pageSummary := On)), g), g)
            == Int(|g.page|)
  {
  }

  /** A serial column shows the same summary as a data column with the same
      settings and rows, except that a computed summary is not formatted. */
  lemma SummaryIsUnformattedDataSummary<K, M>(s: SerialColumn<K, M>, d: DataColumns.DataColumn<K, M>, g: Grid<K, M>)
    requires s.summary == d.summary && s.rows == d.rows
    ensures !s.summary.pageSummary.On? ==>
      RenderPageSummaryCellContent(s, g) == DataColumns.RenderPageSummaryCellContent(d, g)
    ensures s.summary.pageSummary.On? && !s.summary.hide ==>
      DataColumns.RenderPageSummaryCellContent(d, g) == Str(g.formatter(RenderPageSummaryCellContent(s, g), d.format))
  {
  }
}
