/** DataColumn: the default grid column, with filter-control selection,
    header/filter merging and a page summary rendered through the grid's
    formatter. */
module DataColumns {
  import opened Values
  import opened GridContext
  import opened Aggregation
  import opened PageSummaries

  /** The `filterType` setting. `NoFilterType` is an empty setting; the two
      named kinds are the grid's radio and checkbox constants; any other
      value names a widget class. */
  datatype FilterType = NoFilterType | RadioFilter | CheckboxFilter | WidgetFilter(widgetClass: string)

  /** The `filter` setting: a list of options (a PHP array) or anything else. */
  datatype Filter = OptionList(options: seq<(string, string)>) | ScalarFilter

  /** What the filter cell holds: the base column's own content, or the
      control this column emits in its place. */
  datatype FilterContent =
    | BaseContent(html: string)
    | RadioList(options: seq<(string, string)>)
    | CheckboxInput
    | FilterWidget(widget: FilterType, data: Option<seq<(string, string)>>)

  /** The filter cell: suppressed (`null`) or rendered around its content. */
  datatype FilterCell = Suppressed | Rendered(content: FilterContent)

  datatype DataColumn<!K, !M> = DataColumn(
    summary: SummarySettings,
    mergeHeader: bool,
    filterType: FilterType,
    filter: Filter,
    format: string,
    footer: Val,
    /** The base column's per-row content, `getDataCellContent`. */
    cell: Params<K, M> -> int,
    /** The rows collected by `init`. */
    rows: seq<int>)

  /** A column as configured before `init`, with the PHP class's defaults:
      no page summary, `F_SUM`, not hidden, not merged. */
  function Default<K, M>(cell: Params<K, M> -> int, format: string): (c: DataColumn<K, M>)
    ensures c.summary.pageSummary.Off? && c.summary.func == Sum && !c.summary.hide
    ensures !c.mergeHeader && c.rows == []
  {
    DataColumn(SummarySettings(Off, Sum, false), false, NoFilterType, ScalarFilter, format, Null, cell, [])
  }

  /** `init`: collect the summary rows from the current page. Nothing else
      about the column changes. */
  function Init<K, M>(c: DataColumn<K, M>, g: Grid<K, M>): (c': DataColumn<K, M>)
    ensures c' == c.(rows := c'.rows)
    ensures CollectsRows(g.showPageSummary, c.summary.pageSummary) ==> |c'.rows| == |g.page|
    ensures CollectsRows(g.showPageSummary, c.summary.pageSummary) ==>
      forall i :: 0 <= i < |g.page| ==> c'.rows[i] == c.cell(RowParams(g.page, i))
    ensures !CollectsRows(g.showPageSummary, c.summary.pageSummary) ==> c'.rows == []
  {
    c.(rows := SummaryRows(g, c.summary.pageSummary, c.cell))
  }

  /** `getPageSummaryCellContent`. */
  function PageSummaryCellContent<K, M>(c: DataColumn<K, M>): (r: Val)
    ensures c.summary.pageSummary.On? ==> r == CalculateSummary(c.rows, c.summary.func)
    ensures c.summary.pageSummary.Fn? ==>
      r == c.summary.pageSummary.f(CalculateSummary(c.rows, c.summary.func), c.rows)
    ensures c.summary.pageSummary.Verbatim? ==> r == c.summary.pageSummary.v
    ensures c.summary.pageSummary.Off? ==> r == Null
  {
    SummaryContent(c.summary, c.rows)
  }

  /** `renderPageSummaryCellContent`: a hidden summary shows the placeholder;
      a computed (`true`) summary goes through the formatter; any other
      content is shown unformatted, with `null` as the placeholder. */
  function RenderPageSummaryCellContent<K, M>(c: DataColumn<K, M>, g: Grid<K, M>): (r: Val)
    ensures r != Null
    ensures c.summary.hide ==> r == Str(g.emptyCell)
    ensures !c.summary.hide && c.summary.pageSummary.On? ==>
      r == Str(g.formatter(CalculateSummary(c.rows, c.summary.func), c.format))
    ensures !c.summary.hide && c.summary.pageSummary.Verbatim? && c.summary.pageSummary.v != Null ==>
      r == c.summary.pageSummary.v
    ensures !c.summary.hide && (c.summary.pageSummary.Off? || c.summary.pageSummary == Verbatim(Null)) ==>
      r == Str(g.emptyCell)
    ensures !c.summary.hide && !c.summary.pageSummary.On? ==>
      r == OrEmptyCell(PageSummaryCellContent(c), g.emptyCell)
  {
    if c.summary.hide then Str(g.emptyCell)
    else
      var content := PageSummaryCellContent(c);
      if c.summary.pageSummary.On? then Str(g.formatter(content, c.format))
      else OrEmptyCell(content, g.emptyCell)
  }

  /** `getFooterCellContent`: the static footer. */
  function FooterCellContent<K, M>(c: DataColumn<K, M>): Val
  {
    c.footer
  }

  /** The header's row span (`renderHeaderCell`): two rows exactly when a
      filter model is attached, `mergeHeader` is set and the filter row is
      not moved to the footer. */
  function HeaderRowSpan<K, M>(c: DataColumn<K, M>, g: Grid<K, M>): (span: nat)
    ensures span == 1 || span == 2
    ensures span == 2 <==> FilterRowBesideHeader(g) && c.mergeHeader
  {
    if g.hasFilterModel && c.mergeHeader && g.filterPosition != FilterPosFooter then 2 else 1
  }

  /** `renderFilterCellContent`: which filter control the cell holds, given
      the base column's own content `base`. */
  function RenderFilterCellContent<K, M>(c: DataColumn<K, M>, g: Grid<K, M>, base: string): (r: FilterContent)
    ensures r == BaseContent(base) <==> c.filterType.NoFilterType? || base == g.emptyCell
    ensures r.BaseContent? ==> r.html == base
    ensures r.RadioList? <==>
      !c.filterType.NoFilterType? && base != g.emptyCell && c.filter.OptionList? && c.filterType.RadioFilter?
    ensures r.RadioList? ==> r.options == c.filter.options
    ensures r.CheckboxInput? <==>
      !c.filterType.NoFilterType? && base != g.emptyCell && c.filter.ScalarFilter? && c.filterType.CheckboxFilter?
    ensures r.FilterWidget? ==> r.widget == c.filterType
    ensures r.FilterWidget? ==> (r.data.Some? <==> c.filter.OptionList?)
    ensures r.FilterWidget? && r.data.Some? ==> r.data.value == c.filter.options
  {
    if c.filterType.NoFilterType? || base == g.emptyCell then BaseContent(base)
    else
      match c.filter
      case OptionList(options) =>
        if c.filterType.RadioFilter? then RadioList(options)
        else FilterWidget(c.filterType, Some(options))
      case ScalarFilter =>
        if c.filterType.CheckboxFilter? then CheckboxInput
        else FilterWidget(c.filterType, None)
  }

  /** `renderFilterCell`: suppressed whenever a filter model is attached and
      `mergeHeader` is set; unlike the header, the filter position is not
      consulted. */
  function RenderFilterCell<K, M>(c: DataColumn<K, M>, g: Grid<K, M>, base: string): (cell: FilterCell)
    ensures cell.Suppressed? <==> g.hasFilterModel && c.mergeHeader
    ensures cell.Rendered? ==> cell.content == RenderFilterCellContent(c, g, base)
  {
    if g.hasFilterModel && c.mergeHeader then Suppressed
    else Rendered(RenderFilterCellContent(c, g, base))
  }

  /** The number of cells a filter cell contributes to the filter row. */
  function CellCount(cell: FilterCell): nat
  {
    if cell.Suppressed? then 0 else 1
  }

  /** When the filter row sits under the header, the header cell and the
      filter cell together cover exactly the two slots of this column: either
      a two-row header and no filter cell, or one of each. */
  lemma HeaderBandCovered<K, M>(c: DataColumn<K, M>, g: Grid<K, M>, base: string)
    requires FilterRowBesideHeader(g)
    ensures HeaderRowSpan(c, g) + CellCount(RenderFilterCell(c, g, base)) == 2
  {
  }

  /** With the filter row moved to the footer, `mergeHeader` still removes
      the filter cell although the header keeps a single row. */
  lemma FooterFilterStillSuppressed<K, M>(c: DataColumn<K, M>, g: Grid<K, M>, base: string)
    requires g.hasFilterModel && c.mergeHeader && g.filterPosition == FilterPosFooter
    ensures HeaderRowSpan(c, g) == 1
    ensures RenderFilterCell(c, g, base) == Suppressed
  {
  }

  /** Hiding the summary changes only what is shown: the collected rows and
      the raw content are those of the visible column, while the cell shows
      the placeholder without consulting the content. */
  lemma HidingKeepsRowsAndContent<K, M>(c: DataColumn<K, M>, g: Grid<K, M>)
    requires c.summary.hide
    ensures Init(c, g).rows == Init(c.(summary := c.summary.(hide := false)), g).rows
    ensures PageSummaryCellContent(Init(c, g)) ==
            PageSummaryCellContent(Init(c.(summary := c.summary.(hide := false)), g))
    ensures RenderPageSummaryCellContent(Init(c, g), g) == Str(g.emptyCell)
  {
  }

  /** A column summing its cells with the default function shows the
      formatted sum of the page's cells. */
  lemma DefaultSumOfPage<K, M>(c: DataColumn<K, M>, g: Grid<K, M>)
    requires g.showPageSummary && |g.page| > 0
    requires c.summary == SummarySettings(On, Sum, false)
    ensures RenderPageSummaryCellContent(Init(c, g), g) ==
            Str(g.formatter(Int(Total(CollectRows(g.page, c.cell))), c.format))
  {
  }

  /** Once the base content is real and a filter type is set, the filter
      control depends only on the filter type and the `filter` setting:
      neither the base content nor the grid matters. */
  lemma FilterControlDependsOnlyOnSettings<K, M>(c1: DataColumn<K, M>, c2: DataColumn<K, M>,
                                            g1: Grid<K, M>, g2: Grid<K, M>, b1: string, b2: string)
    requires c1.filterType == c2.filterType && !c1.filterType.NoFilterType?
    requires c1.filter == c2.filter
    requires b1 != g1.emptyCell && b2 != g2.emptyCell
    ensures RenderFilterCellContent(c1, g1, b1) == RenderFilterCellContent(c2, g2, b2)
    ensures !RenderFilterCellContent(c1, g1, b1).BaseContent?
  {
  }
}
