/** FormulaColumn: a DataColumn whose value is computed by a user closure
    that may ask sibling columns, by position, for their per-row, summary or
    footer content through `col`. */
module FormulaColumns {
  import opened Values
  import opened GridContext
  import opened Aggregation
  import opened PageSummaries
  import DataColumns
  import SerialColumns

  /** The sentinel row index asking for summary content. */
  const SUMMARY: int := -10000
  /** The sentinel row index asking for footer content. */
  const FOOTER: int := -20000

  /** The context a `col` call is made in, decided from its `index`
      parameter by loose comparison with the sentinels (`null` equals
      neither). */
  datatype Ctx = RowCtx(index: Option<int>) | SummaryCtx | FooterCtx

  function ContextOf(index: Option<int>): (ctx: Ctx)
    ensures ctx.SummaryCtx? <==> index == Some(SUMMARY)
    ensures ctx.FooterCtx? <==> index == Some(FOOTER)
    ensures ctx.RowCtx? ==> ctx.index == index
    ensures index.Some? && index.value >= 0 ==> ctx.RowCtx?
  {
    if index == Some(SUMMARY) then SummaryCtx
    else if index == Some(FOOTER) then FooterCtx
    else RowCtx(index)
  }

  /** The `value` setting: unset, or a callable `(model, index) -> value`
      that may or may not be a `Closure`. */
  datatype ValueSpec<!M> = NoValue | Callable(f: (Option<M>, int) -> Val, isClosure: bool)

  /** `call_user_func($this->value, $model, $index, $this)`; calling an
      unset value yields `null`. */
  function Invoke<M>(v: ValueSpec<M>, model: Option<M>, index: int): (r: Val)
    ensures v.NoValue? ==> r == Null
    ensures v.Callable? ==> r == v.f(model, index)
  {
    match v
    case NoValue => Null
    case Callable(f, _) => f(model, index)
  }

  datatype FormulaColumn<!K, !M> = FormulaColumn(
    base: DataColumns.DataColumn<K, M>,
    value: ValueSpec<M>,
    autoFooter: bool)

  /** A formula column as configured before `init`, with the PHP class's
      defaults: `value` unset and `autoFooter` on. */
  function Default<K, M>(base: DataColumns.DataColumn<K, M>): (c: FormulaColumn<K, M>)
    ensures c.autoFooter && c.value.NoValue?
    ensures c.base == base
  {
    FormulaColumn(base, NoValue, true)
  }

  /** A column of the grid's registry. */
  datatype Column<!K, !M> =
    | DataCol(data: DataColumns.DataColumn<K, M>)
    | SerialCol(serial: SerialColumns.SerialColumn<K, M>)
    | FormulaCol(formula: FormulaColumn<K, M>)

  /** The errors a `col` call stops with. The first three are the
      `InvalidConfigException`s `col` raises itself. `ProtectedAccess` is
      PHP's refusal to call a SerialColumn's protected summary or footer
      method from a FormulaColumn, a class outside its hierarchy. */
  datatype ColError =
    | InvalidColumn(index: int)
    | ValueNotClosure
    | SelfReference(index: int)
    | ProtectedAccess(index: int)

  datatype Result<+T> = Ok(value: T) | Err(error: ColError)

  /** What a successful `col` call asks the sibling at `column` for. */
  datatype Ref<K, M> =
    | SummaryOf(column: int)
    | FooterOf(column: int)
    | CellOf(column: int, params: Params<K, M>)

  /** `col(i, params)` of the formula column stored at key `at` of the
      registry `reg`: the column must exist, `value` must be a closure and
      the column must not be this one, checked in that order; then the
      `index` parameter selects the sibling's summary, footer or cell. */
  function Col<K, M>(fc: FormulaColumn<K, M>, at: int, reg: map<int, Column<K, M>>, i: int, p: Params<K, M>)
    : (r: Result<Ref<K, M>>)
    ensures i !in reg ==> r == Err(InvalidColumn(i))
    ensures i in reg && !(fc.value.Callable? && fc.value.isClosure) ==> r == Err(ValueNotClosure)
    ensures i in reg && fc.value.Callable? && fc.value.isClosure && i == at ==> r == Err(SelfReference(i))
    ensures r.Ok? <==> i in reg && fc.value.Callable? && fc.value.isClosure && i != at
    ensures r.Ok? ==> r.value.column == i && r.value.column in reg
    ensures r.Ok? && p.index == Some(SUMMARY) ==> r.value == SummaryOf(i)
    ensures r.Ok? && p.index == Some(FOOTER) ==> r.value == FooterOf(i)
    ensures r.Ok? && p.index != Some(SUMMARY) && p.index != Some(FOOTER) ==> r.value == CellOf(i, p)
  {
    if i !in reg then Err(InvalidColumn(i))
    else if !(fc.value.Callable? && fc.value.isClosure) then Err(ValueNotClosure)
    else if i == at then Err(SelfReference(i))
    else
      match ContextOf(p.index)
      case SummaryCtx => Ok(SummaryOf(i))
      case FooterCtx => Ok(FooterOf(i))
      case RowCtx(_) => Ok(CellOf(i, p))
  }

  /** `getPageSummaryCellContent`: a computed or closure summary calls the
      formula with the summary sentinel; a closure receives that result and
      an empty row list. Any other setting behaves as in DataColumn. */
  function PageSummaryCellContent<K, M>(fc: FormulaColumn<K, M>): (r: Val)
    ensures fc.base.summary.pageSummary.On? ==> r == Invoke(fc.value, None, SUMMARY)
    ensures fc.base.summary.pageSummary.Fn? ==>
      r == fc.base.summary.pageSummary.f(Invoke(fc.value, None, SUMMARY), [])
    ensures !fc.base.summary.pageSummary.On? && !fc.base.summary.pageSummary.Fn? ==>
      r == DataColumns.PageSummaryCellContent(fc.base)
  {
    match fc.base.summary.pageSummary
    case On => Invoke(fc.value, None, SUMMARY)
    case Fn(f) => f(Invoke(fc.value, None, SUMMARY), [])
    case _ => DataColumns.PageSummaryCellContent(fc.base)
  }

  /** `renderPageSummaryCellContent`: as in DataColumn, but over the
      formula's own summary content. */
  function RenderPageSummaryCellContent<K, M>(fc: FormulaColumn<K, M>, g: Grid<K, M>): (r: Val)
    ensures r != Null
    ensures fc.base.summary.hide ==> r == Str(g.emptyCell)
    ensures !fc.base.summary.hide && fc.base.summary.pageSummary.On? ==>
      r == Str(g.formatter(Invoke(fc.value, None, SUMMARY), fc.base.format))
    ensures !fc.base.summary.hide && !fc.base.summary.pageSummary.On? && PageSummaryCellContent(fc) != Null ==>
      r == PageSummaryCellContent(fc)
    ensures !fc.base.summary.hide && !fc.base.summary.pageSummary.On? && PageSummaryCellContent(fc) == Null ==>
      r == Str(g.emptyCell)
  {
    if fc.base.summary.hide then Str(g.emptyCell)
    else
      var content := PageSummaryCellContent(fc);
      if fc.base.summary.pageSummary.On? then Str(g.formatter(content, fc.base.format))
      else OrEmptyCell(content, g.emptyCell)
  }

  /** `getFooterCellContent`: with `autoFooter` the formula is called with
      the footer sentinel; otherwise the static footer is used. */
  function FooterCellContent<K, M>(fc: FormulaColumn<K, M>): (r: Val)
    ensures fc.autoFooter ==> r == Invoke(fc.value, None, FOOTER)
    ensures !fc.autoFooter ==> r == DataColumns.FooterCellContent(fc.base)
  {
    if fc.autoFooter then Invoke(fc.value, None, FOOTER) else DataColumns.FooterCellContent(fc.base)
  }

  /** The rendered footer: formatted footer content, or the base column's
      own footer rendering. */
  datatype FooterCell = Formatted(text: string) | BaseFooter

  /** `renderFooterCellContent`. */
  function RenderFooterCellContent<K, M>(fc: FormulaColumn<K, M>, g: Grid<K, M>): (r: FooterCell)
    ensures r.Formatted? <==> fc.autoFooter
    ensures fc.autoFooter ==> r.text == g.formatter(Invoke(fc.value, None, FOOTER), fc.base.format)
  {
    if fc.autoFooter then Formatted(g.formatter(FooterCellContent(fc), fc.base.format)) else BaseFooter
  }

  /** The per-row content function of a sibling (`getDataCellContent`). */
  function CellFunction<K, M>(c: Column<K, M>): Params<K, M> -> int
  {
    match c
    case DataCol(d) => d.cell
    case SerialCol(s) => s.cell
    case FormulaCol(f) => f.base.cell
  }

  /** The per-row content a sibling computes for the given parameters. */
  function CellContent<K, M>(c: Column<K, M>, p: Params<K, M>): (r: Val)
    ensures r.Int? && r.n == CellFunction(c)(p)
  {
    Int(CellFunction(c)(p))
  }

  /** The raw (unrendered) summary content of a sibling, when a
      FormulaColumn may ask for it: a SerialColumn's method is protected
      and declared outside FormulaColumn's hierarchy. */
  function SummaryContentOf<K, M>(c: Column<K, M>): (r: Option<Val>)
    ensures r.None? <==> c.SerialCol?
    ensures c.DataCol? ==> r == Some(DataColumns.PageSummaryCellContent(c.data))
    ensures c.FormulaCol? ==> r == Some(PageSummaryCellContent(c.formula))
  {
    match c
    case DataCol(d) => Some(DataColumns.PageSummaryCellContent(d))
    case SerialCol(_) => None
    case FormulaCol(f) => Some(PageSummaryCellContent(f))
  }

  /** The footer content of a sibling, when a FormulaColumn may ask for it:
      as for the summary, a SerialColumn's method is out of reach. */
  function FooterContentOf<K, M>(c: Column<K, M>): (r: Option<Val>)
    ensures r.None? <==> c.SerialCol?
    ensures c.DataCol? ==> r == Some(c.data.footer)
    ensures c.FormulaCol? ==> r == Some(FooterCellContent(c.formula))
  {
    match c
    case DataCol(d) => Some(DataColumns.FooterCellContent(d))
    case SerialCol(_) => None
    case FormulaCol(f) => Some(FooterCellContent(f))
  }

  /** The value a `col` call returns: the validated reference, asked of
      the sibling it names. */
  function ColValue<K, M>(fc: FormulaColumn<K, M>, at: int, reg: map<int, Column<K, M>>, i: int, p: Params<K, M>)
    : (r: Result<Val>)
    ensures Col(fc, at, reg, i, p).Err? ==> r == Err(Col(fc, at, reg, i, p).error)
    ensures r == Err(ProtectedAccess(i)) <==>
      Col(fc, at, reg, i, p).Ok? && reg[i].SerialCol? && (p.index == Some(SUMMARY) || p.index == Some(FOOTER))
    ensures r.Ok? && p.index == Some(SUMMARY) ==> Some(r.value) == SummaryContentOf(reg[i])
    ensures r.Ok? && p.index == Some(FOOTER) ==> Some(r.value) == FooterContentOf(reg[i])
    ensures r.Ok? && p.index != Some(SUMMARY) && p.index != Some(FOOTER) ==> r.value == CellContent(reg[i], p)
    ensures r.Ok? <==>
      (Col(fc, at, reg, i, p).Ok? && !(reg[i].SerialCol? && (p.index == Some(SUMMARY) || p.index == Some(FOOTER))))
  {
    match Col(fc, at, reg, i, p)
    case Err(e) => Err(e)
    case Ok(SummaryOf(j)) =>
      (match SummaryContentOf(reg[j]) case Some(v) => Ok(v) case None => Err(ProtectedAccess(j)))
    case Ok(FooterOf(j)) =>
      (match FooterContentOf(reg[j]) case Some(v) => Ok(v) case None => Err(ProtectedAccess(j)))
    case Ok(CellOf(j, q)) => Ok(CellContent(reg[j], q))
  }

  /** The sentinels are distinct and negative, so no zero-based row index is
      ever taken for a summary or footer request. */
  lemma SentinelsNeverRowIndices(index: nat)
    ensures SUMMARY != FOOTER
    ensures ContextOf(Some(index)) == RowCtx(Some(index))
  {
  }

  /** A formula column referring to its own position fails with a
      self-reference error; one referring to a missing position fails with
      an invalid-column error, before anything else is checked. */
  lemma ColErrors<K, M>(fc: FormulaColumn<K, M>, at: int, reg: map<int, Column<K, M>>, p: Params<K, M>, missing: int)
    requires at in reg && fc.value.Callable? && fc.value.isClosure
    requires missing !in reg
    ensures Col(fc, at, reg, at, p) == Err(SelfReference(at))
    ensures Col(fc, at, reg, missing, p) == Err(InvalidColumn(missing))
    ensures Col(fc.(value := NoValue), at, reg, missing, p) == Err(InvalidColumn(missing))
  {
  }

  /** Asking a data-column sibling for its summary gives its raw aggregate,
      even when that sibling hides its summary cell. */
  lemma SiblingSummaryIgnoresHiding<K, M>(fc: FormulaColumn<K, M>, at: int, reg: map<int, Column<K, M>>, i: int)
    requires i in reg && i != at && reg[i].DataCol? && reg[i].data.summary.pageSummary.On?
    requires fc.value.Callable? && fc.value.isClosure
    ensures ColValue(fc, at, reg, i, Params(None, None, Some(SUMMARY))) ==
            Ok(CalculateSummary(reg[i].data.rows, reg[i].data.summary.func))
  {
  }

  /** With `autoFooter`, the footer is the formula at the footer sentinel,
      whatever the static footer and the sibling columns hold. */
  lemma AutoFooterIgnoresStaticFooter<K, M>(fc: FormulaColumn<K, M>, footer: Val)
    requires fc.autoFooter
    ensures FooterCellContent(fc.(base := fc.base.(footer := footer))) == FooterCellContent(fc)
  {
  }

  /** A closure summary of a formula column never sees the collected rows. */
  lemma ClosureSummaryIgnoresRows<K, M>(fc: FormulaColumn<K, M>, rows: seq<int>)
    requires fc.base.summary.pageSummary.Fn?
    ensures PageSummaryCellContent(fc.(base := fc.base.(rows := rows))) == PageSummaryCellContent(fc)
  {
  }

  /** For every setting other than `true` or a closure, a formula column
      shows exactly what its underlying data column would show. */
  lemma RenderFallsBackToDataColumn<K, M>(fc: FormulaColumn<K, M>, g: Grid<K, M>)
    requires fc.base.summary.pageSummary.Off? || fc.base.summary.pageSummary.Verbatim?
    ensures RenderPageSummaryCellContent(fc, g) == DataColumns.RenderPageSummaryCellContent(fc.base, g)
  {
  }

  /** A SerialColumn sibling serves its per-row content to a formula, but
      never its summary or footer. */
  lemma SerialSiblingOnlyServesCells<K, M>(fc: FormulaColumn<K, M>, at: int, reg: map<int, Column<K, M>>, i: int, row: nat)
    requires i in reg && i != at && reg[i].SerialCol?
    requires fc.value.Callable? && fc.value.isClosure
    ensures ColValue(fc, at, reg, i, Params(None, None, Some(SUMMARY))) == Err(ProtectedAccess(i))
    ensures ColValue(fc, at, reg, i, Params(None, None, Some(FOOTER))) == Err(ProtectedAccess(i))
    ensures ColValue(fc, at, reg, i, Params(None, None, Some(row))) ==
            Ok(Int(reg[i].serial.cell(Params(None, None, Some(row)))))
  {
  }
}
