/** What a column sees of the grid that owns it: the current page of the
    data provider, the global page-summary switch, the filter row settings,
    the empty-cell placeholder and the formatter. */
module GridContext {
  import opened Values

  /** One entry of the current page, as the data provider yields it. */
  datatype Row<K, M> = Row(key: K, model: M)

  /** The parameters a data cell is computed from: `(model, key, index)`.
      Each may be `null` when the caller leaves it out. */
  datatype Params<K, M> = Params(model: Option<M>, key: Option<K>, index: Option<int>)

  /** The parameters used for the `i`-th row of the page. */
  function RowParams<K, M>(page: seq<Row<K, M>>, i: nat): Params<K, M>
    requires i < |page|
  {
    Params(Some(page[i].model), Some(page[i].key), Some(i))
  }

  /** Where the grid places the filter row. */
  datatype FilterPosition = FilterPosHeader | FilterPosBody | FilterPosFooter

  datatype Grid<K, M> = Grid(
    showPageSummary: bool,
    page: seq<Row<K, M>>,
    emptyCell: string,
    hasFilterModel: bool,
    filterPosition: FilterPosition,
    /** The grid's formatter: a value and a column format to display text. */
    formatter: (Val, string) -> string)

  /** The filter row is rendered directly under the header row. */
  predicate FilterRowBesideHeader<K, M>(g: Grid<K, M>)
  {
    g.hasFilterModel && g.filterPosition != FilterPosFooter
  }
}
