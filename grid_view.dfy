/**
 The view-state coordinator of the grid view: it combines the state of the
 configuration source and of the row source into one render directive.
 */
module GridView {
  import opened Wrappers
  import opened GridColumns

  /** What the configuration hook reports: the configuration once it has arrived,
      and its pending and failed flags. */
  datatype ConfigSource = ConfigSource(config: Option<GridConfig>, isLoading: bool, isError: bool)

  /** What the row fetch reports: the rows once they have arrived, and its failed
      and pending flags. Rows are opaque records of type `R`. */
  datatype RowSource<R> = RowSource(data: Option<seq<R>>, error: bool, isLoading: bool)

  /** What the component renders: a spinner, a generic failure message, or the grid
      with its rows and columns. */
  datatype Directive<R> = Loading | Error | Ready(rows: seq<R>, columns: seq<Column>)

  /** The render directive: pending before failed before ready, each test taken
      over both sources at once. */
  function View<R>(cfg: ConfigSource, src: RowSource<R>): (d: Directive<R>)
    ensures d.Loading? <==> cfg.isLoading || src.isLoading
    ensures d.Error? <==> !cfg.isLoading && !src.isLoading && (cfg.isError || src.error)
    ensures d.Ready? <==> !cfg.isLoading && !src.isLoading && !cfg.isError && !src.error
    ensures d.Ready? ==> (src.data.None? ==> d.rows == []) && (src.data.Some? ==> d.rows == src.data.value)
    ensures d.Ready? ==> Fields(d.columns) == Fields(DefaultColumns())
    ensures d.Ready? ==> d.columns == GridColumnsFor(cfg.config)
  {
    var loading := cfg.isLoading || src.isLoading;
    var error := cfg.isError || src.error;
    if loading then Loading
    else if error then Error
    else Ready(src.data.GetOr([]), GridColumnsFor(cfg.config))
  }

  // ---------------------------------------------------------------------------
  // A reference definition: each source on its own, then a join of the two

  /** The state of one source, judged on its own: pending, failed, or resolved
      with its payload. */
  datatype LoadState<P> = Pending | Failed | Resolved(payload: P)

  /** A source that is still pending is pending, whatever its error flag says. */
  function ConfigState(cfg: ConfigSource): (s: LoadState<Option<GridConfig>>)
    ensures s.Resolved? ==> s.payload == cfg.config
  {
    if cfg.isLoading then Pending else if cfg.isError then Failed else Resolved(cfg.config)
  }

  function RowState<R>(src: RowSource<R>): (s: LoadState<Option<seq<R>>>)
    ensures s.Resolved? ==> s.payload == src.data
  {
    if src.isLoading then Pending else if src.error then Failed else Resolved(src.data)
  }

  /** The join of two independently completing sources: pending if either is, else
      failed if either is, else both payloads. */
  function Join<A, B>(a: LoadState<A>, b: LoadState<B>): (s: LoadState<(A, B)>)
    ensures s.Pending? <==> a.Pending? || b.Pending?
    ensures s.Resolved? <==> a.Resolved? && b.Resolved?
    ensures s.Resolved? ==> s.payload == (a.payload, b.payload)
  {
    if a.Pending? || b.Pending? then Pending
    else if a.Failed? || b.Failed? then Failed
    else Resolved((a.payload, b.payload))
  }

  /** Turns the joined state into what the component renders. */
  function Present<R>(s: LoadState<(Option<GridConfig>, Option<seq<R>>)>): Directive<R> {
    match s
    case Pending => Loading
    case Failed => Error
    case Resolved((config, rows)) => Ready(rows.GetOr([]), GridColumnsFor(config))
  }

  /** Testing both sources' flags together agrees with judging each source on its
      own and joining: in particular, one source's error is masked while the other
      is pending, and a source's own pending flag masks its own error. */
  lemma ViewIsJoin<R>(cfg: ConfigSource, src: RowSource<R>)
    ensures View(cfg, src) == Present(Join(ConfigState(cfg), RowState(src)))
  {
  }

  /** The grid is shown exactly when both sources have resolved on their own. */
  lemma ReadyIffBothResolved<R>(cfg: ConfigSource, src: RowSource<R>)
    ensures View(cfg, src).Ready? <==> ConfigState(cfg).Resolved? && RowState(src).Resolved?
  {
  }

  /** A pending source keeps the spinner up whatever the other source reports. */
  lemma PendingMasksError<R>(cfg: ConfigSource, src: RowSource<R>)
    requires ConfigState(cfg).Pending? || RowState(src).Pending?
    ensures View(cfg, src) == Loading
  {
  }

  /** The failure directive carries no detail: a failed configuration and failed
      rows render the same. */
  lemma ErrorCarriesNoSource<R>(cfg: ConfigSource, src: RowSource<R>, cfg': ConfigSource, src': RowSource<R>)
    requires ConfigState(cfg).Failed? && RowState(src).Resolved?
    requires ConfigState(cfg').Resolved? && RowState(src').Failed?
    ensures View(cfg, src) == View(cfg', src') == Error
  {
  }

  /** Rows resolved, configuration still pending: the spinner. */
  lemma RowsFirstConfigPending<R>(rows: seq<R>)
    ensures View(ConfigSource(None, true, false), RowSource(Some(rows), false, false)) == Loading
  {
  }

  /** Rows failed, configuration resolved: the failure message. */
  lemma RowsFailedConfigResolved<R>(config: GridConfig)
    ensures View<R>(ConfigSource(Some(config), false, false), RowSource(None, true, false)) == Error
  {
  }

  /** Both resolved with an empty configuration: the rows with the defaults unchanged. */
  lemma BothResolvedEmptyConfig<R>(rows: seq<R>)
    ensures View(ConfigSource(Some(GridConfig([])), false, false), RowSource(Some(rows), false, false))
         == Ready(rows, DefaultColumns())
  {
  }
}
