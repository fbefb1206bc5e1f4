# Grid view: column reconciliation and load-state coordination

A Dafny model of the decision logic of `MyGridComponent`, a React component that
shows remotely fetched rows in a data grid whose column widths are themselves
remotely configurable. The component has two pure parts, both modelled here as
functions with lemmas about them:

- **Schema reconciler** (module `GridColumns`, file `grid_columns.dfy`). Six fixed
  default column descriptors (`field`, `headerName`, `minWidth`) are merged with an
  optional configuration, a list of `{field, width}` overrides. With no
  configuration the defaults are used as they are. Otherwise each default, in
  order, takes the width of the *first* override with the same key (what
  `Array.prototype.find` returns); a default that no override names is left
  untouched, with no width. Overrides for unknown keys are never looked at.
- **View-state coordinator** (module `GridView`, file `grid_view.dfy`). The
  configuration hook and the row fetch each report a pending flag and a failed flag.
  The component renders a spinner if either source is pending, else a generic
  failure message if either has failed, else the grid with the rows (the empty list
  when no rows arrived) and the reconciled columns. The model proves that this
  flat test agrees with judging each source on its own (pending before failed
  before resolved) and joining the two.

`wrappers.dfy` holds the `Option` type used for JavaScript's "value or
`undefined`".

Where the repository's design notes and the code disagree, the model follows the
code: the design describes the overrides as a set in which a later duplicate key
wins, while the code's `find` makes the earliest duplicate win. `FirstMatchWins` and
`AppendedOverridesIgnored` state the code's rule.

## Model

| member | source | states |
|---|---|---|
| `GridColumns.DefaultColumns` | src/utils/var-comp.ts:23-30 | the six default columns, in order; their keys are pairwise distinct and none carries a width |
| `GridColumns.FindFirst` | src/utils/var-comp.ts:36 | nothing is found exactly when no override has the key; what is found is the override at the first position with that key |
| `GridColumns.ResolveColumn` | src/utils/var-comp.ts:36-40 | key, header and minimum width are kept; with no matching override the descriptor is returned unchanged; otherwise its width is the first match's width |
| `GridColumns.Reconcile` | src/utils/var-comp.ts:32-42 | same length as the defaults and, position by position, same key, header and minimum width; absent configuration gives the defaults; an unmatched default is unchanged; a matched one gets the first match's width |
| `GridColumns.GridColumnsFor` | src/utils/var-comp.ts:32-42 | the grid's columns have the defaults' key order, and a column has a width exactly when a configuration is present and some override names its key |
| `GridColumns.ReconcileKeepsKeyOrder` | src/utils/var-comp.ts:35 | the key sequence of the result is the key sequence of the defaults |
| `GridColumns.FirstMatchWins` | src/utils/var-comp.ts:36-38 | with two overrides for one key, the width used is that of the earlier one |
| `GridColumns.FindFirstAppend` | src/utils/var-comp.ts:36 | searching a concatenation finds in the first part if anything matches there, else in the second |
| `GridColumns.FindFirstSkipsOtherKey` | src/utils/var-comp.ts:36 | inserting an override with another key anywhere does not change what is found |
| `GridColumns.UnknownOverrideIgnored` | src/utils/var-comp.ts:35-36 | inserting, at any position, an override whose key names no default leaves the result unchanged |
| `GridColumns.AppendedOverridesIgnored` | src/utils/var-comp.ts:35-38 | appending overrides whose keys are already present, or name no default, leaves the result unchanged |
| `GridColumns.EmptyConfigIsAbsent` | src/utils/var-comp.ts:33-40 | a present but empty configuration gives the same columns as an absent one |
| `GridColumns.OverrideOnDefaults` | src/utils/var-comp.ts:23-41 | on the defaults, an override for `name` plus one for an unknown key changes only the `name` column, which gets width 300 |
| `GridView.View` | src/utils/var-comp.ts:44-63 | spinner exactly when either source is pending; failure exactly when neither is pending and either failed; grid exactly when neither is pending nor failed, carrying the rows or the empty list and the reconciled columns in default key order |
| `GridView.ConfigState` | src/utils/var-comp.ts:14 | a resolved configuration source carries the hook's configuration |
| `GridView.RowState` | src/utils/var-comp.ts:16 | a resolved row source carries the fetched rows |
| `GridView.Join` | src/utils/var-comp.ts:44-57 | the joined state is pending exactly when either side is, resolved exactly when both are, and then carries both payloads |
| `GridView.ViewIsJoin` | src/utils/var-comp.ts:44-57 | the flat test of both flags equals judging each source on its own and joining the two |
| `GridView.ReadyIffBothResolved` | src/utils/var-comp.ts:44-63 | the grid is shown exactly when both sources have resolved |
| `GridView.PendingMasksError` | src/utils/var-comp.ts:44-53 | while either source is pending the spinner is shown, whatever the other reports |
| `GridView.ErrorCarriesNoSource` | src/utils/var-comp.ts:45-57 | a failed configuration and failed rows render the same failure directive |
| `GridView.RowsFirstConfigPending` | src/utils/var-comp.ts:44-53 | rows resolved while the configuration is pending: spinner |
| `GridView.RowsFailedConfigResolved` | src/utils/var-comp.ts:45-57 | rows failed, configuration resolved: failure message |
| `GridView.BothResolvedEmptyConfig` | src/utils/var-comp.ts:32-63 | both resolved with an empty configuration: the rows with the default columns unchanged |

## Left out

- React, `useMemo`, JSX and the MUI `Box`, `CircularProgress` and `DataGrid` presentation (src/utils/var-comp.ts:2-5, 47-69): user interface, no decisions. The directive `Directive` stands for what is rendered.
- The axios fetcher and the SWR hook with its options (no revalidation, no retry, unbounded deduplication) (src/utils/var-comp.ts:8-11, 16-21): network I/O and caching policy. The two sources' states are plain inputs of `View`; how they change over time, and that they never return to pending, is not modelled.
- `useGridConfig` and `RowData` (src/utils/var-comp.ts:6-7): their sources are not part of this model. The configuration is an optional list of `{field, width}` pairs; rows are an opaque type parameter.
- The pagination props `pageSize` and `rowsPerPageOptions` (src/utils/var-comp.ts:64-65): fixed widget settings.
- JavaScript truthiness: error values are modelled as `bool` flags, widths as unbounded `int`; the code only passes widths through. A configuration whose `columns` field is missing (where `config.columns.find` would throw) is not representable.
