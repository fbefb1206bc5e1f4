/**
 The schema reconciler of the grid view: the fixed default column descriptors and
 the merge of a remote column-width configuration into them.
 */
module GridColumns {
  import opened Wrappers

  /** A column descriptor as handed to the data grid. The defaults carry no width;
      a matching override adds one. */
  datatype Column = Column(field: string, headerName: string, minWidth: int, width: Option<int>)

  /** One entry of the remote configuration: a width for the column with key `field`. */
  datatype ColumnOverride = ColumnOverride(field: string, width: int)

  /** The remote grid configuration: a list of overrides, in the order received. */
  datatype GridConfig = GridConfig(columns: seq<ColumnOverride>)

  /** `j` is the position of the first override whose key is `field`. */
  ghost predicate FirstMatchAt(overrides: seq<ColumnOverride>, field: string, j: int) {
    && 0 <= j < |overrides|
    && overrides[j].field == field
    && forall k :: 0 <= k < j ==> overrides[k].field != field
  }

  /** No override has key `field`. */
  ghost predicate NoMatch(overrides: seq<ColumnOverride>, field: string) {
    forall k :: 0 <= k < |overrides| ==> overrides[k].field != field
  }

  /** Two descriptors agree on everything the reconciler must never change. */
  ghost predicate SameIdentity(a: Column, b: Column) {
    a.field == b.field && a.headerName == b.headerName && a.minWidth == b.minWidth
  }

  /** The six default columns, in display order. Their keys are distinct and none
      has a width. */
  function DefaultColumns(): (r: seq<Column>)
    ensures |r| == 6
    ensures forall i :: 0 <= i < |r| ==> r[i].width == None
    ensures forall i, j :: 0 <= i < j < |r| ==> r[i].field != r[j].field
  {
    [ Column("id", "ID", 70, None),
      Column("name", "Sequence Name", 150, None),
      Column("category", "Category", 120, None),
      Column("comment", "Comment", 120, None),
      Column("modifiedby", "Modified By", 150, None),
      Column("modifiedDate", "Modified Date", 180, None) ]
  }

  /** The override `Array.prototype.find` returns: the first one whose key is `field`,
      or nothing when no key matches. */
  function FindFirst(overrides: seq<ColumnOverride>, field: string): (r: Option<ColumnOverride>)
    ensures r.None? <==> NoMatch(overrides, field)
    ensures r.Some? ==> exists j :: FirstMatchAt(overrides, field, j) && overrides[j] == r.value
  {
    if overrides == [] then None
    else if overrides[0].field == field then
      assert FirstMatchAt(overrides, field, 0);
      Some(overrides[0])
    else
      var r := FindFirst(overrides[1..], field);
      assert r.Some? ==> exists j :: FirstMatchAt(overrides, field, j) && overrides[j] == r.value by {
        if r.Some? {
          var j :| FirstMatchAt(overrides[1..], field, j) && overrides[1..][j] == r.value;
          assert FirstMatchAt(overrides, field, j + 1);
        }
      }
      assert NoMatch(overrides[1..], field) ==> NoMatch(overrides, field) by {
        if NoMatch(overrides[1..], field) {
          forall k | 0 <= k < |overrides| ensures overrides[k].field != field {
            if k > 0 { assert overrides[k] == overrides[1..][k - 1]; }
          }
        }
      }
      r
  }

  /** One default descriptor after the configuration: unchanged when no override
      matches its key, otherwise a copy whose width is the first match's width. */
  function ResolveColumn(col: Column, overrides: seq<ColumnOverride>): (r: Column)
    ensures SameIdentity(r, col)
    ensures NoMatch(overrides, col.field) ==> r == col
    ensures forall j :: FirstMatchAt(overrides, col.field, j) ==> r.width == Some(overrides[j].width)
  {
    match FindFirst(overrides, col.field)
    case Some(o) => col.(width := Some(o.width))
    case None => col
  }

  /** The column list the grid shows: the defaults as they are when no configuration
      has arrived, otherwise each default in order resolved against the overrides. */
  function Reconcile(defaults: seq<Column>, config: Option<GridConfig>): (r: seq<Column>)
    ensures |r| == |defaults|
    ensures forall i :: 0 <= i < |r| ==> SameIdentity(r[i], defaults[i])
    ensures config.None? ==> r == defaults
    ensures config.Some? ==> forall i :: 0 <= i < |r| && NoMatch(config.value.columns, defaults[i].field) ==> r[i] == defaults[i]
    ensures config.Some? ==> forall i, j :: 0 <= i < |r| && FirstMatchAt(config.value.columns, defaults[i].field, j) ==> r[i].width == Some(config.value.columns[j].width)
  {
    match config
    case None => defaults
    case Some(c) => seq(|defaults|, i requires 0 <= i < |defaults| => ResolveColumn(defaults[i], c.columns))
  }

  /** The keys of a column list, in order. */
  function Fields(cols: seq<Column>): (r: seq<string>)
    ensures |r| == |cols|
    ensures forall i :: 0 <= i < |r| ==> r[i] == cols[i].field
  {
    seq(|cols|, i requires 0 <= i < |cols| => cols[i].field)
  }

  /** The reconciler's columns for the grid: `Reconcile` on the fixed defaults. */
  function GridColumnsFor(config: Option<GridConfig>): (r: seq<Column>)
    ensures Fields(r) == Fields(DefaultColumns())
    ensures forall i :: 0 <= i < |r| ==> (r[i].width.Some? <==> config.Some? && !NoMatch(config.value.columns, r[i].field))
  {
    var r := Reconcile(DefaultColumns(), config);
    assert Fields(r) == Fields(DefaultColumns());
    assert forall i :: 0 <= i < |r| && config.Some? && !NoMatch(config.value.columns, r[i].field) ==> r[i].width.Some? by {
      forall i | 0 <= i < |r| && config.Some? && !NoMatch(config.value.columns, r[i].field)
        ensures r[i].width.Some?
      {
        var o := FindFirst(config.value.columns, r[i].field);
        var j :| FirstMatchAt(config.value.columns, r[i].field, j) && config.value.columns[j] == o.value;
      }
    }
    r
  }

  // ---------------------------------------------------------------------------
  // Properties of the reconciler

  /** Overrides never add, drop or reorder columns: the key order is the defaults'. */
  lemma ReconcileKeepsKeyOrder(defaults: seq<Column>, config: Option<GridConfig>)
    ensures Fields(Reconcile(defaults, config)) == Fields(defaults)
  {
  }

  /** First match wins: when several overrides share a key, the width at the
      position of the earliest one is used. */
  lemma FirstMatchWins(defaults: seq<Column>, overrides: seq<ColumnOverride>, i: int, j: int, k: int)
    requires 0 <= i < |defaults|
    requires 0 <= j < k < |overrides|
    requires overrides[j].field == defaults[i].field == overrides[k].field
    requires forall m :: 0 <= m < j ==> overrides[m].field != defaults[i].field
    ensures Reconcile(defaults, Some(GridConfig(overrides)))[i].width == Some(overrides[j].width)
  {
    assert FirstMatchAt(overrides, defaults[i].field, j);
  }

  /** Finding in a concatenation: the first list is searched before the second. */
  lemma {:induction false} FindFirstAppend(a: seq<ColumnOverride>, b: seq<ColumnOverride>, field: string)
    ensures FindFirst(a + b, field) == if FindFirst(a, field).Some? then FindFirst(a, field) else FindFirst(b, field)
  {
    if a == [] {
      assert a + b == b;
    } else {
      assert (a + b)[0] == a[0];
      assert (a + b)[1..] == a[1..] + b;
      FindFirstAppend(a[1..], b, field);
    }
  }

  /** An override whose key is not `field` is never the one found for `field`,
      wherever it is inserted. */
  lemma {:induction false} FindFirstSkipsOtherKey(overrides: seq<ColumnOverride>, k: int, o: ColumnOverride, field: string)
    requires 0 <= k <= |overrides|
    requires o.field != field
    ensures FindFirst(overrides[..k] + [o] + overrides[k..], field) == FindFirst(overrides, field)
  {
    var front, back := overrides[..k], overrides[k..];
    assert overrides == front + back;
    FindFirstAppend(front + [o], back, field);
    FindFirstAppend(front, [o], field);
    FindFirstAppend(front, back, field);
    assert [o][1..] == [];
  }

  /** An override whose key names no default column has no effect, wherever it sits
      in the configuration, and the merge does not fail on it. */
  lemma UnknownOverrideIgnored(defaults: seq<Column>, overrides: seq<ColumnOverride>, k: int, o: ColumnOverride)
    requires 0 <= k <= |overrides|
    requires forall i :: 0 <= i < |defaults| ==> defaults[i].field != o.field
    ensures Reconcile(defaults, Some(GridConfig(overrides[..k] + [o] + overrides[k..])))
         == Reconcile(defaults, Some(GridConfig(overrides)))
  {
    var longer := overrides[..k] + [o] + overrides[k..];
    forall i | 0 <= i < |defaults|
      ensures ResolveColumn(defaults[i], longer) == ResolveColumn(defaults[i], overrides)
    {
      FindFirstSkipsOtherKey(overrides, k, o, defaults[i].field);
    }
  }

  /** Appending overrides changes nothing when each new key is either already
      present earlier (a later duplicate loses) or names no default column. */
  lemma AppendedOverridesIgnored(defaults: seq<Column>, overrides: seq<ColumnOverride>, extra: seq<ColumnOverride>)
    requires forall e :: 0 <= e < |extra| ==>
      !NoMatch(overrides, extra[e].field) || forall i :: 0 <= i < |defaults| ==> defaults[i].field != extra[e].field
    ensures Reconcile(defaults, Some(GridConfig(overrides + extra)))
         == Reconcile(defaults, Some(GridConfig(overrides)))
  {
    forall i | 0 <= i < |defaults|
      ensures ResolveColumn(defaults[i], overrides + extra) == ResolveColumn(defaults[i], overrides)
    {
      var f := defaults[i].field;
      FindFirstAppend(overrides, extra, f);
      if NoMatch(overrides, f) {
        assert NoMatch(extra, f) by {
          forall e | 0 <= e < |extra| ensures extra[e].field != f {
          }
        }
      }
    }
  }

  /** A configuration present but empty yields what an absent one yields. */
  lemma EmptyConfigIsAbsent(defaults: seq<Column>)
    ensures Reconcile(defaults, Some(GridConfig([]))) == Reconcile(defaults, None)
  {
  }

  /** A width override for a known key, together with one for an unknown key,
      on the fixed defaults. */
  lemma OverrideOnDefaults()
    ensures GridColumnsFor(Some(GridConfig([ColumnOverride("nonexistent", 10), ColumnOverride("name", 300)])))
         == DefaultColumns()[1 := Column("name", "Sequence Name", 150, Some(300))]
  {
    var ovs := [ColumnOverride("nonexistent", 10), ColumnOverride("name", 300)];
    var r := GridColumnsFor(Some(GridConfig(ovs)));
    var d := DefaultColumns();
    assert FirstMatchAt(ovs, "name", 1);
    forall i | 0 <= i < 6 && i != 1 ensures r[i] == d[i] {
      assert NoMatch(ovs, d[i].field);
    }
  }
}
