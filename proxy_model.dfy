/**
 * ProxyModel (kchart/shape/ProxyModel.cpp): presents one source table as a
 * logical grid of series x values. Three mutable settings drive it: whether
 * the first source row holds labels, whether the first source column holds
 * labels, and the data direction (Vertical: series run along source rows;
 * Horizontal: rows and columns are swapped). Every read of cell data or
 * header text goes through the index mapping defined here; every change of a
 * setting is announced to the model's views by the item-model notifications,
 * which the model records in an append-only event log.
 */
module Proxy {
  import opened Base

  datatype Orientation = Horizontal | Vertical

  datatype Axis = RowAxis | ColumnAxis

  function OtherAxis(a: Axis): Axis {
    if a == RowAxis then ColumnAxis else RowAxis
  }

  /** The source item model, as far as the proxy sees it: its extents and its cells. */
  datatype SourceTable = SourceTable(rows: nat, cols: nat, cells: map<(int, int), Variant>) {
    /** Whether `index(row, column)` is a valid index of the source. */
    predicate HasIndex(r: int, c: int) {
      0 <= r < rows && 0 <= c < cols
    }

    /** `data(index(row, column))`: invalid outside the extents or where nothing is stored. */
    function Data(r: int, c: int): Variant {
      if HasIndex(r, c) && (r, c) in cells then cells[(r, c)] else Invalid
    }
  }

  /** The item-model notifications the proxy emits. */
  datatype ProxyEvent =
    | AboutToRemove(axis: Axis, first: int, last: int)
    | Removed(axis: Axis, first: int, last: int)
    | AboutToInsert(axis: Axis, first: int, last: int)
    | Inserted(axis: Axis, first: int, last: int)
    | ModelReset
    | DataChangedSignal(top: int, left: int, bottom: int, right: int)

  /** The identity of a DataSet object the proxy lists. */
  type DataSetRef = nat

  /** `QList::indexOf`: the first position of `x` in `s`, or -1. */
  function IndexOf(s: seq<DataSetRef>, x: DataSetRef): (r: int)
    ensures r == -1 <==> x !in s
    ensures r != -1 ==> 0 <= r < |s| && s[r] == x && x !in s[..r]
  {
    if s == [] then -1
    else if s[0] == x then 0
    else
      var k := IndexOf(s[1..], x);
      if k == -1 then -1
      else
        assert s[..k + 1] == [s[0]] + s[1..][..k];
        k + 1
  }

  class ProxyModel {
    var source: Option<SourceTable>
    var firstRowIsLabel: bool
    var firstColumnIsLabel: bool
    var dataDirection: Orientation
    var dataSets: seq<DataSetRef>
    var events: seq<ProxyEvent>

    constructor ()
      ensures source == None && dataSets == [] && events == []
      ensures !firstRowIsLabel && !firstColumnIsLabel && dataDirection == Vertical
    {
      source := None;
      firstRowIsLabel := false;
      firstColumnIsLabel := false;
      dataDirection := Vertical;
      dataSets := [];
      events := [];
    }

    /** `setSourceModel`: attach the source, then reset the whole proxy. */
    method SetSourceModel(t: SourceTable)
      modifies this`source, this`events
      ensures source == Some(t) && events == old(events) + [ModelReset]
    {
      source := Some(t);
      events := events + [ModelReset];
    }

    function RowOffset(): int
      reads this
    {
      if firstRowIsLabel then 1 else 0
    }

    function ColumnOffset(): int
      reads this
    {
      if firstColumnIsLabel then 1 else 0
    }

    /** The source coordinates `mapToSource` computes for a logical index. */
    function ToSourceCoords(r: int, c: int): (int, int)
      reads this
    {
      if dataDirection == Vertical then (r + RowOffset(), c + ColumnOffset())
      else (c + RowOffset(), r + ColumnOffset())
    }

    /** The logical coordinates `mapFromSource` computes for a source index, as written. */
    function FromSourceCoords(sr: int, sc: int): (int, int)
      reads this
    {
      if dataDirection == Vertical then (sr - RowOffset(), sc - ColumnOffset())
      else (sc - RowOffset(), sr - ColumnOffset())
    }

    /** `mapToSource(index)`: the source index, which the source reports invalid outside its extents. */
    function MapToSource(r: int, c: int): (m: Option<(int, int)>)
      reads this
      requires source.Some?
      ensures m.Some? ==> m.value == ToSourceCoords(r, c) && source.value.HasIndex(m.value.0, m.value.1)
    {
      var (sr, sc) := ToSourceCoords(r, c);
      if source.value.HasIndex(sr, sc) then Some((sr, sc)) else None
    }

    /**
     * `mapFromSource(index)`, as written: the offsets are not swapped in the
     * Horizontal direction, and the result is built with the SOURCE model's
     * `index()`, so it is checked against the source's extents.
     */
    function MapFromSource(sr: int, sc: int): (m: Option<(int, int)>)
      reads this
      requires source.Some?
      ensures m.Some? ==> m.value == FromSourceCoords(sr, sc)
    {
      var (r, c) := FromSourceCoords(sr, sc);
      if source.value.HasIndex(r, c) then Some((r, c)) else None
    }

    /** `mapToSource(orientation)`: identity when Vertical, swapped when Horizontal. */
    function MapOrientationToSource(o: Orientation): Orientation
      reads this
    {
      if dataDirection == Vertical then o
      else if o == Vertical then Horizontal else Vertical
    }

    /** `mapFromSource(orientation)`: the same computation as `mapToSource(orientation)`. */
    function MapOrientationFromSource(o: Orientation): Orientation
      reads this
    {
      if dataDirection == Vertical then o
      else if o == Vertical then Horizontal else Vertical
    }

    function SourceRows(): nat
      reads this
    {
      if source.Some? then source.value.rows else 0
    }

    function SourceCols(): nat
      reads this
    {
      if source.Some? then source.value.cols else 0
    }

    /** `rowCount()`: the source extent along the logical row axis, less the label if there is one. */
    function RowCount(): nat
      reads this
    {
      LogicalRows(source, firstRowIsLabel, firstColumnIsLabel, dataDirection)
    }

    /** `columnCount()`: the source extent along the logical column axis, less the label if there is one. */
    function ColumnCount(): nat
      reads this
    {
      LogicalColumns(source, firstRowIsLabel, firstColumnIsLabel, dataDirection)
    }

    function Extent(a: Axis): nat
      reads this
    {
      if a == RowAxis then RowCount() else ColumnCount()
    }

    /** The logical axis whose extent the first-row label flag shortens. */
    function RowLabelAxis(): Axis
      reads this
    {
      if dataDirection == Horizontal then ColumnAxis else RowAxis
    }

    /** The logical axis whose extent the first-column label flag shortens. */
    function ColumnLabelAxis(): Axis
      reads this
    {
      if dataDirection == Vertical then ColumnAxis else RowAxis
    }

    /** `data(index)`: the source cell the index maps to; invalid without a source. */
    function Data(r: int, c: int): Variant
      reads this
    {
      if source.None? then Invalid
      else
        var m := MapToSource(r, c);
        if m.Some? then source.value.Data(m.value.0, m.value.1) else Invalid
    }

    /**
     * `headerData(section, orientation)`: the label cell for a logical row or
     * column, read from the source's label column (source-Vertical) or label
     * row (source-Horizontal), or nothing when that label flag is off.
     */
    function HeaderData(section: int, orientation: Orientation): Variant
      reads this
    {
      if source.None? then Invalid
      else
        var o := MapOrientationToSource(orientation);
        if o == Vertical then
          if !firstColumnIsLabel then Invalid
          else source.value.Data(section + RowOffset(), 0)
        else
          if !firstRowIsLabel then Invalid
          else source.value.Data(0, section + ColumnOffset())
    }

    /** `dataChanged(topLeft, bottomRight)`: the source's notification, forwarded unchanged. */
    method ForwardDataChanged(top: int, left: int, bottom: int, right: int)
      modifies this`events
      ensures events == old(events) + [DataChangedSignal(top, left, bottom, right)]
    {
      events := events + [DataChangedSignal(top, left, bottom, right)];
    }

    /** `dataChanged()`: announce that the whole logical grid changed. */
    method DataChanged()
      modifies this`events
      ensures events == old(events) + [DataChangedSignal(0, 0, RowCount() - 1, ColumnCount() - 1)]
    {
      events := events + [DataChangedSignal(0, 0, RowCount() - 1, ColumnCount() - 1)];
    }

    /**
     * `setFirstRowIsLabel(b)`: nothing happens when the flag already has that
     * value; otherwise logical row/column 0 (whichever axis the first source
     * row feeds) is announced removed or inserted around the change, and the
     * whole grid is then announced changed.
     */
    method SetFirstRowIsLabel(b: bool)
      modifies this`firstRowIsLabel, this`events
      ensures b == old(firstRowIsLabel) ==> firstRowIsLabel == b && events == old(events)
      ensures b != old(firstRowIsLabel) ==>
        firstRowIsLabel == b &&
        events == old(events) + StructuralEvents(RowLabelAxis(), b)
                  + [DataChangedSignal(0, 0, RowCount() - 1, ColumnCount() - 1)]
      ensures Extent(OtherAxis(RowLabelAxis())) == old(Extent(OtherAxis(RowLabelAxis())))
      ensures b != old(firstRowIsLabel) && SourceRows() > 0 ==>
        Extent(RowLabelAxis()) == old(Extent(RowLabelAxis())) + (if b then -1 else 1)
      ensures SourceRows() == 0 ==> Extent(RowLabelAxis()) == old(Extent(RowLabelAxis()))
      ensures events == old(events) + RowLabelEvents(source, old(firstRowIsLabel), firstColumnIsLabel, dataDirection, b)
    {
      if b == firstRowIsLabel {
        return;
      }
      var axis := if dataDirection == Horizontal then ColumnAxis else RowAxis;
      events := events + [if b then AboutToRemove(axis, 0, 0) else AboutToInsert(axis, 0, 0)];
      firstRowIsLabel := b;
      events := events + [if b then Removed(axis, 0, 0) else Inserted(axis, 0, 0)];
      DataChanged();
    }

    /** `setFirstColumnIsLabel(b)`: as `setFirstRowIsLabel`, for the first source column. */
    method SetFirstColumnIsLabel(b: bool)
      modifies this`firstColumnIsLabel, this`events
      ensures b == old(firstColumnIsLabel) ==> firstColumnIsLabel == b && events == old(events)
      ensures b != old(firstColumnIsLabel) ==>
        firstColumnIsLabel == b &&
        events == old(events) + StructuralEvents(ColumnLabelAxis(), b)
                  + [DataChangedSignal(0, 0, RowCount() - 1, ColumnCount() - 1)]
      ensures Extent(OtherAxis(ColumnLabelAxis())) == old(Extent(OtherAxis(ColumnLabelAxis())))
      ensures b != old(firstColumnIsLabel) && SourceCols() > 0 ==>
        Extent(ColumnLabelAxis()) == old(Extent(ColumnLabelAxis())) + (if b then -1 else 1)
      ensures SourceCols() == 0 ==> Extent(ColumnLabelAxis()) == old(Extent(ColumnLabelAxis()))
      ensures events == old(events) + ColumnLabelEvents(source, firstRowIsLabel, old(firstColumnIsLabel), dataDirection, b)
    {
      if b == firstColumnIsLabel {
        return;
      }
      var axis := if dataDirection == Vertical then ColumnAxis else RowAxis;
      events := events + [if b then AboutToRemove(axis, 0, 0) else AboutToInsert(axis, 0, 0)];
      firstColumnIsLabel := b;
      events := events + [if b then Removed(axis, 0, 0) else Inserted(axis, 0, 0)];
      DataChanged();
    }

    /** `setDataDirection(o)`: always resets the model, even when the direction is unchanged. */
    method SetDataDirection(o: Orientation)
      modifies this`dataDirection, this`events
      ensures dataDirection == o
      ensures events == old(events) + [ModelReset, DataChangedSignal(0, 0, RowCount() - 1, ColumnCount() - 1)]
      ensures events == old(events) + DirectionEvents(source, firstRowIsLabel, firstColumnIsLabel, o)
    {
      dataDirection := o;
      events := events + [ModelReset];
      DataChanged();
    }

    /** `dataSet(int)`: the data set at a position, or none past the end of the list. */
    function DataSetAt(i: nat): (r: Option<DataSetRef>)
      reads this
      ensures r.Some? <==> i < |dataSets|
      ensures r.Some? ==> r.value == dataSets[i]
    {
      if i >= |dataSets| then None else Some(dataSets[i])
    }

    /** `dataSet(DataSet*)`: the position of a data set in the list, or -1. */
    function DataSetIndex(ds: DataSetRef): (r: int)
      reads this
      ensures r >= -1 && (r == -1 <==> ds !in dataSets)
      ensures r >= 0 ==> DataSetAt(r) == Some(ds) && ds !in dataSets[..r]
    {
      IndexOf(dataSets, ds)
    }

    /**
     * The mapping `mapFromSource` evidently intends: the inverse of
     * `mapToSource` in both directions, giving a logical index inside the
     * logical extents.
     */
    function MapFromSourceIntended(sr: int, sc: int): (m: Option<(int, int)>)
      reads this
    {
      var (r, c) := if dataDirection == Vertical then (sr - RowOffset(), sc - ColumnOffset())
                    else (sc - ColumnOffset(), sr - RowOffset());
      if 0 <= r < RowCount() && 0 <= c < ColumnCount() then Some((r, c)) else None
    }
  }

  /** A logical index inside the proxy's extents. */
  ghost predicate InLogicalRange(p: ProxyModel, r: int, c: int)
    reads p
  {
    0 <= r < p.RowCount() && 0 <= c < p.ColumnCount()
  }

  /** A source index that is not in a label row or label column. */
  ghost predicate IsSourceDataCell(p: ProxyModel, sr: int, sc: int)
    reads p
    requires p.source.Some?
  {
    p.source.value.HasIndex(sr, sc) && sr >= p.RowOffset() && sc >= p.ColumnOffset()
  }

  /**
   * The logical extents are exactly the source extents without the label
   * row and column: every logical index reaches a source data cell, and
   * every source data cell is reached by one logical index.
   */
  lemma MapToSourceOntoDataCells(p: ProxyModel, r: int, c: int, sr: int, sc: int)
    requires p.source.Some?
    ensures InLogicalRange(p, r, c) ==>
      p.MapToSource(r, c).Some? && IsSourceDataCell(p, p.MapToSource(r, c).value.0, p.MapToSource(r, c).value.1)
    ensures IsSourceDataCell(p, sr, sc) ==>
      p.MapFromSourceIntended(sr, sc).Some? &&
      p.MapToSource(p.MapFromSourceIntended(sr, sc).value.0, p.MapFromSourceIntended(sr, sc).value.1) == Some((sr, sc))
  {
  }

  /** The corrected `mapFromSource` inverts `mapToSource` on every logical index, in both directions. */
  lemma MapFromSourceIntendedRoundTrip(p: ProxyModel, r: int, c: int)
    requires p.source.Some? && InLogicalRange(p, r, c)
    ensures p.MapFromSourceIntended(p.MapToSource(r, c).value.0, p.MapToSource(r, c).value.1) == Some((r, c))
  {
    MapToSourceOntoDataCells(p, r, c, 0, 0);
  }

  /**
   * The coordinate arithmetic of `mapFromSource`, as written, undoes that of
   * `mapToSource` exactly when the direction is Vertical or both label flags
   * are equal.
   */
  lemma FromSourceCoordsRoundTrip(p: ProxyModel, r: int, c: int)
    ensures p.FromSourceCoords(p.ToSourceCoords(r, c).0, p.ToSourceCoords(r, c).1) == (r, c) <==>
      p.dataDirection == Vertical || p.firstRowIsLabel == p.firstColumnIsLabel
  {
  }

  /** In the Vertical direction `mapFromSource`, as written, inverts `mapToSource` on every logical index. */
  lemma VerticalMapFromSourceRoundTrip(p: ProxyModel, r: int, c: int)
    requires p.source.Some? && p.dataDirection == Vertical && InLogicalRange(p, r, c)
    ensures p.MapToSource(r, c).Some?
    ensures p.MapFromSource(p.MapToSource(r, c).value.0, p.MapToSource(r, c).value.1) == Some((r, c))
  {
    MapToSourceOntoDataCells(p, r, c, 0, 0);
  }

  /**
   * A Horizontal proxy over a 3x3 source whose first row only is a label row:
   * logical (0, 0) is source (1, 0), but `mapFromSource` sends source (1, 0)
   * to (-1, 1), which is no index at all.
   */
  lemma HorizontalMapFromSourceCounterexample(p: ProxyModel)
    requires p.source == Some(SourceTable(3, 3, map[]))
    requires p.dataDirection == Horizontal && p.firstRowIsLabel && !p.firstColumnIsLabel
    ensures InLogicalRange(p, 0, 0) && p.MapToSource(0, 0) == Some((1, 0))
    ensures p.FromSourceCoords(1, 0) == (-1, 1) && p.MapFromSource(1, 0) == None
    ensures p.MapFromSourceIntended(1, 0) == Some((0, 0))
  {
  }

  /** `mapFromSource(orientation)` undoes `mapToSource(orientation)`, and swapping twice is the identity. */
  lemma OrientationMapsInverse(p: ProxyModel, o: Orientation)
    ensures p.MapOrientationFromSource(p.MapOrientationToSource(o)) == o
    ensures p.MapOrientationToSource(p.MapOrientationFromSource(o)) == o
    ensures p.dataDirection == Horizontal ==> p.MapOrientationToSource(o) != o
  {
  }

  /**
   * Headers line up with the data: the header of logical row (or column)
   * `s` is the label cell of the source row or column that `mapToSource`
   * sends logical row (or column) `s` to; with the matching label flag off
   * there is no header.
   */
  lemma HeaderAlignsWithData(p: ProxyModel, s: int)
    requires p.source.Some?
    ensures p.dataDirection == Vertical ==>
      p.HeaderData(s, Vertical) == (if p.firstColumnIsLabel then p.source.value.Data(p.ToSourceCoords(s, 0).0, 0) else Invalid)
    ensures p.dataDirection == Vertical ==>
      p.HeaderData(s, Horizontal) == (if p.firstRowIsLabel then p.source.value.Data(0, p.ToSourceCoords(0, s).1) else Invalid)
    ensures p.dataDirection == Horizontal ==>
      p.HeaderData(s, Vertical) == (if p.firstRowIsLabel then p.source.value.Data(0, p.ToSourceCoords(s, 0).1) else Invalid)
    ensures p.dataDirection == Horizontal ==>
      p.HeaderData(s, Horizontal) == (if p.firstColumnIsLabel then p.source.value.Data(p.ToSourceCoords(0, s).0, 0) else Invalid)
  {
  }

  /** A logical cell shows the source cell `mapToSource` sends it to; without a source nothing is shown. */
  lemma DataReadsMappedCell(p: ProxyModel, r: int, c: int)
    ensures p.source.None? ==> p.Data(r, c) == Invalid
    ensures p.source.Some? && InLogicalRange(p, r, c) ==>
      p.Data(r, c) == p.source.value.Data(p.ToSourceCoords(r, c).0, p.ToSourceCoords(r, c).1)
    ensures p.source.Some? && !p.source.value.HasIndex(p.ToSourceCoords(r, c).0, p.ToSourceCoords(r, c).1) ==>
      p.Data(r, c) == Invalid
  {
  }

  /** Without a source the proxy is empty; swapping the direction swaps the two extents. */
  lemma CountsFollowDirection(p: ProxyModel)
    ensures p.source.None? ==> p.RowCount() == 0 && p.ColumnCount() == 0
    ensures p.source.Some? && p.dataDirection == Vertical ==>
      p.RowCount() == (if p.firstRowIsLabel && p.SourceRows() > 0 then p.SourceRows() - 1 else p.SourceRows()) &&
      p.ColumnCount() == (if p.firstColumnIsLabel && p.SourceCols() > 0 then p.SourceCols() - 1 else p.SourceCols())
    ensures p.source.Some? && p.dataDirection == Horizontal ==>
      p.RowCount() == (if p.firstColumnIsLabel && p.SourceCols() > 0 then p.SourceCols() - 1 else p.SourceCols()) &&
      p.ColumnCount() == (if p.firstRowIsLabel && p.SourceRows() > 0 then p.SourceRows() - 1 else p.SourceRows())
  {
  }

  /** The logical row count for a source and the three settings. */
  function LogicalRows(source: Option<SourceTable>, firstRowIsLabel: bool, firstColumnIsLabel: bool, d: Orientation): nat {
    if source.None? then 0
    else
      var n := if d == Vertical then source.value.rows else source.value.cols;
      var hasLabel := if d == Horizontal then firstColumnIsLabel else firstRowIsLabel;
      if n > 0 && hasLabel then n - 1 else n
  }

  /** The logical column count for a source and the three settings. */
  function LogicalColumns(source: Option<SourceTable>, firstRowIsLabel: bool, firstColumnIsLabel: bool, d: Orientation): nat {
    if source.None? then 0
    else
      var n := if d == Vertical then source.value.cols else source.value.rows;
      var hasLabel := if d == Horizontal then firstRowIsLabel else firstColumnIsLabel;
      if n > 0 && hasLabel then n - 1 else n
  }

  /** The `dataChanged()` notification covering the whole logical grid under the given settings. */
  function WholeGridChanged(source: Option<SourceTable>, firstRowIsLabel: bool, firstColumnIsLabel: bool, d: Orientation): ProxyEvent {
    DataChangedSignal(0, 0, LogicalRows(source, firstRowIsLabel, firstColumnIsLabel, d) - 1,
                      LogicalColumns(source, firstRowIsLabel, firstColumnIsLabel, d) - 1)
  }

  /** What `setFirstRowIsLabel(b)` emits when the flags and direction were as given. */
  function RowLabelEvents(source: Option<SourceTable>, firstRowIsLabel: bool, firstColumnIsLabel: bool, d: Orientation, b: bool): seq<ProxyEvent> {
    if b == firstRowIsLabel then []
    else StructuralEvents(if d == Horizontal then ColumnAxis else RowAxis, b) + [WholeGridChanged(source, b, firstColumnIsLabel, d)]
  }

  /** What `setFirstColumnIsLabel(b)` emits when the flags and direction were as given. */
  function ColumnLabelEvents(source: Option<SourceTable>, firstRowIsLabel: bool, firstColumnIsLabel: bool, d: Orientation, b: bool): seq<ProxyEvent> {
    if b == firstColumnIsLabel then []
    else StructuralEvents(if d == Vertical then ColumnAxis else RowAxis, b) + [WholeGridChanged(source, firstRowIsLabel, b, d)]
  }

  /** What `setDataDirection(o)` emits: a reset, then the whole grid in the new direction changed. */
  function DirectionEvents(source: Option<SourceTable>, firstRowIsLabel: bool, firstColumnIsLabel: bool, o: Orientation): seq<ProxyEvent> {
    [ModelReset, WholeGridChanged(source, firstRowIsLabel, firstColumnIsLabel, o)]
  }

  /** The pair of structural notifications around a label-flag change on `axis`. */
  function StructuralEvents(axis: Axis, becomesLabel: bool): seq<ProxyEvent> {
    if becomesLabel then [AboutToRemove(axis, 0, 0), Removed(axis, 0, 0)]
    else [AboutToInsert(axis, 0, 0), Inserted(axis, 0, 0)]
  }
}
