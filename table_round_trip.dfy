/**
 * The chart's internal data table saved by `saveOdfData`
 * (chartshape/ChartShape.cpp) and read back by `ChartTableModel::loadOdf`
 * (chartshape/ChartTableModel.cpp): what survives the round trip.
 */
module TableRoundTrip {
  import opened Base
  import opened Xml
  import opened ChartTable
  import opened ChartShapeOdf

  /**
   * What a saved value reads back as: strings unchanged, doubles through
   * their decimal text, date-times as the empty string, and invalid values
   * and booleans (which the saver writes as empty cells) as no value.
   */
  function Reloaded(v: Variant, number: Double -> string, toDouble: string -> Double): Option<Variant> {
    match v
    case Str(s) => Some(Str(s))
    case Dbl(d) => Some(Dbl(toDouble(number(d))))
    case DateTimeV(_) => Some(Str(""))
    case Invalid => None
    case Bool(_) => None
  }

  /** The cells of a table in state `st` after saving and loading it. */
  function ReloadedCells(st: LoadState, number: Double -> string, toDouble: string -> Double): map<(nat, nat), Variant> {
    map k | k in st.cells && Reloaded(st.cells[k], number, toDouble).Some? :: Reloaded(st.cells[k], number, toDouble).value
  }

  /** The loader reads a saved cell back as `Reloaded` says. */
  lemma CellRoundTrip(v: Variant, number: Double -> string, toDouble: string -> Double)
    ensures CellValue(CellElement(v, number), toDouble) == Reloaded(v, number, toDouble)
  {
    var cell := CellElement(v, number);
    var (valType, valStr) := CellTyping(v, number);
    assert OFFICE_VALUE != OFFICE_VALUE_TYPE by {
      assert |OFFICE_VALUE.local| != |OFFICE_VALUE_TYPE.local|;
    }
    if valType != "" {
      var p := Element(TEXT_P, map[], [Text(valStr)]);
      assert NamedItemNS(ChildrenOf(cell), TEXT_P) == Some(p);
      TextOfLeaf(TEXT_P, map[], valStr);
      assert AttributeNS(cell, OFFICE_VALUE_TYPE) == valType;
      assert AttributeNS(cell, OFFICE_VALUE) == if v.Dbl? then valStr else "";
      match v {
        case Str(s) =>
          assert valType == "string";
        case Dbl(d) =>
          assert valType == "float";
        case DateTimeV(_) =>
          assert valType == "date" && valStr == "";
      }
    }
  }

  /** Every element of `cs` is named `q`, so selecting by that name keeps them all. */
  lemma {:induction false} SelectAll(cs: seq<Node>, q: QName)
    requires forall i :: 0 <= i < |cs| ==> IsElement(cs[i], q)
    ensures Select(cs, q) == cs
    decreases |cs|
  {
    if cs != [] {
      SelectAll(cs[1..], q);
      ConsTail(cs);
    }
  }

  lemma ConsTail<T>(s: seq<T>)
    requires s != []
    ensures [s[0]] + s[1..] == s
  {
  }

  lemma TailsOfFour<T>(a: T, b: T, c: T, d: T)
    ensures [a, b, c, d][1..] == [b, c, d] && [b, c, d][1..] == [c, d] && [c, d][1..] == [d] && [d][1..] == []
  {
  }

  /** A saved row reads back as exactly one cell per column, in column order. */
  lemma SavedRowCells(st: LoadState, row: nat, number: Double -> string)
    ensures RowCells(RowElement(st, row, number)) == RowCellElements(st, row, number)
    ensures |RowCellElements(st, row, number)| == st.cols
  {
    SelectAll(RowCellElements(st, row, number), TABLE_CELL);
  }

  /** The rows of a table whose children are two column groups followed by two row groups. */
  lemma TableRowsOfGroups(hc: Node, co: Node, hr: Node, dr: Node)
    requires !IsRowGroup(hc) && !IsRowGroup(co) && IsRowGroup(hr) && IsRowGroup(dr)
    ensures TableRows([hc, co, hr, dr]) == Select(hr.children, TABLE_ROW) + Select(dr.children, TABLE_ROW)
    ensures HasRowGroup([hc, co, hr, dr])
  {
    TailsOfFour(hc, co, hr, dr);
    assert TableRows([dr]) == Select(dr.children, TABLE_ROW) + TableRows([]);
    assert TableRows([hr, dr]) == Select(hr.children, TABLE_ROW) + TableRows([dr]);
    assert TableRows([co, hr, dr]) == [] + TableRows([hr, dr]);
    assert TableRows([hc, co, hr, dr]) == [] + TableRows([co, hr, dr]);
    assert IsRowGroup([hc, co, hr, dr][2]);
  }

  /**
   * The rows the loader finds in a saved table: the header row and then the
   * data rows, that is every row of the table in order.
   */
  lemma SavedTableRows(st: LoadState, tableName: string, number: Double -> string)
    ensures var rows := TableRows(ChildrenOf(TableElement(st, tableName, number)));
      |rows| == st.rows && forall i :: 0 <= i < st.rows ==> rows[i] == RowElement(st, i, number)
    ensures HasRowGroup(ChildrenOf(TableElement(st, tableName, number)))
  {
    var hr, dr := HeaderRowsElement(st, number), DataRowsElement(st, number);
    TableRowsOfGroups(HeaderColumnsElement(), ColumnsElement(st.cols), hr, dr);
    SelectAll(hr.children, TABLE_ROW);
    SelectAll(dr.children, TABLE_ROW);
    SplitRows(hr.children, dr.children, st, number);
  }

  lemma SplitRows(header: seq<Node>, data: seq<Node>, st: LoadState, number: Double -> string)
    requires header == if st.rows > 0 then [RowElement(st, 0, number)] else []
    requires data == RowElements(st, if st.rows > 0 then 1 else 0, number)
    ensures |header + data| == st.rows
    ensures forall i :: 0 <= i < st.rows ==> (header + data)[i] == RowElement(st, i, number)
  {
  }

  /** Every row of a saved table has one cell per column, so the loaded width is the table's. */
  lemma {:induction false} SavedWidth(rows: seq<Node>, st: LoadState, number: Double -> string)
    requires forall i :: 0 <= i < |rows| ==> rows[i] == RowElement(st, i, number)
    ensures MaxWidth(rows) == if |rows| > 0 then st.cols else 0
  {
    forall i | 0 <= i < |rows|
      ensures |RowCells(rows[i])| == st.cols
    {
      SavedRowCells(st, i, number);
    }
    MaxWidthIsWidest(rows);
    if |rows| > 0 {
      var w :| 0 <= w < |rows| && |RowCells(rows[w])| == MaxWidth(rows);
    }
  }

  /** One position of a saved table, loaded: its value as `Reloaded` reads it back, if any. */
  lemma SavedCell(rows: seq<Node>, st: LoadState, number: Double -> string, toDouble: string -> Double, i: nat, j: nat)
    requires |rows| == st.rows && forall r :: 0 <= r < |rows| ==> rows[r] == RowElement(st, r, number)
    requires forall k :: k in st.cells ==> k.0 < st.rows && k.1 < st.cols
    ensures (i, j) in LoadedCells(rows, CellReader(toDouble)) <==> (i, j) in ReloadedCells(st, number, toDouble)
    ensures (i, j) in LoadedCells(rows, CellReader(toDouble)) ==>
      LoadedCells(rows, CellReader(toDouble))[(i, j)] == ReloadedCells(st, number, toDouble)[(i, j)]
  {
    LoadedCellsMeaning(rows, CellReader(toDouble), i, j);
    if i < st.rows {
      SavedRowCells(st, i, number);
      if j < st.cols {
        CellRoundTrip(DataAt(st, i, j), number, toDouble);
      }
    }
  }

  lemma MapsEqual(a: map<(nat, nat), Variant>, b: map<(nat, nat), Variant>)
    requires forall i: nat, j: nat :: (i, j) in a <==> (i, j) in b
    requires forall i: nat, j: nat :: (i, j) in a ==> a[(i, j)] == b[(i, j)]
    ensures a == b
  {
    forall k | k in a ensures k in b && a[k] == b[k] {
      assert (k.0, k.1) in a;
    }
    forall k | k in b ensures k in a {
      assert (k.0, k.1) in b;
    }
  }

  /** The loaded cells of a saved table's rows are the table's cells as `Reloaded` reads them back. */
  lemma SavedCells(rows: seq<Node>, st: LoadState, number: Double -> string, toDouble: string -> Double)
    requires |rows| == st.rows && forall i :: 0 <= i < |rows| ==> rows[i] == RowElement(st, i, number)
    requires forall k :: k in st.cells ==> k.0 < st.rows && k.1 < st.cols
    ensures LoadedCells(rows, CellReader(toDouble)) == ReloadedCells(st, number, toDouble)
  {
    var loaded := LoadedCells(rows, CellReader(toDouble));
    var expected := ReloadedCells(st, number, toDouble);
    forall i: nat, j: nat
      ensures (i, j) in loaded <==> (i, j) in expected
      ensures (i, j) in loaded ==> loaded[(i, j)] == expected[(i, j)]
    {
      SavedCell(rows, st, number, toDouble, i, j);
    }
    MapsEqual(loaded, expected);
  }

  /**
   * Saving a table and loading what was saved gives back its row count, its
   * column count when it has at least one row (a table without rows comes
   * back 0 x 0), and at every position the value `Reloaded` gives, with no
   * cell where the saved value reads back as none.
   */
  lemma SavedTableReloads(st: LoadState, tableName: string, number: Double -> string, toDouble: string -> Double)
    requires forall k :: k in st.cells ==> k.0 < st.rows && k.1 < st.cols
    ensures Loaded(TableRows(ChildrenOf(TableElement(st, tableName, number))), CellReader(toDouble)) ==
      LoadState(st.rows, if st.rows > 0 then st.cols else 0, ReloadedCells(st, number, toDouble))
  {
    var rows := TableRows(ChildrenOf(TableElement(st, tableName, number)));
    SavedTableRows(st, tableName, number);
    SavedWidth(rows, st, number);
    SavedCells(rows, st, number, toDouble);
  }

  /**
   * Saving the internal model with the writer and loading the written
   * `table:table` into a new model: the loader finds row groups, and the
   * new model holds what `SavedTableReloads` says.
   */
  method SaveAndReload(model: TableModel, tableName: string, number: Double -> string, toDouble: string -> Double)
    returns (found: bool, reloaded: TableModel)
    requires model.Valid()
    ensures found
    ensures reloaded.State() ==
      LoadState(model.rowCount, if model.rowCount > 0 then model.columnCount else 0,
        ReloadedCells(model.State(), number, toDouble))
  {
    var w := new XmlWriter();
    SaveOdfData(w, model, tableName, number);
    assert w.closed == [TableElement(model.State(), tableName, number)];
    reloaded := new TableModel();
    found := reloaded.LoadOdf(w.closed[0], toDouble);
    SavedTableRows(model.State(), tableName, number);
    SavedTableReloads(model.State(), tableName, number, toDouble);
  }
}
