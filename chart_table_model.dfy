/**
 * ChartTableModel (chartshape/ChartTableModel.cpp): the chart's internal data
 * table, a standard item model of rows x columns holding one QVariant per
 * cell, and its loader from an ODF `table:table` element. The model's state
 * (its two extents and its cells) is a class the loader updates step by
 * step; what the loader produces is specified by the pure functions over the
 * XML tree that precede the class.
 */
module ChartTable {
  import opened Base
  import opened Xml

  const TABLE_ROW: QName := QName(TableNS, "table-row")
  const TABLE_CELL: QName := QName(TableNS, "table-cell")
  const OFFICE_VALUE_TYPE: QName := QName(OfficeNS, "value-type")
  const OFFICE_VALUE: QName := QName(OfficeNS, "value")
  const TEXT_P: QName := QName(TextNS, "p")

  /** A row group: `table:table-rows` or `table:table-header-rows`. */
  predicate IsRowGroup(n: Node) {
    n.Element? && n.name.ns == TableNS &&
    (n.name.local == "table-rows" || n.name.local == "table-header-rows")
  }

  function ChildrenOf(n: Node): seq<Node> {
    if n.Element? then n.children else []
  }

  /** The child elements named `q`, in document order. */
  function Select(cs: seq<Node>, q: QName): (r: seq<Node>)
    ensures |r| <= |cs|
    ensures forall i :: 0 <= i < |r| ==> IsElement(r[i], q)
  {
    if cs == [] then []
    else (if IsElement(cs[0], q) then [cs[0]] else []) + Select(cs[1..], q)
  }

  /** The `table:table-row` elements of all row groups among a table's children, in document order. */
  function TableRows(ts: seq<Node>): seq<Node> {
    if ts == [] then []
    else (if IsRowGroup(ts[0]) then Select(ts[0].children, TABLE_ROW) else []) + TableRows(ts[1..])
  }

  predicate HasRowGroup(ts: seq<Node>) {
    exists i :: 0 <= i < |ts| && IsRowGroup(ts[i])
  }

  /** The cells of a row element. */
  function RowCells(row: Node): seq<Node> {
    Select(ChildrenOf(row), TABLE_CELL)
  }

  function Max(a: int, b: int): int {
    if a < b then b else a
  }

  /** The widest row's number of cells; 0 for no rows. */
  function MaxWidth(rows: seq<Node>): nat {
    if rows == [] then 0
    else Max(MaxWidth(rows[..|rows| - 1]), |RowCells(rows[|rows| - 1])|)
  }

  /**
   * The text a cell's value is read from: its `office:value` when that is
   * non-empty, and otherwise the text of its `text:p` child (empty when it
   * has none).
   */
  function CellText(cell: Node): string {
    var valueString := AttributeNS(cell, OFFICE_VALUE);
    if valueString != "" then valueString
    else
      match NamedItemNS(ChildrenOf(cell), TEXT_P)
      case Some(p) => TextOf(p)
      case None => ""
  }

  /**
   * What one `table:table-cell` holds, or None when it has neither a
   * `text:p` child nor a non-empty `office:value`. "float" cells hold a
   * double read from the cell's text, "boolean" cells whether that text
   * reads as a non-zero integer (text `toInt` rejects counts as 0), and all
   * other cells the text itself.
   */
  function CellValue(cell: Node, toDouble: string -> Double): (r: Option<Variant>)
    ensures r.None? <==> NamedItemNS(ChildrenOf(cell), TEXT_P).None? && AttributeNS(cell, OFFICE_VALUE) == ""
    ensures r.Some? && AttributeNS(cell, OFFICE_VALUE_TYPE) == "float" ==> r.value == Dbl(toDouble(CellText(cell)))
    ensures r.Some? && AttributeNS(cell, OFFICE_VALUE_TYPE) == "boolean" ==>
      r.value.Bool? && (r.value.b <==> ParseInt(CellText(cell)).Some? && ParseInt(CellText(cell)).value != 0)
    ensures r.Some? && AttributeNS(cell, OFFICE_VALUE_TYPE) != "float" && AttributeNS(cell, OFFICE_VALUE_TYPE) != "boolean" ==>
      r.value == Str(CellText(cell))
  {
    var valueType := AttributeNS(cell, OFFICE_VALUE_TYPE);
    var valueString := AttributeNS(cell, OFFICE_VALUE);
    var p := NamedItemNS(ChildrenOf(cell), TEXT_P);
    if p.None? && valueString == "" then None
    else
      var text := if valueString == "" then TextOf(p.value) else valueString;
      Some(
        if valueType == "float" then Dbl(toDouble(text))
        else if valueType == "boolean" then Bool(ParseInt(text).GetOr(0) != 0)
        else Str(text))
  }

  /** `CellValue` as a function of the cell alone. */
  function CellReader(toDouble: string -> Double): Node -> Option<Variant> {
    c => CellValue(c, toDouble)
  }

  /** The cells a row of `cells` stores at row `i`, keyed by (row, column). */
  function RowMap(i: nat, cells: seq<Node>, read: Node -> Option<Variant>): map<(nat, nat), Variant> {
    if cells == [] then map[]
    else
      var j := |cells| - 1;
      var v := read(cells[j]);
      RowMap(i, cells[..j], read) + (if v.Some? then map[(i, j) := v.value] else map[])
  }

  /** All the cells the loader stores for a sequence of rows. */
  function LoadedCells(rows: seq<Node>, read: Node -> Option<Variant>): map<(nat, nat), Variant> {
    if rows == [] then map[]
    else
      var i := |rows| - 1;
      LoadedCells(rows[..i], read) + RowMap(i, RowCells(rows[i]), read)
  }

  /** The model's extents and cells, as the loader sees them between steps. */
  datatype LoadState = LoadState(rows: nat, cols: nat, cells: map<(nat, nat), Variant>)

  /**
   * The cell loop of `loadOdf` over the remaining children `cs` of the row
   * being loaded as row `row`, with `column` cells already read: each
   * `table:table-cell` widens the model by one column when it is the widest
   * so far, stores its value if it has one, and moves to the next column.
   */
  function LoadCells(st: LoadState, row: nat, column: nat, cs: seq<Node>, read: Node -> Option<Variant>): LoadState
    decreases |cs|
  {
    if cs == [] then st
    else if IsElement(cs[0], TABLE_CELL) then LoadCells(CellStep(st, row, column, read(cs[0])), row, column + 1, cs[1..], read)
    else LoadCells(st, row, column, cs[1..], read)
  }

  /**
   * One `table:table-cell` read at `column` of row `row`, holding `v`: the
   * model widens by one column when it is the widest so far, and stores
   * the value if there is one.
   */
  function CellStep(st: LoadState, row: nat, column: nat, v: Option<Variant>): LoadState {
    LoadState(st.rows, if column >= st.cols then st.cols + 1 else st.cols,
              if v.Some? then st.cells[(row, column) := v.value] else st.cells)
  }

  /** One `table:table-row`: a new row is appended, then its cells are read. */
  function LoadRow(st: LoadState, row: Node, read: Node -> Option<Variant>): LoadState {
    LoadCells(st.(rows := st.rows + 1), st.rows, 0, ChildrenOf(row), read)
  }

  /** The row loop of `loadOdf` over the remaining children of a row group. */
  function LoadRows(st: LoadState, rs: seq<Node>, read: Node -> Option<Variant>): LoadState
    decreases |rs|
  {
    if rs == [] then st
    else LoadRows(if IsElement(rs[0], TABLE_ROW) then LoadRow(st, rs[0], read) else st, rs[1..], read)
  }

  /** The outer loop of `loadOdf` over the remaining children of the table. */
  function LoadGroups(st: LoadState, ts: seq<Node>, read: Node -> Option<Variant>): LoadState
    decreases |ts|
  {
    if ts == [] then st
    else LoadGroups(if IsRowGroup(ts[0]) then LoadRows(st, ts[0].children, read) else st, ts[1..], read)
  }

  /** The state after loading exactly the rows `rows`. */
  function Loaded(rows: seq<Node>, read: Node -> Option<Variant>): LoadState {
    LoadState(|rows|, MaxWidth(rows), LoadedCells(rows, read))
  }

  /** The cells of the rows before `n`. */
  function KeepRows(cells: map<(nat, nat), Variant>, n: nat): (r: map<(nat, nat), Variant>)
    ensures forall k :: k in r <==> k in cells && k.0 < n
    ensures forall k :: k in r ==> r[k] == cells[k]
  {
    map k | k in cells && k.0 < n :: cells[k]
  }

  /** The cells of the columns before `n`. */
  function KeepColumns(cells: map<(nat, nat), Variant>, n: nat): (r: map<(nat, nat), Variant>)
    ensures forall k :: k in r <==> k in cells && k.1 < n
    ensures forall k :: k in r ==> r[k] == cells[k]
  {
    map k | k in cells && k.1 < n :: cells[k]
  }

  class TableModel {
    var rowCount: nat
    var columnCount: nat
    var cells: map<(nat, nat), Variant>

    /** Every stored cell lies inside the extents. */
    ghost predicate Valid()
      reads this
    {
      forall k :: k in cells ==> k.0 < rowCount && k.1 < columnCount
    }

    constructor ()
      ensures Valid() && rowCount == 0 && columnCount == 0 && cells == map[]
    {
      rowCount := 0;
      columnCount := 0;
      cells := map[];
    }

    /** `data(index(r, c))`: the stored value, invalid when nothing is stored there. */
    function Data(r: nat, c: nat): Variant
      reads this
    {
      if (r, c) in cells then cells[(r, c)] else Invalid
    }

    /** `setRowCount(n)`: rows at or past `n` are dropped with their cells; new rows are empty. */
    method SetRowCount(n: nat)
      requires Valid()
      modifies this
      ensures Valid() && rowCount == n && columnCount == old(columnCount)
      ensures cells == KeepRows(old(cells), n)
      ensures n >= old(rowCount) ==> cells == old(cells)
    {
      rowCount := n;
      cells := KeepRows(cells, n);
    }

    /** `setColumnCount(n)`: columns at or past `n` are dropped with their cells; new columns are empty. */
    method SetColumnCount(n: nat)
      requires Valid()
      modifies this
      ensures Valid() && columnCount == n && rowCount == old(rowCount)
      ensures cells == KeepColumns(old(cells), n)
      ensures n >= old(columnCount) ==> cells == old(cells)
    {
      columnCount := n;
      cells := KeepColumns(cells, n);
    }

    /** `setData(index(r, c), v)`: stores `v` when the index is valid, and reports whether it was. */
    method SetData(r: nat, c: nat, v: Variant) returns (ok: bool)
      requires Valid()
      modifies this
      ensures Valid() && rowCount == old(rowCount) && columnCount == old(columnCount)
      ensures ok <==> r < rowCount && c < columnCount
      ensures cells == if ok then old(cells)[(r, c) := v] else old(cells)
    {
      ok := r < rowCount && c < columnCount;
      if ok {
        cells := cells[(r, c) := v];
      }
    }

    function State(): LoadState
      reads this
    {
      LoadState(rowCount, columnCount, cells)
    }

    /**
     * `loadOdf(tableElement)`: empties the model, then appends one row per
     * `table:table-row` of every row group, widening the model whenever a
     * row has more cells than any before it, and stores each cell's value.
     * The result says whether any row group was present.
     */
    method LoadOdf(table: Node, toDouble: string -> Double) returns (found: bool)
      requires Valid()
      modifies this
      ensures Valid()
      ensures State() == LoadGroups(LoadState(0, 0, map[]), ChildrenOf(table), CellReader(toDouble))
      ensures found == HasRowGroup(ChildrenOf(table))
      ensures State() == Loaded(TableRows(ChildrenOf(table)), CellReader(toDouble))
    {
      SetRowCount(0);
      SetColumnCount(0);
      NoRowsNoCells(cells);
      found := false;
      var ts := ChildrenOf(table);
      var i := 0;
      DropNone(ts);
      while i < |ts|
        invariant 0 <= i <= |ts|
        invariant Valid()
        invariant found == HasRowGroup(ts[..i])
        invariant LoadGroups(State(), ts[i..], CellReader(toDouble)) == LoadGroups(LoadState(0, 0, map[]), ts, CellReader(toDouble))
      {
        var n := ts[i];
        LoadGroupsUnfold(State(), ts, i, CellReader(toDouble));
        HasRowGroupStep(ts, i);
        if IsRowGroup(n) {
          found := true;
          LoadRowGroup(n.children, toDouble);
        }
        i := i + 1;
      }
      LoadedTable(ts, CellReader(toDouble));
    }

    /** The row loop of `loadOdf`, over the children of one row group. */
    method LoadRowGroup(rs: seq<Node>, toDouble: string -> Double)
      requires Valid()
      modifies this
      ensures Valid()
      ensures State() == LoadRows(old(State()), rs, CellReader(toDouble))
    {
      var j := 0;
      DropNone(rs);
      while j < |rs|
        invariant 0 <= j <= |rs|
        invariant Valid()
        invariant LoadRows(State(), rs[j..], CellReader(toDouble)) == LoadRows(old(State()), rs, CellReader(toDouble))
      {
        var r := rs[j];
        LoadRowsUnfold(State(), rs, j, CellReader(toDouble));
        if IsElement(r, TABLE_ROW) {
          ReadRow(r.children, toDouble);
        }
        j := j + 1;
      }
    }

    /** The cell loop of `loadOdf`: appends one row and reads the cells of a `table:table-row`. */
    method ReadRow(cs: seq<Node>, toDouble: string -> Double)
      requires Valid()
      modifies this
      ensures Valid()
      ensures State() == LoadCells(old(State()).(rows := old(rowCount) + 1), old(rowCount), 0, cs, CellReader(toDouble))
    {
      var row := rowCount;
      SetRowCount(rowCount + 1);
      ghost var start := State();
      var column := 0;
      var k := 0;
      DropNone(cs);
      while k < |cs|
        invariant 0 <= k <= |cs|
        invariant Valid() && rowCount == row + 1 && column <= columnCount
        invariant LoadCells(State(), row, column, cs[k..], CellReader(toDouble)) == LoadCells(start, row, 0, cs, CellReader(toDouble))
      {
        var c := cs[k];
        ghost var before := State();
        LoadCellsUnfold(before, row, column, cs, k, CellReader(toDouble));
        if IsElement(c, TABLE_CELL) {
          ReadCell(c, row, column, toDouble);
          assert State() == CellStep(before, row, column, CellReader(toDouble)(c));
          column := column + 1;
        }
        k := k + 1;
      }
    }

    /**
     * One `table:table-cell` of the row being loaded, at `column`: the model
     * widens by one column when the cell lies past the widest row so far,
     * and the cell's value, if it has one, is stored.
     */
    method ReadCell(c: Node, row: nat, column: nat, toDouble: string -> Double)
      requires Valid() && row < rowCount && column <= columnCount && c.Element?
      modifies this
      ensures Valid() && rowCount == old(rowCount)
      ensures columnCount == if column >= old(columnCount) then old(columnCount) + 1 else old(columnCount)
      ensures cells == if CellReader(toDouble)(c).Some? then old(cells)[(row, column) := CellReader(toDouble)(c).value] else old(cells)
    {
      assert CellReader(toDouble)(c) == CellValue(c, toDouble);
      if column >= columnCount {
        SetColumnCount(columnCount + 1);
      }
      var valueType := AttributeNS(c, OFFICE_VALUE_TYPE);
      var valueString := AttributeNS(c, OFFICE_VALUE);
      var valueElement := NamedItemNS(c.children, TEXT_P);
      if valueElement.None? && valueString == "" {
        // Even without a value it is still a cell.
        return;
      }
      if valueString == "" {
        valueString := TextOf(valueElement.value);
      }
      var value;
      if valueType == "float" {
        value := Dbl(toDouble(valueString));
      } else if valueType == "boolean" {
        value := Bool(ParseInt(valueString).GetOr(0) != 0);
      } else {
        value := Str(valueString);
      }
      var _ := SetData(row, column, value);
    }
  }

  /** A table without rows has no cells. */
  lemma NoRowsNoCells(cells: map<(nat, nat), Variant>)
    requires forall k :: k in cells ==> k.0 < 0
    ensures cells == map[]
  {
    forall k | k in cells
      ensures false
    {
    }
  }

  /** Loading the children `ts` of a table into an empty model loads exactly the rows of its row groups. */
  lemma LoadedTable(ts: seq<Node>, read: Node -> Option<Variant>)
    ensures LoadGroups(LoadState(0, 0, map[]), ts, read) == Loaded(TableRows(ts), read)
  {
    assert Loaded([], read) == LoadState(0, 0, map[]);
    LoadGroupsMeaning([], ts, read);
    AppendEmpty(TableRows(ts));
  }

  /** The outer loop at child `i` handles that child and goes on with the rest. */
  lemma LoadGroupsUnfold(st: LoadState, ts: seq<Node>, i: nat, read: Node -> Option<Variant>)
    requires i < |ts|
    ensures LoadGroups(st, ts[i..], read) ==
            LoadGroups(if IsRowGroup(ts[i]) then LoadRows(st, ts[i].children, read) else st, ts[i + 1..], read)
  {
    DropOne(ts, i);
  }

  /** The row loop at child `j` handles that child and goes on with the rest. */
  lemma LoadRowsUnfold(st: LoadState, rs: seq<Node>, j: nat, read: Node -> Option<Variant>)
    requires j < |rs|
    ensures LoadRows(st, rs[j..], read) ==
            LoadRows(if IsElement(rs[j], TABLE_ROW) then LoadRow(st, rs[j], read) else st, rs[j + 1..], read)
  {
    DropOne(rs, j);
  }

  /** The cell loop at child `k` handles that child and goes on with the rest. */
  lemma LoadCellsUnfold(st: LoadState, row: nat, column: nat, cs: seq<Node>, k: nat, read: Node -> Option<Variant>)
    requires k < |cs|
    ensures LoadCells(st, row, column, cs[k..], read) ==
            if IsElement(cs[k], TABLE_CELL) then LoadCells(CellStep(st, row, column, read(cs[k])), row, column + 1, cs[k + 1..], read)
            else LoadCells(st, row, column, cs[k + 1..], read)
  {
    DropOne(cs, k);
  }

  /** One more child of the table: it may be the first row group. */
  lemma HasRowGroupStep(ts: seq<Node>, i: nat)
    requires i < |ts|
    ensures HasRowGroup(ts[..i + 1]) <==> HasRowGroup(ts[..i]) || IsRowGroup(ts[i])
  {
    if IsRowGroup(ts[i]) {
      assert ts[..i + 1][i] == ts[i];
    }
    if HasRowGroup(ts[..i + 1]) && !IsRowGroup(ts[i]) {
      var w :| 0 <= w < i + 1 && IsRowGroup(ts[..i + 1][w]);
      assert ts[..i][w] == ts[..i + 1][w];
    }
    if HasRowGroup(ts[..i]) {
      var w :| 0 <= w < i && IsRowGroup(ts[..i][w]);
      assert ts[..i + 1][w] == ts[..i][w];
    }
  }

  // ---------------------------------------------------------------
  // What the loader computes: the loops append rows one by one.

  /** Appending a row adds that row's cells at the next row index and widens to fit it. */
  lemma LoadedAppend(rows: seq<Node>, r: Node, read: Node -> Option<Variant>)
    ensures LoadedCells(rows + [r], read) == LoadedCells(rows, read) + RowMap(|rows|, RowCells(r), read)
    ensures MaxWidth(rows + [r]) == Max(MaxWidth(rows), |RowCells(r)|)
  {
    TakeOfAppend(rows, [r]);
  }

  /** One more cell in a row: its value, if any, is stored at the next column. */
  lemma RowMapAppend(i: nat, done: seq<Node>, c: Node, read: Node -> Option<Variant>)
    ensures RowMap(i, done + [c], read) ==
      RowMap(i, done, read) + (if read(c).Some? then map[(i, |done|) := read(c).value] else map[])
  {
    TakeOfAppend(done, [c]);
  }

  /** The cells of `cs` that the cell loop reads first: the first child, when it is a cell. */
  function HeadCell(cs: seq<Node>): seq<Node>
    requires cs != []
  {
    if IsElement(cs[0], TABLE_CELL) then [cs[0]] else []
  }

  /** The state the cell loop is in after reading the row's cells `done`. */
  function CellsRead(n: nat, width: nat, base: map<(nat, nat), Variant>, done: seq<Node>, read: Node -> Option<Variant>): LoadState {
    LoadState(n + 1, Max(width, |done|), base + RowMap(n, done, read))
  }

  /** Selecting from a non-empty sequence: the first child if it has the name, then the rest. */
  lemma SelectSplit(prefix: seq<Node>, cs: seq<Node>, q: QName)
    requires cs != []
    ensures prefix + Select(cs, q) == (prefix + (if IsElement(cs[0], q) then [cs[0]] else [])) + Select(cs[1..], q)
  {
    AppendAssoc(prefix, if IsElement(cs[0], q) then [cs[0]] else [], Select(cs[1..], q));
  }

  /** The rows of a non-empty sequence of table children: those of the first child, then the rest. */
  lemma TableRowsSplit(prefix: seq<Node>, ts: seq<Node>)
    requires ts != []
    ensures prefix + TableRows(ts) == (prefix + HeadGroupRows(ts)) + TableRows(ts[1..])
  {
    AppendAssoc(prefix, HeadGroupRows(ts), TableRows(ts[1..]));
  }

  /** Reading one more cell of the row is appending it to the cells read. */
  lemma CellsReadStep(n: nat, width: nat, base: map<(nat, nat), Variant>, done: seq<Node>, c: Node, read: Node -> Option<Variant>)
    ensures CellStep(CellsRead(n, width, base, done, read), n, |done|, read(c)) == CellsRead(n, width, base, done + [c], read)
  {
    RowMapAppend(n, done, c, read);
    var m: map<(nat, nat), Variant> := if read(c).Some? then map[(n, |done|) := read(c).value] else map[];
    MapUnionUpdate(base, RowMap(n, done, read), (n, |done|), if read(c).Some? then read(c).value else Invalid);
    assert base + RowMap(n, done + [c], read) == base + (RowMap(n, done, read) + m);
  }

  /** One step of the cell loop reads the first child if it is a cell. */
  lemma LoadCellsStep(n: nat, width: nat, base: map<(nat, nat), Variant>, done: seq<Node>, cs: seq<Node>, read: Node -> Option<Variant>)
    requires cs != []
    ensures LoadCells(CellsRead(n, width, base, done, read), n, |done|, cs, read)
         == LoadCells(CellsRead(n, width, base, done + HeadCell(cs), read), n, |done + HeadCell(cs)|, cs[1..], read)
  {
    if IsElement(cs[0], TABLE_CELL) {
      CellsReadStep(n, width, base, done, cs[0], read);
    } else {
      AppendEmpty(done);
    }
  }

  /**
   * The cell loop, started part-way through a row whose cells `done` are
   * already read, ends with the whole row read: the model is as wide as
   * the widest row so far, and the row's valued cells are stored.
   */
  lemma {:induction false} LoadCellsMeaning(
    n: nat, width: nat, base: map<(nat, nat), Variant>, done: seq<Node>, cs: seq<Node>, read: Node -> Option<Variant>)
    ensures LoadCells(CellsRead(n, width, base, done, read), n, |done|, cs, read)
         == CellsRead(n, width, base, done + Select(cs, TABLE_CELL), read)
    decreases |cs|
  {
    if cs == [] {
      AppendEmpty(done);
    } else {
      LoadCellsStep(n, width, base, done, cs, read);
      SelectSplit(done, cs, TABLE_CELL);
      LoadCellsMeaning(n, width, base, done + HeadCell(cs), cs[1..], read);
    }
  }

  /** Reading one `table:table-row` appends it to the rows loaded so far. */
  lemma LoadRowMeaning(rows: seq<Node>, r: Node, read: Node -> Option<Variant>)
    requires r.Element?
    ensures LoadRow(Loaded(rows, read), r, read) == Loaded(rows + [r], read)
  {
    var n := |rows|;
    assert Loaded(rows, read).(rows := n + 1) == CellsRead(n, MaxWidth(rows), LoadedCells(rows, read), [], read);
    LoadCellsMeaning(n, MaxWidth(rows), LoadedCells(rows, read), [], r.children, read);
    AppendEmpty(Select(r.children, TABLE_CELL));
    LoadedAppend(rows, r, read);
  }

  /** The rows of `rs` that the row loop reads first: the first child, when it is a row. */
  function HeadRow(rs: seq<Node>): seq<Node>
    requires rs != []
  {
    if IsElement(rs[0], TABLE_ROW) then [rs[0]] else []
  }

  /** One step of the row loop appends the first child if it is a row. */
  lemma LoadRowsStep(rows: seq<Node>, rs: seq<Node>, read: Node -> Option<Variant>)
    requires rs != []
    ensures LoadRows(Loaded(rows, read), rs, read) == LoadRows(Loaded(rows + HeadRow(rs), read), rs[1..], read)
  {
    if IsElement(rs[0], TABLE_ROW) {
      LoadRowMeaning(rows, rs[0], read);
    } else {
      AppendEmpty(rows);
    }
  }

  /** The row loop appends the group's `table:table-row` children to the rows loaded so far. */
  lemma {:induction false} LoadRowsMeaning(rows: seq<Node>, rs: seq<Node>, read: Node -> Option<Variant>)
    ensures LoadRows(Loaded(rows, read), rs, read) == Loaded(rows + Select(rs, TABLE_ROW), read)
    decreases |rs|
  {
    if rs == [] {
      AppendEmpty(rows);
    } else {
      LoadRowsStep(rows, rs, read);
      SelectSplit(rows, rs, TABLE_ROW);
      LoadRowsMeaning(rows + HeadRow(rs), rs[1..], read);
    }
  }

  /** The rows of `ts` that the outer loop reads first: those of the first child, when it is a row group. */
  function HeadGroupRows(ts: seq<Node>): seq<Node>
    requires ts != []
  {
    if IsRowGroup(ts[0]) then Select(ts[0].children, TABLE_ROW) else []
  }

  /** One step of the outer loop appends the rows of the first child if it is a row group. */
  lemma LoadGroupsStep(rows: seq<Node>, ts: seq<Node>, read: Node -> Option<Variant>)
    requires ts != []
    ensures LoadGroups(Loaded(rows, read), ts, read) == LoadGroups(Loaded(rows + HeadGroupRows(ts), read), ts[1..], read)
  {
    if IsRowGroup(ts[0]) {
      LoadRowsMeaning(rows, ts[0].children, read);
    } else {
      AppendEmpty(rows);
    }
  }

  /** The outer loop appends the rows of every row group to the rows loaded so far. */
  lemma {:induction false} LoadGroupsMeaning(rows: seq<Node>, ts: seq<Node>, read: Node -> Option<Variant>)
    ensures LoadGroups(Loaded(rows, read), ts, read) == Loaded(rows + TableRows(ts), read)
    decreases |ts|
  {
    if ts == [] {
      AppendEmpty(rows);
    } else {
      LoadGroupsStep(rows, ts, read);
      TableRowsSplit(rows, ts);
      LoadGroupsMeaning(rows + HeadGroupRows(ts), ts[1..], read);
    }
  }

  // ---------------------------------------------------------------
  // Stubs of the cell-region interface.

  /** `cellRegion()`: unimplemented; no named regions. */
  function CellRegion(): (r: map<string, seq<(int, int, int, int)>>)
    ensures |r| == 0
  {
    map[]
  }

  /** `setCellRegion(name)`: unimplemented; accepts every name. */
  function SetCellRegion(regionName: string): (accepted: bool)
    ensures accepted
  {
    true
  }

  /** `isCellRegionValid(name)`: unimplemented; every name is valid. */
  function IsCellRegionValid(regionName: string): (valid: bool)
    ensures valid
  {
    true
  }

  // ---------------------------------------------------------------
  // What the loaded table holds.

  /** Row `i` of `RowMap` holds exactly the cells with a value, at their position among the row's cells. */
  lemma {:induction false} RowMapMeaning(i: nat, cells: seq<Node>, read: Node -> Option<Variant>, r: nat, c: nat)
    ensures (r, c) in RowMap(i, cells, read) <==>
      r == i && c < |cells| && read(cells[c]).Some?
    ensures (r, c) in RowMap(i, cells, read) ==>
      RowMap(i, cells, read)[(r, c)] == read(cells[c]).value
    decreases |cells|
  {
    if cells != [] {
      var j := |cells| - 1;
      RowMapMeaning(i, cells[..j], read, r, c);
      if c < j {
        assert cells[..j][c] == cells[c];
      }
    }
  }

  /**
   * The loaded table stores a value at (i, j) exactly when row `i` has a
   * `j`-th cell and that cell holds a value, and it stores that value.
   */
  lemma {:induction false} LoadedCellsMeaning(rows: seq<Node>, read: Node -> Option<Variant>, i: nat, j: nat)
    ensures (i, j) in LoadedCells(rows, read) <==>
      i < |rows| && j < |RowCells(rows[i])| && read(RowCells(rows[i])[j]).Some?
    ensures (i, j) in LoadedCells(rows, read) ==>
      LoadedCells(rows, read)[(i, j)] == read(RowCells(rows[i])[j]).value
    decreases |rows|
  {
    if rows != [] {
      var n := |rows| - 1;
      LoadedCellsMeaning(rows[..n], read, i, j);
      RowMapMeaning(n, RowCells(rows[n]), read, i, j);
      if i < n {
        assert rows[..n][i] == rows[i];
      }
    }
  }

  /** The model is as wide as its widest row: no row is wider, and some row is that wide. */
  lemma {:induction false} MaxWidthIsWidest(rows: seq<Node>)
    ensures forall i :: 0 <= i < |rows| ==> |RowCells(rows[i])| <= MaxWidth(rows)
    ensures |rows| > 0 ==> exists i :: 0 <= i < |rows| && |RowCells(rows[i])| == MaxWidth(rows)
    ensures |rows| == 0 ==> MaxWidth(rows) == 0
  {
    if rows != [] {
      var n := |rows| - 1;
      var prefix := rows[..n];
      MaxWidthIsWidest(prefix);
      assert MaxWidth(rows) == Max(MaxWidth(prefix), |RowCells(rows[n])|);
      forall i | 0 <= i < n
        ensures |RowCells(rows[i])| <= MaxWidth(rows)
      {
        assert prefix[i] == rows[i];
      }
      if n > 0 && MaxWidth(prefix) >= |RowCells(rows[n])| {
        var w :| 0 <= w < n && |RowCells(prefix[w])| == MaxWidth(prefix);
        assert prefix[w] == rows[w];
      }
    }
  }

  /** Every loaded cell lies inside the loaded extents. */
  lemma LoadedCellsInBounds(rows: seq<Node>, read: Node -> Option<Variant>, i: nat, j: nat)
    ensures (i, j) in LoadedCells(rows, read) ==> i < |rows| && j < MaxWidth(rows)
  {
    LoadedCellsMeaning(rows, read, i, j);
    MaxWidthIsWidest(rows);
  }
}
