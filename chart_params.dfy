/**
 * KDChartParams (kchart/kdchart/KDChartParams.cpp): the bookkeeping part of
 * the chart parameters. A map from dataset number to the dataset's source
 * mode and chart, assigned by ranges and queried by ranges; the data colours
 * with their wrap-around lookup; and the default activation of the axes.
 */
module ChartParams {
  import opened Base
  import opened QMaps

  const KDCHART_MAX_AXES: nat := 12
  const KDCHART_ALL_DATASETS: uint32 := UINT_MAX - 1
  const KDCHART_NO_DATASET: uint32 := UINT_MAX
  const KDCHART_UNKNOWN_CHART: uint32 := UINT_MAX - 2

  /** What a dataset is used for (KDChartParams::SourceMode). */
  datatype SourceMode = UnknownMode | DontUse | DataEntry | AxisLabel | LegendText | ExtraLinesAnchor

  datatype ModeAndChart = ModeAndChart(mode: SourceMode, chart: uint32)

  /**
   * The chart types the switches of this file name; `OtherType` stands for
   * every other type, which the switches treat like their default branch.
   */
  datatype ChartType = NoType | Bar | Line | Area | Pie | OtherType

  /** The two settings of an axis that `activateDefaultAxes` touches. */
  datatype AxisSettings = AxisSettings(visible: bool, datasets: uint32)

  const AXIS_POS_BOTTOM: nat := 0
  const AXIS_POS_LEFT: nat := 1

  /** Qt's named colours given to datasets 0 to 11 by the constructor. */
  const DEFAULT_DATA_COLORS: seq<Color> := [
    Rgb(255, 0, 0), Rgb(0, 255, 0), Rgb(0, 0, 255),
    Rgb(0, 255, 255), Rgb(255, 0, 255), Rgb(255, 255, 0),
    Rgb(128, 0, 0), Rgb(0, 128, 0), Rgb(0, 0, 128),
    Rgb(0, 128, 128), Rgb(128, 0, 128), Rgb(128, 128, 0)
  ]

  function Max(a: uint32, b: uint32): uint32 {
    if a < b then b else a
  }

  // ---------------------------------------------------------------
  // Source modes

  /** `setChartSourceMode` assigns a range for these arguments. */
  predicate AssignsRange(dataset: uint32, dataset2: uint32) {
    dataset != KDCHART_NO_DATASET && dataset != KDCHART_ALL_DATASETS && dataset2 != KDCHART_ALL_DATASETS
  }

  /** The last dataset of an assigned range: `dataset` alone when `dataset2` is NO_DATASET. */
  function RangeLast(dataset: uint32, dataset2: uint32): uint32 {
    if dataset2 == KDCHART_NO_DATASET then dataset else dataset2
  }

  /**
   * Over the datasets `a` to `b` that have an entry: the mode they share with
   * the entry of `a`, or UnknownMode, and likewise the chart.
   */
  ghost function RangeMerge(m: QMap<ModeAndChart>, a: uint32, b: uint32): (SourceMode, uint32)
    requires Lookup(m, a).Some?
  {
    var first := Lookup(m, a).value;
    (if forall k: uint32 :: a <= k <= b && Lookup(m, k).Some? ==> Lookup(m, k).value.mode == first.mode
     then first.mode else UnknownMode,
     if forall k: uint32 :: a <= k <= b && Lookup(m, k).Some? ==> Lookup(m, k).value.chart == first.chart
     then first.chart else KDCHART_UNKNOWN_CHART)
  }

  /** The range `chartSourceMode` walks: everything for ALL_DATASETS, else `dataset` to `RangeLast`. */
  function QueryRange(dataset: uint32, dataset2: uint32): (uint32, uint32) {
    if dataset == KDCHART_ALL_DATASETS then (0, UINT_MAX) else (dataset, RangeLast(dataset, dataset2))
  }

  /**
   * What `chartSourceMode` answers for a map `m`, its "was used" flag and its
   * largest dataset: DataEntry and chart 0 before any assignment; otherwise
   * the merge over the queried range, and UnknownMode / UNKNOWN_CHART when
   * the range reaches past the largest dataset, when no entry has the
   * range's first key, or when the range is empty.
   */
  ghost function SourceModeSpec(m: QMap<ModeAndChart>, used: bool, maxDataset: uint32, dataset: uint32, dataset2: uint32): (SourceMode, uint32) {
    if !used then (DataEntry, 0)
    else if !(dataset <= maxDataset && (dataset2 == KDCHART_NO_DATASET || dataset2 <= maxDataset)) then
      (UnknownMode, KDCHART_UNKNOWN_CHART)
    else
      var (a, b) := QueryRange(dataset, dataset2);
      if Lookup(m, a).None? || b < a then (UnknownMode, KDCHART_UNKNOWN_CHART)
      else RangeMerge(m, a, b)
  }

  predicate SameMode(m: QMap<ModeAndChart>, lo: nat, hi: nat, mode: SourceMode)
    requires lo <= hi <= |m|
  {
    forall j :: lo <= j < hi ==> m[j].1.mode == mode
  }

  predicate SameChart(m: QMap<ModeAndChart>, lo: nat, hi: nat, chart: uint32)
    requires lo <= hi <= |m|
  {
    forall j :: lo <= j < hi ==> m[j].1.chart == chart
  }

  /**
   * The entries at positions `start` to `end` of a sorted map are exactly
   * those whose keys lie between the key at `start` and `b`: the key-wise
   * merge is the position-wise one.
   */
  lemma RangeMergeByPosition(m: QMap<ModeAndChart>, b: uint32, start: nat, end: nat)
    requires Sorted(m) && start < end <= |m|
    requires forall j :: start <= j < end ==> m[j].0 <= b
    requires end < |m| ==> b < m[end].0
    ensures Lookup(m, m[start].0) == Some(m[start].1)
    ensures RangeMerge(m, m[start].0, b) ==
      (if SameMode(m, start, end, m[start].1.mode) then m[start].1.mode else UnknownMode,
       if SameChart(m, start, end, m[start].1.chart) then m[start].1.chart else KDCHART_UNKNOWN_CHART)
  {
    var a := m[start].0;
    var first := m[start].1;
    LookupAt(m, start);
    forall j | start <= j < end
      ensures a <= m[j].0 <= b && Lookup(m, m[j].0) == Some(m[j].1)
    {
      LookupAt(m, j);
    }
    forall k: uint32 | a <= k <= b && Lookup(m, k).Some?
      ensures exists j :: start <= j < end && Lookup(m, k).value == m[j].1
    {
      var j := Find(m, k);
      assert start <= j < end;
    }
  }

  /**
   * Querying exactly a range that was assigned gives back the assigned
   * mode and chart, whatever entries lie outside it.
   */
  lemma QueryAfterAssign(m: QMap<ModeAndChart>, maxDataset: uint32, mode: SourceMode, dataset: uint32, dataset2: uint32, chart: uint32)
    requires AssignsRange(dataset, dataset2)
    requires dataset <= RangeLast(dataset, dataset2) <= maxDataset
    requires forall k: uint32 :: dataset <= k <= RangeLast(dataset, dataset2) ==> Lookup(m, k) == Some(ModeAndChart(mode, chart))
    ensures SourceModeSpec(m, true, maxDataset, dataset, dataset2) == (mode, chart)
  {
    var last := RangeLast(dataset, dataset2);
    assert Lookup(m, dataset) == Some(ModeAndChart(mode, chart));
    assert QueryRange(dataset, dataset2) == (dataset, last);
  }

  /**
   * The range check comes before the ALL_DATASETS case: since the largest
   * dataset stays below ALL_DATASETS, a query for all datasets always
   * answers UnknownMode / UNKNOWN_CHART once the map is in use.
   */
  lemma AllDatasetsQueryUnknown(m: QMap<ModeAndChart>, maxDataset: uint32, dataset2: uint32)
    requires maxDataset < KDCHART_ALL_DATASETS
    ensures SourceModeSpec(m, true, maxDataset, KDCHART_ALL_DATASETS, dataset2) == (UnknownMode, KDCHART_UNKNOWN_CHART)
  {
  }

  /**
   * The query evidently intended for ALL_DATASETS: the merge over every
   * entry, starting from the one with the smallest key; other queries as
   * `SourceModeSpec`.
   */
  ghost function SourceModeIntended(m: QMap<ModeAndChart>, used: bool, maxDataset: uint32, dataset: uint32, dataset2: uint32): (SourceMode, uint32)
    requires Sorted(m)
  {
    if used && dataset == KDCHART_ALL_DATASETS then
      if m == [] then (UnknownMode, KDCHART_UNKNOWN_CHART)
      else LookupAt(m, 0); RangeMerge(m, m[0].0, UINT_MAX)
    else SourceModeSpec(m, used, maxDataset, dataset, dataset2)
  }

  /**
   * With the intended query, asking for all datasets gives the mode and
   * chart every entry shares, and UnknownMode as soon as two entries differ
   * in mode.
   */
  lemma AllDatasetsQueryIntended(m: QMap<ModeAndChart>, maxDataset: uint32, dataset2: uint32)
    requires Sorted(m) && m != []
    ensures (forall i :: 0 <= i < |m| ==> m[i].1 == m[0].1) ==>
      SourceModeIntended(m, true, maxDataset, KDCHART_ALL_DATASETS, dataset2) == (m[0].1.mode, m[0].1.chart)
    ensures (exists i :: 0 <= i < |m| && m[i].1.mode != m[0].1.mode) ==>
      SourceModeIntended(m, true, maxDataset, KDCHART_ALL_DATASETS, dataset2).0 == UnknownMode
  {
    RangeMergeByPosition(m, UINT_MAX, 0, |m|);
  }

  // ---------------------------------------------------------------
  // Finding a dataset

  /** The first position at or after `from` whose entry is `mc`, or `|m|`. */
  function FirstMatch(m: QMap<ModeAndChart>, mc: ModeAndChart, from: nat): (r: nat)
    requires from <= |m|
    ensures from <= r <= |m|
    ensures forall i :: from <= i < r ==> m[i].1 != mc
    ensures r < |m| ==> m[r].1 == mc
    decreases |m| - from
  {
    if from == |m| || m[from].1 == mc then from else FirstMatch(m, mc, from + 1)
  }

  /** The first position at or after `from` whose entry is not `mc`, or `|m|`. */
  function RunEnd(m: QMap<ModeAndChart>, mc: ModeAndChart, from: nat): (r: nat)
    requires from <= |m|
    ensures from <= r <= |m|
    ensures forall i :: from <= i < r ==> m[i].1 == mc
    ensures r < |m| ==> m[r].1 != mc
    decreases |m| - from
  {
    if from == |m| || m[from].1 != mc then from else RunEnd(m, mc, from + 1)
  }

  /**
   * The run `findDataset` reports, read by key: no smaller dataset has the
   * mode and chart, and every dataset from the run's first to its last that
   * has an entry has exactly that mode and chart.
   */
  lemma FirstRunMeaning(m: QMap<ModeAndChart>, mc: ModeAndChart)
    requires Sorted(m) && FirstMatch(m, mc, 0) < |m|
    ensures var s := FirstMatch(m, mc, 0);
      var e := RunEnd(m, mc, s) - 1;
      s <= e &&
      Lookup(m, m[s].0) == Some(mc) && Lookup(m, m[e].0) == Some(mc) &&
      (forall k: uint32 :: k < m[s].0 ==> Lookup(m, k) != Some(mc)) &&
      (forall k: uint32 :: m[s].0 <= k <= m[e].0 && Lookup(m, k).Some? ==> Lookup(m, k) == Some(mc))
  {
    var s := FirstMatch(m, mc, 0);
    var e := RunEnd(m, mc, s) - 1;
    LookupAt(m, s);
    LookupAt(m, e);
    forall k: uint32 | Lookup(m, k).Some?
      ensures var i := Find(m, k); Lookup(m, k) == Some(m[i].1) && m[i].0 == k
    {
    }
    forall k: uint32 | k < m[s].0 && Lookup(m, k).Some?
      ensures Lookup(m, k) != Some(mc)
    {
      var i := Find(m, k);
      assert i < s;
    }
    forall k: uint32 | m[s].0 <= k <= m[e].0 && Lookup(m, k).Some?
      ensures Lookup(m, k) == Some(mc)
    {
      var i := Find(m, k);
      assert s <= i <= e;
    }
  }

  // ---------------------------------------------------------------
  // Axes

  /** The settings `activateDefaultAxes` leaves on axis `i` for chart type `t`. */
  function DefaultAxis(t: ChartType, i: nat): AxisSettings {
    if (t == Bar || t == Line || t == Area) && (i == AXIS_POS_BOTTOM || i == AXIS_POS_LEFT) then
      AxisSettings(true, KDCHART_ALL_DATASETS)
    else
      AxisSettings(false, KDCHART_NO_DATASET)
  }

  /**
   * Bar, line and area charts get exactly the bottom and the left axis, both
   * over all datasets; every other chart type gets no axis; an axis is
   * visible exactly when it covers all datasets.
   */
  lemma DefaultAxesMeaning(t: ChartType, i: nat)
    requires i < KDCHART_MAX_AXES
    ensures DefaultAxis(t, i).visible <==> DefaultAxis(t, i).datasets == KDCHART_ALL_DATASETS
    ensures DefaultAxis(t, i).visible <==> (t == Bar || t == Line || t == Area) && (i == AXIS_POS_BOTTOM || i == AXIS_POS_LEFT)
    ensures !DefaultAxis(t, i).visible ==> DefaultAxis(t, i).datasets == KDCHART_NO_DATASET
  {
  }

  // ---------------------------------------------------------------
  // Default data colours

  /** The data colours after the constructor's first `n` calls of `setDataColor`. */
  ghost function DefaultColorsAfter(n: nat): (m: QMap<Color>)
    requires n <= |DEFAULT_DATA_COLORS|
    ensures Sorted(m)
  {
    if n == 0 then [] else Insert(DefaultColorsAfter(n - 1), (n - 1) as uint32, DEFAULT_DATA_COLORS[n - 1])
  }

  /** After those calls, datasets 0 to n - 1 have their default colours and no other dataset has one. */
  lemma {:induction false} DefaultColorsLookup(n: nat, d: uint32)
    requires n <= |DEFAULT_DATA_COLORS|
    ensures Lookup(DefaultColorsAfter(n), d) == if d < n then Some(DEFAULT_DATA_COLORS[d]) else None
  {
    if n > 0 {
      DefaultColorsLookup(n - 1, d);
      InsertLookup(DefaultColorsAfter(n - 1), (n - 1) as uint32, DEFAULT_DATA_COLORS[n - 1], d);
    }
  }

  // ---------------------------------------------------------------

  class Params {
    var chartType: ChartType
    var dataSourceModeAndChart: QMap<ModeAndChart>
    var maxDatasetSourceMode: uint32
    var setChartSourceModeWasUsed: bool
    var dataColors: QMap<Color>
    var maxDatasetColor: uint32
    const axes: array<AxisSettings>

    /** The data colours are a map whose keys never exceed the largest dataset given a colour. */
    ghost predicate ColorsValid()
      reads this
    {
      Sorted(dataColors) && forall k: uint32 :: Lookup(dataColors, k).Some? ==> k <= maxDatasetColor
    }

    /**
     * The source-mode map never holds a dataset above `maxDatasetSourceMode`,
     * and it is empty until the first assignment.
     */
    ghost predicate SourceModesValid()
      reads this
    {
      Sorted(dataSourceModeAndChart) &&
      (forall k: uint32 :: Lookup(dataSourceModeAndChart, k).Some? ==> k <= maxDatasetSourceMode) &&
      (!setChartSourceModeWasUsed ==> dataSourceModeAndChart == [])
    }

    /**
     * `maxDatasetSourceMode` stays below the reserved numbers ALL_DATASETS
     * and NO_DATASET: the constructor starts it at 0 and an assignment only
     * raises it to a dataset that is not reserved.
     */
    ghost predicate BelowReserved()
      reads this
    {
      maxDatasetSourceMode < KDCHART_ALL_DATASETS
    }

    ghost predicate Valid()
      reads this
    {
      axes.Length == KDCHART_MAX_AXES && SourceModesValid() && ColorsValid() && 0 < maxDatasetColor
    }

    /**
     * The part of the constructor this model covers: bar charts, no source
     * modes assigned, the twelve default data colours, and the default axes.
     */
    constructor ()
      ensures Valid() && BelowReserved()
      ensures chartType == Bar
      ensures dataSourceModeAndChart == [] && maxDatasetSourceMode == 0 && !setChartSourceModeWasUsed
      ensures maxDatasetColor == 11
      ensures forall d: uint32 :: Lookup(dataColors, d) == if d < 12 then Some(DEFAULT_DATA_COLORS[d]) else None
      ensures forall i :: 0 <= i < KDCHART_MAX_AXES ==> axes[i] == DefaultAxis(Bar, i)
    {
      chartType := Bar;
      maxDatasetColor := 0;
      maxDatasetSourceMode := 0;
      setChartSourceModeWasUsed := false;
      dataSourceModeAndChart := [];
      dataColors := [];
      axes := new AxisSettings[KDCHART_MAX_AXES](_ => AxisSettings(false, KDCHART_NO_DATASET));
      new;
      SetDefaultDataColors();
      ActivateDefaultAxes();
    }

    /**
     * The constructor's twelve `setDataColor` calls, datasets 0 to 11 in
     * order, written here as one loop over the palette.
     */
    method SetDefaultDataColors()
      requires dataColors == [] && maxDatasetColor == 0
      modifies this`dataColors, this`maxDatasetColor
      ensures ColorsValid() && maxDatasetColor == 11
      ensures forall d: uint32 :: Lookup(dataColors, d) == if d < 12 then Some(DEFAULT_DATA_COLORS[d]) else None
    {
      var k := 0;
      while k < |DEFAULT_DATA_COLORS|
        invariant k <= |DEFAULT_DATA_COLORS|
        invariant dataColors == DefaultColorsAfter(k) && ColorsValid()
        invariant maxDatasetColor == if k == 0 then 0 else k - 1
      {
        SetDataColor(k as uint32, DEFAULT_DATA_COLORS[k]);
        k := k + 1;
      }
      forall d: uint32
        ensures Lookup(dataColors, d) == if d < 12 then Some(DEFAULT_DATA_COLORS[d]) else None
      {
        DefaultColorsLookup(k, d);
      }
    }

    /**
     * Range assignment. For a proper range every dataset from `dataset` to
     * `RangeLast` gets `(mode, chart)` and every other entry is kept; the
     * largest dataset becomes at least the range's last one (one below
     * `dataset` when the range is empty), and the map counts as used.
     * UnknownMode for ALL_DATASETS empties the map and marks it unused;
     * any other argument combination changes nothing.
     */
    method SetChartSourceMode(mode: SourceMode, dataset: uint32, dataset2: uint32, chart: uint32)
      requires Valid()
      modifies this`dataSourceModeAndChart, this`maxDatasetSourceMode, this`setChartSourceModeWasUsed
      ensures Valid()
      ensures old(BelowReserved()) ==> BelowReserved()
      ensures AssignsRange(dataset, dataset2) ==>
        setChartSourceModeWasUsed &&
        maxDatasetSourceMode ==
          Max(old(maxDatasetSourceMode), if dataset <= RangeLast(dataset, dataset2) then RangeLast(dataset, dataset2) else dataset - 1) &&
        forall k: uint32 :: Lookup(dataSourceModeAndChart, k) ==
          if dataset <= k <= RangeLast(dataset, dataset2) then Some(ModeAndChart(mode, chart))
          else old(Lookup(dataSourceModeAndChart, k))
      ensures !AssignsRange(dataset, dataset2) && mode == UnknownMode && dataset == KDCHART_ALL_DATASETS ==>
        dataSourceModeAndChart == [] && !setChartSourceModeWasUsed && maxDatasetSourceMode == old(maxDatasetSourceMode)
      ensures !AssignsRange(dataset, dataset2) && !(mode == UnknownMode && dataset == KDCHART_ALL_DATASETS) ==>
        dataSourceModeAndChart == old(dataSourceModeAndChart) &&
        maxDatasetSourceMode == old(maxDatasetSourceMode) &&
        setChartSourceModeWasUsed == old(setChartSourceModeWasUsed)
    {
      if AssignsRange(dataset, dataset2) {
        var last := RangeLast(dataset, dataset2);
        var i: int := dataset;
        while i <= last
          invariant dataset <= i && (i == dataset || i <= last + 1)
          invariant Sorted(dataSourceModeAndChart)
          invariant maxDatasetSourceMode == old(maxDatasetSourceMode)
          invariant forall k: uint32 :: Lookup(dataSourceModeAndChart, k) ==
                                        (if dataset <= k < i then Some(ModeAndChart(mode, chart)) else old(Lookup(dataSourceModeAndChart, k)))
          decreases last + 1 - i
        {
          forall k: uint32
            ensures Lookup(Insert(dataSourceModeAndChart, i, ModeAndChart(mode, chart)), k) ==
              if k == i then Some(ModeAndChart(mode, chart)) else Lookup(dataSourceModeAndChart, k)
          {
            InsertLookup(dataSourceModeAndChart, i, ModeAndChart(mode, chart), k);
          }
          dataSourceModeAndChart := Insert(dataSourceModeAndChart, i, ModeAndChart(mode, chart));
          i := i + 1;
        }
        assert i == if dataset <= last then last + 1 else dataset;
        assert last < KDCHART_ALL_DATASETS;
        i := i - 1;
        maxDatasetSourceMode := Max(maxDatasetSourceMode, i);
        setChartSourceModeWasUsed := true;
        forall k: uint32 | Lookup(dataSourceModeAndChart, k).Some?
          ensures k <= maxDatasetSourceMode
        {
          if !(dataset <= k <= i) {
            assert old(Lookup(dataSourceModeAndChart, k)).Some?;
          }
        }
      } else if mode == UnknownMode && dataset == KDCHART_ALL_DATASETS {
        dataSourceModeAndChart := [];
        setChartSourceModeWasUsed := false;
      }
    }

    /**
     * Range query: the source mode and chart of the datasets `dataset` to
     * `dataset2`, as `SourceModeSpec` states them.
     */
    method ChartSourceMode(dataset: uint32, dataset2: uint32) returns (mode: SourceMode, chart: uint32)
      requires Valid()
      ensures (mode, chart) ==
        SourceModeSpec(dataSourceModeAndChart, setChartSourceModeWasUsed, maxDatasetSourceMode, dataset, dataset2)
    {
      chart := KDCHART_UNKNOWN_CHART;
      mode := UnknownMode;
      if setChartSourceModeWasUsed {
        if dataset <= maxDatasetSourceMode && (dataset2 == KDCHART_NO_DATASET || dataset2 <= maxDatasetSourceMode) {
          var a: uint32, b: uint32;
          if dataset == KDCHART_ALL_DATASETS {
            a, b := 0, UINT_MAX;
          } else {
            a := dataset;
            b := if dataset2 == KDCHART_NO_DATASET then a else dataset2;
          }
          var m := dataSourceModeAndChart;
          var start := Find(m, a);
          var it := start;
          var bStart := true;
          while it < |m| && m[it].0 <= b
            invariant start <= it <= |m|
            invariant bStart <==> it == start
            invariant forall j :: start <= j < it ==> m[j].0 <= b
            invariant bStart ==> mode == UnknownMode && chart == KDCHART_UNKNOWN_CHART
            invariant !bStart ==> mode == if SameMode(m, start, it, m[start].1.mode) then m[start].1.mode else UnknownMode
            invariant !bStart ==> chart == if SameChart(m, start, it, m[start].1.chart) then m[start].1.chart else KDCHART_UNKNOWN_CHART
            decreases |m| - it
          {
            if bStart {
              mode := m[it].1.mode;
              chart := m[it].1.chart;
              bStart := false;
            } else {
              if mode != m[it].1.mode {
                mode := UnknownMode;
              }
              if chart != m[it].1.chart {
                chart := KDCHART_UNKNOWN_CHART;
              }
            }
            it := it + 1;
          }
          if start < it {
            RangeMergeByPosition(m, b, start, it);
          }
        }
      } else {
        mode := DataEntry;
        chart := 0;
      }
    }

    /**
     * The first run of consecutive entries (in key order) equal to
     * `(mode, chart)`: found exactly when some entry matches, and then the
     * run's first and last dataset. Before any assignment only DataEntry is
     * found, as ALL_DATASETS to ALL_DATASETS. When nothing is found the two
     * datasets passed in come back unchanged.
     */
    method FindDataset(mode: SourceMode, dataset: uint32, dataset2: uint32, chart: uint32)
      returns (res: bool, first: uint32, last: uint32)
      requires Valid()
      ensures !res ==> first == dataset && last == dataset2
      ensures !setChartSourceModeWasUsed ==>
        (res <==> mode == DataEntry) && (res ==> first == KDCHART_ALL_DATASETS && last == KDCHART_ALL_DATASETS)
      ensures setChartSourceModeWasUsed ==>
        var m := dataSourceModeAndChart;
        var s := FirstMatch(m, ModeAndChart(mode, chart), 0);
        (res <==> s < |m|) &&
        (res ==> first == m[s].0 && last == m[RunEnd(m, ModeAndChart(mode, chart), s) - 1].0)
    {
      res := false;
      first, last := dataset, dataset2;
      if setChartSourceModeWasUsed {
        var m := dataSourceModeAndChart;
        var mc := ModeAndChart(mode, chart);
        var bStart := true;
        var it := 0;
        while it < |m|
          invariant 0 <= it <= |m|
          invariant bStart ==> !res && first == dataset && last == dataset2
          invariant bStart ==> forall i :: 0 <= i < it ==> m[i].1 != mc
          invariant !bStart ==> res && FirstMatch(m, mc, 0) < it && first == m[FirstMatch(m, mc, 0)].0 && last == m[it - 1].0
          invariant !bStart ==> forall i :: FirstMatch(m, mc, 0) <= i < it ==> m[i].1 == mc
        {
          if m[it].1 == mc {
            if bStart {
              first := m[it].0;
              bStart := false;
            }
            last := m[it].0;
            res := true;
          } else if !bStart {
            return;
          }
          it := it + 1;
        }
      } else {
        if mode == DataEntry {
          first := KDCHART_ALL_DATASETS;
          last := KDCHART_ALL_DATASETS;
          res := true;
        }
      }
    }

    /** `setDataColor`: the colour of `dataset` and the largest dataset given a colour. */
    method SetDataColor(dataset: uint32, color: Color)
      requires Sorted(dataColors)
      modifies this`dataColors, this`maxDatasetColor
      ensures dataColors == Insert(old(dataColors), dataset, color)
      ensures maxDatasetColor == Max(old(maxDatasetColor), dataset)
      ensures old(ColorsValid()) ==> ColorsValid()
    {
      forall k: uint32
        ensures Lookup(Insert(dataColors, dataset, color), k) == if k == dataset then Some(color) else Lookup(dataColors, k)
      {
        InsertLookup(dataColors, dataset, color, k);
      }
      dataColors := Insert(dataColors, dataset, color);
      maxDatasetColor := Max(maxDatasetColor, dataset);
    }

    /**
     * `dataColor`: the colour stored for `dataset` modulo the largest dataset
     * given a colour, or an invalid colour when none is stored there.
     */
    function DataColor(dataset: uint32): (c: Color)
      requires Valid()
      reads this
      ensures dataset < maxDatasetColor ==> c == Lookup(dataColors, dataset).GetOr(InvalidColor)
    {
      ModOfSmaller(dataset, maxDatasetColor);
      Lookup(dataColors, dataset % maxDatasetColor).GetOr(InvalidColor)
    }

    /**
     * The lookup the palette evidently intends: modulo the number of
     * datasets up to the largest one given a colour, so that every dataset
     * given a colour gets its own.
     */
    function DataColorIntended(dataset: uint32): (c: Color)
      requires Valid()
      reads this
      ensures dataset <= maxDatasetColor ==> c == Lookup(dataColors, dataset).GetOr(InvalidColor)
    {
      ModOfSmaller(dataset, maxDatasetColor + 1);
      Lookup(dataColors, dataset % (maxDatasetColor + 1)).GetOr(InvalidColor)
    }

    /**
     * Every axis is first made invisible and given no dataset; bar, line and
     * area charts then get the bottom and left axes, visible over all
     * datasets.
     */
    method ActivateDefaultAxes()
      requires axes.Length == KDCHART_MAX_AXES
      modifies axes
      ensures forall i :: 0 <= i < KDCHART_MAX_AXES ==> axes[i] == DefaultAxis(chartType, i)
    {
      for i := 0 to KDCHART_MAX_AXES
        invariant forall j :: 0 <= j < i ==> axes[j] == AxisSettings(false, KDCHART_NO_DATASET)
      {
        axes[i] := axes[i].(visible := false);
        axes[i] := axes[i].(datasets := KDCHART_NO_DATASET);
      }
      match chartType
      case Bar | Line | Area =>
        axes[AXIS_POS_BOTTOM] := axes[AXIS_POS_BOTTOM].(visible := true);
        axes[AXIS_POS_BOTTOM] := axes[AXIS_POS_BOTTOM].(datasets := KDCHART_ALL_DATASETS);
        axes[AXIS_POS_LEFT] := axes[AXIS_POS_LEFT].(visible := true);
        axes[AXIS_POS_LEFT] := axes[AXIS_POS_LEFT].(datasets := KDCHART_ALL_DATASETS);
      case _ =>
    }
  }

  /** `dataColor` repeats with a period of the largest dataset given a colour. */
  lemma DataColorWraps(p: Params, dataset: uint32)
    requires p.Valid()
    ensures p.DataColor(dataset) == p.DataColor(dataset % p.maxDatasetColor)
  {
    ModPeriod(dataset, p.maxDatasetColor);
  }

  /**
   * After the constructor the largest dataset given a colour is 11, so
   * dataset 11 is drawn in dataset 0's red instead of its own dark yellow;
   * the intended lookup gives it dark yellow.
   */
  lemma DataColorAliasesAfterConstruction(p: Params)
    requires p.Valid() && p.maxDatasetColor == 11
    requires forall d: uint32 :: Lookup(p.dataColors, d) == if d < 12 then Some(DEFAULT_DATA_COLORS[d]) else None
    ensures Lookup(p.dataColors, 11) == Some(Rgb(128, 128, 0))
    ensures p.DataColor(11) == p.DataColor(0) == Rgb(255, 0, 0)
    ensures p.DataColorIntended(11) == Rgb(128, 128, 0)
  {
    assert Lookup(p.dataColors, 0) == Some(DEFAULT_DATA_COLORS[0]);
    assert Lookup(p.dataColors, 11) == Some(DEFAULT_DATA_COLORS[11]);
  }

  /** The intended lookup repeats with a period of one more than the largest dataset given a colour. */
  lemma DataColorIntendedWraps(p: Params, dataset: uint32)
    requires p.Valid()
    ensures p.DataColorIntended(dataset) == p.DataColorIntended(dataset % (p.maxDatasetColor + 1))
  {
    ModPeriod(dataset, p.maxDatasetColor + 1);
  }
}
