/**
 * monthlyCategoryBarChart: a stacked bar chart of the current year's
 * expenses, one bar per month from January to the current month, one stacked
 * segment per category.
 */
module MonthlyCategoryBar {
  import opened Common
  import opened Series
  import opened Charts

  /** One row of getCategoryWiseMonthlyExpenses: category, month index (0 = January), amount. */
  datatype Row = Row(category: string, month: int, total: int)

  /** `rawData.map(d => d.Category__c)`. */
  function CategoryColumn(rows: seq<Row>): (cs: seq<string>)
    ensures |cs| == |rows|
    ensures forall i :: 0 <= i < |rows| ==> cs[i] == rows[i].category
  {
    Map(rows, (r: Row) => r.category)
  }

  /** The sum of `total` over the rows of month `m`. */
  function SumMonth(rows: seq<Row>, m: int): int
  {
    if rows == [] then 0
    else (if rows[0].month == m then rows[0].total else 0) + SumMonth(rows[1..], m)
  }

  /** The months that occur in `rows`. */
  function MonthsOf(rows: seq<Row>): set<int>
  {
    set r | r in rows :: r.month
  }

  lemma {:induction false} SumMonthSnoc(rows: seq<Row>, r: Row, m: int)
    ensures SumMonth(rows + [r], m) == SumMonth(rows, m) + (if r.month == m then r.total else 0)
  {
    if rows == [] {
      assert [r][1..] == [];
    } else {
      assert (rows + [r])[1..] == rows[1..] + [r];
      SumMonthSnoc(rows[1..], r, m);
    }
  }

  /** A month in which no row falls sums to 0. */
  lemma {:induction false} SumMonthAbsent(rows: seq<Row>, m: int)
    requires m !in MonthsOf(rows)
    ensures SumMonth(rows, m) == 0
  {
    if rows != [] {
      assert rows[0] in rows;
      assert MonthsOf(rows[1..]) <= MonthsOf(rows) by {
        forall r | r in rows[1..] ensures r in rows { }
      }
      SumMonthAbsent(rows[1..], m);
    }
  }

  /**
   * The `forEach` that accumulates `monthlyTotals`: a month is a key exactly
   * when some row falls in it, and its value is the sum of that month's rows.
   */
  method MonthlyTotals(rows: seq<Row>) returns (totals: map<int, int>)
    ensures totals.Keys == MonthsOf(rows)
    ensures forall m :: m in totals ==> totals[m] == SumMonth(rows, m)
  {
    totals := map[];
    var i := 0;
    while i < |rows|
      invariant 0 <= i <= |rows|
      invariant totals.Keys == MonthsOf(rows[..i])
      invariant forall m :: m in totals ==> totals[m] == SumMonth(rows[..i], m)
    {
      var item := rows[i];
      if item.month !in totals || totals[item.month] == 0 {
        if item.month !in totals {
          SumMonthAbsent(rows[..i], item.month);
        }
        totals := totals[item.month := 0];
      }
      totals := totals[item.month := totals[item.month] + item.total];
      assert rows[..i + 1] == rows[..i] + [item];
      forall m ensures SumMonth(rows[..i + 1], m) == SumMonth(rows[..i], m) + (if item.month == m then item.total else 0) {
        SumMonthSnoc(rows[..i], item, m);
      }
      assert MonthsOf(rows[..i + 1]) == MonthsOf(rows[..i]) + {item.month};
      i := i + 1;
    }
    assert rows[..|rows|] == rows;
  }

  /** Row `r` is a candidate for the bar segment of category `cat` in month `m`. */
  predicate InCell(r: Row, cat: string, m: int) {
    r.month == m && r.category == cat
  }

  /**
   * The height of category `cat` in month `m`: the total of the FIRST row of
   * that month and category (`find`), 0 when there is none. Later rows of the
   * same month and category are not added.
   */
  function CellValue(rows: seq<Row>, cat: string, m: int): (v: int)
    ensures (forall j :: 0 <= j < |rows| ==> !InCell(rows[j], cat, m)) ==> v == 0
    ensures forall j ::
      (0 <= j < |rows| && InCell(rows[j], cat, m) && forall k :: 0 <= k < j ==> !InCell(rows[k], cat, m))
      ==> v == rows[j].total
  {
    match FindFirst(rows, (r: Row) => InCell(r, cat, m))
    case Some(j) => rows[j].total
    case None => 0
  }

  /** The month axis labels: month name and the summed total of that month. */
  function MonthLabels(rows: seq<Row>, currentMonth: nat): seq<MonthLabel>
    requires currentMonth < 12
  {
    seq(currentMonth + 1, m requires 0 <= m <= currentMonth => MonthLabel(MonthNames[m], SumMonth(rows, m)))
  }

  /** One dataset per category, each with one value per month of the axis. */
  function Datasets(rows: seq<Row>, categories: seq<string>, width: nat): seq<Dataset>
  {
    seq(|categories|, idx requires 0 <= idx < |categories| =>
      Dataset(categories[idx],
              seq(width, m requires 0 <= m < width => CellValue(rows, categories[idx], m)),
              Palette[idx % |Palette|]))
  }

  /**
   * The configuration `renderChart` builds: the axis runs over months
   * 0..currentMonth; there is one dataset per distinct category, in order of
   * first occurrence, each aligned with the axis and coloured by its index.
   */
  function BarChart(rows: seq<Row>, currentMonth: nat): (c: ChartConfig)
    requires currentMonth < 12
    ensures c.StackedBar?
    ensures |c.monthLabels| == currentMonth + 1
    ensures forall m :: 0 <= m <= currentMonth ==> c.monthLabels[m].month == MonthNames[m]
    ensures forall m :: 0 <= m <= currentMonth ==> c.monthLabels[m].total == SumMonth(rows, m)
    ensures forall m :: 0 <= m <= currentMonth && m !in MonthsOf(rows) ==> c.monthLabels[m].total == 0
    ensures |c.datasets| == |Dedup(CategoryColumn(rows))|
    ensures forall idx :: 0 <= idx < |c.datasets| ==> c.datasets[idx].name == Dedup(CategoryColumn(rows))[idx]
    ensures forall x :: x in CategoryColumn(rows) <==> exists idx :: 0 <= idx < |c.datasets| && c.datasets[idx].name == x
    ensures forall idx :: 0 <= idx < |c.datasets| ==>
      |c.datasets[idx].data| == |c.monthLabels| && c.datasets[idx].color == Palette[idx % 8]
    ensures forall idx, m :: 0 <= idx < |c.datasets| && 0 <= m <= currentMonth ==>
      c.datasets[idx].data[m] == CellValue(rows, c.datasets[idx].name, m)
  {
    var categories := Dedup(CategoryColumn(rows));
    var result := StackedBar(MonthLabels(rows, currentMonth), Datasets(rows, categories, currentMonth + 1));
    forall m | 0 <= m <= currentMonth && m !in MonthsOf(rows) ensures result.monthLabels[m].total == 0 {
      SumMonthAbsent(rows, m);
    }
    forall x | x in CategoryColumn(rows)
      ensures exists idx :: 0 <= idx < |result.datasets| && result.datasets[idx].name == x
    {
      var idx :| 0 <= idx < |categories| && categories[idx] == x;
      assert result.datasets[idx].name == x;
    }
    result
  }

  // ---------------------------------------------------------------------
  // Stacked segments against the month label

  /** No two rows share both month and category: the hypothesis under which stacks match labels. */
  predicate UniqueCells(rows: seq<Row>) {
    forall i, j :: 0 <= i < j < |rows| ==> !InCell(rows[j], rows[i].category, rows[i].month)
  }

  predicate Distinct(cs: seq<string>) {
    forall i, j :: 0 <= i < j < |cs| ==> cs[i] != cs[j]
  }

  /** The height of the stack of `datasets` at position `m`. */
  function StackHeight(datasets: seq<Dataset>, m: nat): int
    requires forall i :: 0 <= i < |datasets| ==> m < |datasets[i].data|
  {
    if datasets == [] then 0 else datasets[0].data[m] + StackHeight(datasets[1..], m)
  }

  /** The sum of the cells of `categories` in month `m`. */
  function SumCells(rows: seq<Row>, categories: seq<string>, m: int): int
  {
    if categories == [] then 0 else CellValue(rows, categories[0], m) + SumCells(rows, categories[1..], m)
  }

  lemma CellValueCons(rows: seq<Row>, cat: string, m: int)
    requires rows != []
    ensures CellValue(rows, cat, m) ==
      if InCell(rows[0], cat, m) then rows[0].total else CellValue(rows[1..], cat, m)
  {
  }

  /** Taking the first row off removes exactly its own contribution from the stack. */
  lemma {:induction false} SumCellsCons(rows: seq<Row>, categories: seq<string>, m: int)
    requires rows != [] && UniqueCells(rows) && Distinct(categories)
    ensures SumCells(rows, categories, m) == SumCells(rows[1..], categories, m) +
      (if rows[0].month == m && rows[0].category in categories then rows[0].total else 0)
  {
    if categories != [] {
      var c := categories[0];
      var tail := categories[1..];
      assert Distinct(tail);
      SumCellsCons(rows, tail, m);
      CellValueCons(rows, c, m);
      if InCell(rows[0], c, m) {
        forall j | 0 <= j < |rows[1..]| ensures !InCell(rows[1..][j], c, m) {
          assert rows[1..][j] == rows[j + 1];
        }
        assert CellValue(rows[1..], c, m) == 0;
        assert rows[0].category !in tail;
      }
    }
  }

  /**
   * When each (month, category) pair occurs at most once, the cells of
   * month `m` over a list of distinct categories covering every row add up
   * to the month's total.
   */
  lemma {:induction false} SumCellsIsMonthTotal(rows: seq<Row>, categories: seq<string>, m: int)
    requires UniqueCells(rows) && Distinct(categories)
    requires forall i :: 0 <= i < |rows| ==> rows[i].category in categories
    ensures SumCells(rows, categories, m) == SumMonth(rows, m)
  {
    if rows == [] {
      SumCellsOfNoRows(categories, m);
    } else {
      SumCellsCons(rows, categories, m);
      SumCellsIsMonthTotal(rows[1..], categories, m);
    }
  }

  lemma {:induction false} SumCellsOfNoRows(categories: seq<string>, m: int)
    ensures SumCells([], categories, m) == 0
  {
    if categories != [] {
      SumCellsOfNoRows(categories[1..], m);
    }
  }

  lemma {:induction false} StackIsSumCells(datasets: seq<Dataset>, rows: seq<Row>, categories: seq<string>, m: nat)
    requires |datasets| == |categories|
    requires forall i :: 0 <= i < |datasets| ==>
      m < |datasets[i].data| && datasets[i].data[m] == CellValue(rows, categories[i], m)
    ensures StackHeight(datasets, m) == SumCells(rows, categories, m)
  {
    if datasets != [] {
      StackIsSumCells(datasets[1..], rows, categories[1..], m);
    }
  }

  /**
   * When each (month, category) pair occurs at most once, the stacked
   * segments of every month add up to the total printed in its label.
   */
  lemma StackMatchesLabel(rows: seq<Row>, currentMonth: nat, m: nat)
    requires currentMonth < 12 && m <= currentMonth && UniqueCells(rows)
    ensures var c := BarChart(rows, currentMonth);
      StackHeight(c.datasets, m) == c.monthLabels[m].total
  {
    var c := BarChart(rows, currentMonth);
    var categories := Dedup(CategoryColumn(rows));
    StackIsSumCells(c.datasets, rows, categories, m);
    forall i | 0 <= i < |rows| ensures rows[i].category in categories {
      assert CategoryColumn(rows)[i] == rows[i].category;
    }
    SumCellsIsMonthTotal(rows, categories, m);
  }

  /**
   * Without that uniqueness the two disagree: a second "Food" row in January
   * is counted in the label but not in the bar.
   */
  lemma DuplicateRowIsNotStacked()
    ensures var c := BarChart([Row("Food", 0, 50), Row("Food", 0, 30)], 0);
      c.monthLabels == [MonthLabel("Jan", 80)] &&
      c.datasets == [Dataset("Food", [50], Palette[0])]
  {
    var rows := [Row("Food", 0, 50), Row("Food", 0, 30)];
    DuplicateCategories(rows);
    DuplicateLabel(rows);
    DuplicateDataset(rows);
  }

  lemma DuplicateCategories(rows: seq<Row>)
    requires rows == [Row("Food", 0, 50), Row("Food", 0, 30)]
    ensures Dedup(CategoryColumn(rows)) == ["Food"]
  {
    assert CategoryColumn(rows) == ["Food", "Food"];
    assert ["Food", "Food"][..1] == ["Food"];
    assert ["Food"][..0] == [];
  }

  lemma DuplicateLabel(rows: seq<Row>)
    requires rows == [Row("Food", 0, 50), Row("Food", 0, 30)]
    ensures MonthLabels(rows, 0) == [MonthLabel("Jan", 80)]
  {
    assert rows[1..][1..] == [];
    assert SumMonth(rows[1..], 0) == 30;
    assert SumMonth(rows, 0) == 80;
    assert MonthLabels(rows, 0)[0] == MonthLabel("Jan", 80);
  }

  lemma DuplicateDataset(rows: seq<Row>)
    requires rows == [Row("Food", 0, 50), Row("Food", 0, 30)]
    ensures Datasets(rows, ["Food"], 1) == [Dataset("Food", [50], Palette[0])]
  {
    assert InCell(rows[0], "Food", 0);
    assert CellValue(rows, "Food", 0) == 50;
    var ds := Datasets(rows, ["Food"], 1);
    assert |ds| == 1;
    assert ds[0].data == [50] by {
      assert |ds[0].data| == 1 && ds[0].data[0] == 50;
    }
  }

  // ---------------------------------------------------------------------
  // The component

  class MonthlyCategoryBarChart {
    var chart: Chart?
    var chartJsInitialized: bool
    var rawData: seq<Row>
    /** How many times the chart library load was started. */
    var loadsStarted: nat
    /** Every chart this component has built, oldest first. */
    ghost var history: seq<Chart>

    ghost predicate Valid()
      reads this, history
    {
      OnlyLastLive(history, chart) && loadsStarted == (if chartJsInitialized then 1 else 0)
    }

    /**
     * What `renderChart` leaves behind, given the chart and history before it
     * ran: nothing changes on a guard; with the library present a new live
     * chart is added; without it the old chart is destroyed and kept.
     */
    ghost predicate Rendered(prevChart: Chart?, prevHistory: seq<Chart>, currentMonth: nat, libraryPresent: bool)
      requires currentMonth < 12
      reads this, chart
    {
      if rawData == [] || !chartJsInitialized then chart == prevChart && history == prevHistory
      else if libraryPresent then
        chart != null && history == prevHistory + [chart] && !chart.destroyed &&
        chart.config == BarChart(rawData, currentMonth)
      else chart == prevChart && history == prevHistory && (chart != null ==> chart.destroyed)
    }

    constructor ()
      ensures Valid()
      ensures chart == null && !chartJsInitialized && rawData == [] && loadsStarted == 0 && history == []
    {
      chart := null;
      chartJsInitialized := false;
      rawData := [];
      loadsStarted := 0;
      history := [];
    }

    /** `renderedCallback`: starts the library load the first time only. */
    method RenderedCallback()
      requires Valid()
      modifies this
      ensures Valid()
      ensures chartJsInitialized && loadsStarted == 1
      ensures chart == old(chart) && history == old(history) && rawData == old(rawData)
    {
      if chartJsInitialized {
        return;
      }
      chartJsInitialized := true;
      loadsStarted := loadsStarted + 1;
    }

    /** The library load succeeded: `.then(() => this.renderChart())`. */
    method OnLibraryLoaded(currentMonth: nat)
      requires Valid() && currentMonth < 12
      modifies this, history
      ensures Valid()
      ensures rawData == [] || !chartJsInitialized ==> unchanged(old(history))
      ensures rawData == old(rawData) && chartJsInitialized == old(chartJsInitialized) && loadsStarted == old(loadsStarted)
      ensures Rendered(old(chart), old(history), currentMonth, true)
      ensures chart != old(chart) ==> fresh(chart)
    {
      RenderChart(currentMonth, true);
    }

    /**
     * The wire handler; `data` is None when the wire delivered an error
     * instead, and `libraryPresent` says whether `window.Chart` is defined yet.
     */
    method WiredExpenses(data: Option<seq<Row>>, currentMonth: nat, libraryPresent: bool)
      requires Valid() && currentMonth < 12
      modifies this, history
      ensures Valid()
      ensures data.None? || rawData == [] || !chartJsInitialized ==> unchanged(old(history))
      ensures chartJsInitialized == old(chartJsInitialized) && loadsStarted == old(loadsStarted)
      ensures data.Some? ==> rawData == data.value && Rendered(old(chart), old(history), currentMonth, libraryPresent)
      ensures data.None? ==> rawData == old(rawData) && chart == old(chart) && history == old(history)
      ensures chart != old(chart) ==> fresh(chart)
    {
      if data.Some? {
        rawData := data.value;
        RenderChart(currentMonth, libraryPresent);
      }
    }

    /**
     * `renderChart`: nothing happens on empty data or before the load was
     * started; otherwise the previous chart is destroyed and a new one built,
     * which fails when the started load has not completed yet.
     */
    method RenderChart(currentMonth: nat, libraryPresent: bool)
      requires Valid() && currentMonth < 12
      modifies this, history
      ensures Valid()
      ensures rawData == [] || !chartJsInitialized ==> unchanged(old(history))
      ensures rawData == old(rawData) && chartJsInitialized == old(chartJsInitialized) && loadsStarted == old(loadsStarted)
      ensures Rendered(old(chart), old(history), currentMonth, libraryPresent)
      ensures chart != old(chart) ==> fresh(chart)
      ensures rawData != [] && chartJsInitialized && old(chart) != null ==> old(chart).destroyed
    {
      if rawData == [] {
        return;
      }
      if !chartJsInitialized {
        return;
      }
      var categories := Dedup(CategoryColumn(rawData));
      var monthlyTotals := MonthlyTotals(rawData);
      var labels := seq(currentMonth + 1, m requires 0 <= m <= currentMonth =>
        MonthLabel(MonthNames[m], if m in monthlyTotals then monthlyTotals[m] else 0));
      forall m | 0 <= m <= currentMonth ensures labels[m] == MonthLabels(rawData, currentMonth)[m] {
        if m !in monthlyTotals {
          SumMonthAbsent(rawData, m);
        }
      }
      var datasets := Datasets(rawData, categories, currentMonth + 1);
      var next := ReplaceChart(chart, StackedBar(labels, datasets), libraryPresent);
      if next.Some? {
        chart := next.value;
        history := history + [next.value];
      }
    }
  }
}
