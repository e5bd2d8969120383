/** expenseCategoryChart: a pie chart of the current month's expenses by category. */
module ExpenseCategory {
  import opened Common
  import opened Series
  import opened Charts

  /** One row of getCategoryWiseExpenses: category, total, and whatever other columns it carries. */
  datatype AggregateRow = AggregateRow(category: string, total: int, otherColumns: map<string, string>)

  /** One pie slice as the component keeps it. */
  datatype Slice = Slice(category: string, total: int)

  /** `data.map(item => ({ category: item.category, total: item.total }))`. */
  function Slices(data: seq<AggregateRow>): (s: seq<Slice>)
    ensures |s| == |data|
    ensures forall i :: 0 <= i < |data| ==> s[i].category == data[i].category && s[i].total == data[i].total
  {
    seq(|data|, i requires 0 <= i < |data| => Slice(data[i].category, data[i].total))
  }

  /** The pie: labels and values are parallel to `chartData`; the colours are the whole palette. */
  function PieChart(chartData: seq<Slice>): (c: ChartConfig)
    ensures c.CategoryPie?
    ensures |c.labels| == |c.values| == |chartData|
    ensures forall i :: 0 <= i < |chartData| ==>
      c.labels[i] == chartData[i].category && c.values[i] == chartData[i].total
    ensures c.colors == Palette
  {
    CategoryPie(
      seq(|chartData|, i requires 0 <= i < |chartData| => chartData[i].category),
      seq(|chartData|, i requires 0 <= i < |chartData| => chartData[i].total),
      Palette)
  }

  class ExpenseCategoryChart {
    var chart: Chart?
    var chartJsInitialized: bool
    var chartData: seq<Slice>
    var monthlyBudgetId: Option<string>
    var loadsStarted: nat
    ghost var history: seq<Chart>

    ghost predicate Valid()
      reads this, history
    {
      OnlyLastLive(history, chart) && loadsStarted == (if chartJsInitialized then 1 else 0)
    }

    /**
     * What `renderChart` leaves behind, given the chart and history before it
     * ran: nothing changes on empty data; with the library present a new live
     * pie is added; without it the old chart is destroyed and kept.
     */
    ghost predicate Rendered(prevChart: Chart?, prevHistory: seq<Chart>, libraryPresent: bool)
      reads this, chart
    {
      if chartData == [] then chart == prevChart && history == prevHistory
      else if libraryPresent then
        chart != null && history == prevHistory + [chart] && !chart.destroyed && chart.config == PieChart(chartData)
      else chart == prevChart && history == prevHistory && (chart != null ==> chart.destroyed)
    }

    constructor ()
      ensures Valid()
      ensures chart == null && !chartJsInitialized && chartData == [] && monthlyBudgetId == None
      ensures loadsStarted == 0 && history == []
    {
      chart := null;
      chartJsInitialized := false;
      chartData := [];
      monthlyBudgetId := None;
      loadsStarted := 0;
      history := [];
    }

    /** The wire handler of getMonthlyBudgetId: a non-empty Id is kept. */
    method WiredMonthlyBudget(data: Option<string>)
      modifies this`monthlyBudgetId
      ensures monthlyBudgetId == (if Truthy(data) then data else old(monthlyBudgetId))
    {
      if Truthy(data) {
        monthlyBudgetId := data;
      }
    }

    /**
     * The wire handler of getCategoryWiseExpenses: keep the slices and render;
     * `libraryPresent` says whether `window.Chart` is defined yet.
     */
    method WiredExpenses(data: Option<seq<AggregateRow>>, libraryPresent: bool)
      requires Valid()
      modifies this, history
      ensures Valid()
      ensures data.None? || chartData == [] ==> unchanged(old(history))
      ensures chartJsInitialized == old(chartJsInitialized) && loadsStarted == old(loadsStarted)
      ensures monthlyBudgetId == old(monthlyBudgetId)
      ensures data.Some? ==> chartData == Slices(data.value) && Rendered(old(chart), old(history), libraryPresent)
      ensures data.None? ==> chartData == old(chartData) && chart == old(chart) && history == old(history)
      ensures chart != old(chart) ==> fresh(chart)
    {
      if data.Some? {
        chartData := Slices(data.value);
        RenderChart(libraryPresent);
      }
    }

    /** `renderedCallback`: starts the library load the first time only. */
    method RenderedCallback()
      requires Valid()
      modifies this`chartJsInitialized, this`loadsStarted
      ensures Valid()
      ensures chartJsInitialized && loadsStarted == 1
    {
      if chartJsInitialized {
        return;
      }
      chartJsInitialized := true;
      loadsStarted := loadsStarted + 1;
    }

    /** The library load succeeded: `.then(() => { this.renderChart(); })`. */
    method OnLibraryLoaded()
      requires Valid()
      modifies this`chart, this`history, history
      ensures Valid()
      ensures chartData == [] ==> unchanged(old(history))
      ensures Rendered(old(chart), old(history), true)
      ensures chart != old(chart) ==> fresh(chart)
    {
      RenderChart(true);
    }

    /**
     * `renderChart`: nothing happens on empty data; otherwise the previous
     * chart is destroyed and a new pie built, which fails when the library
     * has not been loaded. The flag is not consulted.
     */
    method RenderChart(libraryPresent: bool)
      requires Valid()
      modifies this`chart, this`history, history
      ensures Valid()
      ensures chartData == [] ==> unchanged(old(history))
      ensures Rendered(old(chart), old(history), libraryPresent)
      ensures chart != old(chart) ==> fresh(chart)
      ensures chartData != [] && old(chart) != null ==> old(chart).destroyed
    {
      if chartData == [] {
        return;
      }
      var next := ReplaceChart(chart, PieChart(chartData), libraryPresent);
      if next.Some? {
        chart := next.value;
        history := history + [next.value];
      }
    }
  }
}
