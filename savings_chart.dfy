/** savingsChart: a bar chart of the remaining budget of each month of the year. */
module Savings {
  import opened Common
  import opened Charts

  /** One row of getYearlyBudget: the month's Month_Year__c and its Remaining_Budget__c. */
  datatype YearlyBudgetRow = YearlyBudgetRow(monthYear: string, remainingBudget: int)

  /** The bars: one label and one value per row, in row order. */
  function SavingsChart(data: seq<YearlyBudgetRow>, format: string -> string): (c: ChartConfig)
    ensures c.SavingsBar?
    ensures |c.labels| == |c.remaining| == |data|
    ensures forall i :: 0 <= i < |data| ==>
      c.labels[i] == format(data[i].monthYear) && c.remaining[i] == data[i].remainingBudget
  {
    SavingsBar(
      seq(|data|, i requires 0 <= i < |data| => format(data[i].monthYear)),
      seq(|data|, i requires 0 <= i < |data| => data[i].remainingBudget))
  }

  class SavingsChartComponent {
    var chart: Chart?
    var chartJsInitialized: bool
    var loadsStarted: nat
    ghost var history: seq<Chart>

    ghost predicate Valid()
      reads this, history
    {
      OnlyLastLive(history, chart) && loadsStarted == (if chartJsInitialized then 1 else 0)
    }

    constructor ()
      ensures Valid()
      ensures chart == null && !chartJsInitialized && loadsStarted == 0 && history == []
    {
      chart := null;
      chartJsInitialized := false;
      loadsStarted := 0;
      history := [];
    }

    /** `renderedCallback`: starts the library load the first time only; its success only logs. */
    method RenderedCallback()
      requires Valid()
      modifies this`chartJsInitialized, this`loadsStarted
      ensures Valid()
      ensures chartJsInitialized && loadsStarted == 1
    {
      if chartJsInitialized {
        return;
      }
      chartJsInitialized := true;
      loadsStarted := loadsStarted + 1;
    }

    /**
     * The wire handler of getYearlyBudget: `prepareChart(data)` when data
     * arrived; `libraryPresent` says whether `window.Chart` is defined yet.
     */
    method WiredBudget(data: Option<seq<YearlyBudgetRow>>, format: string -> string, libraryPresent: bool)
      requires Valid()
      modifies this`chart, this`history, history
      ensures Valid()
      ensures data.None? || !chartJsInitialized ==> unchanged(old(history))
      ensures data.Some? && chartJsInitialized && libraryPresent ==>
        fresh(chart) && history == old(history) + [chart] && !chart.destroyed &&
        chart.config == SavingsChart(data.value, format)
      ensures data.Some? && chartJsInitialized && old(chart) != null ==> old(chart).destroyed
      ensures data.None? || !chartJsInitialized || !libraryPresent ==> chart == old(chart) && history == old(history)
    {
      if data.Some? {
        PrepareChart(data.value, format, libraryPresent);
      }
    }

    /**
     * `prepareChart`: before the load was started the data is dropped and
     * nothing happens; otherwise, even for empty data, the previous chart is
     * destroyed and a new one built, which fails when the started load has
     * not completed yet: the old chart stays in the field, destroyed.
     */
    method PrepareChart(data: seq<YearlyBudgetRow>, format: string -> string, libraryPresent: bool)
      requires Valid()
      modifies this`chart, this`history, history
      ensures Valid()
      ensures !chartJsInitialized ==> unchanged(old(history))
      ensures !chartJsInitialized ==> chart == old(chart) && history == old(history)
      ensures chartJsInitialized && libraryPresent ==>
        fresh(chart) && history == old(history) + [chart] && !chart.destroyed &&
        chart.config == SavingsChart(data, format)
      ensures chartJsInitialized && !libraryPresent ==> chart == old(chart) && history == old(history)
      ensures chartJsInitialized && old(chart) != null ==> old(chart).destroyed
    {
      if !chartJsInitialized {
        return;
      }
      var config := SavingsChart(data, format);
      var next := ReplaceChart(chart, config, libraryPresent);
      if next.Some? {
        chart := next.value;
        history := history + [next.value];
      }
    }
  }
}
