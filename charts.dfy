/**
 * The charting library seen from the components: a chart is an opaque
 * handle built from a declarative configuration, and it can be destroyed.
 */
module Charts {
  import opened Common

  /** An x-axis label of the monthly bar chart: the month name and that month's total. */
  datatype MonthLabel = MonthLabel(month: string, total: int)

  /** One named numeric series with its colour. */
  datatype Dataset = Dataset(name: string, data: seq<int>, color: string)

  /** A slot of a JavaScript array: a value, or a hole left by a write past the end. */
  datatype Point = Value(v: int) | Hole

  /** What each component hands to the chart constructor. */
  datatype ChartConfig =
    | StackedBar(monthLabels: seq<MonthLabel>, datasets: seq<Dataset>)
    | PeriodBar(labels: seq<string>, datasets: seq<Dataset>)
    | TotalsLine(labels: seq<string>, points: seq<Point>)
    | CategoryPie(labels: seq<string>, values: seq<int>, colors: seq<string>)
    | SavingsBar(labels: seq<string>, remaining: seq<int>)

  /** A chart instance drawn on a component's canvas. */
  class Chart {
    const config: ChartConfig
    var destroyed: bool

    constructor (config: ChartConfig)
      ensures this.config == config && !destroyed
    {
      this.config := config;
      destroyed := false;
    }

    method Destroy()
      modifies this
      ensures destroyed
    {
      destroyed := true;
    }
  }

  /**
   * `history` lists every chart a component has built, oldest first; `chart`
   * is the component's field. At most one chart is live: every chart but the
   * last one built has been destroyed, and the field holds that last one
   * (itself destroyed when a later render destroyed it and then failed).
   */
  ghost predicate OnlyLastLive(history: seq<Chart>, chart: Chart?)
    reads history
  {
    (chart == null <==> history == []) &&
    (history != [] ==> chart == history[|history| - 1]) &&
    (forall i :: 0 <= i < |history| - 1 ==> history[i].destroyed)
  }

  /**
   * `if (this.chart) this.chart.destroy(); this.chart = new window.Chart(ctx, config);`
   * `libraryPresent` says whether `window.Chart` is defined, which the first
   * completed load of the library on the page makes true. Without it the
   * destroy has already run when the construction throws a TypeError, so
   * no chart is built and None comes back.
   */
  method ReplaceChart(current: Chart?, config: ChartConfig, libraryPresent: bool) returns (next: Option<Chart>)
    modifies current
    ensures current != null ==> current.destroyed
    ensures libraryPresent <==> next.Some?
    ensures next.Some? ==> fresh(next.value) && next.value.config == config && !next.value.destroyed
  {
    if current != null {
      current.Destroy();
    }
    if !libraryPresent {
      return None;
    }
    var c := new Chart(config);
    next := Some(c);
  }
}
