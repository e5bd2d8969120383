/**
 * budgetExpenseChart: a budget picker and a one-bar stacked chart of the
 * selected month's expenses, one segment per category.
 */
module BudgetExpense {
  import opened Common
  import opened Series
  import opened Charts

  /** One row of getCategoryWiseThisMonthExpenses: category, the budget's Month_Year__c, amount. */
  datatype Row = Row(category: string, monthYear: Option<string>, total: int)

  const FallbackPeriodLabel: string := "Selected Month"

  /** `rawData.map(d => d.Category__c)`. */
  function CategoryColumn(rows: seq<Row>): (cs: seq<string>)
    ensures |cs| == |rows|
    ensures forall i :: 0 <= i < |rows| ==> cs[i] == rows[i].category
  {
    Map(rows, (r: Row) => r.category)
  }

  /** The single x-axis label: the first row's month, formatted, or "Selected Month". */
  function PeriodLabel(rows: seq<Row>, format: string -> string): string
    requires rows != []
  {
    if Truthy(rows[0].monthYear) then format(rows[0].monthYear.value) else FallbackPeriodLabel
  }

  /** The value of category `cat`: the total of its FIRST row (`find`), 0 when it has none. */
  function CategoryTotal(rows: seq<Row>, cat: string): (v: int)
    ensures (forall j :: 0 <= j < |rows| ==> rows[j].category != cat) ==> v == 0
    ensures forall j ::
      (0 <= j < |rows| && rows[j].category == cat && forall k :: 0 <= k < j ==> rows[k].category != cat)
      ==> v == rows[j].total
  {
    match FindFirst(rows, (r: Row) => r.category == cat)
    case Some(j) => rows[j].total
    case None => 0
  }

  /** One single-value dataset per category, coloured by its index. */
  function Datasets(rows: seq<Row>, categories: seq<string>): seq<Dataset>
  {
    seq(|categories|, idx requires 0 <= idx < |categories| =>
      Dataset(categories[idx], [CategoryTotal(rows, categories[idx])], Palette[idx % |Palette|]))
  }

  /**
   * The configuration `renderChart` builds: exactly one axis label, and one
   * dataset per distinct category in order of first occurrence, each holding
   * one value and coloured by its index.
   */
  function PeriodChart(rows: seq<Row>, format: string -> string): (c: ChartConfig)
    requires rows != []
    ensures c.PeriodBar?
    ensures c.labels == [PeriodLabel(rows, format)]
    ensures !Truthy(rows[0].monthYear) ==> c.labels == ["Selected Month"]
    ensures |c.datasets| == |Dedup(CategoryColumn(rows))|
    ensures forall idx :: 0 <= idx < |c.datasets| ==>
      c.datasets[idx].name == Dedup(CategoryColumn(rows))[idx] &&
      |c.datasets[idx].data| == 1 && c.datasets[idx].color == Palette[idx % 8]
  {
    PeriodBar([PeriodLabel(rows, format)], Datasets(rows, Dedup(CategoryColumn(rows))))
  }

  /**
   * Every dataset's value is the total of the first row of its category: the
   * `: 0` fallback is never taken, since every category comes from a row.
   */
  lemma DatasetIsFirstRowOfCategory(rows: seq<Row>, format: string -> string, idx: nat)
    requires rows != [] && idx < |PeriodChart(rows, format).datasets|
    ensures var d := PeriodChart(rows, format).datasets[idx];
      exists j :: 0 <= j < |rows| && rows[j].category == d.name &&
        (forall k :: 0 <= k < j ==> rows[k].category != d.name) && d.data == [rows[j].total]
  {
    var d := PeriodChart(rows, format).datasets[idx];
    var cat := d.name;
    assert cat in CategoryColumn(rows);
    var i :| 0 <= i < |rows| && CategoryColumn(rows)[i] == cat;
    assert rows[i].category == cat;
    var found := FindFirst(rows, (r: Row) => r.category == cat);
    var j := found.value;
    assert rows[j].category == cat && forall k :: 0 <= k < j ==> rows[k].category != cat;
  }

  /** The sum of `total` over the rows of category `cat`. */
  function SumCategory(rows: seq<Row>, cat: string): int
  {
    if rows == [] then 0
    else (if rows[0].category == cat then rows[0].total else 0) + SumCategory(rows[1..], cat)
  }

  lemma {:induction false} SumCategoryAbsent(rows: seq<Row>, cat: string)
    requires forall j :: 0 <= j < |rows| ==> rows[j].category != cat
    ensures SumCategory(rows, cat) == 0
  {
    if rows != [] {
      assert forall j :: 0 <= j < |rows[1..]| ==> rows[1..][j] == rows[j + 1];
      SumCategoryAbsent(rows[1..], cat);
    }
  }

  lemma CategoryTotalCons(rows: seq<Row>, cat: string)
    requires rows != [] && rows[0].category != cat
    ensures CategoryTotal(rows, cat) == CategoryTotal(rows[1..], cat)
  {
  }

  /**
   * When a category has at most one row, its value is the sum of its rows'
   * totals, as a summing series builder would give.
   */
  lemma {:induction false} SingleRowCategoryIsSummed(rows: seq<Row>, cat: string)
    requires forall i, j :: 0 <= i < j < |rows| && rows[i].category == cat ==> rows[j].category != cat
    ensures CategoryTotal(rows, cat) == SumCategory(rows, cat)
  {
    if rows != [] {
      var rest := rows[1..];
      assert forall j :: 0 <= j < |rest| ==> rest[j] == rows[j + 1];
      if rows[0].category == cat {
        SumCategoryAbsent(rest, cat);
      } else {
        CategoryTotalCons(rows, cat);
        SingleRowCategoryIsSummed(rest, cat);
      }
    }
  }

  /**
   * Rows Food 50, Travel 20, Food 30 give one bar with Food 50 (the first
   * Food row, not the sum 80) and Travel 20.
   */
  lemma FirstRowIsNotSummed()
    ensures var c := PeriodChart([Row("Food", None, 50), Row("Travel", None, 20), Row("Food", None, 30)], s => s);
      c.labels == ["Selected Month"] &&
      c.datasets == [Dataset("Food", [50], Palette[0]), Dataset("Travel", [20], Palette[1])]
  {
    var rows := [Row("Food", None, 50), Row("Travel", None, 20), Row("Food", None, 30)];
    ExampleCategories(rows);
    ExampleTotals(rows);
    var ds := Datasets(rows, ["Food", "Travel"]);
    assert |ds| == 2;
    assert ds[0] == Dataset("Food", [50], Palette[0]);
    assert ds[1] == Dataset("Travel", [20], Palette[1]);
  }

  lemma ExampleCategories(rows: seq<Row>)
    requires rows == [Row("Food", None, 50), Row("Travel", None, 20), Row("Food", None, 30)]
    ensures Dedup(CategoryColumn(rows)) == ["Food", "Travel"]
  {
    assert CategoryColumn(rows) == ["Food", "Travel", "Food"];
    assert ["Food", "Travel", "Food"][..2] == ["Food", "Travel"];
    assert ["Food", "Travel"][..1] == ["Food"];
    assert ["Food"][..0] == [];
  }

  lemma ExampleTotals(rows: seq<Row>)
    requires rows == [Row("Food", None, 50), Row("Travel", None, 20), Row("Food", None, 30)]
    ensures CategoryTotal(rows, "Food") == 50 && CategoryTotal(rows, "Travel") == 20
  {
    CategoryTotalCons(rows, "Travel");
    assert rows[1..][0].category == "Travel";
  }

  /** The combobox entries: the formatted month, or the record Name when there is none. */
  function BudgetOptions(data: seq<MonthlyBudget>, format: string -> string): seq<ComboOption>
  {
    seq(|data|, i requires 0 <= i < |data| =>
      ComboOption(if Truthy(data[i].monthYear) then format(data[i].monthYear.value) else data[i].name, data[i].id))
  }

  class BudgetExpenseChart {
    var budgetOptions: seq<ComboOption>
    var selectedBudgetId: Option<string>
    var rawData: seq<Row>
    var chart: Chart?
    var chartJsInitialized: bool
    var loadsStarted: nat
    /** The budget Ids for which getCategoryWiseThisMonthExpenses was called, in order. */
    var requests: seq<string>
    ghost var history: seq<Chart>

    ghost predicate Valid()
      reads this, history
    {
      OnlyLastLive(history, chart) && loadsStarted == (if chartJsInitialized then 1 else 0)
    }

    /**
     * What `renderChart` leaves behind, given the chart and history before it
     * ran: nothing changes on a guard; with the library present a new live
     * chart is added; without it the old chart is destroyed and kept.
     */
    ghost predicate Rendered(prevChart: Chart?, prevHistory: seq<Chart>, format: string -> string, libraryPresent: bool)
      reads this, chart
    {
      if rawData == [] || !chartJsInitialized then chart == prevChart && history == prevHistory
      else if libraryPresent then
        chart != null && history == prevHistory + [chart] && !chart.destroyed &&
        chart.config == PeriodChart(rawData, format)
      else chart == prevChart && history == prevHistory && (chart != null ==> chart.destroyed)
    }

    constructor ()
      ensures Valid()
      ensures budgetOptions == [] && selectedBudgetId == None && rawData == [] && requests == []
      ensures chart == null && !chartJsInitialized && loadsStarted == 0 && history == []
    {
      budgetOptions := [];
      selectedBudgetId := None;
      rawData := [];
      chart := null;
      chartJsInitialized := false;
      loadsStarted := 0;
      requests := [];
      history := [];
    }

    /** `fetchExpenses`: asks for the selected budget's expenses, unless nothing is selected. */
    method FetchExpenses()
      modifies this
      ensures requests == old(requests) + (if Truthy(selectedBudgetId) then [selectedBudgetId.value] else [])
      ensures budgetOptions == old(budgetOptions) && selectedBudgetId == old(selectedBudgetId)
      ensures rawData == old(rawData) && chart == old(chart) && history == old(history)
      ensures chartJsInitialized == old(chartJsInitialized) && loadsStarted == old(loadsStarted)
    {
      if !Truthy(selectedBudgetId) {
        return;
      }
      requests := requests + [selectedBudgetId.value];
    }

    /**
     * The wire handler of getMonthlyBudgets: one option per record, in order,
     * selecting the first record when there is one; then a fetch.
     */
    method WiredBudgets(data: Option<seq<MonthlyBudget>>, format: string -> string)
      modifies this
      ensures data.Some? ==> |budgetOptions| == |data.value|
      ensures data.Some? ==> forall i :: 0 <= i < |data.value| ==>
        budgetOptions[i].value == data.value[i].id &&
        budgetOptions[i].display == (if Truthy(data.value[i].monthYear) then format(data.value[i].monthYear.value) else data.value[i].name)
      ensures data.Some? ==> selectedBudgetId == (if |data.value| > 0 then Some(data.value[0].id) else old(selectedBudgetId))
      ensures data.Some? ==> requests == old(requests) + (if Truthy(selectedBudgetId) then [selectedBudgetId.value] else [])
      ensures data.None? ==> budgetOptions == old(budgetOptions) && selectedBudgetId == old(selectedBudgetId) && requests == old(requests)
      ensures rawData == old(rawData) && chart == old(chart) && history == old(history)
      ensures chartJsInitialized == old(chartJsInitialized) && loadsStarted == old(loadsStarted)
    {
      if data.Some? {
        budgetOptions := BudgetOptions(data.value, format);
        if |data.value| > 0 {
          selectedBudgetId := Some(data.value[0].id);
        }
        FetchExpenses();
      }
    }

    /** `handleBudgetChange`: selects the event's value and fetches for it. */
    method HandleBudgetChange(value: Option<string>)
      modifies this
      ensures selectedBudgetId == value
      ensures requests == old(requests) + (if Truthy(value) then [value.value] else [])
      ensures budgetOptions == old(budgetOptions) && rawData == old(rawData)
      ensures chart == old(chart) && history == old(history)
      ensures chartJsInitialized == old(chartJsInitialized) && loadsStarted == old(loadsStarted)
    {
      selectedBudgetId := value;
      FetchExpenses();
    }

    /**
     * A fetch answered: `.then(data => { this.rawData = data; this.renderChart(); })`;
     * `libraryPresent` says whether `window.Chart` is defined yet.
     */
    method ReceiveExpenses(data: seq<Row>, format: string -> string, libraryPresent: bool)
      requires Valid()
      modifies this, history
      ensures Valid()
      ensures data == [] || !chartJsInitialized ==> unchanged(old(history))
      ensures rawData == data && Rendered(old(chart), old(history), format, libraryPresent)
      ensures chart != old(chart) ==> fresh(chart)
      ensures data != [] && chartJsInitialized && old(chart) != null ==> old(chart).destroyed
      ensures budgetOptions == old(budgetOptions) && selectedBudgetId == old(selectedBudgetId) && requests == old(requests)
      ensures chartJsInitialized == old(chartJsInitialized) && loadsStarted == old(loadsStarted)
    {
      rawData := data;
      RenderChart(format, libraryPresent);
    }

    /** `renderedCallback`: starts the library load the first time only. */
    method RenderedCallback()
      requires Valid()
      modifies this
      ensures Valid()
      ensures chartJsInitialized && loadsStarted == 1
      ensures budgetOptions == old(budgetOptions) && selectedBudgetId == old(selectedBudgetId)
      ensures rawData == old(rawData) && requests == old(requests)
      ensures chart == old(chart) && history == old(history)
    {
      if chartJsInitialized {
        return;
      }
      chartJsInitialized := true;
      loadsStarted := loadsStarted + 1;
    }

    /** The library load succeeded: fetch again when a budget is selected. */
    method OnLibraryLoaded()
      modifies this
      ensures requests == old(requests) + (if Truthy(selectedBudgetId) then [selectedBudgetId.value] else [])
      ensures budgetOptions == old(budgetOptions) && selectedBudgetId == old(selectedBudgetId)
      ensures rawData == old(rawData) && chart == old(chart) && history == old(history)
      ensures chartJsInitialized == old(chartJsInitialized) && loadsStarted == old(loadsStarted)
    {
      if Truthy(selectedBudgetId) {
        FetchExpenses();
      }
    }

    /**
     * `renderChart`: nothing happens on empty data or before the load was
     * started; otherwise the previous chart is destroyed and a new one built,
     * which fails when the started load has not completed yet.
     */
    method RenderChart(format: string -> string, libraryPresent: bool)
      requires Valid()
      modifies this, history
      ensures Valid()
      ensures rawData == [] || !chartJsInitialized ==> unchanged(old(history))
      ensures Rendered(old(chart), old(history), format, libraryPresent)
      ensures chart != old(chart) ==> fresh(chart)
      ensures rawData != [] && chartJsInitialized && old(chart) != null ==> old(chart).destroyed
      ensures budgetOptions == old(budgetOptions) && selectedBudgetId == old(selectedBudgetId)
      ensures rawData == old(rawData) && requests == old(requests)
      ensures chartJsInitialized == old(chartJsInitialized) && loadsStarted == old(loadsStarted)
    {
      if rawData == [] {
        return;
      }
      if !chartJsInitialized {
        return;
      }
      var categories := Dedup(CategoryColumn(rawData));
      var monthName := PeriodLabel(rawData, format);
      var datasets := Datasets(rawData, categories);
      var next := ReplaceChart(chart, PeriodBar([monthName], datasets), libraryPresent);
      if next.Some? {
        chart := next.value;
        history := history + [next.value];
      }
    }
  }
}
