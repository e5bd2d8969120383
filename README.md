# Expense Tracker dashboard components, modelled in Dafny

The Expense Tracker is a personal budgeting dashboard made of Lightning web
components. Each chart component takes the rows a remote query returns and
builds chart series from them. Each one also keeps a small render gate: it
loads the chart library once and keeps at most one live chart on its canvas.
The form and table components keep a little UI selection state and show
error toasts through a shared message cascade.

This project models those pieces:

- `Series` holds the helpers the charts share: the eight-colour palette,
  the column projection (`map`), distinct values in order of first
  occurrence (`[...new Set(...)]`), and first-match search (`find`).
- `Charts` models the chart library as an opaque `Chart` object. It holds its
  configuration and a `destroyed` flag. `OnlyLastLive` states the gate's
  invariant: of all the charts a component has built, every one but the last
  is destroyed, and the last is the one in the `chart` field.
- Whether `window.Chart` is defined is the parameter `libraryPresent`. It is
  a fact about the page, not about one component: the first completed load
  of the library by any component defines it. Each render step takes it.
  The step that follows a component's own completed load passes `true`.
  Without the library, a render destroys the old chart and then throws when
  it constructs the new one. The field then still holds the destroyed chart,
  and no chart is live.
- `ErrorMessages` holds the `handleError` cascade. The same code appears in
  three components and is modelled once.
- There is one module per component. Each has a class with the component's
  fields and one method per handler. The asynchronous steps are separate
  methods: the library load succeeding (`OnLibraryLoaded`), a remote answer
  arriving (`ReceiveExpenses`, `ReceiveMonthlyTotals`, ...).
- Pure series builders are functions. The three loops are methods:
  - `MonthlyTotals` (the `monthlyTotals` accumulation) is proved against the
    specification function `SumMonth`;
  - `MonthTotals` (the `totals` array of `loadChartData`) is proved against
    `LastWrite` and `Extent`;
  - `MonthlyBudgetForm.HandleClear` (the `forEach` that resets every input
    field) keeps the invariant that every field visited so far is back at its
    initial value.

Inputs the components read from the platform are parameters:

- The current month (`new Date().getMonth()`) is `currentMonth`, in `0..11`.
- Date and locale formatting (`toLocaleDateString`, `toLocaleString`) is an
  opaque `format: string -> string`.
- A row of the monthly chart carries its month index directly.

Requests to the server are recorded in logs: `requests`, `totalsRequests`,
`reloadRequests` (the `getExpenses` reloads after a delete or an edit),
`deleteRequests`, `submissions`. Toasts are recorded as `(title, message,
variant)` in `toasts`. Every chart component keeps a `loadsStarted` counter,
and `Valid()` ties it to the flag: `loadsStarted == (chartJsInitialized ? 1 : 0)`.
So the library load starts at most once per instance.

## Behaviour that follows the code

The components behave as follows; the model states each point as the code
has it.

- **Per-category values take the first matching row, not a sum.** Both bar
  charts use `find`. In the monthly chart the month labels do sum.
  - `MonthlyCategoryBar.DuplicateRowIsNotStacked` shows two January "Food"
    rows of 50 and 30: the label says 80 but the bar shows 50.
  - `BudgetExpense.FirstRowIsNotSummed` shows the rows Food 50, Travel 20,
    Food 30. They give Food 50, not 80.
  - The two agree when each (month, category) pair, or each category, occurs
    at most once. That is the hypothesis of
    `MonthlyCategoryBar.StackMatchesLabel` and
    `BudgetExpense.SingleRowCategoryIsSummed`. Nothing in the components
    ensures it. The monthly chart keys rows by month of the year alone, so
    the same month of two years counts as one month.
- **`expenseManager` totals overwrite.** A later row for a month replaces the
  earlier one (`ExpenseManagement.LaterRowsOverwrite`).
- **The gate flag is set when the load starts, not when it completes.**
  `renderedCallback` sets `chartJsInitialized` before `loadScript` resolves.
  So a render that the flag admits may still run before the library is there.
  It then destroys the old chart and throws. In `expenseManager` the throw
  reaches `handleError` and gives an error toast. In `budgetExpenseChart` the
  fetch's `.catch` logs it.
- **The guards differ between components.**
  - `expenseCategoryChart.renderChart` does not consult the flag.
  - `savingsChart.prepareChart` has no empty-data guard, and its successful
    load does not trigger a render.
  - `expenseManager` builds its chart with no guard at all.

## Model

| member | source | states |
|---|---|---|
| `Series.Map` | force-app/main/default/lwc/monthlyCategoryBarChart/monthlyCategoryBarChart.js:35 | `map` keeps the length and order and applies the projection to each element |
| `Series.Dedup` | force-app/main/default/lwc/monthlyCategoryBarChart/monthlyCategoryBarChart.js:35 | the categories are exactly the distinct values of the column, each once, ordered by first occurrence |
| `Series.FindFirst` | force-app/main/default/lwc/monthlyCategoryBarChart/monthlyCategoryBarChart.js:61-64 | `find` locates the first element satisfying the predicate; no result means no element satisfies it |
| `Charts.ReplaceChart` | force-app/main/default/lwc/monthlyCategoryBarChart/monthlyCategoryBarChart.js:76-78 | a previous chart is destroyed; a fresh, live chart with the given configuration is built exactly when the library is present, and none is built otherwise |
| `ErrorMessages.Normalize` | force-app/main/default/lwc/expenseManager/expenseManager.js:152-160 | an array body alone decides: its element messages joined by ", ", "" for an empty array; otherwise a non-empty body.message, then a non-empty message, then "Unknown error"; outside the array case the result is never empty |
| `ErrorMessages.ItemMessages` | force-app/main/default/lwc/expenseManager/expenseManager.js:155 | one message per body element, in order; an undefined message becomes "" as `join` writes it |
| `ErrorMessages.JoinLaysOutParts` | force-app/main/default/lwc/expenseManager/expenseManager.js:155 | `join` places every part at its offset in order, separated by the separator and with nothing after the last part |
| `ErrorMessages.NormalizeIsFirstTruthy` | force-app/main/default/lwc/expenseManager/expenseManager.js:153-160 | outside the array case the cascade equals "first truthy of body.message and message, else Unknown error" |
| `MonthlyCategoryBar.CategoryColumn` | force-app/main/default/lwc/monthlyCategoryBarChart/monthlyCategoryBarChart.js:35 | one entry per row, in order, each that row's category |
| `MonthlyCategoryBar.SumMonthAbsent` | force-app/main/default/lwc/monthlyCategoryBarChart/monthlyCategoryBarChart.js:51 | a month in which no row falls totals 0 |
| `MonthlyCategoryBar.MonthlyTotals` | force-app/main/default/lwc/monthlyCategoryBarChart/monthlyCategoryBarChart.js:43-48 | the accumulated dictionary has a key exactly for each month that occurs, holding the sum of that month's totals |
| `MonthlyCategoryBar.CellValue` | force-app/main/default/lwc/monthlyCategoryBarChart/monthlyCategoryBarChart.js:60-65 | the value at (category, month) is the total of the first row matching both, 0 when none matches |
| `MonthlyCategoryBar.BarChart` | force-app/main/default/lwc/monthlyCategoryBarChart/monthlyCategoryBarChart.js:35-73 | the axis is months 0..currentMonth, each labelled with its name and the sum of its rows' totals (0 without rows); dataset idx is the idx-th distinct category in first-occurrence order, and every category has one; each dataset is as long as the axis, coloured palette[idx mod 8], and holds at month m the first matching row's total (`CellValue`) |
| `MonthlyCategoryBar.StackMatchesLabel` | force-app/main/default/lwc/monthlyCategoryBarChart/monthlyCategoryBarChart.js:43-66 | when no (month, category) pair repeats, the stacked values of each month add up to the total in its label |
| `MonthlyCategoryBar.DuplicateRowIsNotStacked` | force-app/main/default/lwc/monthlyCategoryBarChart/monthlyCategoryBarChart.js:43-66 | a repeated (month, category) pair is summed in the label but only its first row is stacked |
| `MonthlyCategoryBar.MonthlyCategoryBarChart.constructor` | force-app/main/default/lwc/monthlyCategoryBarChart/monthlyCategoryBarChart.js:7-9 | no chart, flag false, no data, and no load started |
| `MonthlyCategoryBar.MonthlyCategoryBarChart.RenderedCallback` | force-app/main/default/lwc/monthlyCategoryBarChart/monthlyCategoryBarChart.js:21-28 | afterwards the flag is set and exactly one load has been started, however often it runs |
| `MonthlyCategoryBar.MonthlyCategoryBarChart.OnLibraryLoaded` | force-app/main/default/lwc/monthlyCategoryBarChart/monthlyCategoryBarChart.js:25-26 | a successful load renders the chart from the current data |
| `MonthlyCategoryBar.MonthlyCategoryBarChart.WiredExpenses` | force-app/main/default/lwc/monthlyCategoryBarChart/monthlyCategoryBarChart.js:11-19 | delivered data replaces the raw data and is rendered, with or without the library present; an error changes nothing |
| `MonthlyCategoryBar.MonthlyCategoryBarChart.RenderChart` | force-app/main/default/lwc/monthlyCategoryBarChart/monthlyCategoryBarChart.js:30-102 | with empty data or the flag unset nothing changes; otherwise the previous chart is destroyed; with the library present one fresh live chart of `BarChart(rawData, currentMonth)` replaces it, without it the field keeps the destroyed chart |
| `BudgetExpense.CategoryColumn` | force-app/main/default/lwc/budgetExpenseChart/budgetExpenseChart.js:65 | one entry per row, in order, each that row's category |
| `BudgetExpense.CategoryTotal` | force-app/main/default/lwc/budgetExpenseChart/budgetExpenseChart.js:82-85 | a category's value is the total of its first row, 0 when it has none |
| `BudgetExpense.PeriodChart` | force-app/main/default/lwc/budgetExpenseChart/budgetExpenseChart.js:60-97 | exactly one axis label, "Selected Month" when the first row has no Month_Year__c; one single-value dataset per distinct category, in first-occurrence order, coloured palette[idx mod 8] |
| `BudgetExpense.DatasetIsFirstRowOfCategory` | force-app/main/default/lwc/budgetExpenseChart/budgetExpenseChart.js:81-88 | every dataset holds the total of a real row, the first of its category; the `: 0` fallback is never taken |
| `BudgetExpense.SingleRowCategoryIsSummed` | force-app/main/default/lwc/budgetExpenseChart/budgetExpenseChart.js:82-85 | when a category has at most one row, its value equals the sum of its rows' totals |
| `BudgetExpense.FirstRowIsNotSummed` | force-app/main/default/lwc/budgetExpenseChart/budgetExpenseChart.js:81-88 | rows Food 50, Travel 20, Food 30 give Food [50] and Travel [20] under "Selected Month" |
| `BudgetExpense.BudgetExpenseChart.constructor` | force-app/main/default/lwc/budgetExpenseChart/budgetExpenseChart.js:8-12 | no options, no selection, no data, no chart, flag false |
| `BudgetExpense.BudgetExpenseChart.FetchExpenses` | force-app/main/default/lwc/budgetExpenseChart/budgetExpenseChart.js:38-47 | a request for the selected Id is issued exactly when the selection is non-empty; nothing else changes |
| `BudgetExpense.BudgetExpenseChart.WiredBudgets` | force-app/main/default/lwc/budgetExpenseChart/budgetExpenseChart.js:15-29 | one option per record in order, value = Id, label the formatted month or the Name; the first record's Id is selected when there is one, else the selection is unchanged; then a fetch |
| `BudgetExpense.BudgetExpenseChart.HandleBudgetChange` | force-app/main/default/lwc/budgetExpenseChart/budgetExpenseChart.js:32-35 | the selection becomes the event's value and a fetch follows |
| `BudgetExpense.BudgetExpenseChart.ReceiveExpenses` | force-app/main/default/lwc/budgetExpenseChart/budgetExpenseChart.js:42-45 | fetched rows replace the raw data and are rendered, with or without the library present |
| `BudgetExpense.BudgetExpenseChart.RenderedCallback` | force-app/main/default/lwc/budgetExpenseChart/budgetExpenseChart.js:49-58 | afterwards the flag is set and exactly one load has been started |
| `BudgetExpense.BudgetExpenseChart.OnLibraryLoaded` | force-app/main/default/lwc/budgetExpenseChart/budgetExpenseChart.js:53-56 | a successful load fetches again when a budget is selected |
| `BudgetExpense.BudgetExpenseChart.RenderChart` | force-app/main/default/lwc/budgetExpenseChart/budgetExpenseChart.js:60-112 | with empty data or the flag unset nothing changes; otherwise the previous chart is destroyed; with the library present one fresh live chart of `PeriodChart(rawData, format)` replaces it, without it the field keeps the destroyed chart |
| `ExpenseManagement.LastWrite` | force-app/main/default/lwc/expenseManager/expenseManager.js:67-70 | the value written at index k is the total of the last row for month k+1; none when no row names that month |
| `ExpenseManagement.MonthTotals` | force-app/main/default/lwc/expenseManager/expenseManager.js:63-70 | labels are Jan up to the current month; each slot holds the last row's total for its month, 0 for a month without rows inside the labels; a month past the labels grows the array with holes |
| `ExpenseManagement.InRangeMonthsKeepLength` | force-app/main/default/lwc/expenseManager/expenseManager.js:64-70 | when every month lies in 1..currentMonth+1 the totals stay exactly as long as the labels |
| `ExpenseManagement.LaterRowsOverwrite` | force-app/main/default/lwc/expenseManager/expenseManager.js:67-70 | once a later row names a month, the earlier rows have no effect on that month's slot: totals overwrite rather than add up |
| `ExpenseManagement.ExpenseManager.constructor` | force-app/main/default/lwc/expenseManager/expenseManager.js:10-16 | no expenses, loading, modal closed, no selection, no chart, flag false |
| `ExpenseManagement.ExpenseManager.ShowToast` | force-app/main/default/lwc/expenseManager/expenseManager.js:164-167 | exactly one toast with the given title, message and variant is dispatched |
| `ExpenseManagement.ExpenseManager.HandleError` | force-app/main/default/lwc/expenseManager/expenseManager.js:152-162 | exactly one toast titled "Error", variant "error", carrying the normalised message |
| `ExpenseManagement.ExpenseManager.WiredExpenses` | force-app/main/default/lwc/expenseManager/expenseManager.js:36-48 | data becomes the table rows, each record with its BudgetMonth column ("" without a related budget); else an error gives one error toast; loading ends false |
| `ExpenseManagement.ExpenseManager.RenderedCallback` | force-app/main/default/lwc/expenseManager/expenseManager.js:51-58 | afterwards the flag is set and exactly one load has been started |
| `ExpenseManagement.ExpenseManager.LoadChartData` | force-app/main/default/lwc/expenseManager/expenseManager.js:60-61 | one request for the monthly totals is issued |
| `ExpenseManagement.ExpenseManager.OnLibraryLoaded` | force-app/main/default/lwc/expenseManager/expenseManager.js:55-56 | a successful load requests the monthly totals |
| `ExpenseManagement.ExpenseManager.ReceiveMonthlyTotals` | force-app/main/default/lwc/expenseManager/expenseManager.js:62-101 | with no guard the previous chart is destroyed; with the library present one fresh live line chart replaces it, its labels and points as `MonthTotals` gives them; without it the field keeps the destroyed chart and the TypeError becomes one error toast carrying its message |
| `ExpenseManagement.ExpenseManager.HandleRowAction` | force-app/main/default/lwc/expenseManager/expenseManager.js:104-114 | "edit" selects the row and opens the modal; "delete" requests the deletion and leaves the modal fields alone; any other action changes nothing |
| `ExpenseManagement.ExpenseManager.DeleteRecord` | force-app/main/default/lwc/expenseManager/expenseManager.js:116-118 | the deletion of exactly that record is requested |
| `ExpenseManagement.ExpenseManager.OnDeleted` | force-app/main/default/lwc/expenseManager/expenseManager.js:119-121 | a successful deletion dispatches one success toast and one reload of the table is requested |
| `ExpenseManagement.ExpenseManager.OnExpensesReloaded` | force-app/main/default/lwc/expenseManager/expenseManager.js:123-129 | reloaded records become the table rows and the totals are requested again |
| `ExpenseManagement.ExpenseManager.HandleEditSuccess` | force-app/main/default/lwc/expenseManager/expenseManager.js:134-145 | a success toast is dispatched, the modal closes and one reload of the table is requested; the selected record Id is left set |
| `ExpenseManagement.ExpenseManager.CloseEditModal` | force-app/main/default/lwc/expenseManager/expenseManager.js:147-150 | the modal closes and the selection is cleared |
| `ExpenseCategory.Slices` | force-app/main/default/lwc/expenseCategoryChart/expenseCategoryChart.js:25-28 | the projection keeps the length and order of the rows and only their category and total |
| `ExpenseCategory.PieChart` | force-app/main/default/lwc/expenseCategoryChart/expenseCategoryChart.js:59-70 | labels and values are parallel to the data, label i its category and value i its total; the colours are the palette |
| `ExpenseCategory.ExpenseCategoryChart.constructor` | force-app/main/default/lwc/expenseCategoryChart/expenseCategoryChart.js:8-11 | no chart, flag false, no data, no budget Id |
| `ExpenseCategory.ExpenseCategoryChart.WiredMonthlyBudget` | force-app/main/default/lwc/expenseCategoryChart/expenseCategoryChart.js:13-20 | a non-empty budget Id is stored; anything else leaves it unchanged |
| `ExpenseCategory.ExpenseCategoryChart.WiredExpenses` | force-app/main/default/lwc/expenseCategoryChart/expenseCategoryChart.js:22-33 | delivered data is projected into the slices and rendered, with or without the library present; an error changes nothing |
| `ExpenseCategory.ExpenseCategoryChart.RenderedCallback` | force-app/main/default/lwc/expenseCategoryChart/expenseCategoryChart.js:35-48 | afterwards the flag is set and exactly one load has been started |
| `ExpenseCategory.ExpenseCategoryChart.OnLibraryLoaded` | force-app/main/default/lwc/expenseCategoryChart/expenseCategoryChart.js:42-44 | a successful load renders the chart |
| `ExpenseCategory.ExpenseCategoryChart.RenderChart` | force-app/main/default/lwc/expenseCategoryChart/expenseCategoryChart.js:50-85 | with empty slices nothing changes, whatever the flag; otherwise the previous chart is destroyed; with the library present one fresh live pie of `PieChart(chartData)` replaces it, without it the field keeps the destroyed chart |
| `Savings.SavingsChart` | force-app/main/default/lwc/savingsChart/savingsChart.js:39-61 | labels and remaining budgets are parallel to the data, label i the formatted month of row i and value i its Remaining_Budget__c |
| `Savings.SavingsChartComponent.constructor` | force-app/main/default/lwc/savingsChart/savingsChart.js:7-8 | no chart and flag false |
| `Savings.SavingsChartComponent.RenderedCallback` | force-app/main/default/lwc/savingsChart/savingsChart.js:19-32 | afterwards the flag is set and exactly one load has been started; the load's success renders nothing |
| `Savings.SavingsChartComponent.WiredBudget` | force-app/main/default/lwc/savingsChart/savingsChart.js:10-17 | delivered data goes to `prepareChart`, with or without the library present; an error changes nothing |
| `Savings.SavingsChartComponent.PrepareChart` | force-app/main/default/lwc/savingsChart/savingsChart.js:34-73 | with the flag unset nothing changes and the data is dropped; otherwise, even for empty data, the previous chart is destroyed; with the library present one fresh live chart of `SavingsChart(data, format)` replaces it, without it the field keeps the destroyed chart |
| `ExpenseEntry.ExpenseForm.constructor` | force-app/main/default/lwc/expenseForm/expenseForm.js:6-7 | no options and no selection |
| `ExpenseEntry.ExpenseForm.WiredBudgets` | force-app/main/default/lwc/expenseForm/expenseForm.js:10-25 | one option per record in order, value = Id, label the formatted month or "Unknown"; the first record's Id is selected when there is one, else the selection is unchanged |
| `ExpenseEntry.ExpenseForm.HandleBudgetChange` | force-app/main/default/lwc/expenseForm/expenseForm.js:27-29 | the selection becomes the event's value |
| `ExpenseEntry.ExpenseForm.ShowToast` | force-app/main/default/lwc/expenseForm/expenseForm.js:66-73 | exactly one toast with the given title, message and variant is dispatched |
| `ExpenseEntry.ExpenseForm.HandleError` | force-app/main/default/lwc/expenseForm/expenseForm.js:31-43 | exactly one toast titled "Error", variant "error", carrying the normalised message |
| `ExpenseEntry.ExpenseForm.HandleSubmit` | force-app/main/default/lwc/expenseForm/expenseForm.js:47-53 | Monthly_Budget__c of the submitted fields becomes the current selection, every other field is unchanged, and those fields are submitted |
| `ExpenseEntry.ExpenseForm.HandleSuccess` | force-app/main/default/lwc/expenseForm/expenseForm.js:55-57 | one success toast naming the saved record's Id |
| `ExpenseEntry.ExpenseForm.HandleClear` | force-app/main/default/lwc/expenseForm/expenseForm.js:59-63 | the form is reset once, the selection cleared, and one info toast "Form cleared" dispatched |
| `MonthlyBudgetEntry.MonthlyBudgetForm.HandleClear` | force-app/main/default/lwc/monthlyBudgetForm/monthlyBudgetForm.js:5-12 | every input field is back at its initial value |
| `MonthlyBudgetEntry.MonthlyBudgetForm.HandleError` | force-app/main/default/lwc/monthlyBudgetForm/monthlyBudgetForm.js:14-31 | exactly one toast titled "Error", variant "error", carrying the normalised message |
| `MonthlyBudgetEntry.MonthlyBudgetForm.HandleSuccess` | force-app/main/default/lwc/monthlyBudgetForm/monthlyBudgetForm.js:32-40 | one success toast, then every input field is back at its initial value |

## Left out

- Chart.js itself is not modelled: the canvas lookup, chart types, options, styling and how the pie cycles its colours. A chart is an opaque object holding its configuration and a `destroyed` flag.
- `loadScript` is not modelled. A successful load is the explicit step `OnLibraryLoaded`. A failed load only logs, except in `expenseManager`, where it calls `handleError` (`HandleError` models that call).
- Whether the library has finished loading is the parameter `libraryPresent`, not component state. Other components may load it first, so the model ties it to nothing, except that the step after a component's own completed load passes `true`. `chartJsInitialized` means "load started", as in the source.
- In monthlyCategoryBarChart, expenseCategoryChart and savingsChart a render without the library throws a TypeError that no handler catches. The model stops the render there and leaves out how the platform reports the uncaught error. In budgetExpenseChart the render runs inside the fetch's `.then`, so that fetch's `.catch` logs the error. The model treats it like any other logged failure: nothing further changes.
- Apex calls, `@wire` re-fetching when a parameter changes, and `refreshApex` are not modelled. Their answers are method parameters, and requests are recorded in logs. Answers apply in the order they arrive. A slow, superseded answer can overwrite a newer one, and the model does not exclude this.
- Failed fetches that only log to the console change nothing in the model.
- `confirm()` and the deletion call are left out. `DeleteRecord` records the request; `OnDeleted` and `OnExpensesReloaded` are the success steps.
- The record-edit form's `submit` and `reset` are recorded in `submissions` and `formResets`. What the platform does with them is left out.
- Date and locale formatting is the opaque parameter `format`, and the current month is the parameter `currentMonth`. A missing or invalid Month_Year__c is not modelled, so the "Invalid Date" label and NaN month keys are out.
- The monthly chart's label string (currency symbol, interpolation) is a `MonthLabel(month, total)` pair.
- Amounts are integers. JavaScript's floating-point sums and undefined totals are not modelled.
- Error bodies whose elements are `null` (where `map` throws) and non-string messages are not modelled.
- `expenseManager`'s column definitions are constants of the table widget and are left out.
- budgetManager.js is not part of this model. Its row dispatch repeats `expenseManager`'s; the rest is CRUD and toast glue.
