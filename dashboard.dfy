/**
 * GET /api/dashboard: the request handler that assembles the totals, budget
 * utilisation, chart and recent lists into one payload.
 */
module Dashboard {
  import opened Wrappers
  import opened Finance
  import opened DashboardTotals
  import opened DashboardBudgets
  import opened DashboardChart
  import opened DashboardRecent

  /** The rows the handler reads. */
  datatype Store = Store(
    expenses: seq<Transaction>, incomes: seq<Transaction>, budgets: seq<Budget>, categories: seq<Category>)

  datatype Stat = Stat(value: real, change: real)
  datatype Stats = Stats(income: Stat, expenses: Stat, netBalance: real, budgetAlerts: nat)
  datatype Meta = Meta(range: string, from: Timestamp, to: Timestamp)
  datatype Payload = Payload(
    stats: Stats, recentExpenses: seq<Transaction>, recentIncomes: seq<Transaction>,
    budgets: seq<BudgetWithSpent>, chartData: seq<ChartEntry>, meta: Meta)

  /** The statistic of one kind of row: the current total and its change against the comparison window. */
  function StatOf(rows: seq<Transaction>, userId: string, w: WindowPair): Stat {
    Stat(Total(rows, userId, w.current), Change(Total(rows, userId, w.current), Total(rows, userId, w.comparison)))
  }

  /** The payload the handler answers a signed-in caller with. */
  function Expected(userId: string, q: RangeQuery, cal: Calendar, parseIso: string -> Timestamp, store: Store): Payload {
    var w := Windows(q, cal, parseIso);
    var income, expenses := StatOf(store.incomes, userId, w), StatOf(store.expenses, userId, w);
    var budgets := BudgetsWithSpent(BudgetsOf(store.budgets, userId), store.expenses, userId, cal);
    Payload(
      Stats(income, expenses, income.value - expenses.value, CountAttention(budgets)),
      Recent(store.expenses, userId), Recent(store.incomes, userId), budgets,
      ChartData(GroupByCategory(store.expenses, userId, w.current), store.categories),
      Meta(RangeOf(q), w.current.start, w.current.end))
  }

  /** GET /api/dashboard: 401 without a signed-in user, otherwise the assembled payload. */
  method Get(userId: Option<string>, q: RangeQuery, cal: Calendar, parseIso: string -> Timestamp, store: Store)
    returns (r: Result<Payload, int>)
    requires IdsIdentify(store.budgets)
    ensures userId.None? ==> r == Failure(401)
    ensures userId.Some? ==> r == Success(Expected(userId.value, q, cal, parseIso, store))
  {
    if userId.None? {
      return Failure(401);
    }
    var u := userId.value;
    var current, comparison := ResolveWindows(q, cal, parseIso);

    var currentExpenseTotal := Total(store.expenses, u, current);
    var lastPeriodExpenseTotal := Total(store.expenses, u, comparison);
    var currentIncomeTotal := Total(store.incomes, u, current);
    var lastPeriodIncomeTotal := Total(store.incomes, u, comparison);

    var budgets := BudgetsOf(store.budgets, u);
    BudgetsOfMembers(store.budgets, u);
    var spentById := ComputeSpent(budgets, store.expenses, u, cal);
    var budgetsWithSpent, budgetAlerts := AttachSpent(budgets, spentById);
    assert budgetsWithSpent == BudgetsWithSpent(budgets, store.expenses, u, cal) by {
      forall i | 0 <= i < |budgets|
        ensures SpentLookup(spentById, budgets[i].id) == SpentOf(budgets, store.expenses, u, cal, budgets[i])
      {
        assert budgets[i] in budgets;
      }
    }

    var chartData := ChartData(GroupByCategory(store.expenses, u, current), store.categories);
    var stats := Stats(
      Stat(currentIncomeTotal, Change(currentIncomeTotal, lastPeriodIncomeTotal)),
      Stat(currentExpenseTotal, Change(currentExpenseTotal, lastPeriodExpenseTotal)),
      currentIncomeTotal - currentExpenseTotal,
      budgetAlerts);
    r := Success(Payload(
      stats, Recent(store.expenses, u), Recent(store.incomes, u), budgetsWithSpent, chartData,
      Meta(RangeOf(q), current.start, current.end)));
  }

  /** The net balance is income minus expenses over the same window. */
  lemma NetBalanceIsIncomeMinusExpenses(userId: string, q: RangeQuery, cal: Calendar, parseIso: string -> Timestamp, store: Store)
    ensures var p := Expected(userId, q, cal, parseIso, store);
      var w := Windows(q, cal, parseIso).current;
      p.stats.netBalance == Total(store.incomes, userId, w) - Total(store.expenses, userId, w)
  {
  }

  /** The chart divides exactly the expense total of the stats. */
  lemma ChartMatchesExpenseStat(userId: string, q: RangeQuery, cal: Calendar, parseIso: string -> Timestamp, store: Store)
    ensures var p := Expected(userId, q, cal, parseIso, store);
      SumValues(p.chartData) == p.stats.expenses.value
  {
    ChartAddsUpToTotal(store.expenses, userId, Windows(q, cal, parseIso).current, store.categories);
  }

  /**
   * Every budget returned is one of the caller's, with the spent its group's query
   * measures, and the alert count is the number of them at or above 80%.
   */
  lemma BudgetsInPayload(userId: string, q: RangeQuery, cal: Calendar, parseIso: string -> Timestamp, store: Store)
    ensures var p := Expected(userId, q, cal, parseIso, store);
      && (forall b :: b in p.budgets ==> b.budget in store.budgets && b.budget.userId == userId)
      && |p.budgets| == |BudgetsOf(store.budgets, userId)|
      && p.stats.budgetAlerts <= |p.budgets|
      && p.stats.budgetAlerts == CountOver(p.budgets) + CountWarning(p.budgets)
  {
    var p := Expected(userId, q, cal, parseIso, store);
    var ub := BudgetsOf(store.budgets, userId);
    BudgetsOfMembers(store.budgets, userId);
    AlertsAreOverPlusWarning(p.budgets);
    forall b | b in p.budgets ensures b.budget in store.budgets && b.budget.userId == userId {
      var i :| 0 <= i < |p.budgets| && p.budgets[i] == b;
      assert b.budget == ub[i];
    }
  }

  /** With budgets of the three periods and no category named "all", each budget's spent is its own aggregate. */
  lemma BudgetSpentIsOwnAggregate(userId: string, q: RangeQuery, cal: Calendar, parseIso: string -> Timestamp, store: Store, i: nat)
    requires forall x :: x in store.budgets ==> IsPeriod(x.period) && x.categoryId != Some("all")
    requires i < |Expected(userId, q, cal, parseIso, store).budgets|
    ensures var b := Expected(userId, q, cal, parseIso, store).budgets[i];
      b.spent == AggregateOrZero(store.expenses, userId, BudgetWindow(b.budget.period, cal), CategoryFilter(b.budget.categoryId))
  {
    var ub := BudgetsOf(store.budgets, userId);
    BudgetsOfMembers(store.budgets, userId);
    assert ub[i] in ub;
    SharingMatchesIndependentQueries(ub, store.expenses, userId, cal, ub[i]);
  }
}
