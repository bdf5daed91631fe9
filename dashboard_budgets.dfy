/**
 * The dashboard's budget utilisation: budgets are grouped by period and category
 * into `budgetGroups`, one aggregate is run per group (measured for the group's
 * first budget), the result is written back to every budget id of the group, and
 * budgets at or above 80% of their amount are counted as alerts.
 */
module DashboardBudgets {
  import opened Wrappers
  import opened JsString
  import opened Finance
  import opened DashboardTotals
  import Utilisation

  // ---------------------------------------------------------------------------
  // Group keys
  // ---------------------------------------------------------------------------

  /** `budget.categoryId || 'all'`. */
  function CategoryOrAll(c: Option<string>): string {
    if Truthy(c) then c.value else "all"
  }

  /** `${budget.period}-${budget.categoryId || 'all'}`. */
  function GroupKey(b: Budget): string {
    b.period + "-" + CategoryOrAll(b.categoryId)
  }

  /** For the three schema periods, the key determines the period and the category part. */
  lemma GroupKeyInjective(a: Budget, b: Budget)
    requires IsPeriod(a.period) && IsPeriod(b.period)
    ensures GroupKey(a) == GroupKey(b) <==>
      a.period == b.period && CategoryOrAll(a.categoryId) == CategoryOrAll(b.categoryId)
  {
    var ka, kb := GroupKey(a), GroupKey(b);
    if ka == kb {
      assert ka[0] == a.period[0] && kb[0] == b.period[0];
      assert a.period == b.period;
      var n := |a.period| + 1;
      assert ka[n..] == CategoryOrAll(a.categoryId);
      assert kb[n..] == CategoryOrAll(b.categoryId);
    }
  }

  /** A category whose id is literally "all" shares its key with the overall budget of its period. */
  lemma AllCategoryJoinsOverall(id1: string, id2: string, userId: string, amount: real)
    ensures GroupKey(Budget(id1, userId, amount, "monthly", Some("all")))
         == GroupKey(Budget(id2, userId, amount, "monthly", None))
  {
  }

  // ---------------------------------------------------------------------------
  // budgetGroups
  // ---------------------------------------------------------------------------

  /** The budgets with key `k`, in budget order: one entry of `budgetGroups`. */
  function WithKey(bs: seq<Budget>, k: string): seq<Budget> {
    if bs == [] then []
    else WithKey(bs[..|bs| - 1], k) + (if GroupKey(bs[|bs| - 1]) == k then [bs[|bs| - 1]] else [])
  }

  /** The keys of `budgetGroups` in insertion order: each key once, at its first budget. */
  function DistinctKeys(bs: seq<Budget>): seq<string> {
    if bs == [] then []
    else
      var ks := DistinctKeys(bs[..|bs| - 1]);
      var k := GroupKey(bs[|bs| - 1]);
      if k in ks then ks else ks + [k]
  }

  lemma WithKeyAppend(bs: seq<Budget>, b: Budget, k: string)
    ensures WithKey(bs + [b], k) == WithKey(bs, k) + (if GroupKey(b) == k then [b] else [])
  {
    assert (bs + [b])[..|bs|] == bs;
  }

  lemma DistinctKeysAppend(bs: seq<Budget>, b: Budget)
    ensures DistinctKeys(bs + [b]) ==
      if GroupKey(b) in DistinctKeys(bs) then DistinctKeys(bs) else DistinctKeys(bs) + [GroupKey(b)]
  {
    assert (bs + [b])[..|bs|] == bs;
  }

  /** A group holds exactly the budgets carrying its key. */
  lemma {:induction false} WithKeyMembers(bs: seq<Budget>, k: string)
    ensures forall b :: b in WithKey(bs, k) <==> b in bs && GroupKey(b) == k
  {
    if bs != [] {
      var init := bs[..|bs| - 1];
      WithKeyMembers(init, k);
      assert bs == init + [bs[|bs| - 1]];
    }
  }

  /** A key is present exactly when some budget carries it. */
  lemma {:induction false} DistinctKeysMembers(bs: seq<Budget>)
    ensures forall k :: k in DistinctKeys(bs) <==> exists b :: b in bs && GroupKey(b) == k
  {
    if bs != [] {
      var init := bs[..|bs| - 1];
      DistinctKeysMembers(init);
      assert bs == init + [bs[|bs| - 1]];
    }
  }

  /** A group is empty exactly when its key was never inserted. */
  lemma {:induction false} WithKeyEmpty(bs: seq<Budget>, k: string)
    ensures WithKey(bs, k) == [] <==> k !in DistinctKeys(bs)
  {
    if bs != [] {
      WithKeyEmpty(bs[..|bs| - 1], k);
    }
  }

  /** No key is inserted twice. */
  lemma {:induction false} DistinctKeysNoDuplicates(bs: seq<Budget>)
    ensures NoDuplicates(DistinctKeys(bs))
  {
    if bs != [] {
      DistinctKeysNoDuplicates(bs[..|bs| - 1]);
    }
  }

  /** `groupBudgets[0]`: the budget whose period and category the group's query uses. */
  function FirstWithKey(bs: seq<Budget>, k: string): (b: Budget)
    requires k in DistinctKeys(bs)
    ensures b in bs && GroupKey(b) == k
  {
    WithKeyEmpty(bs, k);
    WithKeyMembers(bs, k);
    assert WithKey(bs, k)[0] in WithKey(bs, k);
    WithKey(bs, k)[0]
  }

  /** The first budget of a group is the earliest budget carrying its key. */
  lemma {:induction false} FirstWithKeyIsEarliest(bs: seq<Budget>, i: nat)
    requires i < |bs|
    requires forall j :: 0 <= j < i ==> GroupKey(bs[j]) != GroupKey(bs[i])
    ensures GroupKey(bs[i]) in DistinctKeys(bs)
    ensures FirstWithKey(bs, GroupKey(bs[i])) == bs[i]
  {
    var k := GroupKey(bs[i]);
    var init := bs[..|bs| - 1];
    assert bs == init + [bs[|bs| - 1]];
    WithKeyAppend(init, bs[|bs| - 1], k);
    DistinctKeysMembers(bs);
    WithKeyEmpty(bs, k);
    if i < |bs| - 1 {
      assert bs[i] == init[i];
      FirstWithKeyIsEarliest(init, i);
      WithKeyEmpty(init, k);
    } else {
      WithKeyMembers(init, k);
      assert forall b :: b in init ==> GroupKey(b) != k by {
        forall b | b in init ensures GroupKey(b) != k {
          var j :| 0 <= j < |init| && init[j] == b;
          assert bs[j] == b;
        }
      }
      WithKeyEmpty(init, k);
      DistinctKeysMembers(init);
      assert WithKey(init, k) == [];
    }
  }

  /** `keys` and `groups` are the Map `budgetGroups` built from `pre`. */
  ghost predicate Grouped(pre: seq<Budget>, keys: seq<string>, groups: map<string, seq<Budget>>) {
    && keys == DistinctKeys(pre)
    && (forall k :: k in groups <==> k in keys)
    && (forall k :: k in groups ==> groups[k] == WithKey(pre, k))
  }

  /** One iteration of the grouping loop: budget `b` joins the group of its key, opened if new. */
  lemma GroupStep(pre: seq<Budget>, b: Budget, keys: seq<string>, groups: map<string, seq<Budget>>,
                  keys': seq<string>, groups': map<string, seq<Budget>>)
    requires Grouped(pre, keys, groups)
    requires keys' == if GroupKey(b) in groups then keys else keys + [GroupKey(b)]
    requires forall k :: k in groups' <==> k in groups || k == GroupKey(b)
    requires groups'[GroupKey(b)] == (if GroupKey(b) in groups then groups[GroupKey(b)] else []) + [b]
    requires forall k :: k in groups && k != GroupKey(b) ==> groups'[k] == groups[k]
    ensures Grouped(pre + [b], keys', groups')
  {
    DistinctKeysAppend(pre, b);
    forall k | k in groups' ensures groups'[k] == WithKey(pre + [b], k) {
      WithKeyAppend(pre, b, k);
      if k == GroupKey(b) && k !in groups {
        WithKeyEmpty(pre, k);
      }
    }
  }

  /** `budgetGroups`: a Map from key to budgets, filled in budget order. */
  method GroupBudgets(budgets: seq<Budget>) returns (keys: seq<string>, groups: map<string, seq<Budget>>)
    ensures keys == DistinctKeys(budgets)
    ensures forall k :: k in groups <==> k in keys
    ensures forall k :: k in groups ==> groups[k] == WithKey(budgets, k)
  {
    keys, groups := [], map[];
    for i := 0 to |budgets|
      invariant Grouped(budgets[..i], keys, groups)
    {
      var budget := budgets[i];
      var key := GroupKey(budget);
      ghost var keys0, groups0 := keys, groups;
      if key !in groups {
        groups, keys := groups[key := []], keys + [key];
      }
      groups := groups[key := groups[key] + [budget]];
      GroupStep(budgets[..i], budget, keys0, groups0, keys, groups);
      assert budgets[..i + 1] == budgets[..i] + [budget];
    }
    assert budgets[..|budgets|] == budgets;
  }

  // ---------------------------------------------------------------------------
  // Spent per group
  // ---------------------------------------------------------------------------

  /** The filter a group adds: `...(firstBudget.categoryId ? { categoryId } : {})`. */
  function CategoryFilter(c: Option<string>): Option<string> {
    if Truthy(c) then c else None
  }

  /** `_sum.amount || 0` of the group's query, measured for budget `first`. */
  function GroupSpent(expenses: seq<Transaction>, userId: string, cal: Calendar, first: Budget): real {
    AggregateOrZero(expenses, userId, BudgetWindow(first.period, cal), CategoryFilter(first.categoryId))
  }

  /** The spent value every budget of a group receives. */
  function SpentOf(bs: seq<Budget>, expenses: seq<Transaction>, userId: string, cal: Calendar, b: Budget): real
    requires b in bs
  {
    DistinctKeysMembers(bs);
    GroupSpent(expenses, userId, cal, FirstWithKey(bs, GroupKey(b)))
  }

  /** Budgets sharing a key share their spent value. */
  lemma SharedKeySharesSpent(bs: seq<Budget>, expenses: seq<Transaction>, userId: string, cal: Calendar, a: Budget, b: Budget)
    requires a in bs && b in bs && GroupKey(a) == GroupKey(b)
    ensures SpentOf(bs, expenses, userId, cal, a) == SpentOf(bs, expenses, userId, cal, b)
  {
  }

  /**
   * Sharing one query per group gives every budget what its own query would give,
   * except when a category's id is literally "all".
   */
  lemma SharingMatchesIndependentQueries(bs: seq<Budget>, expenses: seq<Transaction>, userId: string, cal: Calendar, b: Budget)
    requires b in bs
    requires forall x :: x in bs ==> IsPeriod(x.period) && x.categoryId != Some("all")
    ensures SpentOf(bs, expenses, userId, cal, b) == GroupSpent(expenses, userId, cal, b)
  {
    DistinctKeysMembers(bs);
    var first := FirstWithKey(bs, GroupKey(b));
    GroupKeyInjective(first, b);
    assert CategoryFilter(first.categoryId) == CategoryFilter(b.categoryId);
  }

  /** The overall budget's spent is the whole window's expense total. */
  lemma OverallSpentIsTotal(expenses: seq<Transaction>, userId: string, cal: Calendar, b: Budget)
    requires !Truthy(b.categoryId)
    ensures GroupSpent(expenses, userId, cal, b) == Total(expenses, userId, BudgetWindow(b.period, cal))
  {
  }

  /** Writes `spent` to every id of one group, leaving the other ids alone. */
  method AssignGroup(spentById: map<string, real>, members: seq<Budget>, spent: real)
    returns (m: map<string, real>)
    ensures forall b :: b in members ==> b.id in m && m[b.id] == spent
    ensures forall id :: id in spentById && (forall b :: b in members ==> b.id != id) ==>
      id in m && m[id] == spentById[id]
  {
    m := spentById;
    for j := 0 to |members|
      invariant forall k :: 0 <= k < j ==> members[k].id in m && m[members[k].id] == spent
      invariant forall id :: id in spentById && (forall b :: b in members ==> b.id != id) ==>
        id in m && m[id] == spentById[id]
    {
      m := m[members[j].id := spent];
    }
  }

  /** Every budget whose key is in `done` has its group's spent in `m`. */
  predicate SpentAssigned(budgets: seq<Budget>, expenses: seq<Transaction>, userId: string, cal: Calendar,
                          m: map<string, real>, done: seq<string>)
  {
    forall b :: b in budgets && GroupKey(b) in done ==>
      b.id in m && m[b.id] == SpentOf(budgets, expenses, userId, cal, b)
  }

  /**
   * One iteration of the `budgetGroups.forEach` loop: writing group `g`'s spent
   * keeps the groups already written and adds that one.
   */
  lemma AssignGroupStep(budgets: seq<Budget>, expenses: seq<Transaction>, userId: string, cal: Calendar,
                        keys: seq<string>, g: nat, m: map<string, real>, next: map<string, real>)
    requires IdsIdentify(budgets)
    requires keys == DistinctKeys(budgets) && NoDuplicates(keys) && g < |keys|
    requires SpentAssigned(budgets, expenses, userId, cal, m, keys[..g])
    requires forall b :: b in WithKey(budgets, keys[g]) ==>
      b.id in next && next[b.id] == GroupSpent(expenses, userId, cal, FirstWithKey(budgets, keys[g]))
    requires forall id :: id in m && (forall b :: b in WithKey(budgets, keys[g]) ==> b.id != id) ==>
      id in next && next[id] == m[id]
    ensures SpentAssigned(budgets, expenses, userId, cal, next, keys[..g + 1])
  {
    var key := keys[g];
    NoDuplicatesPrefix(keys, g);
    WithKeyMembers(budgets, key);
    assert keys[..g + 1] == keys[..g] + [key];
    forall b | b in budgets && GroupKey(b) in keys[..g + 1]
      ensures b.id in next && next[b.id] == SpentOf(budgets, expenses, userId, cal, b)
    {
      if GroupKey(b) == key {
        assert b in WithKey(budgets, key);
      } else {
        assert GroupKey(b) in keys[..g];
        assert forall x :: x in WithKey(budgets, key) ==> x.id != b.id;
      }
    }
  }

  /** `budgetExpensesMap`: one aggregate per group, written to every budget id of the group. */
  method ComputeSpent(budgets: seq<Budget>, expenses: seq<Transaction>, userId: string, cal: Calendar)
    returns (spentById: map<string, real>)
    requires IdsIdentify(budgets)
    ensures forall b :: b in budgets ==>
      b.id in spentById && spentById[b.id] == SpentOf(budgets, expenses, userId, cal, b)
  {
    var keys, groups := GroupBudgets(budgets);
    DistinctKeysNoDuplicates(budgets);
    spentById := map[];
    for g := 0 to |keys|
      invariant SpentAssigned(budgets, expenses, userId, cal, spentById, keys[..g])
    {
      var key := keys[g];
      var members := groups[key];
      assert key in DistinctKeys(budgets) && members == WithKey(budgets, key);
      assert members != [] by { WithKeyEmpty(budgets, key); }
      var spent := GroupSpent(expenses, userId, cal, members[0]);
      var next := AssignGroup(spentById, members, spent);
      assert spent == GroupSpent(expenses, userId, cal, FirstWithKey(budgets, key));
      AssignGroupStep(budgets, expenses, userId, cal, keys, g, spentById, next);
      spentById := next;
    }
    assert forall b :: b in budgets ==> GroupKey(b) in keys[..|keys|] by {
      assert keys[..|keys|] == keys;
      DistinctKeysMembers(budgets);
    }
  }

  // ---------------------------------------------------------------------------
  // budgetsWithSpent and budgetAlerts
  // ---------------------------------------------------------------------------

  /** A budget plus its computed `spent`. */
  datatype BudgetWithSpent = BudgetWithSpent(budget: Budget, spent: real)

  /** `budgetExpensesMap.get(budget.id) || 0`. */
  function SpentLookup(spentById: map<string, real>, id: string): real {
    if id in spentById then spentById[id] else 0.0
  }

  predicate NeedsAttention(b: BudgetWithSpent) {
    Utilisation.NeedsAttention(b.spent, b.budget.amount)
  }

  /** The number of budgets at or above 80% utilisation. */
  function CountAttention(s: seq<BudgetWithSpent>): (n: nat)
    ensures n <= |s|
    ensures n == 0 <==> forall b :: b in s ==> !NeedsAttention(b)
  {
    if s == [] then 0
    else
      var n := CountAttention(s[..|s| - 1]);
      assert forall b :: b in s <==> b in s[..|s| - 1] || b == s[|s| - 1] by {
        assert s == s[..|s| - 1] + [s[|s| - 1]];
      }
      n + (if NeedsAttention(s[|s| - 1]) then 1 else 0)
  }

  lemma CountAttentionSnoc(s: seq<BudgetWithSpent>, b: BudgetWithSpent)
    ensures CountAttention(s + [b]) == CountAttention(s) + (if NeedsAttention(b) then 1 else 0)
  {
    assert (s + [b])[..|s|] == s;
  }

  function CountOver(s: seq<BudgetWithSpent>): nat {
    if s == [] then 0
    else CountOver(s[..|s| - 1]) + (if Utilisation.IsOverBudget(s[|s| - 1].spent, s[|s| - 1].budget.amount) then 1 else 0)
  }

  function CountWarning(s: seq<BudgetWithSpent>): nat {
    if s == [] then 0
    else CountWarning(s[..|s| - 1]) + (if Utilisation.IsWarning(s[|s| - 1].spent, s[|s| - 1].budget.amount) then 1 else 0)
  }

  /** Alerts count over-budget and warning budgets alike: the two states partition the alerts. */
  lemma {:induction false} AlertsAreOverPlusWarning(s: seq<BudgetWithSpent>)
    ensures CountAttention(s) == CountOver(s) + CountWarning(s)
  {
    if s != [] {
      var b := s[|s| - 1];
      AlertsAreOverPlusWarning(s[..|s| - 1]);
      Utilisation.AttentionIsOverOrWarning(b.spent, b.budget.amount);
      Utilisation.OverAndWarningExclusive(b.spent, b.budget.amount);
    }
  }

  /** `budgetsWithSpent`, and the `budgetAlerts` counter incremented inside the map callback. */
  method AttachSpent(budgets: seq<Budget>, spentById: map<string, real>)
    returns (withSpent: seq<BudgetWithSpent>, alerts: nat)
    ensures |withSpent| == |budgets|
    ensures forall i :: 0 <= i < |budgets| ==>
      withSpent[i] == BudgetWithSpent(budgets[i], SpentLookup(spentById, budgets[i].id))
    ensures alerts == CountAttention(withSpent)
  {
    withSpent, alerts := [], 0;
    for i := 0 to |budgets|
      invariant |withSpent| == i
      invariant forall k :: 0 <= k < i ==>
        withSpent[k] == BudgetWithSpent(budgets[k], SpentLookup(spentById, budgets[k].id))
      invariant alerts == CountAttention(withSpent)
    {
      var budget := budgets[i];
      var spent := if budget.id in spentById then spentById[budget.id] else 0.0;
      var percentage := Utilisation.Percentage(spent, budget.amount);
      CountAttentionSnoc(withSpent, BudgetWithSpent(budget, spent));
      if Utilisation.AtLeast(percentage, 80.0) {
        alerts := alerts + 1;
      }
      withSpent := withSpent + [BudgetWithSpent(budget, spent)];
    }
  }

  /** Each budget with the spent value of its group. */
  function BudgetsWithSpent(bs: seq<Budget>, expenses: seq<Transaction>, userId: string, cal: Calendar)
    : seq<BudgetWithSpent>
  {
    seq(|bs|, i requires 0 <= i < |bs| => BudgetWithSpent(bs[i], SpentOf(bs, expenses, userId, cal, bs[i])))
  }
}
