/**
 * The dashboard's expense-by-category chart: `groupBy({ by: ["categoryId"] })` over
 * the current window, each row joined with the EXPENSE categories for its name
 * and colour.
 */
module DashboardChart {
  import opened Wrappers
  import opened JsString
  import opened Finance
  import opened DashboardTotals

  /** One row of the groupBy: a category id and its `_sum.amount`. */
  datatype CategorySum = CategorySum(categoryId: string, sum: Option<real>)

  datatype ChartEntry = ChartEntry(name: string, value: real, color: string)

  /** The distinct category ids of `xs`, in order of first occurrence. */
  function CategoryIds(xs: seq<Transaction>): seq<string> {
    if xs == [] then []
    else
      var ids := CategoryIds(xs[..|xs| - 1]);
      var c := xs[|xs| - 1].categoryId;
      if c in ids then ids else ids + [c]
  }

  /** Each category present occurs once. */
  lemma {:induction false} CategoryIdsSpec(xs: seq<Transaction>)
    ensures forall c :: c in CategoryIds(xs) <==> exists t :: t in xs && t.categoryId == c
    ensures NoDuplicates(CategoryIds(xs))
  {
    if xs != [] {
      var init := xs[..|xs| - 1];
      CategoryIdsSpec(init);
      assert xs == init + [xs[|xs| - 1]];
    }
  }

  /** The amounts of the rows of `xs` in category `c`. */
  function CategoryTotal(xs: seq<Transaction>, c: string): real {
    if xs == [] then 0.0
    else CategoryTotal(xs[..|xs| - 1], c) + (if xs[|xs| - 1].categoryId == c then xs[|xs| - 1].amount else 0.0)
  }

  /** A category's row of the groupBy is what the same aggregate with a category filter gives. */
  lemma {:induction false} CategoryTotalIsFilteredSum(store: seq<Transaction>, userId: string, w: Window, c: string)
    ensures CategoryTotal(Matching(store, userId, w, None), c) == Sum(Matching(store, userId, w, Some(c)))
  {
    if store != [] {
      var init := store[..|store| - 1];
      var t := store[|store| - 1];
      CategoryTotalIsFilteredSum(init, userId, w, c);
      var ma, mc := Matching(init, userId, w, None), Matching(init, userId, w, Some(c));
      assert Matching(store, userId, w, None) == ma + (if Selects(t, userId, w, None) then [t] else []);
      assert Matching(store, userId, w, Some(c)) == mc + (if Selects(t, userId, w, Some(c)) then [t] else []);
      if Selects(t, userId, w, None) {
        CategoryTotalAppend(ma, t, c);
        if t.categoryId == c {
          SumAppend(mc, t);
        } else {
          assert mc + [] == mc;
        }
      } else {
        assert ma + [] == ma;
        assert mc + [] == mc;
      }
    }
  }

  lemma CategoryTotalAppend(xs: seq<Transaction>, t: Transaction, c: string)
    ensures CategoryTotal(xs + [t], c) == CategoryTotal(xs, c) + (if t.categoryId == c then t.amount else 0.0)
  {
    assert (xs + [t])[..|xs|] == xs;
  }

  /** The groupBy rows for the caller's rows in `w`: one per category present, in first-occurrence order. */
  function GroupByCategory(store: seq<Transaction>, userId: string, w: Window): seq<CategorySum> {
    var xs := Matching(store, userId, w, None);
    var ids := CategoryIds(xs);
    seq(|ids|, i requires 0 <= i < |ids| => CategorySum(ids[i], Some(CategoryTotal(xs, ids[i]))))
  }

  /** Some row of the caller's in `w` is in category `c`. */
  predicate HasSelectedRow(store: seq<Transaction>, userId: string, w: Window, c: string) {
    exists t :: t in store && Selects(t, userId, w, None) && t.categoryId == c
  }

  /** The groupBy has a row for category `c`. */
  predicate HasChartRow(rows: seq<CategorySum>, c: string) {
    exists i :: 0 <= i < |rows| && rows[i].categoryId == c
  }

  /**
   * One row per category that has a selected row, no category twice, and each
   * row's sum is that category's aggregate over the window.
   */
  lemma GroupByCategorySpec(store: seq<Transaction>, userId: string, w: Window)
    ensures var rows := GroupByCategory(store, userId, w);
      forall i, j :: 0 <= i < j < |rows| ==> rows[i].categoryId != rows[j].categoryId
    ensures var rows := GroupByCategory(store, userId, w);
      forall i :: 0 <= i < |rows| ==> HasSelectedRow(store, userId, w, rows[i].categoryId)
    ensures var rows := GroupByCategory(store, userId, w);
      forall t :: t in store && Selects(t, userId, w, None) ==> HasChartRow(rows, t.categoryId)
    ensures var rows := GroupByCategory(store, userId, w);
      forall i :: 0 <= i < |rows| ==>
        rows[i].sum == Some(Sum(Matching(store, userId, w, Some(rows[i].categoryId))))
  {
    GroupByCategoryDistinct(store, userId, w);
    GroupByCategoryCovers(store, userId, w);
    GroupByCategorySums(store, userId, w);
  }

  lemma GroupByCategoryDistinct(store: seq<Transaction>, userId: string, w: Window)
    ensures var rows := GroupByCategory(store, userId, w);
      forall i, j :: 0 <= i < j < |rows| ==> rows[i].categoryId != rows[j].categoryId
  {
    CategoryIdsSpec(Matching(store, userId, w, None));
  }

  lemma GroupByCategoryCovers(store: seq<Transaction>, userId: string, w: Window)
    ensures var rows := GroupByCategory(store, userId, w);
      forall i :: 0 <= i < |rows| ==> HasSelectedRow(store, userId, w, rows[i].categoryId)
    ensures var rows := GroupByCategory(store, userId, w);
      forall t :: t in store && Selects(t, userId, w, None) ==> HasChartRow(rows, t.categoryId)
  {
    var xs := Matching(store, userId, w, None);
    var ids := CategoryIds(xs);
    var rows := GroupByCategory(store, userId, w);
    CategoryIdsSpec(xs);
    MatchingMembers(store, userId, w, None);
    forall t | t in store && Selects(t, userId, w, None)
      ensures HasChartRow(rows, t.categoryId)
    {
      assert t.categoryId in ids;
      var i :| 0 <= i < |ids| && ids[i] == t.categoryId;
      assert rows[i].categoryId == t.categoryId;
    }
    forall i | 0 <= i < |rows|
      ensures HasSelectedRow(store, userId, w, rows[i].categoryId)
    {
      assert ids[i] in ids;
    }
  }

  lemma GroupByCategorySums(store: seq<Transaction>, userId: string, w: Window)
    ensures var rows := GroupByCategory(store, userId, w);
      forall i :: 0 <= i < |rows| ==>
        rows[i].sum == Some(Sum(Matching(store, userId, w, Some(rows[i].categoryId))))
  {
    var ids := CategoryIds(Matching(store, userId, w, None));
    var rows := GroupByCategory(store, userId, w);
    forall i | 0 <= i < |rows|
      ensures rows[i].sum == Some(Sum(Matching(store, userId, w, Some(rows[i].categoryId))))
    {
      CategoryTotalIsFilteredSum(store, userId, w, ids[i]);
    }
  }

  /** `categories.find(c => c.id === e.categoryId)` over the EXPENSE categories, in store order. */
  function FindExpenseCategory(cats: seq<Category>, id: string): (r: Option<Category>)
    ensures r.Some? ==> r.value in cats && r.value.id == id && r.value.kind == Some(ExpenseCategory)
    ensures r.None? <==> forall c :: c in cats && c.id == id ==> c.kind != Some(ExpenseCategory)
  {
    if cats == [] then None
    else if cats[0].id == id && cats[0].kind == Some(ExpenseCategory) then Some(cats[0])
    else
      var r := FindExpenseCategory(cats[1..], id);
      assert forall c :: c in cats <==> c == cats[0] || c in cats[1..];
      r
  }

  /** One chart entry: the matching category's name and colour, else "Unknown" and "#2ECC71". */
  function ChartEntryFor(row: CategorySum, cats: seq<Category>): (e: ChartEntry)
    ensures e.name != "" && e.color != ""
    ensures e.name == "Unknown" || exists c :: c in cats && c.id == row.categoryId && c.kind == Some(ExpenseCategory) && c.name == e.name
    ensures e.color == "#2ECC71" || exists c :: c in cats && c.id == row.categoryId && c.kind == Some(ExpenseCategory) && c.color == e.color
    ensures (forall c :: c in cats && c.id == row.categoryId ==> c.kind != Some(ExpenseCategory)) ==>
      e.name == "Unknown" && e.color == "#2ECC71"
    ensures var c := FindExpenseCategory(cats, row.categoryId);
      (c.Some? && c.value.name != "" ==> e.name == c.value.name) &&
      (c.Some? && c.value.color != "" ==> e.color == c.value.color) &&
      (c.None? || c.value.name == "" ==> e.name == "Unknown") &&
      (c.None? || c.value.color == "" ==> e.color == "#2ECC71")
    ensures e.value == row.sum.GetOr(0.0)
  {
    var category := FindExpenseCategory(cats, row.categoryId);
    ChartEntry(
      OrElse(if category.Some? then category.value.name else "", "Unknown"),
      row.sum.GetOr(0.0),
      OrElse(if category.Some? then category.value.color else "", "#2ECC71"))
  }

  /** `chartData`: one entry per groupBy row, in the same order. */
  function ChartData(rows: seq<CategorySum>, cats: seq<Category>): (r: seq<ChartEntry>)
    ensures |r| == |rows|
    ensures forall i :: 0 <= i < |rows| ==> r[i] == ChartEntryFor(rows[i], cats)
  {
    seq(|rows|, i requires 0 <= i < |rows| => ChartEntryFor(rows[i], cats))
  }

  function SumValues(es: seq<ChartEntry>): real {
    if es == [] then 0.0 else SumValues(es[..|es| - 1]) + es[|es| - 1].value
  }

  /** Sum over the category ids `ids` of each category's total in `xs`. */
  function SumOverCategories(ids: seq<string>, xs: seq<Transaction>): real {
    if ids == [] then 0.0 else SumOverCategories(ids[..|ids| - 1], xs) + CategoryTotal(xs, ids[|ids| - 1])
  }

  lemma {:induction false} SumOverCategoriesStep(ids: seq<string>, xs: seq<Transaction>, t: Transaction)
    requires NoDuplicates(ids)
    ensures SumOverCategories(ids, xs + [t]) ==
      SumOverCategories(ids, xs) + (if t.categoryId in ids then t.amount else 0.0)
  {
    var s := xs + [t];
    assert s[..|s| - 1] == xs;
    if ids != [] {
      var init := ids[..|ids| - 1];
      var last := ids[|ids| - 1];
      assert ids == init + [last];
      assert NoDuplicates(init);
      SumOverCategoriesStep(init, xs, t);
      assert last !in init;
    }
  }

  lemma {:induction false} CategoryTotalOfAbsent(xs: seq<Transaction>, c: string)
    requires forall t :: t in xs ==> t.categoryId != c
    ensures CategoryTotal(xs, c) == 0.0
  {
    if xs != [] {
      CategoryTotalOfAbsent(xs[..|xs| - 1], c);
    }
  }

  /** Splitting rows by category and adding the category totals gives the plain sum. */
  lemma {:induction false} CategoryTotalsAddUp(xs: seq<Transaction>)
    ensures SumOverCategories(CategoryIds(xs), xs) == Sum(xs)
  {
    if xs != [] {
      var init := xs[..|xs| - 1];
      var t := xs[|xs| - 1];
      assert xs == init + [t];
      var ids := CategoryIds(init);
      CategoryTotalsAddUp(init);
      CategoryIdsSpec(init);
      SumOverCategoriesStep(ids, init, t);
      if t.categoryId !in ids {
        CategoryTotalOfAbsent(init, t.categoryId);
        var ids' := ids + [t.categoryId];
        assert ids'[..|ids'| - 1] == ids;
        assert NoDuplicates(ids');
        SumOverCategoriesStep(ids', init, t);
      }
    }
  }

  lemma {:induction false} SumValuesOfChart(ids: seq<string>, xs: seq<Transaction>, cats: seq<Category>)
    ensures
      var rows := seq(|ids|, i requires 0 <= i < |ids| => CategorySum(ids[i], Some(CategoryTotal(xs, ids[i]))));
      SumValues(ChartData(rows, cats)) == SumOverCategories(ids, xs)
  {
    var rows := seq(|ids|, i requires 0 <= i < |ids| => CategorySum(ids[i], Some(CategoryTotal(xs, ids[i]))));
    if ids != [] {
      var init := ids[..|ids| - 1];
      SumValuesOfChart(init, xs, cats);
      var rows' := seq(|init|, i requires 0 <= i < |init| => CategorySum(init[i], Some(CategoryTotal(xs, init[i]))));
      assert rows[..|rows| - 1] == rows';
      var chart := ChartData(rows, cats);
      assert chart[..|chart| - 1] == ChartData(rows', cats);
    }
  }

  /** The chart's slices add up to the period's expense total. */
  lemma ChartAddsUpToTotal(store: seq<Transaction>, userId: string, w: Window, cats: seq<Category>)
    ensures SumValues(ChartData(GroupByCategory(store, userId, w), cats)) == Total(store, userId, w)
  {
    var xs := Matching(store, userId, w, None);
    SumValuesOfChart(CategoryIds(xs), xs, cats);
    CategoryTotalsAddUp(xs);
    AggregateOrZeroIsSum(store, userId, w, None);
  }
}
