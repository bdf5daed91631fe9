/**
 * The dashboard's budget overview widget: the first four budgets, each with its
 * progress, colour state and a percentage badge for budgets that need attention.
 */
module BudgetOverview {
  import opened Wrappers
  import opened JsString
  import opened Utilisation

  /** A budget as the widget receives it; `spent` is optional in its props. */
  datatype OverviewBudget = OverviewBudget(
    id: string, amount: real, period: string, spent: Option<real>,
    categoryName: Option<string>, categoryColor: Option<string>)

  /** One rendered row. */
  datatype Row = Row(
    id: string, title: string, color: string, spent: real, progress: JsNumber, status: Status, badge: bool)

  /** `budget.spent || 0`. */
  function SpentOrZero(b: OverviewBudget): (s: real)
    ensures b.spent.None? ==> s == 0.0
    ensures b.spent.Some? ==> s == b.spent.value
  {
    if b.spent.Some? && b.spent.value != 0.0 then b.spent.value else 0.0
  }

  function RowFor(b: OverviewBudget): (r: Row)
    ensures r.id == b.id && r.spent == SpentOrZero(b)
    ensures r.status == StatusOf(SpentOrZero(b), b.amount)
    ensures r.badge <==> r.status == Over || r.status == Warning
    ensures r.badge <==> NeedsAttention(SpentOrZero(b), b.amount)
    ensures r.progress == CapAt100(Percentage(SpentOrZero(b), b.amount))
    ensures r.progress.Finite? ==> r.progress.value <= 100.0
    ensures b.categoryName.None? ==> r.title == "Overall"
    ensures b.categoryName.Some? && b.categoryName.value != "" ==> r.title == b.categoryName.value
    ensures b.categoryName.Some? && b.categoryName.value == "" ==> r.title == "Overall"
    ensures b.categoryColor.Some? && b.categoryColor.value != "" ==> r.color == b.categoryColor.value
    ensures b.categoryColor.None? || b.categoryColor.value == "" ==> r.color == "#2ECC71"
  {
    var spent := SpentOrZero(b);
    var percentage := Percentage(spent, b.amount);
    var isOverBudget := AtLeast(percentage, 100.0);
    var isWarning := AtLeast(percentage, 80.0) && Below(percentage, 100.0);
    Row(b.id, OrElse(b.categoryName.GetOr(""), "Overall"), OrElse(b.categoryColor.GetOr(""), "#2ECC71"),
        spent, CapAt100(percentage), StatusOf(spent, b.amount), isOverBudget || isWarning)
  }

  /** What the widget renders. */
  datatype View = EmptyState | Rows(rows: seq<Row>)

  /** The empty state for no budgets, otherwise `budgets.slice(0, 4).map(...)`. */
  function Render(bs: seq<OverviewBudget>): (v: View)
    ensures v == EmptyState <==> bs == []
    ensures v.Rows? ==> |v.rows| == (if |bs| < 4 then |bs| else 4)
    ensures v.Rows? ==> forall i :: 0 <= i < |v.rows| ==> v.rows[i] == RowFor(bs[i])
  {
    if |bs| == 0 then EmptyState
    else
      var shown := if |bs| < 4 then bs else bs[..4];
      Rows(seq(|shown|, i requires 0 <= i < |shown| => RowFor(shown[i])))
  }

  /** A budget past the fourth is never shown, whatever it holds. */
  lemma LaterBudgetsIgnored(bs: seq<OverviewBudget>, extra: seq<OverviewBudget>)
    requires |bs| >= 4
    ensures Render(bs + extra) == Render(bs)
  {
    assert (bs + extra)[..4] == bs[..4];
  }
}
