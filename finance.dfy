/**
 * The stored entities of the finance application: transactions (expenses and
 * incomes), categories and budgets. Identifiers are opaque strings and dates are
 * integer timestamps (milliseconds since the epoch).
 */
module Finance {
  import opened Wrappers

  type Timestamp = int

  /** A date window whose bounds are both inclusive (`gte` and `lte`). */
  datatype Window = Window(start: Timestamp, end: Timestamp) {
    predicate Contains(t: Timestamp) {
      start <= t && t <= end
    }
  }

  /** The fields only one kind of transaction carries. */
  datatype Detail =
    | ExpenseDetail(payee: string, description: Option<string>, labelIds: seq<string>,
                    receiptUrl: Option<string>, receiptPublicId: Option<string>)
    | IncomeDetail(source: string, description: Option<string>)

  /** An Expense or Income row. */
  datatype Transaction = Transaction(
    id: string, userId: string, userName: string,
    amount: real, date: Timestamp, categoryId: string, detail: Detail)

  datatype CategoryType = ExpenseCategory | IncomeCategory

  /** A category; `kind` is None when the row was created without a type. */
  datatype Category = Category(
    id: string, name: string, kind: Option<CategoryType>,
    icon: string, color: string, isDefault: bool)

  /** A budget; a categoryId of None is the overall budget. */
  datatype Budget = Budget(
    id: string, userId: string, amount: real, period: string, categoryId: Option<string>)

  /** The three periods the budget schemas accept. */
  predicate IsPeriod(p: string) {
    p == "weekly" || p == "monthly" || p == "yearly"
  }

  /** Budget ids are primary keys: two stored budgets with the same id are the same row. */
  predicate IdsIdentify(bs: seq<Budget>) {
    forall a, b :: a in bs && b in bs && a.id == b.id ==> a == b
  }

  /** No element occurs twice. */
  predicate NoDuplicates<T(==)>(s: seq<T>) {
    forall i, j :: 0 <= i < j < |s| ==> s[i] != s[j]
  }

  /** Without duplicates, no element occurs again before its own position. */
  lemma NoDuplicatesPrefix<T>(s: seq<T>, g: nat)
    requires NoDuplicates(s) && g < |s|
    ensures s[g] !in s[..g]
  {
    forall k | 0 <= k < g ensures s[..g][k] != s[g] {
      assert s[..g][k] == s[k];
    }
  }

  /** `budgets.findMany({ where: { userId } })`. */
  function BudgetsOf(bs: seq<Budget>, userId: string): seq<Budget> {
    if bs == [] then []
    else BudgetsOf(bs[..|bs| - 1], userId) + (if bs[|bs| - 1].userId == userId then [bs[|bs| - 1]] else [])
  }

  /** The caller's budgets are exactly the store's budgets of that user. */
  lemma {:induction false} BudgetsOfMembers(bs: seq<Budget>, userId: string)
    ensures forall b :: b in BudgetsOf(bs, userId) <==> b in bs && b.userId == userId
  {
    if bs != [] {
      var init := bs[..|bs| - 1];
      BudgetsOfMembers(init, userId);
      assert bs == init + [bs[|bs| - 1]];
    }
  }
}
