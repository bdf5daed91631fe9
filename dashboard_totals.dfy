/**
 * Window selection, period totals and the percentage change of the dashboard
 * endpoint (GET /api/dashboard). The ORM's `aggregate({ where, _sum })` becomes a
 * filter over a sequence of rows followed by a sum; the calendar windows of the
 * request time are given as a `Calendar`.
 */
module DashboardTotals {
  import opened Wrappers
  import opened JsString
  import opened Finance

  // ---------------------------------------------------------------------------
  // Windows
  // ---------------------------------------------------------------------------

  /** The windows date-fns derives from the request time. */
  datatype Calendar = Calendar(
    week: Window, month: Window, previousMonth: Window, year: Window, previousYear: Window)

  /** The `range`, `from` and `to` search parameters (None when absent). */
  datatype RangeQuery = RangeQuery(range: Option<string>, from: Option<string>, to: Option<string>)

  datatype WindowPair = WindowPair(current: Window, comparison: Window)

  /** `searchParams.get("range") || "monthly"`. */
  function RangeOf(q: RangeQuery): string {
    if Truthy(q.range) then q.range.value else "monthly"
  }

  /** A custom range whose two bounds are both given. */
  predicate IsCustomWithBounds(q: RangeQuery) {
    RangeOf(q) == "custom" && Truthy(q.from) && Truthy(q.to)
  }

  /** `new Date(0)` as both bounds: the comparison window of a custom range. */
  const EpochInstant: Window := Window(0, 0)

  /** The windows the request selects; `parseIso` stands for date-fns `parseISO`. */
  function Windows(q: RangeQuery, cal: Calendar, parseIso: string -> Timestamp): WindowPair {
    if RangeOf(q) == "yearly" then WindowPair(cal.year, cal.previousYear)
    else if IsCustomWithBounds(q) then
      WindowPair(Window(parseIso(q.from.value), parseIso(q.to.value)), EpochInstant)
    else WindowPair(cal.month, cal.previousMonth)
  }

  /** The four window bounds: set to the month first, then overwritten by the range's branch. */
  method ResolveWindows(q: RangeQuery, cal: Calendar, parseIso: string -> Timestamp)
    returns (current: Window, comparison: Window)
    ensures WindowPair(current, comparison) == Windows(q, cal, parseIso)
  {
    var range := if Truthy(q.range) then q.range.value else "monthly";
    var currentStart, currentEnd := cal.month.start, cal.month.end;
    var prevStart, prevEnd := cal.previousMonth.start, cal.previousMonth.end;
    if range == "yearly" {
      currentStart, currentEnd := cal.year.start, cal.year.end;
      prevStart, prevEnd := cal.previousYear.start, cal.previousYear.end;
    } else if range == "custom" && Truthy(q.from) && Truthy(q.to) {
      currentStart, currentEnd := parseIso(q.from.value), parseIso(q.to.value);
      prevStart, prevEnd := 0, 0;
    }
    current, comparison := Window(currentStart, currentEnd), Window(prevStart, prevEnd);
  }

  /** Which windows each range selector gives. */
  lemma WindowSelection(q: RangeQuery, cal: Calendar, parseIso: string -> Timestamp)
    ensures q.range.None? || q.range == Some("") || q.range == Some("monthly") ==>
      Windows(q, cal, parseIso) == WindowPair(cal.month, cal.previousMonth)
    ensures q.range == Some("yearly") ==>
      Windows(q, cal, parseIso) == WindowPair(cal.year, cal.previousYear)
    ensures q.range == Some("custom") && !(Truthy(q.from) && Truthy(q.to)) ==>
      Windows(q, cal, parseIso) == WindowPair(cal.month, cal.previousMonth)
    ensures q.range == Some("custom") && Truthy(q.from) && Truthy(q.to) ==>
      Windows(q, cal, parseIso) ==
        WindowPair(Window(parseIso(q.from.value), parseIso(q.to.value)), EpochInstant)
    ensures Truthy(q.range) && q.range.value !in {"yearly", "custom"} ==>
      Windows(q, cal, parseIso) == WindowPair(cal.month, cal.previousMonth)
  {
  }

  /** The window a budget's spent is measured in: chosen by its period alone. */
  function BudgetWindow(period: string, cal: Calendar): Window {
    match period
    case "weekly" => cal.week
    case "monthly" => cal.month
    case "yearly" => cal.year
    case _ => cal.month
  }

  // ---------------------------------------------------------------------------
  // Totals
  // ---------------------------------------------------------------------------

  /** `where: { userId, date: { gte, lte }, categoryId? }`; a category of None selects every category. */
  predicate Selects(t: Transaction, userId: string, w: Window, category: Option<string>) {
    t.userId == userId && w.Contains(t.date) && (category.Some? ==> t.categoryId == category.value)
  }

  /** The rows the `where` selects, in store order. */
  function Matching(store: seq<Transaction>, userId: string, w: Window, category: Option<string>)
    : seq<Transaction>
  {
    if store == [] then []
    else
      var t := store[|store| - 1];
      Matching(store[..|store| - 1], userId, w, category)
        + (if Selects(t, userId, w, category) then [t] else [])
  }

  lemma MatchingAppend(store: seq<Transaction>, t: Transaction, userId: string, w: Window, category: Option<string>)
    ensures Matching(store + [t], userId, w, category) ==
      Matching(store, userId, w, category) + (if Selects(t, userId, w, category) then [t] else [])
  {
    assert (store + [t])[..|store|] == store;
  }

  /** Exactly the selected rows of the store are matched. */
  lemma {:induction false} MatchingMembers(store: seq<Transaction>, userId: string, w: Window, category: Option<string>)
    ensures forall t :: t in Matching(store, userId, w, category) <==> t in store && Selects(t, userId, w, category)
  {
    if store != [] {
      var init := store[..|store| - 1];
      MatchingMembers(init, userId, w, category);
      assert store == init + [store[|store| - 1]];
    }
  }

  lemma {:induction false} MatchingNone(store: seq<Transaction>, userId: string, w: Window, category: Option<string>)
    requires forall t :: t in store ==> !Selects(t, userId, w, category)
    ensures Matching(store, userId, w, category) == []
  {
    if store != [] {
      MatchingNone(store[..|store| - 1], userId, w, category);
    }
  }

  function Sum(xs: seq<Transaction>): real {
    if xs == [] then 0.0 else Sum(xs[..|xs| - 1]) + xs[|xs| - 1].amount
  }

  lemma SumAppend(xs: seq<Transaction>, t: Transaction)
    ensures Sum(xs + [t]) == Sum(xs) + t.amount
  {
    assert (xs + [t])[..|xs|] == xs;
  }

  /** `_sum.amount` of an aggregate: null when no row matches, else the sum. */
  function AggregateSum(xs: seq<Transaction>): (r: Option<real>)
    ensures r.None? <==> xs == []
    ensures r.Some? ==> r.value == Sum(xs)
  {
    if xs == [] then None else Some(Sum(xs))
  }

  /** `_sum.amount || 0` of an aggregate over `w`, with an optional category filter. */
  function AggregateOrZero(store: seq<Transaction>, userId: string, w: Window, category: Option<string>): real {
    AggregateSum(Matching(store, userId, w, category)).GetOr(0.0)
  }

  /** The caller's total over `w`. */
  function Total(store: seq<Transaction>, userId: string, w: Window): real {
    AggregateOrZero(store, userId, w, None)
  }

  /** The null of an empty aggregate and its `|| 0` give what summing nothing gives. */
  lemma AggregateOrZeroIsSum(store: seq<Transaction>, userId: string, w: Window, category: Option<string>)
    ensures AggregateOrZero(store, userId, w, category) == Sum(Matching(store, userId, w, category))
  {
  }

  /** Adding a row adds its amount exactly when it is the caller's and dated inside the window. */
  lemma TotalAppend(store: seq<Transaction>, t: Transaction, userId: string, w: Window)
    ensures Total(store + [t], userId, w) ==
      Total(store, userId, w) + (if t.userId == userId && w.Contains(t.date) then t.amount else 0.0)
  {
    MatchingAppend(store, t, userId, w, None);
    AggregateOrZeroIsSum(store + [t], userId, w, None);
    AggregateOrZeroIsSum(store, userId, w, None);
    var m := Matching(store, userId, w, None);
    assert Total(store, userId, w) == Sum(m);
    if Selects(t, userId, w, None) {
      SumAppend(m, t);
      assert Matching(store + [t], userId, w, None) == m + [t];
      assert Total(store + [t], userId, w) == Sum(m + [t]);
    } else {
      assert Matching(store + [t], userId, w, None) == m;
    }
  }

  /** Rows of other users never change a total. */
  lemma {:induction false} TotalIgnoresOtherUsers(store: seq<Transaction>, extra: seq<Transaction>, userId: string, w: Window)
    requires forall t :: t in extra ==> t.userId != userId
    ensures Total(store + extra, userId, w) == Total(store, userId, w)
  {
    if extra == [] {
      assert store + extra == store;
    } else {
      var init := extra[..|extra| - 1];
      assert store + extra == (store + init) + [extra[|extra| - 1]];
      TotalIgnoresOtherUsers(store, init, userId, w);
      TotalAppend(store + init, extra[|extra| - 1], userId, w);
    }
  }

  /** Both bounds are inclusive: a row of the caller dated on either bound is counted. */
  lemma BoundariesIncluded(store: seq<Transaction>, t: Transaction, userId: string, w: Window)
    requires w.start <= w.end && t.userId == userId
    requires t.date == w.start || t.date == w.end
    ensures Total(store + [t], userId, w) == Total(store, userId, w) + t.amount
  {
    TotalAppend(store, t, userId, w);
  }

  /** A row dated outside the window is not counted. */
  lemma OutsideExcluded(store: seq<Transaction>, t: Transaction, userId: string, w: Window)
    requires t.date < w.start || w.end < t.date
    ensures Total(store + [t], userId, w) == Total(store, userId, w)
  {
    TotalAppend(store, t, userId, w);
  }

  /** With positive amounts a category's aggregate never exceeds the whole window's. */
  lemma {:induction false} CategoryAtMostTotal(store: seq<Transaction>, userId: string, w: Window, c: string)
    requires forall t :: t in store ==> t.amount > 0.0
    ensures AggregateOrZero(store, userId, w, Some(c)) <= Total(store, userId, w)
  {
    if store != [] {
      var init := store[..|store| - 1];
      var t := store[|store| - 1];
      assert store == init + [t];
      CategoryAtMostTotal(init, userId, w, c);
      var mc, ma := Matching(init, userId, w, Some(c)), Matching(init, userId, w, None);
      assert AggregateOrZero(init, userId, w, Some(c)) == Sum(mc);
      assert Total(init, userId, w) == Sum(ma);
      MatchingAppend(init, t, userId, w, Some(c));
      MatchingAppend(init, t, userId, w, None);
      if Selects(t, userId, w, None) {
        SumAppend(ma, t);
        assert Total(store, userId, w) == Sum(ma + [t]);
        if Selects(t, userId, w, Some(c)) {
          SumAppend(mc, t);
          assert AggregateOrZero(store, userId, w, Some(c)) == Sum(mc + [t]);
        } else {
          assert Matching(store, userId, w, Some(c)) == mc;
        }
      } else {
        assert Matching(store, userId, w, Some(c)) == mc;
        assert Matching(store, userId, w, None) == ma;
      }
    }
  }

  // ---------------------------------------------------------------------------
  // Percentage change
  // ---------------------------------------------------------------------------

  /** The period-over-period change in percent; 0 when there is nothing to compare with. */
  function Change(current: real, previous: real): (r: real)
    ensures previous <= 0.0 ==> r == 0.0
    ensures previous > 0.0 ==> current == previous + previous * r / 100.0
    ensures previous > 0.0 ==> (r > 0.0 <==> current > previous) && (r < 0.0 <==> current < previous)
  {
    if previous > 0.0 then (current - previous) / previous * 100.0 else 0.0
  }

  /**
   * A custom range compares with the single instant `new Date(0)`: its change is 0
   * unless one of the caller's rows is dated exactly at the epoch.
   */
  lemma CustomRangeComparesWithEpoch(store: seq<Transaction>, userId: string, current: real)
    requires forall t :: t in store && t.userId == userId ==> t.date != 0
    ensures Total(store, userId, EpochInstant) == 0.0
    ensures Change(current, Total(store, userId, EpochInstant)) == 0.0
  {
    var m := Matching(store, userId, EpochInstant, None);
    MatchingNone(store, userId, EpochInstant, None);
    assert Total(store, userId, EpochInstant) == Sum(m);
  }

  /** A row of the caller dated at the epoch does give a custom range a comparison. */
  lemma EpochRowGivesCustomChange(u: string, d: Detail)
    ensures Change(20.0, Total([Transaction("a", u, "", 10.0, 0, "c", d)], u, EpochInstant)) == 100.0
  {
    TotalAppend([], Transaction("a", u, "", 10.0, 0, "c", d), u, EpochInstant);
    assert [] + [Transaction("a", u, "", 10.0, 0, "c", d)] == [Transaction("a", u, "", 10.0, 0, "c", d)];
  }
}
