/**
 * The budgets page list: budgets grouped into weekly, monthly and yearly
 * sections, and one card per budget with its title, progress, colour state and
 * remaining or overage amount.
 */
module BudgetsList {
  import opened Wrappers
  import opened JsString
  import opened Finance
  import opened Utilisation

  /** The joined category fields the card reads. */
  datatype CategoryInfo = CategoryInfo(name: string, color: string, icon: string)

  /** A budget as the page receives it: with its spent value and its category, if any. */
  datatype ListedBudget = ListedBudget(budget: Budget, spent: real, category: Option<CategoryInfo>)

  /** `budgets.filter((b) => b.period === period)`. */
  function OfPeriod(bs: seq<ListedBudget>, period: string): seq<ListedBudget> {
    if bs == [] then []
    else OfPeriod(bs[..|bs| - 1], period) + (if bs[|bs| - 1].budget.period == period then [bs[|bs| - 1]] else [])
  }

  /** Filtering distributes over concatenation: a group keeps the input order. */
  lemma {:induction false} OfPeriodAppend(a: seq<ListedBudget>, b: seq<ListedBudget>, period: string)
    ensures OfPeriod(a + b, period) == OfPeriod(a, period) + OfPeriod(b, period)
    decreases |b|
  {
    if b == [] {
      assert a + b == a;
    } else {
      var init := b[..|b| - 1];
      assert a + b == (a + init) + [b[|b| - 1]];
      assert (a + b)[..|a + b| - 1] == a + init;
      OfPeriodAppend(a, init, period);
    }
  }

  /** A group holds every budget of its period as often as the input does, and nothing else. */
  lemma {:induction false} OfPeriodMultiplicity(bs: seq<ListedBudget>, period: string, x: ListedBudget)
    ensures multiset(OfPeriod(bs, period))[x] == if x.budget.period == period then multiset(bs)[x] else 0
  {
    if bs != [] {
      var init := bs[..|bs| - 1];
      assert bs == init + [bs[|bs| - 1]];
      OfPeriodMultiplicity(init, period, x);
    }
  }

  /** `groupedBudgets`. */
  datatype Grouped = Grouped(weekly: seq<ListedBudget>, monthly: seq<ListedBudget>, yearly: seq<ListedBudget>)

  function Group(bs: seq<ListedBudget>): Grouped {
    Grouped(OfPeriod(bs, "weekly"), OfPeriod(bs, "monthly"), OfPeriod(bs, "yearly"))
  }

  /** A budget of one of the three periods appears exactly in its own group; any other period in none. */
  lemma GroupPlacement(bs: seq<ListedBudget>, x: ListedBudget)
    ensures var g := Group(bs);
      var n := multiset(bs)[x];
      && multiset(g.weekly)[x] == (if x.budget.period == "weekly" then n else 0)
      && multiset(g.monthly)[x] == (if x.budget.period == "monthly" then n else 0)
      && multiset(g.yearly)[x] == (if x.budget.period == "yearly" then n else 0)
      && (!IsPeriod(x.budget.period) ==> x !in g.weekly && x !in g.monthly && x !in g.yearly)
  {
    OfPeriodMultiplicity(bs, "weekly", x);
    OfPeriodMultiplicity(bs, "monthly", x);
    OfPeriodMultiplicity(bs, "yearly", x);
  }

  /** The amount card text: `Over by $|remaining|` in the over branch, else `$remaining` left. */
  datatype RemainingText = OverBy(overage: real) | Left(left: real)

  /** The fields of one budget card. */
  datatype Card = Card(title: string, color: string, progress: JsNumber, status: Status, remaining: RemainingText)

  function Abs(x: real): real {
    if x < 0.0 then -x else x
  }

  function CardFor(b: ListedBudget): (c: Card)
    ensures c.status == StatusOf(b.spent, b.budget.amount)
    ensures c.progress == CapAt100(Percentage(b.spent, b.budget.amount))
    ensures c.status == Over ==> c.remaining == OverBy(Abs(b.budget.amount - b.spent))
    ensures c.status != Over ==> c.remaining == Left(b.budget.amount - b.spent)
    ensures c.title != ""
    ensures b.category.None? ==> c.title == "Overall" && c.color == "#2ECC71"
    ensures b.category.Some? && b.category.value.name != "" ==> c.title == b.category.value.name
    ensures b.category.Some? && b.category.value.color != "" ==> c.color == b.category.value.color
    ensures b.category.Some? && b.category.value.name == "" ==> c.title == "Overall"
    ensures b.category.Some? && b.category.value.color == "" ==> c.color == "#2ECC71"
  {
    var percentage := Percentage(b.spent, b.budget.amount);
    var remaining := b.budget.amount - b.spent;
    var status := StatusOf(b.spent, b.budget.amount);
    Card(
      OrElse(if b.category.Some? then b.category.value.name else "", "Overall"),
      OrElse(if b.category.Some? then b.category.value.color else "", "#2ECC71"),
      CapAt100(percentage),
      status,
      if status == Over then OverBy(Abs(remaining)) else Left(remaining))
  }

  /** For a positive amount the overage shown is exactly how far spent exceeds the amount. */
  lemma OverageIsExcess(b: ListedBudget)
    requires b.budget.amount > 0.0
    ensures CardFor(b).status == Over ==> CardFor(b).remaining == OverBy(b.spent - b.budget.amount)
    ensures CardFor(b).status != Over ==> CardFor(b).remaining.left > 0.0
  {
    ThresholdsForPositiveAmount(b.spent, b.budget.amount);
  }

  /** One rendered period section. */
  datatype Section = Section(period: string, heading: string, cards: seq<Card>)

  /** What the list renders. */
  datatype View = EmptyState | Sections(sections: seq<Section>)

  function Cards(bs: seq<ListedBudget>): (r: seq<Card>)
    ensures |r| == |bs| && forall i :: 0 <= i < |bs| ==> r[i] == CardFor(bs[i])
  {
    seq(|bs|, i requires 0 <= i < |bs| => CardFor(bs[i]))
  }

  /** A section, or nothing for an empty group (`return null`). */
  function SectionFor(period: string, heading: string, group: seq<ListedBudget>): seq<Section> {
    if |group| == 0 then [] else [Section(period, heading, Cards(group))]
  }

  function Render(bs: seq<ListedBudget>): View {
    if |bs| == 0 then EmptyState
    else
      var g := Group(bs);
      Sections(SectionFor("weekly", "Weekly Budgets", g.weekly)
        + SectionFor("monthly", "Monthly Budgets", g.monthly)
        + SectionFor("yearly", "Yearly Budgets", g.yearly))
  }

  /**
   * The empty list shows the empty state; otherwise sections come weekly, monthly,
   * yearly, each with at least one card, and a period has a section iff it has a budget.
   */
  lemma RenderSpec(bs: seq<ListedBudget>)
    ensures Render(bs) == EmptyState <==> bs == []
    ensures Render(bs).Sections? ==>
      var ss := Render(bs).sections;
      && |ss| <= 3
      && (forall i :: 0 <= i < |ss| ==> |ss[i].cards| > 0 && IsPeriod(ss[i].period))
      && (forall i, j :: 0 <= i < j < |ss| ==> PeriodRank(ss[i].period) < PeriodRank(ss[j].period))
      && (forall p :: IsPeriod(p) ==>
            ((exists s :: s in ss && s.period == p) <==> exists b :: b in bs && b.budget.period == p))
  {
    if bs != [] {
      var g := Group(bs);
      var ss := Render(bs).sections;
      var a, b, c := SectionFor("weekly", "Weekly Budgets", g.weekly),
        SectionFor("monthly", "Monthly Budgets", g.monthly), SectionFor("yearly", "Yearly Budgets", g.yearly);
      assert ss == a + b + c;
      SectionsInOrder(a, b, c);
      forall p | IsPeriod(p)
        ensures (exists s :: s in ss && s.period == p) <==> exists x :: x in bs && x.budget.period == p
      {
        GroupNonEmpty(bs, p);
        SectionPresent(bs, p);
      }
    }
  }

  /** A period has a section exactly when its group is non-empty. */
  lemma SectionPresent(bs: seq<ListedBudget>, p: string)
    requires bs != [] && IsPeriod(p)
    ensures (exists s :: s in Render(bs).sections && s.period == p) <==> |OfPeriod(bs, p)| > 0
  {
    var g := Group(bs);
    var a, b, c := SectionFor("weekly", "Weekly Budgets", g.weekly),
      SectionFor("monthly", "Monthly Budgets", g.monthly), SectionFor("yearly", "Yearly Budgets", g.yearly);
    var ss := Render(bs).sections;
    assert ss == a + b + c;
    var mine := if p == "weekly" then a else if p == "monthly" then b else c;
    assert forall s :: s in ss && s.period == p <==> s in mine;
    if |OfPeriod(bs, p)| > 0 {
      assert mine[0] in ss && mine[0].period == p;
    }
  }

  /** Three optional sections of the three periods, concatenated in that order. */
  lemma SectionsInOrder(a: seq<Section>, b: seq<Section>, c: seq<Section>)
    requires |a| <= 1 && |b| <= 1 && |c| <= 1
    requires forall s :: s in a ==> s.period == "weekly" && |s.cards| > 0
    requires forall s :: s in b ==> s.period == "monthly" && |s.cards| > 0
    requires forall s :: s in c ==> s.period == "yearly" && |s.cards| > 0
    ensures var ss := a + b + c;
      && |ss| <= 3
      && (forall i :: 0 <= i < |ss| ==> |ss[i].cards| > 0 && IsPeriod(ss[i].period))
      && (forall i, j :: 0 <= i < j < |ss| ==> PeriodRank(ss[i].period) < PeriodRank(ss[j].period))
  {
    var ss := a + b + c;
    forall i | 0 <= i < |ss| ensures ss[i] in a || ss[i] in b || ss[i] in c {
      if i < |a| { assert ss[i] == a[i]; }
      else if i < |a| + |b| { assert ss[i] == b[i - |a|]; }
      else { assert ss[i] == c[i - |a| - |b|]; }
    }
    forall i, j | 0 <= i < j < |ss| ensures PeriodRank(ss[i].period) < PeriodRank(ss[j].period) {
      if i < |a| { assert ss[i] == a[i]; }
      else if i < |a| + |b| { assert ss[i] == b[i - |a|]; }
      if j < |a| + |b| { assert ss[j] == (a + b)[j]; }
      else { assert ss[j] == c[j - |a| - |b|]; }
    }
  }

  /** A group is non-empty exactly when some budget has its period. */
  lemma GroupNonEmpty(bs: seq<ListedBudget>, p: string)
    ensures |OfPeriod(bs, p)| > 0 <==> exists b :: b in bs && b.budget.period == p
  {
    var grp := OfPeriod(bs, p);
    if exists b :: b in bs && b.budget.period == p {
      var b :| b in bs && b.budget.period == p;
      OfPeriodMultiplicity(bs, p, b);
    } else if |grp| > 0 {
      OfPeriodMultiplicity(bs, p, grp[0]);
    }
  }

  function PeriodRank(p: string): int {
    if p == "weekly" then 0 else if p == "monthly" then 1 else 2
  }
}
