/**
 * Budget utilisation `(spent / amount) * 100` and its thresholds, as the
 * dashboard route, the budgets list and the budget overview all compute them.
 * JavaScript division by zero yields Infinity or NaN; both are modelled.
 */
module Utilisation {

  /** A JavaScript number produced by a division: finite, +Infinity, -Infinity or NaN. */
  datatype JsNumber = Finite(value: real) | PosInfinity | NegInfinity | NaN

  /** `(spent / amount) * 100`. */
  function Percentage(spent: real, amount: real): (p: JsNumber)
    ensures amount != 0.0 ==> p.Finite? && p.value * amount == spent * 100.0
    ensures amount == 0.0 ==> (p == PosInfinity <==> spent > 0.0)
    ensures amount == 0.0 ==> (p == NaN <==> spent == 0.0)
    ensures amount == 0.0 ==> (p == NegInfinity <==> spent < 0.0)
  {
    if amount != 0.0 then Finite(spent / amount * 100.0)
    else if spent > 0.0 then PosInfinity
    else if spent < 0.0 then NegInfinity
    else NaN
  }

  /** `p >= t` for a finite threshold `t` (false for NaN). */
  predicate AtLeast(p: JsNumber, t: real) {
    match p
    case Finite(v) => v >= t
    case PosInfinity => true
    case _ => false
  }

  /** `p < t` for a finite threshold `t` (false for NaN). */
  predicate Below(p: JsNumber, t: real) {
    match p
    case Finite(v) => v < t
    case NegInfinity => true
    case _ => false
  }

  /** `Math.min(p, 100)`, the value given to the progress bar. */
  function CapAt100(p: JsNumber): (r: JsNumber)
    ensures r.Finite? ==> r.value <= 100.0
    ensures AtLeast(p, 100.0) ==> r == Finite(100.0)
    ensures Below(p, 100.0) ==> r == p
    ensures p == NaN ==> r == NaN
  {
    match p
    case Finite(v) => Finite(if v < 100.0 then v else 100.0)
    case PosInfinity => Finite(100.0)
    case NegInfinity => NegInfinity
    case NaN => NaN
  }

  /** `percentage >= 100`. */
  predicate IsOverBudget(spent: real, amount: real) {
    AtLeast(Percentage(spent, amount), 100.0)
  }

  /** `percentage >= 80 && percentage < 100`. */
  predicate IsWarning(spent: real, amount: real) {
    AtLeast(Percentage(spent, amount), 80.0) && Below(Percentage(spent, amount), 100.0)
  }

  /** `percentage >= 80`: the budget counts toward the dashboard's budget alerts. */
  predicate NeedsAttention(spent: real, amount: real) {
    AtLeast(Percentage(spent, amount), 80.0)
  }

  lemma OverAndWarningExclusive(spent: real, amount: real)
    ensures !(IsOverBudget(spent, amount) && IsWarning(spent, amount))
  {
  }

  /** An alert is exactly a budget shown as over or as warning. */
  lemma AttentionIsOverOrWarning(spent: real, amount: real)
    ensures NeedsAttention(spent, amount) <==> IsOverBudget(spent, amount) || IsWarning(spent, amount)
  {
  }

  /** The colour state of a progress bar: `isOverBudget ? over : isWarning ? warning : normal`. */
  datatype Status = Over | Warning | Normal

  function StatusOf(spent: real, amount: real): (s: Status)
    ensures s == Over <==> IsOverBudget(spent, amount)
    ensures s == Warning <==> IsWarning(spent, amount)
    ensures s == Normal <==> !NeedsAttention(spent, amount)
  {
    if IsOverBudget(spent, amount) then Over
    else if IsWarning(spent, amount) then Warning
    else Normal
  }

  /** For a positive amount the thresholds are plain comparisons of spent with the amount. */
  lemma ThresholdsForPositiveAmount(spent: real, amount: real)
    requires amount > 0.0
    ensures IsOverBudget(spent, amount) <==> spent >= amount
    ensures IsWarning(spent, amount) <==> 4.0 * amount <= 5.0 * spent && spent < amount
    ensures NeedsAttention(spent, amount) <==> 4.0 * amount <= 5.0 * spent
  {
    var p := Percentage(spent, amount).value;
    assert Percentage(spent, amount) == Finite(p);
    CompareScaled(p, spent, amount);
  }

  /** A percentage `p` of a positive amount, compared with the thresholds. */
  lemma CompareScaled(p: real, spent: real, amount: real)
    requires amount > 0.0 && p * amount == spent * 100.0
    ensures p >= 100.0 <==> spent >= amount
    ensures p >= 80.0 <==> 4.0 * amount <= 5.0 * spent
    ensures p < 100.0 <==> spent < amount
  {
    ScaleByPositive(p, 100.0, amount, spent * 100.0);
    ScaleByPositive(p, 80.0, amount, spent * 100.0);
  }

  /** Multiplying both sides by a positive amount keeps a comparison. */
  lemma ScaleByPositive(p: real, t: real, amount: real, product: real)
    requires amount > 0.0 && p * amount == product
    ensures p >= t <==> product >= t * amount
  {
    if p >= t {
      MulNonNegative(p - t, amount);
      var d := (p - t) * amount;
      assert d == p * amount - t * amount;
    } else {
      MulPositive(t - p, amount);
      var d := (t - p) * amount;
      assert d == t * amount - p * amount;
    }
  }

  lemma MulPositive(x: real, y: real)
    requires x > 0.0 && y > 0.0
    ensures x * y > 0.0
  {
  }

  lemma MulNonNegative(x: real, y: real)
    requires x >= 0.0 && y >= 0.0
    ensures x * y >= 0.0
  {
  }

  /** The four utilisation examples: 800 of 1000 alerts, 799 does not, 1200 is over. */
  lemma AlertExamples()
    ensures NeedsAttention(800.0, 1000.0) && IsWarning(800.0, 1000.0)
    ensures !NeedsAttention(799.0, 1000.0)
    ensures NeedsAttention(1200.0, 1000.0) && IsOverBudget(1200.0, 1000.0)
  {
    ThresholdsForPositiveAmount(800.0, 1000.0);
    ThresholdsForPositiveAmount(799.0, 1000.0);
    ThresholdsForPositiveAmount(1200.0, 1000.0);
  }
}
