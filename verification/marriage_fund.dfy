/**
 * The marriage-fund tracker: months until the wedding, a monthly contribution
 * assuming returns worth a factor 0.85, progress capped at 100 and the target
 * year.
 */
module MarriageFund {
  import opened JsNumber

  datatype Plan = Plan(targetAmount: real, yearsToMarriage: real, currentSavings: real)

  const Defaults := Plan(50000.0, 3.0, 5000.0)

  /** The factor the monthly amount is divided by, 0.85. */
  const ReturnFactor: real := 0.85

  function MonthsToGoal(p: Plan): real
  {
    p.yearsToMarriage * 12.0
  }

  function AmountNeeded(p: Plan): real
  {
    p.targetAmount - p.currentSavings
  }

  /** `Math.ceil(amountNeeded / monthsToGoal / 0.85)`. */
  function MonthlyContribution(p: Plan): (r: Num)
    ensures p.yearsToMarriage != 0.0 <==> r.Fin?
    ensures r.Fin? ==> var exact := 20.0 * AmountNeeded(p) / (17.0 * MonthsToGoal(p));
      exact <= r.v < exact + 1.0
    ensures r.Fin? ==> r.v == CeilReal(20.0 * AmountNeeded(p) / (17.0 * MonthsToGoal(p))) as real
    ensures p.yearsToMarriage == 0.0 ==> (r == NaN <==> AmountNeeded(p) == 0.0)
  {
    var perMonth := Div(AmountNeeded(p), MonthsToGoal(p));
    var r := Ceil(Mul(perMonth, 1.0 / ReturnFactor));
    if r.Fin? then
      var m := MonthsToGoal(p);
      var n := AmountNeeded(p);
      assert perMonth.v * (1.0 / 0.85) == 20.0 * n / (17.0 * m) by {
        assert perMonth.v * m == n;
        assert 1.0 / 0.85 == 20.0 / 17.0;
        assert (perMonth.v * (20.0 / 17.0)) * (17.0 * m) == 20.0 * n;
      }
      r
    else r
  }

  /** `Math.min(Math.round(currentSavings / targetAmount * 100), 100)`. */
  function Progress(p: Plan): (r: Num)
    ensures r != PosInf
    ensures r.Fin? ==> r.v <= 100.0
    ensures p.targetAmount != 0.0 ==> r.Fin?
    ensures p.targetAmount != 0.0 ==>
      var exact := p.currentSavings / p.targetAmount * 100.0;
      r.v == (if RoundReal(exact) < 100 then RoundReal(exact) else 100) as real
    ensures p.targetAmount == 0.0 ==>
      (p.currentSavings > 0.0 ==> r == Fin(100.0))
      && (p.currentSavings == 0.0 ==> r == NaN)
      && (p.currentSavings < 0.0 ==> r == NegInf)
    ensures p.targetAmount > 0.0 && p.currentSavings >= p.targetAmount ==> r == Fin(100.0)
  {
    var r := Min(Round(Mul(Div(p.currentSavings, p.targetAmount), 100.0)), 100.0);
    if p.targetAmount > 0.0 && p.currentSavings >= p.targetAmount then
      QuotientAtLeastOne(p.currentSavings, p.targetAmount);
      r
    else r
  }

  /** For a fixed positive target, saving more never shows less progress. */
  lemma ProgressMonotone(p: Plan, more: real)
    requires p.targetAmount > 0.0 && p.currentSavings <= more
    ensures Progress(p).v <= Progress(p.(currentSavings := more)).v
  {
    var t := p.targetAmount;
    PercentMonotone(p.currentSavings, more, t);
    RoundMonotone(p.currentSavings / t * 100.0, more / t * 100.0);
  }

  lemma QuotientAtLeastOne(s: real, t: real)
    requires 0.0 < t <= s
    ensures s / t >= 1.0
  {
    var q := s / t;
    assert q * t == s;
  }

  /** The year shown in both the date label and the contribution caption. */
  function TargetYear(currentYear: int, p: Plan): (y: real)
    ensures y - currentYear as real == p.yearsToMarriage
  {
    currentYear as real + p.yearsToMarriage
  }

  /** The defaults: 1471 a month and 10% saved. */
  lemma DefaultFigures()
    ensures MonthsToGoal(Defaults) == 36.0
    ensures MonthlyContribution(Defaults) == Fin(1471.0)
    ensures Progress(Defaults) == Fin(10.0)
  {
  }
}
