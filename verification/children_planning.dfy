/**
 * The children's-future planner: years until the target age, the amount still
 * needed, a monthly contribution assuming returns worth a factor 0.8, and a
 * 60/40 split of that contribution between a mutual fund and a deposit.
 */
module ChildrenPlanning {
  import opened JsNumber

  datatype Plan = Plan(childAge: real, targetAmount: real, targetAge: int, currentSavings: real)

  const Defaults := Plan(5.0, 100000.0, 18, 10000.0)

  /** The target-age select offers exactly these ages. */
  const TargetAgeOptions: seq<int> := [18, 21, 25]

  /** The factor the monthly amount is divided by, 0.8. */
  const ReturnFactor: real := 0.8

  function YearsToGoal(p: Plan): real
  {
    p.targetAge as real - p.childAge
  }

  function AmountNeeded(p: Plan): real
  {
    p.targetAmount - p.currentSavings
  }

  /** `Math.ceil(amountNeeded / (yearsToGoal * 12) / 0.8)`. */
  function MonthlyInvestment(p: Plan): (r: Num)
    ensures YearsToGoal(p) != 0.0 <==> r.Fin?
    ensures r.Fin? ==> var exact := 5.0 * AmountNeeded(p) / (48.0 * YearsToGoal(p));
      exact <= r.v < exact + 1.0
    ensures r.Fin? ==> r.v == CeilReal(5.0 * AmountNeeded(p) / (48.0 * YearsToGoal(p))) as real
    ensures YearsToGoal(p) == 0.0 ==> (r == NaN <==> AmountNeeded(p) == 0.0)
    ensures YearsToGoal(p) > 0.0 && AmountNeeded(p) <= 0.0 ==> r.v <= 0.0
  {
    var perMonth := Div(AmountNeeded(p), YearsToGoal(p) * 12.0);
    var r := Ceil(Mul(perMonth, 1.0 / ReturnFactor));
    if r.Fin? then
      var y := YearsToGoal(p);
      var n := AmountNeeded(p);
      assert perMonth.v * 1.25 == 5.0 * n / (48.0 * y) by {
        assert perMonth.v * (y * 12.0) == n;
        assert (perMonth.v * 1.25) * (48.0 * y) == 5.0 * n;
      }
      r
    else r
  }

  /** The education-fund and fixed-deposit shares, `Math.round(m * 0.6)` and `Math.round(m * 0.4)`. */
  function Allocation(monthly: Num): (r: (Num, Num))
    ensures monthly.Fin? <==> r.0.Fin? && r.1.Fin?
    ensures monthly.Fin? ==> r == (Fin(RoundReal(monthly.v * 0.6) as real), Fin(RoundReal(monthly.v * 0.4) as real))
    ensures monthly.Fin? && monthly.v == monthly.v.Floor as real ==> r.0.v + r.1.v == monthly.v
  {
    if monthly.Fin? && monthly.v == monthly.v.Floor as real then
      SplitAddsUp(monthly.v.Floor);
      (Round(Mul(monthly, 0.6)), Round(Mul(monthly, 0.4)))
    else
      (Round(Mul(monthly, 0.6)), Round(Mul(monthly, 0.4)))
  }

  /** For a whole amount the two rounded shares always add back up to it. */
  lemma SplitAddsUp(m: int)
    ensures RoundReal(m as real * 0.6) + RoundReal(m as real * 0.4) == m
  {
    var q := m / 5;
    var k := m % 5;
    assert m as real * 0.6 == 3.0 * q as real + 0.6 * k as real;
    assert m as real * 0.4 == 2.0 * q as real + 0.4 * k as real;
    if k == 0 {
      assert RoundReal(m as real * 0.6) == 3 * q;
      assert RoundReal(m as real * 0.4) == 2 * q;
    } else if k == 1 {
      assert RoundReal(m as real * 0.6) == 3 * q + 1;
      assert RoundReal(m as real * 0.4) == 2 * q;
    } else if k == 2 {
      assert RoundReal(m as real * 0.6) == 3 * q + 1;
      assert RoundReal(m as real * 0.4) == 2 * q + 1;
    } else if k == 3 {
      assert RoundReal(m as real * 0.6) == 3 * q + 2;
      assert RoundReal(m as real * 0.4) == 2 * q + 1;
    } else {
      assert RoundReal(m as real * 0.6) == 3 * q + 2;
      assert RoundReal(m as real * 0.4) == 2 * q + 2;
    }
  }

  /** The target-age select: `setTargetAge(Number(value))` for one of its option values. */
  function SelectTargetAge(p: Plan, choice: nat): (r: Plan)
    requires choice < |TargetAgeOptions|
    ensures r.targetAge in TargetAgeOptions
    ensures r == p.(targetAge := r.targetAge)
  {
    p.(targetAge := TargetAgeOptions[choice])
  }

  /** The defaults: 13 years to go and 722 a month, split 433 / 289. */
  lemma DefaultFigures()
    ensures YearsToGoal(Defaults) == 13.0
    ensures AmountNeeded(Defaults) == 90000.0
    ensures MonthlyInvestment(Defaults) == Fin(722.0)
    ensures Allocation(Fin(722.0)) == (Fin(433.0), Fin(289.0))
  {
  }

  /** A child already at or past the target age gives no sensible plan. */
  lemma PastTargetAge()
    ensures MonthlyInvestment(Plan(18.0, 100000.0, 18, 10000.0)) == PosInf
    ensures MonthlyInvestment(Plan(20.0, 100000.0, 18, 10000.0)).Fin?
    ensures MonthlyInvestment(Plan(20.0, 100000.0, 18, 10000.0)).v < 0.0
  {
  }
}
