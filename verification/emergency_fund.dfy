/**
 * The emergency-fund calculator: a six-month target and the share of it
 * already saved, capped at 100 but not floored at 0.
 */
module EmergencyFund {
  import opened JsNumber

  const TargetMonths := 6

  datatype Inputs = Inputs(monthlyExpenses: real, currentSavings: real)

  const Defaults := Inputs(3000.0, 5000.0)

  function Target(i: Inputs): real
  {
    i.monthlyExpenses * TargetMonths as real
  }

  /** `Math.min(Math.round(currentSavings / targetAmount * 100), 100)`. */
  function Progress(i: Inputs): (r: Num)
    ensures r != PosInf
    ensures r.Fin? ==> r.v <= 100.0 && r.v == r.v.Floor as real
    ensures Target(i) != 0.0 ==> r.Fin?
    ensures Target(i) != 0.0 ==>
      var exact := i.currentSavings / Target(i) * 100.0;
      r.v == (if RoundReal(exact) < 100 then RoundReal(exact) else 100) as real
    ensures Target(i) == 0.0 ==>
      (i.currentSavings > 0.0 ==> r == Fin(100.0))
      && (i.currentSavings == 0.0 ==> r == NaN)
      && (i.currentSavings < 0.0 ==> r == NegInf)
  {
    Min(Round(Mul(Div(i.currentSavings, Target(i)), 100.0)), 100.0)
  }

  /** For a fixed positive target, saving more never shows less progress. */
  lemma ProgressMonotone(i: Inputs, more: real)
    requires Target(i) > 0.0 && i.currentSavings <= more
    ensures Progress(i).v <= Progress(i.(currentSavings := more)).v
  {
    var t := Target(i);
    PercentMonotone(i.currentSavings, more, t);
    RoundMonotone(i.currentSavings / t * 100.0, more / t * 100.0);
  }

  /** There is no lower clamp: a debt shows as negative progress. */
  lemma NegativeSavingsShowNegativeProgress()
    ensures Progress(Inputs(3000.0, -1000.0)) == Fin(-6.0)
  {
  }

  /** The defaults: an 18000 target, 28% saved. */
  lemma DefaultFigures()
    ensures Target(Defaults) == 18000.0
    ensures Progress(Defaults) == Fin(28.0)
  {
  }
}
