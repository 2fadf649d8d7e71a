/**
 * The static cash-flow tracker: the same editable income and expense records
 * with fixed defaults and no backend data; the savings rate is always the
 * computed one.
 */
module CashFlowStatic {
  import opened JsNumber
  import opened CashFlowLedger

  /** `Math.round(surplus / totalIncome * 100)`. */
  function SavingsRate(i: Income, e: Expenses): (r: Num)
    ensures r.Fin? <==> TotalIncome(i) != 0.0
    ensures r == NaN <==> TotalIncome(i) == 0.0 && TotalExpenses(e) == 0.0
    ensures r.Fin? ==> var exact := Surplus(i, e) / TotalIncome(i) * 100.0;
      exact - 0.5 < r.v <= exact + 0.5
    ensures r.Fin? ==> r.v == RoundReal(Surplus(i, e) / TotalIncome(i) * 100.0) as real
    ensures TotalIncome(i) == 0.0 && Surplus(i, e) < 0.0 ==> r == NegInf
    ensures TotalIncome(i) == 0.0 && Surplus(i, e) > 0.0 ==> r == PosInf
  {
    Round(Mul(Div(Surplus(i, e), TotalIncome(i)), 100.0))
  }

  /** `isNaN(savingsRate) ? 0 : savingsRate`. */
  function DisplayedRate(i: Income, e: Expenses): (r: Num)
    ensures r != NaN
    ensures SavingsRate(i, e) != NaN ==> r == SavingsRate(i, e)
    ensures SavingsRate(i, e) == NaN ==> r == Fin(0.0)
  {
    ZeroIfNaN(SavingsRate(i, e))
  }

  /** The defaults: income 5200, expenses 2900, surplus 2300, a 44% savings rate shown with "+". */
  lemma DefaultFigures()
    ensures TotalIncome(DefaultIncome) == 5200.0
    ensures TotalExpenses(DefaultExpenses) == 2900.0
    ensures Surplus(DefaultIncome, DefaultExpenses) == 2300.0
    ensures DisplayedRate(DefaultIncome, DefaultExpenses) == Fin(44.0)
    ensures SurplusSign(DefaultIncome, DefaultExpenses) == "+"
  {
  }
}
