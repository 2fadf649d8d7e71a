/**
 * The API-driven cash-flow tracker. It starts from the same defaults as the
 * static one; when summary data arrives it replaces the income fields by a
 * 90/8/2 split of `income_this_month` and the expense fields by a
 * 35/15/10/15/10/15 split of `expenses_this_month`, each part rounded. The
 * savings rate prefers the backend's value and falls back to the computed one.
 */
module CashFlowLive {
  import opened Wrappers
  import opened JsNumber
  import opened CashFlowLedger

  /** The `summary` part of the dashboard payload. */
  datatype Summary = Summary(netWorth: real, incomeThisMonth: real, expensesThisMonth: real, savingsRate: real)

  datatype Ledger = Ledger(income: Income, expenses: Expenses)

  const Initial := Ledger(DefaultIncome, DefaultExpenses)

  /** `Math.round(total * weight)`: within half a unit of the exact share. */
  function Part(total: real, weight: real): (r: real)
    ensures total * weight - 0.5 < r <= total * weight + 0.5
    ensures r == r.Floor as real
  {
    RoundReal(total * weight) as real
  }

  /** 90% salary, 8% investments, 2% other. */
  function IncomeSplit(t: real): (r: Income)
    ensures t - 1.5 < TotalIncome(r) <= t + 1.5
    ensures r.salary == Part(t, 0.9) && r.investments == Part(t, 0.08) && r.other == Part(t, 0.02)
  {
    Income(Part(t, 0.9), Part(t, 0.08), Part(t, 0.02))
  }

  /** 35% housing, 15% food, 10% utilities, 15% transportation, 10% entertainment, 15% other. */
  function ExpenseSplit(t: real): (r: Expenses)
    ensures t - 3.0 < TotalExpenses(r) <= t + 3.0
    ensures r.housing == Part(t, 0.35) && r.food == Part(t, 0.15) && r.utilities == Part(t, 0.1)
    ensures r.transportation == Part(t, 0.15) && r.entertainment == Part(t, 0.1) && r.other == Part(t, 0.15)
  {
    Expenses(Part(t, 0.35), Part(t, 0.15), Part(t, 0.1), Part(t, 0.15), Part(t, 0.1), Part(t, 0.15))
  }

  /** The effect run when summary data arrives: each side is replaced only when its backend total is positive. */
  function Seed(l: Ledger, summary: Option<Summary>): (r: Ledger)
    ensures summary.Some? && summary.value.incomeThisMonth > 0.0 ==>
      r.income == IncomeSplit(summary.value.incomeThisMonth)
    ensures !(summary.Some? && summary.value.incomeThisMonth > 0.0) ==> r.income == l.income
    ensures summary.Some? && summary.value.expensesThisMonth > 0.0 ==>
      r.expenses == ExpenseSplit(summary.value.expensesThisMonth)
    ensures !(summary.Some? && summary.value.expensesThisMonth > 0.0) ==> r.expenses == l.expenses
  {
    match summary
    case None => l
    case Some(s) =>
      var l' := if s.incomeThisMonth > 0.0 then l.(income := IncomeSplit(s.incomeThisMonth)) else l;
      if s.expensesThisMonth > 0.0 then l'.(expenses := ExpenseSplit(s.expensesThisMonth)) else l'
  }

  /** A seeded ledger totals within rounding distance of the backend figures. */
  lemma SeedTracksBackendTotals(l: Ledger, s: Summary)
    requires s.incomeThisMonth > 0.0 && s.expensesThisMonth > 0.0
    ensures var r := Seed(l, Some(s));
      && s.incomeThisMonth - 1.5 < TotalIncome(r.income) <= s.incomeThisMonth + 1.5
      && s.expensesThisMonth - 3.0 < TotalExpenses(r.expenses) <= s.expensesThisMonth + 3.0
  {
  }

  /**
   * `summaryData?.savings_rate || Math.round(surplus / totalIncome * 100)`:
   * a backend rate of 0 is falsy and falls through to the computed rate.
   */
  function SavingsRate(summary: Option<Summary>, l: Ledger): (r: Num)
    ensures summary.Some? && summary.value.savingsRate != 0.0 ==> r == Fin(summary.value.savingsRate)
    ensures !(summary.Some? && summary.value.savingsRate != 0.0) ==>
      var income := TotalIncome(l.income);
      var surplus := Surplus(l.income, l.expenses);
      && (r.Fin? <==> income != 0.0)
      && (r == NaN <==> income == 0.0 && surplus == 0.0)
      && (r.Fin? ==> surplus / income * 100.0 - 0.5 < r.v <= surplus / income * 100.0 + 0.5)
      && (income != 0.0 ==> r == Fin(RoundReal(surplus / income * 100.0) as real))
      && (income == 0.0 && surplus < 0.0 ==> r == NegInf)
      && (income == 0.0 && surplus > 0.0 ==> r == PosInf)
  {
    if summary.Some? && summary.value.savingsRate != 0.0 then Fin(summary.value.savingsRate)
    else Round(Mul(Div(Surplus(l.income, l.expenses), TotalIncome(l.income)), 100.0))
  }

  /** `isNaN(savingsRate) ? 0 : savingsRate`: only 0 / 0 is guarded. */
  function DisplayedRate(summary: Option<Summary>, l: Ledger): (r: Num)
    ensures r != NaN
    ensures SavingsRate(summary, l) != NaN ==> r == SavingsRate(summary, l)
    ensures SavingsRate(summary, l) == NaN ==> r == Fin(0.0)
  {
    ZeroIfNaN(SavingsRate(summary, l))
  }

  /** With no income but a nonzero surplus the guard does not apply and an infinity is shown. */
  lemma ZeroIncomeIsNotGuarded(l: Ledger)
    requires TotalIncome(l.income) == 0.0 && TotalExpenses(l.expenses) > 0.0
    ensures DisplayedRate(None, l) == NegInf
  {
  }

  /** Backend income of 10000 seeds 9000 / 800 / 200. */
  lemma SeedExample()
    ensures IncomeSplit(10000.0) == Income(9000.0, 800.0, 200.0)
  {
  }
}
