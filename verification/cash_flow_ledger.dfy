/**
 * The income and expense records both cash-flow trackers keep in component
 * state, the `{...prev, [key]: value}` edit handlers they share, and the
 * derived totals (`Object.values(x).reduce((sum, v) => sum + v, 0)`).
 */
module CashFlowLedger {

  datatype Income = Income(salary: real, investments: real, other: real)

  datatype Expenses = Expenses(housing: real, food: real, utilities: real, transportation: real,
                               entertainment: real, other: real)

  datatype IncomeKey = Salary | Investments | OtherIncome

  datatype ExpenseKey = Housing | Food | Utilities | Transportation | Entertainment | OtherExpense

  const DefaultIncome := Income(5000.0, 200.0, 0.0)
  const DefaultExpenses := Expenses(1500.0, 600.0, 200.0, 300.0, 200.0, 100.0)

  function IncomeField(i: Income, k: IncomeKey): real
  {
    match k
    case Salary => i.salary
    case Investments => i.investments
    case OtherIncome => i.other
  }

  function ExpenseField(e: Expenses, k: ExpenseKey): real
  {
    match k
    case Housing => e.housing
    case Food => e.food
    case Utilities => e.utilities
    case Transportation => e.transportation
    case Entertainment => e.entertainment
    case OtherExpense => e.other
  }

  /** Object.values in insertion order. */
  function IncomeValues(i: Income): seq<real>
  {
    [i.salary, i.investments, i.other]
  }

  function ExpenseValues(e: Expenses): seq<real>
  {
    [e.housing, e.food, e.utilities, e.transportation, e.entertainment, e.other]
  }

  /** `reduce((sum, value) => sum + value, 0)`; with exact addition the fold direction does not matter. */
  function Sum(xs: seq<real>): real
  {
    if xs == [] then 0.0 else xs[0] + Sum(xs[1..])
  }

  function TotalIncome(i: Income): (t: real)
    ensures t == i.salary + i.investments + i.other
  {
    var v := IncomeValues(i);
    assert Sum(v[2..]) == i.other by { assert v[2..][1..] == []; }
    assert Sum(v[1..]) == i.investments + i.other by { assert v[1..][1..] == v[2..]; }
    Sum(v)
  }

  function TotalExpenses(e: Expenses): (t: real)
    ensures t == e.housing + e.food + e.utilities + e.transportation + e.entertainment + e.other
  {
    var v := ExpenseValues(e);
    assert Sum(v[5..]) == e.other by { assert v[5..][1..] == []; }
    assert Sum(v[4..]) == e.entertainment + e.other by { assert v[4..][1..] == v[5..]; }
    assert Sum(v[3..]) == e.transportation + e.entertainment + e.other by { assert v[3..][1..] == v[4..]; }
    assert Sum(v[2..]) == e.utilities + e.transportation + e.entertainment + e.other by { assert v[2..][1..] == v[3..]; }
    assert Sum(v[1..]) == e.food + e.utilities + e.transportation + e.entertainment + e.other by { assert v[1..][1..] == v[2..]; }
    Sum(v)
  }

  function Surplus(i: Income, e: Expenses): real
  {
    TotalIncome(i) - TotalExpenses(e)
  }

  /** handleIncomeChange: replaces one field. */
  function SetIncome(i: Income, k: IncomeKey, value: real): (r: Income)
    ensures IncomeField(r, k) == value
    ensures forall k' :: k' != k ==> IncomeField(r, k') == IncomeField(i, k')
  {
    match k
    case Salary => i.(salary := value)
    case Investments => i.(investments := value)
    case OtherIncome => i.(other := value)
  }

  /** handleExpenseChange: replaces one field. */
  function SetExpense(e: Expenses, k: ExpenseKey, value: real): (r: Expenses)
    ensures ExpenseField(r, k) == value
    ensures forall k' :: k' != k ==> ExpenseField(r, k') == ExpenseField(e, k')
  {
    match k
    case Housing => e.(housing := value)
    case Food => e.(food := value)
    case Utilities => e.(utilities := value)
    case Transportation => e.(transportation := value)
    case Entertainment => e.(entertainment := value)
    case OtherExpense => e.(other := value)
  }

  /** An edit moves the total, and the surplus, by exactly the change in the edited field. */
  lemma IncomeEditShiftsTotal(i: Income, e: Expenses, k: IncomeKey, value: real)
    ensures TotalIncome(SetIncome(i, k, value)) == TotalIncome(i) - IncomeField(i, k) + value
    ensures Surplus(SetIncome(i, k, value), e) == Surplus(i, e) - IncomeField(i, k) + value
  {
  }

  lemma ExpenseEditShiftsTotal(i: Income, e: Expenses, k: ExpenseKey, value: real)
    ensures TotalExpenses(SetExpense(e, k, value)) == TotalExpenses(e) - ExpenseField(e, k) + value
    ensures Surplus(i, SetExpense(e, k, value)) == Surplus(i, e) + ExpenseField(e, k) - value
  {
  }

  /** Setting a field back to its old value restores the record. */
  lemma EditRoundTrip(i: Income, k: IncomeKey, value: real)
    ensures SetIncome(SetIncome(i, k, value), k, IncomeField(i, k)) == i
  {
  }

  /** The sign shown before the surplus: "+" exactly when it is not negative. */
  function SurplusSign(i: Income, e: Expenses): (r: string)
    ensures r == "+" <==> TotalIncome(i) >= TotalExpenses(e)
    ensures r != "+" ==> r == []
  {
    if Surplus(i, e) >= 0.0 then "+" else ""
  }
}
