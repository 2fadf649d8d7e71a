/**
 * The API-driven budget tracker: an overall bar and one row per budget
 * category, each with a rounded percentage, a bar clamped at 100 and a
 * "remaining" or "over budget" note.
 */
module BudgetOverview {
  import opened Wrappers
  import opened JsNumber

  datatype Budget = Budget(id: string, category: string, amount: real, spent: real, period: string)

  /** The `budgets` part of the dashboard summary. */
  datatype BudgetsData = BudgetsData(data: seq<Budget>, total: real, spent: real, remaining: real)

  datatype Note = OverBy(excess: real) | Remaining(left: real)

  datatype RowView = RowView(percentage: int, overBudget: bool, bar: int, note: Note)

  datatype View = View(rows: seq<RowView>, overall: int, totalBudget: real, totalSpent: real,
                       totalRemaining: real, showEmptyMessage: bool)

  /** `amount > 0 ? Math.round(spent / amount * 100) : 0`, used for the overall bar and for every row. */
  function Percentage(spent: real, amount: real): (p: int)
    ensures amount > 0.0 ==> spent * 100.0 - 0.5 * amount < p as real * amount <= spent * 100.0 + 0.5 * amount
    ensures amount > 0.0 ==> (p > 100 <==> spent * 100.0 >= amount * 100.5)
    ensures amount <= 0.0 ==> p == 0
  {
    if amount > 0.0 then
      var r := RoundReal(spent / amount * 100.0);
      RoundedShare(spent, amount);
      r
    else 0
  }

  /** The rounded share, multiplied back by the amount, is within half an amount of spent * 100. */
  lemma RoundedShare(spent: real, amount: real)
    requires amount > 0.0
    ensures var r := RoundReal(spent / amount * 100.0);
      && spent * 100.0 - 0.5 * amount < r as real * amount <= spent * 100.0 + 0.5 * amount
      && (r > 100 <==> spent * 100.0 >= amount * 100.5)
  {
    var x := spent / amount * 100.0;
    var r := RoundReal(x);
    Rescale(spent, amount);
    ScaleBetween(x - 0.5, r as real, x + 0.5, amount);
    Distribute(x, 0.5, amount);
    assert r > 100 <==> x >= 100.5;
    ScaleIff(x, 100.5, amount);
  }

  lemma Rescale(spent: real, amount: real)
    requires amount > 0.0
    ensures (spent / amount * 100.0) * amount == spent * 100.0
  {
  }

  lemma Distribute(x: real, d: real, c: real)
    ensures (x + d) * c == x * c + d * c
    ensures (x - d) * c == x * c - d * c
  {
  }

  lemma ScaleBetween(lo: real, m: real, hi: real, c: real)
    requires lo < m <= hi && c > 0.0
    ensures lo * c < m * c <= hi * c
  {
  }

  lemma ScaleIff(a: real, b: real, c: real)
    requires c > 0.0
    ensures a >= b <==> a * c >= b * c
  {
  }

  /** One budget row. */
  function Row(b: Budget): (r: RowView)
    ensures r.percentage == Percentage(b.spent, b.amount)
    ensures r.overBudget <==> b.amount > 0.0 && b.spent * 100.0 >= b.amount * 100.5
    ensures r.bar <= 100 && (r.overBudget ==> r.bar == 100) && (!r.overBudget ==> r.bar == r.percentage)
    ensures r.overBudget ==> r.note == OverBy(b.spent - b.amount) && r.note.excess > 0.0
    ensures !r.overBudget ==> r.note == Remaining(b.amount - b.spent)
  {
    var p := Percentage(b.spent, b.amount);
    var over := p > 100;
    RowView(p, over, if p > 100 then 100 else p,
            if over then OverBy(b.spent - b.amount) else Remaining(b.amount - b.spent))
  }

  /** Spending up to half a percent over the allocation still shows a (negative) remainder. */
  lemma SlightOverspendShowsNegativeRemainder()
    ensures Row(Budget("b", "Food", 1000.0, 1004.0, "monthly")) == RowView(100, false, 100, Remaining(-4.0))
  {
  }

  /** The whole card; absent data renders an empty list with zero totals. */
  function Render(d: Option<BudgetsData>): (v: View)
    ensures d.None? ==> v == View([], 0, 0.0, 0.0, 0.0, true)
    ensures d.Some? ==> v.totalBudget == d.value.total && v.totalSpent == d.value.spent
    ensures d.Some? ==> v.totalRemaining == d.value.remaining
    ensures d.Some? ==> |v.rows| == |d.value.data|
    ensures d.Some? ==> forall i :: 0 <= i < |v.rows| ==> v.rows[i] == Row(d.value.data[i])
    ensures v.showEmptyMessage <==> v.rows == []
    ensures v.totalBudget > 0.0 ==> v.overall == Percentage(v.totalSpent, v.totalBudget)
    ensures v.totalBudget <= 0.0 ==> v.overall == 0
  {
    var budgets := if d.Some? then d.value.data else [];
    var total := if d.Some? then d.value.total else 0.0;
    var spent := if d.Some? then d.value.spent else 0.0;
    var remaining := if d.Some? then d.value.remaining else 0.0;
    var rows := seq(|budgets|, i requires 0 <= i < |budgets| => Row(budgets[i]));
    View(rows, Percentage(spent, total), total, spent, remaining, |budgets| == 0)
  }
}
