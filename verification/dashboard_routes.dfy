/**
 * The read-only dashboard routes of the backend: the dashboard summary, the
 * paged transaction list, budgets and goals. Each collection is a sequence of
 * documents; the transaction sequence is kept newest first, which is the order
 * `.sort('date', -1)` produces. Missing document fields take the defaults the
 * routes pass to `.get`.
 */
module DashboardRoutes {
  import opened Wrappers
  import opened Seqs
  import opened BackendStore

  datatype TxnDoc = TxnDoc(userId: UserId, description: Option<string>, amount: Option<real>, category: Option<string>, kind: Option<string>)
  datatype BudgetDoc = BudgetDoc(userId: UserId, category: Option<string>, amount: Option<real>, spent: Option<real>, period: Option<string>)
  datatype GoalDoc = GoalDoc(userId: UserId, name: Option<string>, targetAmount: Option<real>, currentAmount: Option<real>, priority: Option<string>)

  /** The transactions, budgets and goals collections. */
  datatype Finance = Finance(transactions: seq<TxnDoc>, budgets: seq<BudgetDoc>, goals: seq<GoalDoc>)

  datatype AccountView = AccountView(name: string, kind: string, balance: real, currency: string)
  datatype TxnView = TxnView(description: string, amount: real, category: string, kind: string)
  datatype BudgetView = BudgetView(category: string, amount: real, spent: real, period: string)
  datatype GoalView = GoalView(name: string, targetAmount: real, currentAmount: real, priority: string)

  /** A stored account as the summary lists it, with the defaults for absent fields. */
  function FormatAccount(a: AccountDoc): AccountView
  {
    AccountView(a.name.GetOr(""), a.kind.GetOr(""), a.balance.GetOr(0.0), a.currency.GetOr("USD"))
  }

  /** A stored transaction as the routes return it; an untyped one reads as an expense. */
  function FormatTxn(t: TxnDoc): TxnView
  {
    TxnView(t.description.GetOr(""), t.amount.GetOr(0.0), t.category.GetOr("Uncategorized"), t.kind.GetOr("expense"))
  }

  function FormatBudget(b: BudgetDoc): BudgetView
  {
    BudgetView(b.category.GetOr(""), b.amount.GetOr(0.0), b.spent.GetOr(0.0), b.period.GetOr("monthly"))
  }

  function FormatGoal(g: GoalDoc): GoalView
  {
    GoalView(g.name.GetOr(""), g.targetAmount.GetOr(0.0), g.currentAmount.GetOr(0.0), g.priority.GetOr("medium"))
  }

  const MockAccounts: seq<AccountView> :=
    [AccountView("Cash Account", "Cash", 1500.0, "USD"), AccountView("Savings Account", "Savings", 5000.0, "USD")]

  const MockTransactions: seq<TxnView> :=
    [TxnView("Grocery shopping", 120.50, "Food", "expense"),
     TxnView("Salary", 3000.0, "Income", "income"),
     TxnView("Restaurant", 75.20, "Dining", "expense")]

  const MockBudgets: seq<BudgetView> :=
    [BudgetView("Food", 500.0, 320.0, "monthly"),
     BudgetView("Entertainment", 200.0, 150.0, "monthly"),
     BudgetView("Transportation", 300.0, 180.0, "monthly")]

  const MockGoals: seq<GoalView> :=
    [GoalView("Emergency Fund", 10000.0, 2500.0, "high"), GoalView("Vacation", 3000.0, 1200.0, "medium")]

  /** The hard-coded mock totals are the sums of the mock lists they accompany. */
  lemma MockTotalsMatchMockLists()
    ensures SumOf(MockAccounts, (a: AccountView) => a.balance) == 6500.0
    ensures SumOf(MockBudgets, (b: BudgetView) => b.amount) == 1000.0
    ensures SumOf(MockBudgets, (b: BudgetView) => b.spent) == 650.0
    ensures SumOf(MockGoals, (g: GoalView) => g.targetAmount) == 13000.0
    ensures SumOf(MockGoals, (g: GoalView) => g.currentAmount) == 3700.0
  {
    assert MockAccounts[1..][1..] == [];
    assert MockBudgets[1..][1..][1..] == [];
    assert MockGoals[1..][1..] == [];
  }

  /** Python's `a // b`: the quotient rounded toward negative infinity. */
  function FloorDiv(a: int, b: int): (q: int)
    requires b != 0
    ensures b > 0 ==> q * b <= a < q * b + b
    ensures b < 0 ==> q * b >= a > q * b + b
  {
    if b > 0 then a / b else (-a) / (-b)
  }

  /** Query-string arguments; `None` stands for absent or, for the integers, not parseable as int. */
  datatype Query = Query(limit: Option<int>, skip: Option<int>, category: Option<string>, kind: Option<string>)

  function Limit(q: Query): int { q.limit.GetOr(10) }
  function Skip(q: Query): int { q.skip.GetOr(0) }

  /** The Mongo query: the user's transactions, narrowed by each filter that is a non-empty string. */
  predicate Matches(uid: UserId, q: Query, t: TxnDoc)
  {
    && t.userId == uid
    && (q.category.Some? && q.category.value != [] ==> t.category == q.category)
    && (q.kind.Some? && q.kind.value != [] ==> t.kind == q.kind)
  }

  function Matching(fin: Finance, uid: UserId, q: Query): seq<TxnDoc>
  {
    Filter(fin.transactions, t => Matches(uid, q, t))
  }

  function Abs(n: int): nat { if n < 0 then -n else n }

  /** `.skip(skip).limit(limit)`: a limit of 0 means no limit and a negative limit acts as its absolute value. */
  function Page<T>(xs: seq<T>, skip: nat, limit: int): (r: seq<T>)
    ensures skip >= |xs| ==> r == []
    ensures skip < |xs| ==> |r| == if limit == 0 || |xs| - skip <= Abs(limit) then |xs| - skip else Abs(limit)
    ensures forall i :: 0 <= i < |r| ==> skip + i < |xs| && r[i] == xs[skip + i]
  {
    var rest := if skip <= |xs| then xs[skip..] else [];
    if limit == 0 then rest else Take(rest, Abs(limit))
  }

  datatype Listing = Listing(transactions: seq<TxnView>, totalCount: int, currentPage: int, totalPages: int)

  const MockListing := Listing(MockTransactions, 3, 1, 1)

  /** The listing of a non-empty page of the matching transactions. */
  function PageListing(m: seq<TxnDoc>, skip: nat, limit: int): (r: Listing)
    requires skip < |m| && limit != 0
    ensures r.totalCount == |m|
    ensures |r.transactions| == if |m| - skip <= Abs(limit) then |m| - skip else Abs(limit)
    ensures forall i :: 0 <= i < |r.transactions| ==> skip + i < |m| && r.transactions[i] == FormatTxn(m[skip + i])
    ensures limit > 0 ==>
      && r.currentPage * limit - limit <= skip < r.currentPage * limit
      && r.totalPages * limit - limit < |m| <= r.totalPages * limit
  {
    var page := Page(m, skip, limit);
    PageArithmetic(skip, |m|, limit);
    Listing(Map(page, FormatTxn), |m|, FloorDiv(skip, limit) + 1, FloorDiv(|m| + limit - 1, limit))
  }

  /**
   * GET /api/dashboard/transactions. A negative skip makes pymongo raise, an
   * empty page is replaced by the three mock transactions whatever skip was,
   * and a limit of 0 with a non-empty page divides by zero; those errors are
   * Flask's 500.
   */
  function GetTransactions(fin: Finance, uid: UserId, q: Query): (r: Result<Listing, int>)
    ensures r.Failure? ==> r.error == 500
    ensures r.Failure? <==> Skip(q) < 0 || (Skip(q) < |Matching(fin, uid, q)| && Limit(q) == 0)
    ensures 0 <= Skip(q) && |Matching(fin, uid, q)| <= Skip(q) ==> r == Success(MockListing)
    ensures 0 <= Skip(q) < |Matching(fin, uid, q)| && Limit(q) != 0 ==>
      r == Success(PageListing(Matching(fin, uid, q), Skip(q), Limit(q)))
  {
    var limit := Limit(q);
    var skip := Skip(q);
    if skip < 0 then Failure(500)
    else
      var m := Matching(fin, uid, q);
      if skip >= |m| then Success(MockListing)
      else if limit == 0 then Failure(500)
      else Success(PageListing(m, skip, limit))
  }

  /** `skip // limit + 1` is the page holding skip, and `(total + limit - 1) // limit` is the ceiling of total / limit. */
  lemma PageArithmetic(skip: int, total: int, limit: int)
    requires limit != 0
    ensures limit > 0 ==> var current := FloorDiv(skip, limit) + 1;
      current * limit - limit <= skip < current * limit
    ensures limit > 0 ==> var pages := FloorDiv(total + limit - 1, limit);
      pages * limit - limit < total <= pages * limit
  {
    if limit > 0 {
      var q := FloorDiv(skip, limit);
      assert (q + 1) * limit == q * limit + limit;
      var p := FloorDiv(total + limit - 1, limit);
      assert p * limit <= total + limit - 1 < p * limit + limit;
    }
  }

  /** Every listed transaction satisfies the filters: it is the user's, with the requested category and type. */
  lemma ListedTransactionsMatch(fin: Finance, uid: UserId, q: Query)
    ensures var r := GetTransactions(fin, uid, q);
      0 <= Skip(q) < |Matching(fin, uid, q)| && r.Success? ==>
        forall i :: 0 <= i < |r.value.transactions| ==>
          exists t :: t in fin.transactions && Matches(uid, q, t) && r.value.transactions[i] == FormatTxn(t)
  {
    var r := GetTransactions(fin, uid, q);
    var m := Matching(fin, uid, q);
    if 0 <= Skip(q) < |m| && r.Success? {
      forall i | 0 <= i < |r.value.transactions|
        ensures exists t :: t in fin.transactions && Matches(uid, q, t) && r.value.transactions[i] == FormatTxn(t)
      {
        var t := m[Skip(q) + i];
        assert t in fin.transactions && Matches(uid, q, t);
      }
    }
  }

  /** A negative limit returns |limit| transactions but reports a non-positive page count. */
  lemma NegativeLimitExample(uid: UserId)
    ensures var fin := Finance(seq(12, _ => TxnDoc(uid, None, None, None, None)), [], []);
      var r := GetTransactions(fin, uid, Query(Some(-5), None, None, None));
      r.Success? && |r.value.transactions| == 5 && r.value.currentPage == 1 && r.value.totalPages == -2
  {
    var fin := Finance(seq(12, _ => TxnDoc(uid, None, None, None, None)), [], []);
    var q := Query(Some(-5), None, None, None);
    var m := Matching(fin, uid, q);
    assert forall i :: 0 <= i < 12 ==> Matches(uid, q, fin.transactions[i]);
    assert fin.transactions[0] in m;
    FilterAll(fin.transactions, t => Matches(uid, q, t));
  }

  lemma {:induction false} FilterAll<T>(xs: seq<T>, p: T -> bool)
    requires forall i :: 0 <= i < |xs| ==> p(xs[i])
    ensures Filter(xs, p) == xs
  {
    if xs != [] {
      assert forall i :: 0 <= i < |xs[1..]| ==> xs[1..][i] == xs[i + 1];
      FilterAll(xs[1..], p);
    }
  }

  /** `round(current / total * 100 if total > 0 else 0, 2)` before the final rounding. */
  function GoalProgress(total: real, current: real): (p: real)
    ensures total > 0.0 ==> p * total == current * 100.0
    ensures total <= 0.0 ==> p == 0.0
    ensures 0.0 < total && 0.0 <= current <= total ==> 0.0 <= p <= 100.0
  {
    if total > 0.0 then current / total * 100.0 else 0.0
  }

  datatype Summary = Summary(
    accounts: seq<AccountView>, totalBalance: real,
    recent: seq<TxnView>,
    budgets: seq<BudgetView>, budgetTotal: real, budgetSpent: real, budgetRemaining: real,
    goals: seq<GoalView>, goalsTotal: real, goalsCurrent: real, goalsProgress: real,
    netWorth: real, incomeThisMonth: real, expensesThisMonth: real, savingsRate: int)

  function UserAccounts(db: Db, uid: UserId): seq<AccountDoc> { Filter(db.accounts, (a: AccountDoc) => a.userId == uid) }
  function UserTxns(fin: Finance, uid: UserId): seq<TxnDoc> { Filter(fin.transactions, (t: TxnDoc) => t.userId == uid) }
  function UserBudgets(fin: Finance, uid: UserId): seq<BudgetDoc> { Filter(fin.budgets, (b: BudgetDoc) => b.userId == uid) }
  function UserGoals(fin: Finance, uid: UserId): seq<GoalDoc> { Filter(fin.goals, (g: GoalDoc) => g.userId == uid) }

  function Amount(v: TxnView): real { v.amount }

  /** `t.get('type') == kind` on a formatted transaction. */
  function OfKind(kind: string): TxnView -> bool
  {
    (v: TxnView) => v.kind == kind
  }

  /** The accounts part of the summary: the user's accounts and their balance, or the two mock accounts. */
  function AccountFigures(db: Db, uid: UserId): (r: (seq<AccountView>, real))
    ensures UserAccounts(db, uid) == [] ==> r == (MockAccounts, 6500.0)
    ensures UserAccounts(db, uid) != [] ==>
      && |r.0| == |UserAccounts(db, uid)|
      && (forall i :: 0 <= i < |r.0| ==> r.0[i] == FormatAccount(UserAccounts(db, uid)[i]))
      && r.1 == SumOf(UserAccounts(db, uid), (a: AccountDoc) => a.balance.GetOr(0.0))
  {
    var accounts := UserAccounts(db, uid);
    if accounts == [] then (MockAccounts, 6500.0)
    else (Map(accounts, FormatAccount), SumOf(accounts, (a: AccountDoc) => a.balance.GetOr(0.0)))
  }

  /** `.sort('date', -1).limit(5)`: the five newest of the user's transactions, or the mock ones. */
  function RecentTxns(fin: Finance, uid: UserId): (r: seq<TxnView>)
    ensures UserTxns(fin, uid) == [] ==> r == MockTransactions
    ensures UserTxns(fin, uid) != [] ==>
      && |r| == (if |UserTxns(fin, uid)| < 5 then |UserTxns(fin, uid)| else 5)
      && forall i :: 0 <= i < |r| ==> r[i] == FormatTxn(UserTxns(fin, uid)[i])
  {
    var txns := UserTxns(fin, uid);
    if txns == [] then MockTransactions else Map(Take(txns, 5), FormatTxn)
  }

  /** The budgets part of the summary: views, total and spent, or the mock budgets with 1000 and 650. */
  function BudgetFigures(fin: Finance, uid: UserId): (r: (seq<BudgetView>, real, real))
    ensures UserBudgets(fin, uid) == [] ==> r == (MockBudgets, 1000.0, 650.0)
    ensures UserBudgets(fin, uid) != [] ==>
      && |r.0| == |UserBudgets(fin, uid)|
      && (forall i :: 0 <= i < |r.0| ==> r.0[i] == FormatBudget(UserBudgets(fin, uid)[i]))
      && r.1 == SumOf(UserBudgets(fin, uid), (b: BudgetDoc) => b.amount.GetOr(0.0))
      && r.2 == SumOf(UserBudgets(fin, uid), (b: BudgetDoc) => b.spent.GetOr(0.0))
  {
    var budgets := UserBudgets(fin, uid);
    if budgets == [] then (MockBudgets, 1000.0, 650.0)
    else (Map(budgets, FormatBudget), SumOf(budgets, (b: BudgetDoc) => b.amount.GetOr(0.0)), SumOf(budgets, (b: BudgetDoc) => b.spent.GetOr(0.0)))
  }

  /** The goals part of the summary: views, target total and saved total, or the mock goals with 13000 and 3700. */
  function GoalFigures(fin: Finance, uid: UserId): (r: (seq<GoalView>, real, real))
    ensures UserGoals(fin, uid) == [] ==> r == (MockGoals, 13000.0, 3700.0)
    ensures UserGoals(fin, uid) != [] ==>
      && |r.0| == |UserGoals(fin, uid)|
      && (forall i :: 0 <= i < |r.0| ==> r.0[i] == FormatGoal(UserGoals(fin, uid)[i]))
      && r.1 == SumOf(UserGoals(fin, uid), (g: GoalDoc) => g.targetAmount.GetOr(0.0))
      && r.2 == SumOf(UserGoals(fin, uid), (g: GoalDoc) => g.currentAmount.GetOr(0.0))
  {
    var goals := UserGoals(fin, uid);
    if goals == [] then (MockGoals, 13000.0, 3700.0)
    else (Map(goals, FormatGoal), SumOf(goals, (g: GoalDoc) => g.targetAmount.GetOr(0.0)), SumOf(goals, (g: GoalDoc) => g.currentAmount.GetOr(0.0)))
  }

  /** `sum(t.amount for t in recent if t.type == kind)`. */
  function SumOfKind(recent: seq<TxnView>, kind: string): real
  {
    SumOf(Filter(recent, OfKind(kind)), Amount)
  }

  /**
   * GET /api/dashboard/summary. Each empty collection is replaced by its mock
   * list and hard-coded totals; income and expenses are summed over the five
   * most recent transactions (or the mock ones) by type, and the savings rate
   * is the constant 25.
   */
  function DashboardSummary(db: Db, fin: Finance, uid: UserId): (s: Summary)
    ensures s.netWorth == s.totalBalance
    ensures s.budgetRemaining == s.budgetTotal - s.budgetSpent
    ensures s.goalsProgress == GoalProgress(s.goalsTotal, s.goalsCurrent)
    ensures s.savingsRate == 25
    ensures (s.accounts, s.totalBalance) == AccountFigures(db, uid)
    ensures s.recent == RecentTxns(fin, uid)
    ensures (s.budgets, s.budgetTotal, s.budgetSpent) == BudgetFigures(fin, uid)
    ensures (s.goals, s.goalsTotal, s.goalsCurrent) == GoalFigures(fin, uid)
    ensures s.incomeThisMonth == SumOfKind(s.recent, "income")
    ensures s.expensesThisMonth == SumOfKind(s.recent, "expense")
  {
    var a := AccountFigures(db, uid);
    var recent := RecentTxns(fin, uid);
    var b := BudgetFigures(fin, uid);
    var g := GoalFigures(fin, uid);
    Summary(a.0, a.1, recent,
            b.0, b.1, b.2, b.1 - b.2,
            g.0, g.1, g.2, GoalProgress(g.1, g.2),
            a.1, SumOfKind(recent, "income"), SumOfKind(recent, "expense"), 25)
  }

  /** When every recent transaction is typed income or expense, the two monthly figures add up to their total. */
  lemma IncomeAndExpensesCoverRecent(db: Db, fin: Finance, uid: UserId)
    requires var s := DashboardSummary(db, fin, uid);
      forall i :: 0 <= i < |s.recent| ==> s.recent[i].kind in {"income", "expense"}
    ensures var s := DashboardSummary(db, fin, uid);
      s.incomeThisMonth + s.expensesThisMonth == SumOf(s.recent, Amount)
  {
    var s := DashboardSummary(db, fin, uid);
    SumOfPartition(s.recent, Amount, OfKind("income"), OfKind("expense"));
  }

  /** A user with no data sees only mock figures. */
  lemma EmptyUserSeesMockSummary(uid: UserId)
    ensures var s := DashboardSummary(Db(map[], [], map[]), Finance([], [], []), uid);
      && s.totalBalance == 6500.0 && s.budgetRemaining == 350.0
      && s.incomeThisMonth == 3000.0 && s.expensesThisMonth == 195.70
      && s.goalsProgress * 13000.0 == 370000.0
  {
    var db, fin := Db(map[], [], map[]), Finance([], [], []);
    assert UserAccounts(db, uid) == [] && UserTxns(fin, uid) == [];
    assert UserBudgets(fin, uid) == [] && UserGoals(fin, uid) == [];
    MockMonthlyFigures();
  }

  /** The mock transactions hold 3000 of income and 195.70 of expenses. */
  lemma MockMonthlyFigures()
    ensures SumOfKind(MockTransactions, "income") == 3000.0
    ensures SumOfKind(MockTransactions, "expense") == 195.70
  {
    assert MockTransactions[1..][1..][1..] == [];
    assert Filter(MockTransactions, OfKind("income")) == [MockTransactions[1]];
    assert Filter(MockTransactions, OfKind("expense")) == [MockTransactions[0], MockTransactions[2]];
    assert [MockTransactions[0], MockTransactions[2]][1..] == [MockTransactions[2]];
  }

  /** A stored transaction without a type counts toward the month's expenses. */
  lemma UntypedTransactionIsAnExpense(uid: UserId)
    ensures var s := DashboardSummary(Db(map[], [], map[]), Finance([TxnDoc(uid, None, Some(40.0), None, None)], [], []), uid);
      s.expensesThisMonth == 40.0 && s.incomeThisMonth == 0.0
  {
    var t := TxnDoc(uid, None, Some(40.0), None, None);
    var fin := Finance([t], [], []);
    assert UserTxns(fin, uid) == [t];
    var v := FormatTxn(t);
    assert RecentTxns(fin, uid) == [v];
    assert v.kind == "expense" && v.amount == 40.0;
    SingleKindSum(v, "expense");
    SingleKindSum(v, "income");
  }

  lemma SingleKindSum(v: TxnView, kind: string)
    ensures SumOfKind([v], kind) == if v.kind == kind then v.amount else 0.0
  {
    assert [v][1..] == [];
    assert OfKind(kind)(v) == (v.kind == kind);
    assert Filter([v], OfKind(kind)) == if v.kind == kind then [v] else [];
    assert SumOf([v], Amount) == v.amount;
  }

  datatype BudgetList = BudgetList(budgets: seq<BudgetView>, total: real, spent: real, remaining: real)

  /** GET /api/dashboard/budgets. */
  function GetBudgets(fin: Finance, uid: UserId): (r: BudgetList)
    ensures r.remaining == r.total - r.spent
    ensures UserBudgets(fin, uid) == [] ==> r == BudgetList(MockBudgets, 1000.0, 650.0, 350.0)
    ensures UserBudgets(fin, uid) != [] ==>
      && |r.budgets| == |UserBudgets(fin, uid)|
      && (forall i :: 0 <= i < |r.budgets| ==> r.budgets[i] == FormatBudget(UserBudgets(fin, uid)[i]))
      && r.total == SumOf(r.budgets, (b: BudgetView) => b.amount)
      && r.spent == SumOf(r.budgets, (b: BudgetView) => b.spent)
  {
    var budgets := UserBudgets(fin, uid);
    if budgets == [] then BudgetList(MockBudgets, 1000.0, 650.0, 350.0)
    else
      var total := SumOf(budgets, (b: BudgetDoc) => b.amount.GetOr(0.0));
      var spent := SumOf(budgets, (b: BudgetDoc) => b.spent.GetOr(0.0));
      SumOfMapped(budgets, FormatBudget, (b: BudgetDoc) => b.amount.GetOr(0.0), (v: BudgetView) => v.amount);
      SumOfMapped(budgets, FormatBudget, (b: BudgetDoc) => b.spent.GetOr(0.0), (v: BudgetView) => v.spent);
      BudgetList(Map(budgets, FormatBudget), total, spent, total - spent)
  }

  /** Summing the formatted documents gives the sum of the stored fields with their defaults. */
  lemma {:induction false} SumOfMapped<T, U>(xs: seq<T>, fmt: T -> U, f: T -> real, g: U -> real)
    requires forall i :: 0 <= i < |xs| ==> g(fmt(xs[i])) == f(xs[i])
    ensures SumOf(Map(xs, fmt), g) == SumOf(xs, f)
  {
    if xs != [] {
      assert Map(xs, fmt)[1..] == Map(xs[1..], fmt);
      assert forall i :: 0 <= i < |xs[1..]| ==> xs[1..][i] == xs[i + 1];
      SumOfMapped(xs[1..], fmt, f, g);
    }
  }

  /** The budgets route and the summary report the same budget totals. */
  lemma BudgetsAgreeWithSummary(db: Db, fin: Finance, uid: UserId)
    ensures var r := GetBudgets(fin, uid);
      var s := DashboardSummary(db, fin, uid);
      r.budgets == s.budgets && r.total == s.budgetTotal && r.spent == s.budgetSpent && r.remaining == s.budgetRemaining
  {
  }

  datatype GoalList = GoalList(goals: seq<GoalView>, total: real, current: real, progress: real)

  /** GET /api/dashboard/goals. */
  function GetGoals(fin: Finance, uid: UserId): (r: GoalList)
    ensures r.total > 0.0 ==> r.progress * r.total == r.current * 100.0
    ensures r.total <= 0.0 ==> r.progress == 0.0
    ensures UserGoals(fin, uid) == [] ==> r.goals == MockGoals && r.total == 13000.0 && r.current == 3700.0
    ensures UserGoals(fin, uid) != [] ==>
      && |r.goals| == |UserGoals(fin, uid)|
      && (forall i :: 0 <= i < |r.goals| ==> r.goals[i] == FormatGoal(UserGoals(fin, uid)[i]))
      && r.total == SumOf(r.goals, (g: GoalView) => g.targetAmount)
      && r.current == SumOf(r.goals, (g: GoalView) => g.currentAmount)
  {
    var goals := UserGoals(fin, uid);
    if goals == [] then GoalList(MockGoals, 13000.0, 3700.0, 3700.0 / 13000.0 * 100.0)
    else
      var total := SumOf(goals, (g: GoalDoc) => g.targetAmount.GetOr(0.0));
      var current := SumOf(goals, (g: GoalDoc) => g.currentAmount.GetOr(0.0));
      SumOfMapped(goals, FormatGoal, (g: GoalDoc) => g.targetAmount.GetOr(0.0), (v: GoalView) => v.targetAmount);
      SumOfMapped(goals, FormatGoal, (g: GoalDoc) => g.currentAmount.GetOr(0.0), (v: GoalView) => v.currentAmount);
      GoalList(Map(goals, FormatGoal), total, current, GoalProgress(total, current))
  }

  /** The goals route and the summary report the same goal figures. */
  lemma GoalsAgreeWithSummary(db: Db, fin: Finance, uid: UserId)
    ensures var r := GetGoals(fin, uid);
      var s := DashboardSummary(db, fin, uid);
      r.goals == s.goals && r.total == s.goalsTotal && r.current == s.goalsCurrent && r.progress == s.goalsProgress
  {
  }
}
