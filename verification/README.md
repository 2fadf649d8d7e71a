# Finfine in Dafny

A Dafny model of the computational core of Finfine, a personal-finance dashboard. The app has a React/TypeScript client and a Flask/MongoDB backend. The model covers these parts:

- **The 50/30/20 splitter.** Three integer slider percentages. Its handlers must keep needs + wants + savings at 100. A needs change redistributes wants and savings by their old ratio, with `Math.round`. Once needs reaches 100, the next needs change divides 0 by 0.
- **The calculator components.** Budget percentages and the over-budget flag. Cash-flow totals, surplus and savings rate, both the backend-seeded copy and the static copy. The emergency fund. The children's-future and marriage-fund contribution formulas, with their discount factors 0.8 and 0.85.
- **The backend routes.** Registration, profile update, password change, the theme / notifications / privacy / dashboard settings updates, transaction paging and the dashboard aggregation. MongoDB collections become maps and sequences.
- **Client state machines and builders.** The authentication context over local storage, the protected-route guard and route table, the dashboard's render decision and goal-name filters, the assistant chat panel, the transactions query string, the bearer header and the response-error mapping.

The `src/` and `frontend/src/` trees hold two diverging copies of several components. Each is modelled as written, in its own module.

Numbers follow JavaScript where the client computes. `JsNumber.Num` is a finite real, NaN or an infinity. Division by zero yields NaN or an infinity, as IEEE arithmetic does. `Math.round(x)` is `floor(x + 1/2)` and `Math.ceil` is the ceiling. Reals are exact, so 0.8 is 4/5 and 0.85 is 17/20. Python's `//` is floor division (`DashboardRoutes.FloorDiv`). Python and JavaScript truthiness are the predicates `Json.PyTruthy` and `Json.JsTruthy`.

Some behaviours of the source worth knowing, each proved:

- **Savings-rate guard.** The displayed rate is reset to 0 only when the computed rate is NaN, i.e. 0 / 0. Zero income with positive expenses shows −Infinity (`CashFlowLive.ZeroIncomeIsNotGuarded`).
- **Splitter sum.** Not every needs adjustment keeps the sum at 100. After needs = 100, the next needs change makes wants and savings NaN (`BudgetSplitter.NaNIsReachable`). A wants change recovers (`BudgetSplitter.WantsRecoversFromNaN`).
- **Progress clamp.** Fund progress is clamped above at 100 but has no lower clamp (`EmergencyFund.NegativeSavingsShowNegativeProgress`).
- **Startup check.** The stored token is read once, at mount, and a successful answer authenticates whatever storage holds by then. Logging out before that answer arrives leaves the user authenticated with no token stored (`Session.LogoutBeforeAnswerAuthenticates`).
- **Login errors.** `login` and `register` clear the error when they are called, not when their request settles. A register that fails after a later login has started leaves its message on screen even when that login succeeds (`Session.OverlappingCallsKeepEarlierError`).

Modules, one per file:

| file | module | source |
|---|---|---|
| wrappers.dfy | Wrappers | `Option` and `Result` |
| js_number.dfy | JsNumber | JavaScript number arithmetic used by the components |
| text.dfy | Text | ASCII case mapping, trimming, decimal rendering, split/join |
| seqs.dfy | Seqs | filter, map, sum, positions of a filtered subsequence |
| json.dfy | Json | JSON values, request dicts, truthiness |
| budget_splitter.dfy | BudgetSplitter | src/components/BudgetTracker.tsx |
| budget_overview.dfy | BudgetOverview | frontend/src/components/BudgetTracker.tsx |
| cash_flow_ledger.dfy | CashFlowLedger | income/expense records and edit handlers shared by both CashFlowTracker.tsx |
| cash_flow_live.dfy | CashFlowLive | frontend/src/components/CashFlowTracker.tsx |
| cash_flow_static.dfy | CashFlowStatic | src/components/CashFlowTracker.tsx |
| emergency_fund.dfy | EmergencyFund | frontend/src/components/EmergencyFundCalculator.tsx |
| children_planning.dfy | ChildrenPlanning | src/components/ChildrenFuturePlanning.tsx |
| marriage_fund.dfy | MarriageFund | src/components/MarriageFundTracker.tsx |
| backend_store.dfy | BackendStore | backend/app.py documents and the token check |
| user_routes.dfy | UserRoutes | backend/app.py register, profile, password |
| settings_routes.dfy | SettingsRoutes | backend/app.py theme, notifications, privacy, dashboard |
| dashboard_routes.dfy | DashboardRoutes | backend/app.py summary, transactions, budgets, goals |
| client_api.dfy | DashboardClient | frontend/src/lib/dashboard-api.ts |
| session.dfy | Session | frontend/src/lib/auth.tsx |
| routes.dfy | Routes | frontend/src/App.tsx |
| dashboard_view.dfy | DashboardView | frontend/src/components/Dashboard.tsx |
| assistant.dfy | Assistant | src/components/AiAssistant.tsx |

## Model

| member | source | states |
|---|---|---|
| JsNumber.RoundReal | src/components/BudgetTracker.tsx:21 | `Math.round` gives the integer nearest to x, with halves rounded up: within one half below and at most one half above |
| JsNumber.CeilReal | src/components/MarriageFundTracker.tsx:18 | `Math.ceil` gives the least integer not below x |
| JsNumber.Div | src/components/BudgetTracker.tsx:20 | JavaScript division is finite exactly when the divisor is nonzero, and then multiplies back to the dividend; 0/0 is NaN and a positive number over 0 is +Infinity |
| JsNumber.Mul | src/components/BudgetTracker.tsx:21 | multiplying by a finite constant keeps finiteness; NaN stays NaN, and an infinity times 0 is NaN |
| JsNumber.Round | src/components/BudgetTracker.tsx:21 | `Math.round` on a JavaScript number rounds finite values and passes NaN and the infinities through |
| JsNumber.Ceil | src/components/ChildrenFuturePlanning.tsx:19 | `Math.ceil` on a JavaScript number rounds finite values up and passes NaN and the infinities through |
| JsNumber.Min | frontend/src/components/EmergencyFundCalculator.tsx:14 | `Math.min(n, k)` is NaN exactly when n is, never exceeds k, caps +Infinity at k and keeps −Infinity |
| JsNumber.ZeroIfNaN | src/components/CashFlowTracker.tsx:188 | `isNaN(x) ? 0 : x` never yields NaN and leaves every other value unchanged |
| JsNumber.RoundMonotone | frontend/src/components/EmergencyFundCalculator.tsx:14 | rounding is monotone: x ≤ y gives round(x) ≤ round(y) |
| Json.Get | backend/app.py:308 | `dict.get(key)` finds a value exactly when the key is present, and that value is stored under the key |
| Json.GetUnique | backend/app.py:421-424 | in a dict with distinct keys, looking up an entry's key yields that entry's value |
| Text.IsBlank | src/components/AiAssistant.tsx:33 | `!s.trim()` holds exactly when every character is white space |
| Seqs.Positions | frontend/src/components/Dashboard.tsx:73 | the goals a filter keeps form a subsequence of the input: an index sequence, strictly increasing, at which each kept goal sits in the original list |
| BudgetSplitter.OnNeedsChange | src/components/BudgetTracker.tsx:16-27 | a needs change from a reachable state sets needs to the new value; the result is NaN exactly when the old state was NaN or had needs 100; otherwise the three shares sum to 100 with wants in [0, 100 − needs] and savings ≥ 0 |
| BudgetSplitter.NewWants | src/components/BudgetTracker.tsx:18-21 | the new wants is NaN when wants + savings is 0; otherwise it is round(ratio · remaining), which lies between 0 and the remainder |
| BudgetSplitter.ShareBounds | src/components/BudgetTracker.tsx:20-22 | rounding the ratio-preserving share of the remainder stays between 0 and the remainder, so savings is never negative |
| BudgetSplitter.RoundedShareWithin | src/components/BudgetTracker.tsx:21 | rounding a fraction q ∈ [0, 1] of a whole m gives an integer in [0, m] |
| BudgetSplitter.NeedsChangeKeepsRatio | src/components/BudgetTracker.tsx:19-21 | after a needs change from a finite state, the new wants is within one half of the exact share that keeps the old wants : savings ratio |
| BudgetSplitter.OnWantsChange | src/components/BudgetTracker.tsx:29-34 | a wants change keeps needs, sets wants, and makes savings the residue so the three sum to 100; savings is non-negative exactly when the new wants is within the slider's maximum 100 − needs |
| BudgetSplitter.Step | src/components/BudgetTracker.tsx:72-111 | every event a slider can emit keeps the state reachable; the savings slider is disabled and emits none |
| BudgetSplitter.RunKeepsInvariant | src/components/BudgetTracker.tsx:10-34 | any sequence of slider events keeps the state reachable: either shares in range summing to 100, or NaN shares after needs reached 100 |
| BudgetSplitter.InitialIsWellFormed | src/components/BudgetTracker.tsx:10-13 | the initial 50/30/20 split is well formed and sums to 100 |
| BudgetSplitter.NaNIsReachable | src/components/BudgetTracker.tsx:18-22 | from any reachable state, setting needs to 100 and then to any n makes wants and savings NaN, because 0 / (0 + 0) is computed |
| BudgetSplitter.RunCons | src/components/BudgetTracker.tsx:16-34 | replaying events one at a time is the same as replaying them together |
| BudgetSplitter.WantsRecoversFromNaN | src/components/BudgetTracker.tsx:29-34 | a wants change in the NaN state restores finite shares that sum to 100 |
| BudgetSplitter.Amount | src/components/BudgetTracker.tsx:37-39 | each displayed amount is round(income · pct / 100), hence within one half of the exact share, and NaN when the percentage is NaN |
| BudgetSplitter.Amounts | src/components/BudgetTracker.tsx:37-39 | the needs amount is always finite; wants and savings amounts are finite exactly when the shares are |
| BudgetOverview.Percentage | frontend/src/components/BudgetTracker.tsx:22 | for a positive amount the rounded percentage times the amount is within half an amount of spent · 100, and it exceeds 100 exactly when spent ≥ 100.5% of the amount; a non-positive amount gives 0 |
| BudgetOverview.RoundedShare | frontend/src/components/BudgetTracker.tsx:46-47 | for a positive amount, round(spent / amount · 100) brackets spent · 100 within half an amount, and exceeds 100 exactly when spent · 100 ≥ amount · 100.5 |
| BudgetOverview.Row | frontend/src/components/BudgetTracker.tsx:46-70 | a row shows the budget's rounded percentage (`BudgetOverview.Percentage`); it is over budget exactly when its amount is positive and spending reaches 100.5% of it; the bar is capped at 100; the note shows the excess when over and the remainder otherwise |
| BudgetOverview.SlightOverspendShowsNegativeRemainder | frontend/src/components/BudgetTracker.tsx:46-70 | spending 1004 of 1000 rounds to 100%, is not flagged, and shows a remainder of −4 |
| BudgetOverview.Render | frontend/src/components/BudgetTracker.tsx:16-22 | absent data renders no rows and zero totals; otherwise the totals and the remainder are the backend's and there is one row per budget in order; the overall percentage is computed only for a positive total; the empty message shows exactly when there are no rows |
| CashFlowLedger.TotalIncome | frontend/src/components/CashFlowTracker.tsx:70 | the income total is the sum of salary, investments and other |
| CashFlowLedger.TotalExpenses | frontend/src/components/CashFlowTracker.tsx:71 | the expense total is the sum of the six expense fields |
| CashFlowLedger.SetIncome | frontend/src/components/CashFlowTracker.tsx:75-80 | an income edit sets the named field and leaves the other fields unchanged |
| CashFlowLedger.SetExpense | frontend/src/components/CashFlowTracker.tsx:82-87 | an expense edit sets the named field and leaves the other fields unchanged |
| CashFlowLedger.IncomeEditShiftsTotal | src/components/CashFlowTracker.tsx:25-35 | an income edit moves the total and the surplus by exactly the change in that field |
| CashFlowLedger.ExpenseEditShiftsTotal | src/components/CashFlowTracker.tsx:26-42 | an expense edit moves the total by the change in that field and the surplus by its negation |
| CashFlowLedger.EditRoundTrip | src/components/CashFlowTracker.tsx:30-35 | setting a field and then setting it back restores the record |
| CashFlowLedger.SurplusSign | src/components/CashFlowTracker.tsx:181-183 | the "+" prefix appears exactly when the surplus is not negative, and otherwise nothing is shown |
| CashFlowLive.Part | frontend/src/components/CashFlowTracker.tsx:49-64 | each seeded field is a whole number within one half of total · weight |
| CashFlowLive.IncomeSplit | frontend/src/components/CashFlowTracker.tsx:48-52 | the 90/8/2 income split rounds each share, and the three together are within 3/2 of the backend total |
| CashFlowLive.ExpenseSplit | frontend/src/components/CashFlowTracker.tsx:58-65 | the 35/15/10/15/10/15 expense split rounds each share, and the six together are within 3 of the backend total |
| CashFlowLive.Seed | frontend/src/components/CashFlowTracker.tsx:42-68 | summary data replaces income only when its monthly income is positive, and expenses only when its monthly expenses are positive; otherwise each side is kept |
| CashFlowLive.SeedTracksBackendTotals | frontend/src/components/CashFlowTracker.tsx:45-66 | after seeding, the income total is within 3/2 of the backend income and the expense total within 3 of the backend expenses |
| CashFlowLive.SavingsRate | frontend/src/components/CashFlowTracker.tsx:73 | a nonzero backend rate is used as is; a rate of 0 or absent data falls through to round(surplus / totalIncome · 100) for nonzero income, and for zero income to NaN, +Infinity or −Infinity by the sign of the surplus |
| CashFlowLive.DisplayedRate | frontend/src/components/CashFlowTracker.tsx:299 | the displayed rate is never NaN; it is the computed rate unless that rate is NaN, and then 0 |
| CashFlowLive.ZeroIncomeIsNotGuarded | frontend/src/components/CashFlowTracker.tsx:73 | zero income with positive expenses shows −Infinity, not 0 |
| CashFlowLive.SeedExample | frontend/src/components/CashFlowTracker.tsx:48-52 | a backend income of 10000 seeds salary 9000, investments 800 and other 200 |
| CashFlowStatic.SavingsRate | src/components/CashFlowTracker.tsx:28 | the rate is finite exactly when income is nonzero, and then it is round(surplus / totalIncome · 100); zero income gives NaN for a zero surplus, +Infinity for a positive one and −Infinity for a negative one |
| CashFlowStatic.DisplayedRate | src/components/CashFlowTracker.tsx:188 | the displayed rate is never NaN, and it equals the computed rate whenever that rate is not NaN |
| CashFlowStatic.DefaultFigures | src/components/CashFlowTracker.tsx:10-28 | the defaults give income 5200, expenses 2900, surplus 2300, a displayed 44% rate and a "+" sign |
| EmergencyFund.Progress | frontend/src/components/EmergencyFundCalculator.tsx:12-14 | progress is never +Infinity; when finite it is a whole number of at most 100; for any nonzero target, negative ones included, it is min(round(savings / target · 100), 100); a zero target gives 100 for positive savings, NaN for none and −Infinity for a debt |
| EmergencyFund.ProgressMonotone | frontend/src/components/EmergencyFundCalculator.tsx:14 | for a fixed positive target, more savings never show less progress |
| EmergencyFund.NegativeSavingsShowNegativeProgress | frontend/src/components/EmergencyFundCalculator.tsx:14 | savings of −1000 against expenses of 3000 show −6% progress; there is no lower clamp |
| EmergencyFund.DefaultFigures | frontend/src/components/EmergencyFundCalculator.tsx:10-14 | the defaults give an 18000 target and 28% progress |
| ChildrenPlanning.MonthlyInvestment | src/components/ChildrenFuturePlanning.tsx:17-19 | the amount is finite exactly when the years to the goal are nonzero, and then it is the integer ceiling of 5 · needed / (48 · years), so within one of it from above; zero years give NaN exactly when nothing is needed; a non-positive need gives a non-positive amount |
| ChildrenPlanning.Allocation | src/components/ChildrenFuturePlanning.tsx:110-120 | for a finite monthly amount m the suggestions are round(0.6 · m) and round(0.4 · m), and for a whole m they add back up to it; otherwise neither is finite |
| ChildrenPlanning.SplitAddsUp | src/components/ChildrenFuturePlanning.tsx:110-120 | for every integer m, round(0.6 · m) + round(0.4 · m) = m |
| ChildrenPlanning.SelectTargetAge | src/components/ChildrenFuturePlanning.tsx:50-60 | the target-age select only ever sets 18, 21 or 25, and changes nothing else |
| ChildrenPlanning.DefaultFigures | src/components/ChildrenFuturePlanning.tsx:11-19 | the defaults give 13 years, 90000 still needed, 722 a month, split 433 / 289 |
| ChildrenPlanning.PastTargetAge | src/components/ChildrenFuturePlanning.tsx:17-19 | a child at the target age gives +Infinity, and one past it a negative contribution |
| MarriageFund.MonthlyContribution | src/components/MarriageFundTracker.tsx:16-18 | the contribution is finite exactly when the years are nonzero, and then it is the integer ceiling of 20 · needed / (17 · months), so within one of it from above; zero years give NaN exactly when nothing is needed |
| MarriageFund.Progress | src/components/MarriageFundTracker.tsx:21 | progress is never +Infinity and, when finite, at most 100; for a nonzero target it is min(round(savings / target · 100), 100); a zero target gives 100 for positive savings, NaN for none and −Infinity for a debt |
| MarriageFund.ProgressMonotone | src/components/MarriageFundTracker.tsx:21 | for a fixed positive target, more savings never show less progress |
| MarriageFund.QuotientAtLeastOne | src/components/MarriageFundTracker.tsx:21 | savings at or above a positive target give a quotient of at least 1, hence a clamped 100 |
| MarriageFund.TargetYear | src/components/MarriageFundTracker.tsx:74-84 | the year shown is the current year plus the years to marriage |
| MarriageFund.DefaultFigures | src/components/MarriageFundTracker.tsx:11-21 | the defaults give 36 months, 1471 a month and 10% saved |
| BackendStore.TokenFromHeader | backend/app.py:45-54 | a missing or empty Authorization header is 401 "Token is missing"; every failure is a 401; a token is read exactly when the header holds a space, and it is the text from the first space up to the second space or the end |
| BackendStore.SecondPiece | backend/app.py:50 | for a header with a space, `split(' ')[1]` exists and is the separator-free text right after the first space, ending at the next space or the end |
| UserRoutes.Avatar | backend/app.py:106 | the avatar is the first two characters of the name, or the whole name if shorter, each upper-cased |
| UserRoutes.Register | backend/app.py:86-174 | a missing or falsy name, email or password gives 400; a taken email gives 409; a non-string name or password gives 500; these leave the store unchanged; a 201 inserts exactly the user with hashed password, role and avatar, one cash account and the default settings |
| UserRoutes.RegisterTwiceConflicts | backend/app.py:94-96 | once a registration succeeds, repeating it under another id is refused with 409 |
| UserRoutes.RegisterExample | backend/app.py:99-123 | registering "ada lovelace" stores avatar "AD", role "Standard User" and one 1000 USD cash account |
| UserRoutes.UpdateProfile | backend/app.py:571-612 | no body or a missing or falsy name gives 400 and a non-string name 500, both with no write; otherwise the name and derived avatar are stored, answered with 200 when something changed and 304 otherwise |
| UserRoutes.ProfileAvatarMatchesRegistration | backend/app.py:583-612 | updating the profile with the registration data changes nothing (304), since both derive the same avatar |
| UserRoutes.PyLen | backend/app.py:628 | Python `len` exists for strings, lists and objects only |
| UserRoutes.UpdatePassword | backend/app.py:614-642 | the checks run in order: a missing or falsy field is 400, a wrong current password 401, a new password under 8 characters 400, a value of the wrong type 500; only a 200 writes, and it writes exactly the new hash |
| UserRoutes.WrongPasswordBeforeLength | backend/app.py:620-629 | a wrong current password is reported (401) even when the new one is also too short |
| UserRoutes.SevenCharactersRefused | backend/app.py:627-629 | with the right current password, a 7-character new password is refused with 400 and nothing is written |
| SettingsRoutes.Rename | backend/app.py:412-423 | each accepted key, snake_case or camelCase, maps to a stored section field |
| SettingsRoutes.CollectUpdates | backend/app.py:420-424 | the built update holds exactly the targets of the accepted keys, each with the truthiness of the last accepted entry that writes it |
| SettingsRoutes.WritesSnoc | backend/app.py:421-424 | a key is written by a body exactly when it is written by its prefix or by its last entry |
| SettingsRoutes.LastWriterSnoc | backend/app.py:421-424 | adding an entry at the end keeps earlier last writers unless the new entry writes the same key |
| SettingsRoutes.SectionUpdates | backend/app.py:419-424 | a section update writes only stored fields, and writes a field exactly when some recognised key of the body renames to it |
| SettingsRoutes.ApplyUpdates | backend/app.py:431-434 | `$set` stores every updated key as a boolean and keeps every other key as it was |
| SettingsRoutes.UpdateSection | backend/app.py:381-514 | no body, or no recognised key, gives 400; a missing settings document gives 404; neither writes; a 200 changes only this user's section by the updates, keeps its other fields, and sets the timestamp |
| SettingsRoutes.RecognisedKeyWrites | backend/app.py:399-424 | a body with a recognised key always produces at least one section write |
| SettingsRoutes.LaterSpellingWins | backend/app.py:421-424 | both spellings of a key target the same field, and the entry sent later decides the value |
| SettingsRoutes.LaterSpellingWinsReversed | backend/app.py:421-424 | sending the two spellings in the other order gives the other value |
| SettingsRoutes.DashboardUpdates | backend/app.py:536-546 | the dashboard update holds exactly the five known keys present in the body, with their values copied uncoerced |
| SettingsRoutes.UpdateDashboard | backend/app.py:516-569 | no body gives 400 and a missing settings document 404, neither writing; a 200 changes only the dashboard section by the update, keeps its other keys, and sets the timestamp |
| SettingsRoutes.UnknownDashboardKeysOnlyTouchTimestamp | backend/app.py:523-549 | a body with only unknown keys still succeeds and changes nothing but the timestamp |
| SettingsRoutes.UpdateTheme | backend/app.py:299-325 | a missing theme or one other than "light", "dark" or "system" gives 400 with no write; otherwise the theme and timestamp are upserted for this user only |
| DashboardRoutes.MockTotalsMatchMockLists | backend/app.py:705-799 | the hard-coded mock totals 6500, 1000, 650, 13000 and 3700 are the sums of the mock lists they come with |
| DashboardRoutes.FloorDiv | backend/app.py:933-934 | Python `//` rounds toward negative infinity |
| DashboardRoutes.Page | backend/app.py:881 | `.skip(s).limit(l)` returns the elements from s on, at most abs(l) of them when l is nonzero, in order |
| DashboardRoutes.PageListing | backend/app.py:921-935 | a non-empty page lists the formatted page entries, reports the full matching count, and for a positive limit the page holding skip and the ceiling of count / limit |
| DashboardRoutes.GetTransactions | backend/app.py:862-935 | a negative skip, or a zero limit with a non-empty page, fails with 500; an empty page returns the three mock transactions, count 3 and one page, whatever skip was; otherwise the page listing |
| DashboardRoutes.PageArithmetic | backend/app.py:933-934 | for a positive limit, `skip // limit + 1` is the 1-based page holding skip and `(total + limit - 1) // limit` is the least page count covering total |
| DashboardRoutes.ListedTransactionsMatch | backend/app.py:874-881 | whenever a non-empty page is listed, every listed transaction is a stored one of this user with the requested category and type |
| DashboardRoutes.NegativeLimitExample | backend/app.py:881-934 | a limit of −5 over 12 transactions returns 5 of them but a non-positive page count |
| DashboardRoutes.FilterAll | backend/app.py:651 | filtering a list whose every element passes returns it unchanged |
| DashboardRoutes.GoalProgress | backend/app.py:819 | for a positive total the progress times the total is current · 100, so progress is within [0, 100] when current is; otherwise it is 0 |
| DashboardRoutes.AccountFigures | backend/app.py:651-722 | for a user with accounts, the list is each of them formatted in order, with the defaults for absent fields, and the balance is their sum with a missing balance as 0; otherwise the two mock accounts and 6500 |
| DashboardRoutes.RecentTxns | backend/app.py:655-750 | the first five of the user's transactions, formatted, or the three mock ones |
| DashboardRoutes.BudgetFigures | backend/app.py:660-777 | for a user with budgets, the list is each of them formatted in order, with the amount and spent sums; otherwise the mock budgets with 1000 and 650 |
| DashboardRoutes.GoalFigures | backend/app.py:665-799 | for a user with goals, the list is each of them formatted in order, with the target and saved sums; otherwise the mock goals with 13000 and 3700 |
| DashboardRoutes.DashboardSummary | backend/app.py:645-827 | net worth equals the balance; remaining is total − spent; progress is guarded by a positive total; the savings rate is 25; monthly income and expenses are sums over the recent list by type |
| DashboardRoutes.IncomeAndExpensesCoverRecent | backend/app.py:823-824 | when every recent transaction is typed income or expense, the two monthly figures add up to the recent total |
| DashboardRoutes.EmptyUserSeesMockSummary | backend/app.py:704-826 | a user with no data sees mock figures only: 6500 net worth, 350 remaining, 3000 income, 195.70 expenses and goal progress 3700 / 13000 · 100 |
| DashboardRoutes.MockMonthlyFigures | backend/app.py:724-824 | the mock transactions hold 3000 of income and 195.70 of expenses |
| DashboardRoutes.UntypedTransactionIsAnExpense | backend/app.py:678-685 | a stored transaction without a type is counted as an expense of the month |
| DashboardRoutes.SingleKindSum | backend/app.py:823-824 | one transaction contributes its amount to its own type's sum and nothing to another's |
| DashboardRoutes.GetBudgets | backend/app.py:937-992 | remaining is total − spent; no budgets give the mock list with 1000 / 650 / 350; otherwise the user's budgets and their sums |
| DashboardRoutes.SumOfMapped | backend/app.py:976-985 | summing a field of the formatted budgets equals summing the stored field with its default |
| DashboardRoutes.BudgetsAgreeWithSummary | backend/app.py:976-992 | the budgets route and the summary report the same budgets, total and spent |
| DashboardRoutes.GetGoals | backend/app.py:994-1049 | progress is current · 100 / total for a positive total and 0 otherwise; no goals give the mock list with 13000 and 3700 |
| DashboardRoutes.GoalsAgreeWithSummary | backend/app.py:1032-1048 | the goals route and the summary report the same goals, totals and progress |
| DashboardClient.HandleResponse | frontend/src/lib/dashboard-api.ts:93-101 | an ok response yields its body unchanged; otherwise it rejects with the body's `message` if truthy, else "An error occurred", and a null body makes reading `message` fail |
| DashboardClient.RejectionMessageIsTruthy | frontend/src/lib/dashboard-api.ts:97 | a rejection always carries a truthy message, the server's own when it is a non-empty string, and the default for an empty one |
| DashboardClient.Lookup | frontend/src/lib/dashboard-api.ts:139-146 | a key is found exactly when some entry carries it |
| DashboardClient.QueryPairs | frontend/src/lib/dashboard-api.ts:139-144 | at most four entries, each a truthy parameter with its value, in the order limit, skip, category, type |
| DashboardClient.AppendParam | frontend/src/lib/dashboard-api.ts:141-144 | appending a parameter ranked after every entry so far keeps the order |
| DashboardClient.QueryPairsComplete | frontend/src/lib/dashboard-api.ts:141-144 | each of the four parameters is in the query, with its value, exactly when it is truthy |
| DashboardClient.ParamPosition | frontend/src/lib/dashboard-api.ts:141-144 | every truthy parameter occurs in the list with its value |
| DashboardClient.QueryString | frontend/src/lib/dashboard-api.ts:146 | the query string is empty exactly when no parameter was appended |
| DashboardClient.TransactionsPath | frontend/src/lib/dashboard-api.ts:146 | the URL is the bare path when nothing was appended, and otherwise the path, "?" and the query |
| DashboardClient.FalsyParametersAreOmitted | frontend/src/lib/dashboard-api.ts:141-146 | limit 0, skip 0, an empty category and no type give the bare path |
| DashboardClient.QueryOrderExample | frontend/src/lib/dashboard-api.ts:141-144 | all four parameters set come out in the fixed order, the numbers in decimal |
| DashboardClient.QueryRoundTrip | frontend/src/lib/dashboard-api.ts:139-146 | splitting the rendered query on '&' and '=' recovers the appended parameters, when category and type hold no separator |
| DashboardClient.RenderedPartsParse | frontend/src/lib/dashboard-api.ts:139-146 | each rendered `key=value` piece is free of '&' and parses back to its entry |
| DashboardClient.ParsePieces | frontend/src/lib/dashboard-api.ts:146 | parsing the pieces one by one recovers the entry list |
| DashboardClient.ParamValuePlain | frontend/src/lib/dashboard-api.ts:141-142 | rendered numbers never contain a separator |
| DashboardClient.RenderedPairParses | frontend/src/lib/dashboard-api.ts:146 | a rendered pair without separators splits back into its key and value |
| DashboardClient.UniqueKeyValue | frontend/src/lib/dashboard-api.ts:141-144 | in a list whose keys strictly follow the append order, looking up an entry's key gives that entry's value |
| DashboardClient.BuildRequest | frontend/src/lib/dashboard-api.ts:104-182 | every API call is a GET under the dashboard path, carrying `Bearer <token>` as Authorization and a JSON content type |
| DashboardClient.BearerTokenRoundTrip | frontend/src/lib/dashboard-api.ts:148-154 | the backend's header split reads back exactly the token the client sent, for any token without spaces |
| Session.Initial | frontend/src/lib/auth.tsx:18-21 | the provider first renders with no user, unauthenticated, loading, without an error and with no check pending, over the storage it finds |
| Session.Mount | frontend/src/lib/auth.tsx:25-31 | the mount effect reads the token once: without one only loading ends; with one the check is pending and nothing else changes |
| Session.CheckAuth | frontend/src/lib/auth.tsx:31-42 | with no check pending nothing changes; otherwise loading ends and the error is kept; a success authenticates the returned user whatever storage now holds; a failure removes both keys, and only them, and unauthenticates |
| Session.Begin | frontend/src/lib/auth.tsx:48-49 | calling login or register clears the error and changes nothing else |
| Session.Authenticate | frontend/src/lib/auth.tsx:50-67 | once the call settles, login and register return true exactly on success, and then store the token and the serialised user, set the user and authenticate, leaving the error as it is; a failure keeps user, flag and storage and records the thrown message or "An unknown error occurred" |
| Session.Logout | frontend/src/lib/auth.tsx:92-98 | logout removes the two keys and nothing else, drops the user, unauthenticates and navigates to "/login" |
| Session.Start | frontend/src/lib/auth.tsx:17-46 | after mounting, loading and a pending check both hold exactly when storage has a token; the user, flag and error are still unset |
| Session.LogoutUndoesLogin | frontend/src/lib/auth.tsx:48-98 | logging out after a login leaves storage as before minus the two keys |
| Session.StepKeepsConsistent | frontend/src/lib/auth.tsx:31-97 | from a state that is "authenticated exactly when a user is set, and then a token is stored", a transition keeps it exactly unless it is a successful startup answer arriving after the token was removed |
| Session.StepKeepsUserFlag | frontend/src/lib/auth.tsx:31-97 | every transition keeps "authenticated exactly when a user is set" |
| Session.RunKeepsConsistent | frontend/src/lib/auth.tsx:17-98 | from storage without a token every sequence of answers and clicks keeps the invariant; with a token it does as long as no logout comes before the startup answer |
| Session.RunFromConsistent | frontend/src/lib/auth.tsx:31-97 | the invariant survives any sequence of transitions from a state whose pending check still has its token, when no logout precedes that check's answer |
| Session.RunKeepsUserFlag | frontend/src/lib/auth.tsx:31-97 | after any sequence of transitions, authenticated still means a user is set, and conversely |
| Session.LogoutBeforeAnswerAuthenticates | frontend/src/lib/auth.tsx:25-97 | with a token stored at mount, a logout followed by a successful startup answer ends authenticated as the returned user with no token stored |
| Session.LatestErrorWins | frontend/src/lib/auth.tsx:48-67 | a second failed login replaces the earlier message, and storage stays untouched |
| Session.CallClearsEarlierError | frontend/src/lib/auth.tsx:48-90 | a login or register that succeeds with nothing in between shows no error |
| Session.OverlappingCallsKeepEarlierError | frontend/src/lib/auth.tsx:48-90 | register called, login called, register failing with m, login succeeding: the user is authenticated and m is still the error |
| Routes.Guard | frontend/src/App.tsx:23-35 | loading shows the loading screen whatever the session; otherwise unauthenticated redirects to "/login" with replace and authenticated shows the page |
| Routes.Lookup | frontend/src/App.tsx:39-86 | a path resolves to a declared route with that path, or to the catch-all NotFound when none is declared |
| Routes.LookupFirst | frontend/src/App.tsx:39-86 | a path resolves to the first declared route carrying it |
| Routes.ResolveDeclared | frontend/src/App.tsx:40-83 | each declared path resolves to its own route |
| Routes.GuardedPathsExactly | frontend/src/App.tsx:40-86 | a path is guarded exactly when it is one of the eight app pages, and is NotFound exactly when it is none of the ten declared paths |
| Routes.DeclaredRoute | frontend/src/App.tsx:40-83 | every declared route has a page, and is guarded exactly when it is an app page |
| Routes.Listed | frontend/src/App.tsx:40-83 | each of the ten listed paths is declared |
| Routes.Show | frontend/src/App.tsx:23-86 | a page is shown only as its path resolves; a redirect goes to "/login" with replace, and only when loading is over and the user is unauthenticated |
| Routes.GuardedPageNeedsAuthentication | frontend/src/App.tsx:23-83 | a guarded page is shown exactly when the user is authenticated and loading is over |
| Routes.OpenPageAlwaysShown | frontend/src/App.tsx:37-86 | login, registration and NotFound are shown whatever the session |
| Routes.RedirectTargetIsOpen | frontend/src/App.tsx:26-49 | an unauthenticated visit to a guarded page, once loading is over, redirects to "/login" with replace, and "/login" shows the login page, so the redirect cannot loop |
| Routes.UnknownPathIsNotFound | frontend/src/App.tsx:86 | any undeclared path shows NotFound without a guard |
| Routes.UnlistedNamesAreNotFound | frontend/src/App.tsx:49-86 | "/budgets" and "/dashboard" are not declared pages and show NotFound |
| DashboardView.Select | frontend/src/components/Dashboard.tsx:73-76 | undefined goals stay undefined; otherwise a goal is kept exactly when it passes the name test, and the kept goals keep their original order |
| DashboardView.Render | frontend/src/components/Dashboard.tsx:18-83 | loading wins; then a non-empty error shows the error view, whose retry is `refreshData`; otherwise the content gets the child goals and the marriage goals |
| DashboardView.EmptyErrorShowsContent | frontend/src/components/Dashboard.tsx:29 | an empty error string is falsy and renders the content, as if there were no error |
| DashboardView.GoalNameExamples | frontend/src/components/Dashboard.tsx:73-76 | the name test ignores case, and a name mentioning both a wedding and education feeds both panels |
| Assistant.Initial | src/components/AiAssistant.tsx:17-25 | the panel starts closed with an empty input, no reply pending and exactly one non-empty greeting from the assistant |
| Assistant.Toggle | src/components/AiAssistant.tsx:28-30 | toggling flips only whether the panel is open |
| Assistant.Type | src/components/AiAssistant.tsx:25 | typing replaces only the input |
| Assistant.Send | src/components/AiAssistant.tsx:32-46 | blank input changes nothing; otherwise exactly one user message with the untrimmed input is appended, the input is cleared, the panel stays as it was and one more reply is scheduled |
| Assistant.KeyPress | src/components/AiAssistant.tsx:67-71 | Enter sends, and any other key changes nothing |
| Assistant.Reply | src/components/AiAssistant.tsx:46-64 | with no reply scheduled nothing changes; otherwise the drawn suggestion is appended as an assistant message and one fewer reply is pending, the rest unchanged |
| Assistant.SendExtends | src/components/AiAssistant.tsx:42 | a send keeps every earlier message and adds at most one |
| Assistant.SendTwiceIsSendOnce | src/components/AiAssistant.tsx:33-43 | a second send right after the first does nothing, because the input is now empty |
| Assistant.ToggleTwice | src/components/AiAssistant.tsx:28-30 | toggling twice restores the panel |
| Assistant.SendExamples | src/components/AiAssistant.tsx:33-42 | "  hi " is sent with its spaces, and " \t " is not sent |
| Assistant.CountSnoc | src/components/AiAssistant.tsx:42-63 | appending a message raises the count of its role by one and leaves the other count |
| Assistant.StepKeepsHistory | src/components/AiAssistant.tsx:28-71 | every event, a timer firing included, keeps the history and only appends to the list |
| Assistant.RunKeepsHistory | src/components/AiAssistant.tsx:28-71 | whatever the user does and whenever the timers fire, earlier messages are kept; after the greeting every user message is non-blank and every assistant message is a suggestion; shown plus pending replies equal the user messages |
| Assistant.HistoryFromInitial | src/components/AiAssistant.tsx:18-71 | from the mounted panel, the greeting stays first, user messages are non-blank, the other messages are suggestions, and replies never outnumber user messages |

## Left out

- **Network I/O.** `fetch`, `response.json()` and the Flask/pymongo calls are left out. Each API call's outcome is a parameter of the transition that consumes it, and MongoDB collections are maps and sequences in memory.
- **Hashing and tokens.** Werkzeug password hashing, JWT encoding and decoding, token expiry and the `User not found` lookup inside the token decorator are left out. Hash checks and fresh hashes are parameters, and only the header split is modelled (`BackendStore.TokenFromHeader`).
- **Clocks and ids.** `utcnow`, `isoformat` dates, goal deadlines, document and ObjectId string ids, and the message timestamps of the assistant are not modelled. A clock value `now` is a plain integer parameter.
- **Sort order.** Transactions are assumed to be stored newest first, which stands in for `.sort('date', -1)`.
- **Python `round(..., 2)`.** Goal progress is stated before that final rounding.
- **Floating point.** Amounts are exact reals, so float rounding error and signed zero are not modelled.
- **Duplicate keys.** A request body is a JSON object with distinct keys, in insertion order. A body that is valid JSON but not an object, and duplicate keys, are not modelled.
- **The login, currency, language, settings-read, user and accounts routes** (`backend/app.py` lines 177-298, 327-380 and 829-861). They hold no logic beyond what the modelled routes already show.
- **frontend/src/hooks/use-dashboard.ts.** Its effect orchestration, and the stale-response race it allows, are concurrency. `DashboardView.Render` takes the hook's loading, error and data as inputs.
- **frontend/src/lib/api.ts.** Its `handleResponse` is the same code as the one in dashboard-api.ts, which is modelled once (`DashboardClient.HandleResponse`).
- **The assistant's reply timing.** The one-second delay itself is not modelled: a timer firing is an event that may come at any point after its send, and `Math.random` is the event's draw.
- **Router matching.** React Router also matches case-insensitively and tolerates a trailing slash, so it renders the budget page at "/budget/". `Routes.Show` compares paths exactly, and no lemma depends on the difference.
- **Navigation.** Navigation is recorded as a target path. The redirect back after login lives in the login page, which is not part of this model.
- **Encoding and case mapping.** URLSearchParams percent-encoding and Unicode case mapping are not modelled. `toLowerCase` and `upper()` are ASCII-only, and `DashboardClient.QueryRoundTrip` assumes category and type hold no '&' or '='.
- UserRoutes.EmailTaken: compares the request's email with stored emails for equality. `find_one({'email': ...})` also matches inside an array field, and an object email such as `{"$ne": null}` is a query operator that can match any stored user; neither is modelled.
- UserRoutes.Register: its 409 case rests on `UserRoutes.EmailTaken`, so an array or object email that the database would match is not reported as 409 here.
- **Unmodelled views.** Presentation with no logic (help, settings page, headers, sidebar, dialogs, charts, `toLocaleString` formatting) is not modelled.
- **Error stringification.** The string an uncaught backend exception produces, and the `Error` wrapping of a non-string `message`, are not modelled. `DashboardClient.HandleResponse` records the thrown value itself.
- Routes.Show: does not state which page an authenticated user sees beyond "the resolved one". Its partners `Routes.GuardedPageNeedsAuthentication`, `Routes.OpenPageAlwaysShown` and `Routes.UnknownPathIsNotFound` state the full case split.
- BudgetSplitter.Step: an event outside a slider's range cannot be emitted, so `Run` drops it rather than modelling what the handler would compute.
