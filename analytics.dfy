/**
 * The analytics page: the largest expense and income categories, the
 * income, expenses and balance of the last twelve months, the progress of
 * each savings goal, and the overall totals.  The calendar (which month is
 * `i` months back) is a parameter.
 */
module Analytics {
  import opened Wrappers
  import opened TransactionType
  import opened Collections
  import opened TransactionService
  import opened CategoryTotals
  import Dashboard
  import SavingsGoals
  import BudgetService
  import Budgets

  /** How many expense and income categories the charts show. */
  const ExpenseSlices := 10
  const IncomeSlices := 8

  // ---------------------------------------------------------------- categories

  /** The `n` largest categories of kind `kind`, each with the sum of its amounts. */
  function Top(txs: seq<ListedTransaction>, kind: TxType, n: nat): seq<Slice>
  {
    Prefix(Ranked(Filter(txs, OfKind(kind))), n)
  }

  /**
   * The `byCat` record filled by `forEach`, its entries sorted by value,
   * largest first, and cut to the first `n`.
   */
  method TopCategories(txs: seq<ListedTransaction>, kind: TxType, n: nat) returns (entries: seq<Slice>)
    ensures entries == Top(txs, kind, n)
  {
    var byName := GroupByName(Filter(txs, OfKind(kind)));
    var sorted := Ordering.SortBy(byName, LargerFirst());
    entries := Prefix(sorted, n);
  }

  /** `spendingByCategory`: the ten largest expense categories. */
  method SpendingByCategory(txs: seq<ListedTransaction>) returns (entries: seq<Slice>)
    ensures entries == Top(txs, Expense, ExpenseSlices)
  {
    entries := TopCategories(txs, Expense, ExpenseSlices);
  }

  /** `incomeByCategory`: the eight largest income categories. */
  method IncomeByCategory(txs: seq<ListedTransaction>) returns (entries: seq<Slice>)
    ensures entries == Top(txs, Income, IncomeSlices)
  {
    entries := TopCategories(txs, Income, IncomeSlices);
  }

  /**
   * The chart has at most `n` entries, values never increasing, one per
   * name, each the sum of that name's amounts and every one a name that
   * occurs; with at most `n` names, all of them are shown.
   */
  lemma TopFacts(txs: seq<ListedTransaction>, kind: TxType, n: nat)
    ensures var f := Filter(txs, OfKind(kind));
            var top := Top(txs, kind, n);
            && |top| <= n
            && (forall i, j :: 0 <= i < j < |top| ==> top[i].value >= top[j].value)
            && KeysDistinct(top, SliceName)
            && (forall i :: 0 <= i < |top| ==> top[i].value == ValueFor(f, top[i].name))
            && (|Ranked(f)| <= n ==> top == Ranked(f))
  {
    var f := Filter(txs, OfKind(kind));
    var r := Ranked(f);
    var top := Prefix(r, n);
    RankedFacts(f);
    assert forall i :: 0 <= i < |top| ==> top[i] == r[i];
  }

  /** Every name on the chart is carried by some transaction of the kind. */
  lemma TopNamesOccur(txs: seq<ListedTransaction>, kind: TxType, n: nat, name: string)
    requires Named(Top(txs, kind, n), name)
    ensures Occurs(Filter(txs, OfKind(kind)), name)
  {
    var f := Filter(txs, OfKind(kind));
    var r := Ranked(f);
    var top := Prefix(r, n);
    RankedNames(f, name);
    var i :| 0 <= i < |top| && top[i].name == name;
    assert r[i].name == name;
  }

  /**
   * A name that occurs but is not shown is left out only because the chart
   * is full of names whose sums are at least its own.
   */
  lemma TopLeavesOutSmaller(txs: seq<ListedTransaction>, kind: TxType, n: nat, name: string)
    requires Occurs(Filter(txs, OfKind(kind)), name) && !Named(Top(txs, kind, n), name)
    ensures |Top(txs, kind, n)| == n
    ensures forall i :: 0 <= i < n ==> Top(txs, kind, n)[i].value >= ValueFor(Filter(txs, OfKind(kind)), name)
  {
    var f := Filter(txs, OfKind(kind));
    var r := Ranked(f);
    var top := Prefix(r, n);
    RankedFacts(f);
    RankedNames(f, name);
    var j :| 0 <= j < |r| && r[j].name == name;
    assert r[j].value == ValueFor(f, name);
    forall i | 0 <= i < n ensures top[i].value >= ValueFor(f, name) {
      assert top[i] == r[i];
    }
  }

  // ---------------------------------------------------------------- months

  /** One point of the twelve-month charts. */
  datatype MonthBalance = MonthBalance(month: string, income: real, expenses: real, balance: real)

  /**
   * `monthlyData`: for `i` from 11 down to 0, the month `i` months back
   * (`monthsBack(i)`), so twelve points, the oldest month first, each with
   * the month's income and expenses and their difference.
   */
  method MonthlyData(txs: seq<ListedTransaction>, monthsBack: nat -> Dashboard.MonthRange)
    returns (months: seq<MonthBalance>)
    ensures |months| == 12
    ensures forall k :: 0 <= k < 12 ==>
              var m := monthsBack(11 - k);
              var inMonth := Dashboard.InMonth(txs, m.start, m.end);
              && months[k].month == m.title
              && months[k].income == Total(inMonth, Income)
              && months[k].expenses == Total(inMonth, Expense)
              && months[k].balance == months[k].income - months[k].expenses
  {
    months := [];
    var i := 11;
    while i >= 0
      invariant -1 <= i <= 11 && |months| == 11 - i
      invariant forall k :: 0 <= k < |months| ==>
                  var m := monthsBack(11 - k);
                  var inMonth := Dashboard.InMonth(txs, m.start, m.end);
                  && months[k].month == m.title
                  && months[k].income == Total(inMonth, Income)
                  && months[k].expenses == Total(inMonth, Expense)
                  && months[k].balance == months[k].income - months[k].expenses
    {
      var m := monthsBack(i);
      var inMonth := Dashboard.InMonth(txs, m.start, m.end);
      var income := Sum(Filter(inMonth, OfKind(Income)), AmountOf);
      var expenses := Sum(Filter(inMonth, OfKind(Expense)), AmountOf);
      months := months + [MonthBalance(m.title, income, expenses, income - expenses)];
      i := i - 1;
    }
  }

  /**
   * A month's point agrees with the dashboard's bar for the same month, and
   * its balance is the signed sum of the month's amounts.
   */
  lemma MonthPointAgreesWithDashboard(txs: seq<ListedTransaction>, m: Dashboard.MonthRange, point: MonthBalance)
    requires point.income == Total(Dashboard.InMonth(txs, m.start, m.end), Income)
    requires point.expenses == Total(Dashboard.InMonth(txs, m.start, m.end), Expense)
    requires point.balance == point.income - point.expenses
    ensures point.income == Dashboard.MonthRow(txs, m).income
    ensures point.expenses == Dashboard.MonthRow(txs, m).expenses
    ensures point.balance == Sum(Dashboard.InMonth(txs, m.start, m.end), AmountOf) - 2.0 * point.expenses
  {
    Dashboard.MonthRowCovers(txs, m);
  }

  // ---------------------------------------------------------------- goals

  /** A goal's name as the chart labels it: at most twelve characters, then an ellipsis. */
  function ShortName(name: string): (short: string)
    ensures |name| <= 12 ==> short == name
    ensures |name| > 12 ==> |short| == 13 && short[..12] == name[..12] && short[12] == '…'
  {
    if |name| > 12 then name[..12] + "…" else name
  }

  /** One bar of the savings chart. */
  datatype GoalBar = GoalBar(name: string, current: real, target: real, pct: int)

  /** The rounded progress percentage, or 0 without a positive target. */
  function GoalPct(g: SavingsGoals.Goal): (pct: int)
    ensures g.targetAmount <= 0.0 ==> pct == 0
    ensures g.targetAmount > 0.0 ==> pct == Dashboard.Round(g.currentAmount / g.targetAmount * 100.0)
  {
    if g.targetAmount > 0.0 then Dashboard.Round(g.currentAmount / g.targetAmount * 100.0) else 0
  }

  /**
   * The chart's percentage of a goal not yet overreached is the list's
   * percentage rounded, and lies between 0 and 100; a reached goal shows at
   * least 100, where the list caps it at 100.
   */
  lemma GoalPctAgreesWithList(g: SavingsGoals.Goal)
    requires g.targetAmount > 0.0 && g.currentAmount >= 0.0
    ensures g.currentAmount <= g.targetAmount ==>
              GoalPct(g) == Dashboard.Round(SavingsGoals.ListPct(g)) && 0 <= GoalPct(g) <= 100
    ensures g.currentAmount >= g.targetAmount ==> GoalPct(g) >= 100 && SavingsGoals.ListPct(g) == 100.0
  {
    var raw := g.currentAmount / g.targetAmount * 100.0;
    SavingsGoals.Ratio(g.currentAmount, g.targetAmount);
    var q := g.currentAmount / g.targetAmount;
    assert q * g.targetAmount == g.currentAmount;
    if g.currentAmount <= g.targetAmount {
      assert 0.0 <= raw <= 100.0;
    }
  }

  /** `savingsProgress`: one bar per goal, in the goals' order. */
  function SavingsProgress(goals: seq<SavingsGoals.Goal>): (bars: seq<GoalBar>)
    ensures |bars| == |goals|
    ensures forall i :: 0 <= i < |goals| ==>
              bars[i] == GoalBar(ShortName(goals[i].name), goals[i].currentAmount, goals[i].targetAmount,
                                 GoalPct(goals[i]))
  {
    seq(|goals|, i requires 0 <= i < |goals| =>
      GoalBar(ShortName(goals[i].name), goals[i].currentAmount, goals[i].targetAmount, GoalPct(goals[i])))
  }

  // ---------------------------------------------------------------- totals

  /** The overall figures: income, expenses and their difference, and the budgets' total. */
  datatype Overview = Overview(totalIncome: real, totalExpenses: real, net: real, totalBudget: real)

  function Summarize(txs: seq<ListedTransaction>, budgets: seq<BudgetService.ListedBudget>): (o: Overview)
    ensures o.totalIncome == Total(txs, Income) && o.totalExpenses == Total(txs, Expense)
    ensures o.net == o.totalIncome - o.totalExpenses
    ensures o.totalBudget == Budgets.TotalBudget(budgets)
  {
    var income := Total(txs, Income);
    var expenses := Total(txs, Expense);
    Overview(income, expenses, income - expenses, Budgets.TotalBudget(budgets))
  }

  /**
   * Income and expenses together are the sum of all amounts, and the
   * expense chart, when it shows every category, adds up to the total
   * expenses.
   */
  lemma SummaryCovers(txs: seq<ListedTransaction>, budgets: seq<BudgetService.ListedBudget>)
    ensures Summarize(txs, budgets).totalIncome + Summarize(txs, budgets).totalExpenses == Sum(txs, AmountOf)
    ensures |Ranked(Filter(txs, OfKind(Expense)))| <= ExpenseSlices ==>
              Sum(Top(txs, Expense, ExpenseSlices), SliceValue) == Summarize(txs, budgets).totalExpenses
  {
    TotalsPartition(txs);
    RankedFacts(Filter(txs, OfKind(Expense)));
    TopFacts(txs, Expense, ExpenseSlices);
  }

  // ---------------------------------------------------------------- the page

  /** What the load fetched: the currency setting (possibly empty), transactions, budgets and goals. */
  datatype Fetched = Fetched(
    currency: string, txs: seq<ListedTransaction>, budgets: seq<BudgetService.ListedBudget>,
    goals: seq<SavingsGoals.Goal>)

  class AnalyticsPage {
    var currency: string
    var txList: seq<ListedTransaction>
    var budgets: seq<BudgetService.ListedBudget>
    var goals: seq<SavingsGoals.Goal>

    constructor()
      ensures currency == "USD" && txList == [] && budgets == [] && goals == []
    {
      currency, txList, budgets, goals := "USD", [], [], [];
    }

    /** The load effect: a failure is swallowed; otherwise the lists are replaced and a non-empty currency taken. */
    method Load(fetched: Result<Fetched>)
      modifies this
      ensures fetched.Err? ==>
                currency == old(currency) && txList == old(txList) && budgets == old(budgets) && goals == old(goals)
      ensures fetched.Ok? ==>
                txList == fetched.value.txs && budgets == fetched.value.budgets && goals == fetched.value.goals
      ensures fetched.Ok? && fetched.value.currency != "" ==> currency == fetched.value.currency
      ensures fetched.Ok? && fetched.value.currency == "" ==> currency == old(currency)
    {
      if fetched.Err? {
        return;
      }
      if fetched.value.currency != "" {
        currency := fetched.value.currency;
      }
      txList, budgets, goals := fetched.value.txs, fetched.value.budgets, fetched.value.goals;
    }
  }
}
