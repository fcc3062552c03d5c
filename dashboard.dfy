/**
 * The dashboard: the transactions of the current month, their income and
 * expense totals, the expenses grouped by category name, the income and
 * expenses of the last six months, the balance and savings rate, and the
 * five most recent transactions.  The calendar (today's month and the six
 * months before) is a parameter.
 */
module Dashboard {
  import opened Wrappers
  import opened TransactionType
  import opened Collections
  import opened Ordering
  import opened TransactionService
  import opened CategoryTotals

  /** A calendar month: its title and its first and last day as `YYYY-MM-DD`. */
  datatype MonthRange = MonthRange(title: string, start: string, end: string)

  /** `t.date >= start && t.date <= end`, on strings. */
  function InRange(start: string, end: string): ListedTransaction -> bool
  {
    (t: ListedTransaction) => !LexLess(t.date, start) && !LexLess(end, t.date)
  }

  /** `thisMonthTx`. */
  function InMonth(txs: seq<ListedTransaction>, start: string, end: string): seq<ListedTransaction>
  {
    Filter(txs, InRange(start, end))
  }

  /**
   * The month's transactions are exactly those of the list dated from
   * `start` to `end`, both included, compared as strings.
   */
  lemma InMonthExactly(txs: seq<ListedTransaction>, start: string, end: string, t: ListedTransaction)
    ensures t in InMonth(txs, start, end) <==> t in txs && !LexLess(t.date, start) && !LexLess(end, t.date)
  {
    if t in InMonth(txs, start, end) {
      FilterMember(txs, InRange(start, end), t);
    }
    if t in txs && InRange(start, end)(t) {
      FilterKeeps(txs, InRange(start, end), t);
    }
  }

  /** A transaction dated on the first or the last day of the month is in it. */
  lemma InMonthInclusive(txs: seq<ListedTransaction>, start: string, end: string, t: ListedTransaction)
    requires t in txs && (t.date == start || t.date == end) && !LexLess(end, start)
    ensures t in InMonth(txs, start, end)
  {
    LexLessIrreflexive(t.date);
    InMonthExactly(txs, start, end, t);
  }

  /**
   * `spendingByCategory`: the month's expenses summed per category name in
   * a record, then its entries sorted by value, largest first.
   */
  method SpendingByCategory(monthTx: seq<ListedTransaction>) returns (entries: seq<Slice>)
    ensures entries == Ranked(Filter(monthTx, OfKind(Expense)))
  {
    var byName := GroupByName(Filter(monthTx, OfKind(Expense)));
    entries := SortBy(byName, LargerFirst());
  }

  /**
   * The spending chart has one entry per category name that some expense
   * of the month carries, each the sum of that name's expenses; its values
   * never increase and they add up to the month's total expenses.
   */
  lemma SpendingByCategoryFacts(monthTx: seq<ListedTransaction>, name: string)
    ensures var chart := Ranked(Filter(monthTx, OfKind(Expense)));
            && Sum(chart, SliceValue) == Total(monthTx, Expense)
            && KeysDistinct(chart, SliceName)
            && (forall i, j :: 0 <= i < j < |chart| ==> chart[i].value >= chart[j].value)
            && (Named(chart, name) <==> Occurs(Filter(monthTx, OfKind(Expense)), name))
            && (forall i :: 0 <= i < |chart| ==>
                  chart[i].value == ValueFor(Filter(monthTx, OfKind(Expense)), chart[i].name))
  {
    RankedFacts(Filter(monthTx, OfKind(Expense)));
    RankedNames(Filter(monthTx, OfKind(Expense)), name);
  }

  /** One bar of the six-month chart. */
  datatype MonthTotals = MonthTotals(month: string, income: real, expenses: real)

  /** The income and the expenses dated within month `m`. */
  function MonthRow(txs: seq<ListedTransaction>, m: MonthRange): (row: MonthTotals)
    ensures row.month == m.title
    ensures row.income == Total(InMonth(txs, m.start, m.end), Income)
    ensures row.expenses == Total(InMonth(txs, m.start, m.end), Expense)
  {
    var inMonth := InMonth(txs, m.start, m.end);
    MonthTotals(m.title, Total(inMonth, Income), Total(inMonth, Expense))
  }

  /** A month's income and expenses together make up the sum of all its amounts. */
  lemma MonthRowCovers(txs: seq<ListedTransaction>, m: MonthRange)
    ensures MonthRow(txs, m).income + MonthRow(txs, m).expenses == Sum(InMonth(txs, m.start, m.end), AmountOf)
  {
    TotalsPartition(InMonth(txs, m.start, m.end));
  }

  /**
   * `monthlyOverview`: for `i` from 5 down to 0, the row of the month `i`
   * months back (`monthsBack(i)`), so six rows, the oldest month first.
   */
  method MonthlyOverview(txs: seq<ListedTransaction>, monthsBack: nat -> MonthRange) returns (months: seq<MonthTotals>)
    ensures |months| == 6
    ensures forall k :: 0 <= k < 6 ==> months[k] == MonthRow(txs, monthsBack(5 - k))
  {
    months := [];
    var i := 5;
    while i >= 0
      invariant -1 <= i <= 5 && |months| == 5 - i
      invariant forall k :: 0 <= k < |months| ==> months[k] == MonthRow(txs, monthsBack(5 - k))
    {
      var m := monthsBack(i);
      var inMonth := InMonth(txs, m.start, m.end);
      var income := Sum(Filter(inMonth, OfKind(Income)), AmountOf);
      var expenses := Sum(Filter(inMonth, OfKind(Expense)), AmountOf);
      months := months + [MonthTotals(m.title, income, expenses)];
      i := i - 1;
    }
  }

  /** `grossIncome ?? 0`. */
  function Gross(grossIncome: Option<real>): real
  {
    if grossIncome.Some? then grossIncome.value else 0.0
  }

  /** `Math.round(x)`: the nearest integer, halves rounded up. */
  function Round(x: real): (n: int)
    ensures x - 0.5 < n as real <= x + 0.5
  {
    (x + 0.5).Floor
  }

  /**
   * `savingsRate`: the share of the gross income not spent this month, as a
   * rounded percentage; 0 when there is no positive gross income.
   */
  function SavingsRate(gross: real, totalExpenses: real): (rate: int)
    ensures gross <= 0.0 ==> rate == 0
    ensures gross > 0.0 ==> rate == Round((gross - totalExpenses) / gross * 100.0)
  {
    if gross > 0.0 then Round((gross - totalExpenses) / gross * 100.0) else 0
  }

  /**
   * With a positive gross income, the rate is 100 with no expenses, between
   * 0 and 100 while the expenses stay within the income, and negative once
   * they exceed it by more than half a percent.
   */
  lemma SavingsRateRange(gross: real, totalExpenses: real)
    requires gross > 0.0 && totalExpenses >= 0.0
    ensures totalExpenses == 0.0 ==> SavingsRate(gross, totalExpenses) == 100
    ensures totalExpenses <= gross ==> 0 <= SavingsRate(gross, totalExpenses) <= 100
    ensures totalExpenses > gross * 1.005 ==> SavingsRate(gross, totalExpenses) < 0
  {
    var q := (gross - totalExpenses) / gross;
    assert q * gross == gross - totalExpenses;
    if totalExpenses <= gross {
      if q < 0.0 {
        assert q * gross < 0.0;
      }
      if q > 1.0 {
        assert q * gross > gross;
      }
    }
    if totalExpenses > gross * 1.005 {
      if q >= -0.005 {
        assert q * gross >= -0.005 * gross;
      }
    }
  }

  /** What the dashboard shows for the month. */
  datatype Summary = Summary(
    totalExpenses: real, totalIncomeTx: real, totalBalance: real, savingsRate: int)

  /** The month's totals, the balance `gross + income - expenses` and the savings rate. */
  function Summarize(txs: seq<ListedTransaction>, grossIncome: Option<real>, month: MonthRange): (s: Summary)
    ensures s.totalExpenses == Total(InMonth(txs, month.start, month.end), Expense)
    ensures s.totalIncomeTx == Total(InMonth(txs, month.start, month.end), Income)
    ensures s.totalBalance == Gross(grossIncome) + s.totalIncomeTx - s.totalExpenses
    ensures s.savingsRate == SavingsRate(Gross(grossIncome), s.totalExpenses)
  {
    var monthTx := InMonth(txs, month.start, month.end);
    var expenses := Total(monthTx, Expense);
    var incomeTx := Total(monthTx, Income);
    var gross := Gross(grossIncome);
    Summary(expenses, incomeTx, gross + incomeTx - expenses, SavingsRate(gross, expenses))
  }

  /** The balance is the gross income plus the signed sum of the month's amounts. */
  lemma BalanceIsSignedSum(txs: seq<ListedTransaction>, grossIncome: Option<real>, month: MonthRange)
    ensures Summarize(txs, grossIncome, month).totalBalance
         == Gross(grossIncome) + Sum(InMonth(txs, month.start, month.end), AmountOf)
            - 2.0 * Summarize(txs, grossIncome, month).totalExpenses
  {
    TotalsPartition(InMonth(txs, month.start, month.end));
  }

  /** `txList.slice(0, 5)`: the first five transactions of the list, or all of them when there are fewer. */
  function RecentTx(txs: seq<ListedTransaction>): (r: seq<ListedTransaction>)
    ensures |r| == if |txs| < 5 then |txs| else 5
    ensures r == txs[..|r|]
  {
    Prefix(txs, 5)
  }

  /** The dashboard's loaded state. */
  class DashboardPage {
    var currency: string
    var grossIncome: Option<real>
    var txList: seq<ListedTransaction>

    constructor()
      ensures currency == "USD" && grossIncome.None? && txList == []
    {
      currency, grossIncome, txList := "USD", None, [];
    }

    /**
     * The load effect.  `fetched` is the outcome of fetching the settings
     * (currency, possibly empty, and gross income, possibly null) and the
     * transactions; a failure is swallowed and changes nothing.
     */
    method Load(fetched: Result<(string, Option<real>, seq<ListedTransaction>)>)
      modifies this
      ensures fetched.Err? ==> currency == old(currency) && grossIncome == old(grossIncome) && txList == old(txList)
      ensures fetched.Ok? ==> txList == fetched.value.2
      ensures fetched.Ok? && fetched.value.0 != "" ==> currency == fetched.value.0
      ensures fetched.Ok? && fetched.value.0 == "" ==> currency == old(currency)
      ensures fetched.Ok? && fetched.value.1.Some? ==> grossIncome == fetched.value.1
      ensures fetched.Ok? && fetched.value.1.None? ==> grossIncome == old(grossIncome)
    {
      if fetched.Err? {
        return;
      }
      var (cur, gross, list) := fetched.value;
      if cur != "" {
        currency := cur;
      }
      if gross.Some? {
        grossIncome := gross;
      }
      txList := list;
    }
  }
}
