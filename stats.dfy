/**
 * The dashboard figures of `updateStats`: the all-time balance, the income and
 * expense of the current (month, year), and the budget bar, whose width is the
 * expense as a rounded, clamped percentage of a fixed monthly limit and whose
 * colour turns to rose above 90 percent.
 */
module Stats {
  import opened Ledger

  /** The monthly budget, in whole dong. */
  const BudgetLimit: nat := 10_000_000
  /** Above this percentage the bar is drawn in the alert colour. */
  const AlertPercent: nat := 90

  /** The filter of `thisMonth`: same month AND same year as today. */
  function InMonthOf(today: Date): Transaction -> bool {
    (t: Transaction) => t.date.month == today.month && t.date.year == today.year
  }

  function ThisMonth(ts: seq<Transaction>, today: Date): seq<Transaction> {
    Filter(ts, InMonthOf(today))
  }

  /** What passes two filters in turn is part of what passes the second alone. */
  lemma SumFilterFilterAtMost(ts: seq<Transaction>, p: Transaction -> bool, q: Transaction -> bool)
    ensures Sum(Filter(Filter(ts, p), q)) <= Sum(Filter(ts, q))
  {
    var both := (t: Transaction) => p(t) && q(t);
    FilterFilter(ts, p, q, both);
    FilterFilter(ts, q, p, both);
    SumSplit(Filter(ts, q), p, (t: Transaction) => !p(t));
  }

  /** With no record of today's month and year, every month figure is 0. */
  lemma NothingThisMonth(ts: seq<Transaction>, today: Date, q: Transaction -> bool)
    ensures (forall t :: t in ts ==> !InMonthOf(today)(t)) ==> Sum(Filter(ThisMonth(ts, today), q)) == 0
  {
    if forall t :: t in ts ==> !InMonthOf(today)(t) {
      FilterNone(ts, InMonthOf(today));
      assert Filter([], q) == [];
    }
  }

  /** Income of the current month: 'thu' records only, never more than the all-time income. */
  function MonthIncome(ts: seq<Transaction>, today: Date): (r: nat)
    ensures r <= Sum(Filter(ts, IsIncome))
    ensures (forall t :: t in ts ==> !InMonthOf(today)(t)) ==> r == 0
  {
    SumFilterFilterAtMost(ts, InMonthOf(today), IsIncome);
    NothingThisMonth(ts, today, IsIncome);
    Sum(Filter(ThisMonth(ts, today), IsIncome))
  }

  /**
   * Expense of the current month: 'chi' records only (other types count
   * nowhere here), never more than the all-time 'chi' total.
   */
  function MonthExpense(ts: seq<Transaction>, today: Date): (r: nat)
    ensures r <= Sum(Filter(ts, IsExpense))
    ensures (forall t :: t in ts ==> !InMonthOf(today)(t)) ==> r == 0
  {
    SumFilterFilterAtMost(ts, InMonthOf(today), IsExpense);
    NothingThisMonth(ts, today, IsExpense);
    Sum(Filter(ThisMonth(ts, today), IsExpense))
  }

  /**
   * `Math.min(Math.round(expense / limit * 100), 100)`. For a non-negative x,
   * `Math.round(x)` is the floor of x + 1/2, so the percentage is the nearest
   * integer to expense * 100 / limit, halves rounding up, capped at 100.
   */
  function BudgetPercent(expense: nat): (p: nat)
    ensures p <= 100
    ensures p < 100 ==>
      2 * p * BudgetLimit <= 200 * expense + BudgetLimit < 2 * (p + 1) * BudgetLimit
    ensures p == 100 <==> expense >= 9_950_000
  {
    Min((200 * expense + BudgetLimit) / (2 * BudgetLimit), 100)
  }

  /** The two class names the budget bar switches between. */
  datatype BarTone = Indigo | Rose

  function Tone(percent: nat): BarTone {
    if percent > AlertPercent then Rose else Indigo
  }

  /** The bar turns rose exactly when the month's expense reaches 9,050,000. */
  lemma RoseExactlyFrom(expense: nat)
    ensures Tone(BudgetPercent(expense)) == Rose <==> expense >= 9_050_000
  {
    var p := BudgetPercent(expense);
    if expense >= 9_050_000 {
      assert 200 * expense + BudgetLimit >= 91 * (2 * BudgetLimit);
    } else if p < 100 {
      assert 200 * expense + BudgetLimit < 91 * (2 * BudgetLimit);
    }
  }

  /** Everything `updateStats` writes into the page, as values. */
  datatype Summary = Summary(balance: int, income: nat, expense: nat, percent: nat, tone: BarTone)

  function UpdateStats(ts: seq<Transaction>, today: Date): (s: Summary)
    ensures s.income == MonthIncome(ts, today) && s.expense == MonthExpense(ts, today)
    ensures s.percent == BudgetPercent(s.expense) && s.tone == Tone(s.percent)
    ensures s.percent <= 100
    ensures s.tone == Rose <==> s.expense >= 9_050_000
    ensures s.balance == Sum(Filter(ts, IsIncome)) - Sum(Filter(ts, IsOutgo))
    ensures ts == [] ==> s == Summary(0, 0, 0, 0, Indigo)
  {
    var expense := MonthExpense(ts, today);
    var percent := BudgetPercent(expense);
    RoseExactlyFrom(expense);
    BalanceIsIncomeMinusOutgo(ts);
    Summary(Balance(ts), MonthIncome(ts, today), expense, percent, Tone(percent))
  }

  /**
   * The month figures as an independent definition: adding a transaction at the
   * front moves the month income by its amount exactly when it is a 'thu' of
   * today's (month, year), the month expense exactly when it is such a 'chi',
   * and the balance by its signed amount whatever its date.
   */
  lemma AddMoves(t: Transaction, ts: seq<Transaction>, today: Date)
    ensures MonthIncome([t] + ts, today) ==
      MonthIncome(ts, today) + (if InMonthOf(today)(t) && t.kind == Thu then t.amount else 0)
    ensures MonthExpense([t] + ts, today) ==
      MonthExpense(ts, today) + (if InMonthOf(today)(t) && t.kind == Chi then t.amount else 0)
    ensures Balance([t] + ts) == Balance(ts) + Signed(t)
  {
    FilterCons(t, ts, InMonthOf(today));
    var head := if InMonthOf(today)(t) then [t] else [];
    FilterAppend(head, ThisMonth(ts, today), IsIncome);
    FilterAppend(head, ThisMonth(ts, today), IsExpense);
    SumAppend(Filter(head, IsIncome), Filter(ThisMonth(ts, today), IsIncome));
    SumAppend(Filter(head, IsExpense), Filter(ThisMonth(ts, today), IsExpense));
    if InMonthOf(today)(t) {
      FilterCons(t, [], IsIncome);
      FilterCons(t, [], IsExpense);
      assert [t] + [] == [t];
      SumOne(t);
    }
    BalanceCons(t, ts);
  }

  /**
   * Turning one of this month's expenses into an income raises
   * income minus expense by twice its amount.
   */
  lemma FlipToIncome(t: Transaction, ts: seq<Transaction>, today: Date)
    requires InMonthOf(today)(t) && t.kind == Chi
    ensures MonthIncome([t.(kind := Thu)] + ts, today) - MonthExpense([t.(kind := Thu)] + ts, today) ==
      MonthIncome([t] + ts, today) - MonthExpense([t] + ts, today) + 2 * t.amount
  {
    AddMoves(t, ts, today);
    AddMoves(t.(kind := Thu), ts, today);
  }

  /**
   * A worked case: a 5,000,000 income on the 1st and a 1,000,000 food expense
   * on the 5th, seen on the 10th of the same month.
   */
  lemma DashboardExample(e: Transaction, i: Transaction, today: Date)
    requires today == Date(2025, 4, 10)
    requires e == Transaction("2", Chi, Date(2025, 4, 5), "Ăn uống", 1_000_000, "")
    requires i == Transaction("1", Thu, Date(2025, 4, 1), "Khác", 5_000_000, "")
    ensures UpdateStats([e, i], today) == Summary(4_000_000, 5_000_000, 1_000_000, 10, Indigo)
  {
    var ts := [e, i];
    assert ts == [e] + [i] && [i] == [i] + [];
    assert MonthIncome([i], today) == 5_000_000 && MonthExpense([i], today) == 0 by {
      AddMoves(i, [], today);
    }
    assert MonthIncome(ts, today) == 5_000_000 && MonthExpense(ts, today) == 1_000_000 by {
      AddMoves(e, [i], today);
    }
    assert Balance(ts) == 4_000_000 by {
      BalanceCons(e, [i]);
      BalanceCons(i, []);
    }
    assert BudgetPercent(1_000_000) == 10;
  }
}
