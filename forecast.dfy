/**
 * The end-of-month forecast of `renderAIInsights`: a daily spending rate for
 * the current month and one from history are blended with a weight that
 * grows with the day of the month, and the blended rate times the days left
 * is taken off the all-time balance. Arithmetic is exact (`real`).
 */
module Forecast {
  import opened Ledger
  import opened Stats
  import opened History

  /** The day by which the current month's own rate would take full weight. */
  const RampDays: real := 20.0
  /** The largest weight the current month's rate ever gets. */
  const MaxWeight: real := 0.9
  /** The historical monthly expense is spread over this many days. */
  const HistoryDays: real := 30.0

  /** `daysInMonth - dayOfMonth`: the days of the month still to come. */
  function DaysLeft(today: Date): (n: nat)
    requires ValidDate(today)
    ensures n < DaysInMonth(today.year, today.month)
    ensures n == 0 <==> today.day == DaysInMonth(today.year, today.month)
  {
    DaysInMonth(today.year, today.month) - today.day
  }

  /**
   * The filter of `currentMonthExpense`: a 'chi' record whose month is
   * today's month. The year is not compared, so the same month of any
   * other year is counted too.
   */
  function SameMonthExpenseOf(today: Date): Transaction -> bool {
    (t: Transaction) => t.date.month == today.month && t.kind == Chi
  }

  /** 'chi' records of today's month but of another year, earlier or later. */
  function OtherYearExpenseOf(today: Date): Transaction -> bool {
    (t: Transaction) => t.date.month == today.month && t.date.year != today.year && t.kind == Chi
  }

  /**
   * The forecast's month expense is the dashboard's month expense plus the
   * 'chi' records of the same month in every other year.
   */
  function ForecastMonthExpense(ts: seq<Transaction>, today: Date): (r: nat)
    ensures r == MonthExpense(ts, today) + Sum(Filter(ts, OtherYearExpenseOf(today)))
  {
    var thisYear := (t: Transaction) => InMonthOf(today)(t) && IsExpense(t);
    FilterFilter(ts, InMonthOf(today), IsExpense, thisYear);
    SumFilterOr(ts, thisYear, OtherYearExpenseOf(today), SameMonthExpenseOf(today));
    Sum(Filter(ts, SameMonthExpenseOf(today)))
  }

  /**
   * The same-month 'chi' records of other years also sit in the history
   * buckets, so they count on both sides of the blend.
   */
  lemma OtherYearExpenseIsPast(ts: seq<Transaction>, today: Date, t: Transaction)
    requires t in Filter(ts, OtherYearExpenseOf(today))
    ensures t in Past(ts, today) && t !in ThisMonth(ts, today)
    ensures t in Filter(ts, SameMonthExpenseOf(today))
  {
  }

  /**
   * A concrete list on which the double count shows: one 'chi' of today's
   * month a year earlier is a past transaction, yet the forecast also counts
   * it as spending of the current month, which has none.
   */
  lemma DoubleCountExample()
    ensures var today := Date(2025, 3, 10);
      var t := Transaction("1", Chi, Date(2024, 3, 5), "Mua sắm", 500_000, "");
      && t in Past([t], today)
      && MonthExpense([t], today) == 0
      && ForecastMonthExpense([t], today) == 500_000
  {
    var today := Date(2025, 3, 10);
    var t := Transaction("1", Chi, Date(2024, 3, 5), "Mua sắm", 500_000, "");
    FilterCons(t, [], SameMonthExpenseOf(today));
    FilterCons(t, [], InMonthOf(today));
    assert [t] + [] == [t];
    SumOne(t);
    assert Filter([], IsExpense) == [];
  }

  /** `dayOfMonth > 0 ? currentMonthExpense / dayOfMonth : 0`. */
  function DailyCurrent(expense: nat, day: int): (r: real)
    ensures r >= 0.0
    ensures r == 0.0 <==> day <= 0 || expense == 0
  {
    if day > 0 then expense as real / day as real else 0.0
  }

  /** `histAvgExpense / 30`. */
  function DailyHist(avg: real): (r: real)
    ensures avg >= 0.0 ==> 0.0 <= r <= avg
    ensures r == 0.0 <==> avg == 0.0
  {
    avg / HistoryDays
  }

  /** `Math.min(dayOfMonth / 20, 0.9)`. */
  function CurrentWeight(day: int): (w: real)
    ensures w <= MaxWeight
    ensures day >= 0 ==> w >= 0.0
    ensures day >= 1 ==> w >= 0.05
    ensures w == MaxWeight <==> day >= 18
  {
    var ramp := day as real / RampDays;
    if ramp <= MaxWeight then ramp else MaxWeight
  }

  /**
   * `dailyCurrent * w + dailyHist * (1 - w)`: with a weight in [0, 1] the
   * blended rate lies between the two rates it blends.
   */
  function PredictedDaily(current: real, hist: real, w: real): (r: real)
    ensures 0.0 <= w <= 1.0 && current <= hist ==> current <= r <= hist
    ensures 0.0 <= w <= 1.0 && hist <= current ==> hist <= r <= current
  {
    var r := current * w + hist * (1.0 - w);
    assert 0.0 <= w <= 1.0 ==> (current <= hist ==> current <= r <= hist) && (hist <= current ==> hist <= r <= current) by {
      if 0.0 <= w <= 1.0 {
        assert r - current == (hist - current) * (1.0 - w);
        assert r - hist == (current - hist) * w;
        if current <= hist {
          MulNonNeg(hist - current, 1.0 - w);
          MulNonNeg(hist - current, w);
          assert r - hist == -((hist - current) * w);
        } else {
          MulNonNeg(current - hist, 1.0 - w);
          MulNonNeg(current - hist, w);
          assert r - current == -((current - hist) * (1.0 - w));
        }
      }
    }
    r
  }

  lemma MulNonNeg(a: real, b: real)
    requires 0.0 <= a && 0.0 <= b
    ensures 0.0 <= a * b
  {
  }

  /** Multiplying by a non-negative factor keeps the order of three numbers. */
  lemma ScaleBetween(lo: real, x: real, hi: real, n: real)
    requires lo <= x <= hi && 0.0 <= n
    ensures lo * n <= x * n <= hi * n
  {
    MulNonNeg(x - lo, n);
    MulNonNeg(hi - x, n);
    assert x * n - lo * n == (x - lo) * n;
    assert hi * n - x * n == (hi - x) * n;
  }

  /** Raising the current rate by `x` raises the blend by `x` times the weight. */
  lemma PredictedDailyShift(current: real, hist: real, w: real, x: real)
    ensures PredictedDaily(current + x, hist, w) == PredictedDaily(current, hist, w) + x * w
  {
  }

  /** The two rates and the weight of script.js:141-145, from the list and today. */
  function DailyCurrentOf(ts: seq<Transaction>, today: Date): real {
    DailyCurrent(ForecastMonthExpense(ts, today), today.day)
  }

  function DailyHistOf(ts: seq<Transaction>, today: Date): real {
    DailyHist(HistAvgExpense(ts, today))
  }

  function PredictedDailyOf(ts: seq<Transaction>, today: Date): real {
    PredictedDaily(DailyCurrentOf(ts, today), DailyHistOf(ts, today), CurrentWeight(today.day))
  }

  /** The blended rate of the forecast is never negative and lies between the current and historical rates. */
  lemma PredictedDailyOfBounds(ts: seq<Transaction>, today: Date)
    requires ValidDate(today)
    ensures var c, h, p := DailyCurrentOf(ts, today), DailyHistOf(ts, today), PredictedDailyOf(ts, today);
      && p >= 0.0
      && (c <= h ==> c <= p <= h)
      && (h <= c ==> h <= p <= c)
  {
  }

  /** A balance less a daily rate over a number of days. */
  function EndOf(balance: real, daily: real, days: real): real {
    balance - daily * days
  }

  /** Spending at a non-negative rate never raises the balance; spending nothing keeps it. */
  lemma EndBelow(b: real, p: real, n: real)
    requires 0.0 <= p && 0.0 <= n
    ensures EndOf(b, p, n) <= b
    ensures p == 0.0 || n == 0.0 ==> EndOf(b, p, n) == b
  {
    MulNonNeg(p, n);
  }

  /** An empty list has no spending rate of either kind. */
  lemma NoRateWithoutRecords(today: Date)
    ensures PredictedDailyOf([], today) == 0.0
  {
    assert Past([], today) == [];
    assert KeySet([]) == {};
    var w := CurrentWeight(today.day);
    assert PredictedDailyOf([], today) == PredictedDaily(0.0, 0.0, w);
  }

  /**
   * `balance - predictedDaily * daysLeft` for a given historical monthly
   * average, with the balance recomputed from the whole list.
   */
  function PredictedEndFrom(ts: seq<Transaction>, today: Date, histAvg: real): (r: real)
    requires ValidDate(today)
    ensures histAvg >= 0.0 ==> r <= Balance(ts) as real
    ensures DaysLeft(today) == 0 ==> r == Balance(ts) as real
  {
    var b := Balance(ts) as real;
    var p := PredictedDaily(DailyCurrentOf(ts, today), DailyHist(histAvg), CurrentWeight(today.day));
    var n := DaysLeft(today) as real;
    if p >= 0.0 then
      EndBelow(b, p, n);
      EndOf(b, p, n)
    else
      EndOf(b, p, n)
  }

  /** script.js:109-147: the forecast with the historical average of the list itself. */
  function PredictedEndBalance(ts: seq<Transaction>, today: Date): (r: real)
    requires ValidDate(today)
    ensures r <= Balance(ts) as real
    ensures DaysLeft(today) == 0 ==> r == Balance(ts) as real
    ensures ts == [] ==> r == 0.0
  {
    PredictedDailyOfBounds(ts, today);
    EndBelow(Balance(ts) as real, PredictedDailyOf(ts, today), DaysLeft(today) as real);
    NoRateWithoutRecords(today);
    PredictedEndFrom(ts, today, HistAvgExpense(ts, today))
  }

  /** Taking a rate between two others over `n` days lands between the two results. */
  lemma EndBetween(b: real, lo: real, p: real, hi: real, n: real)
    requires lo <= p <= hi && 0.0 <= n
    ensures EndOf(b, hi, n) <= EndOf(b, p, n) <= EndOf(b, lo, n)
  {
    ScaleBetween(lo, p, hi, n);
  }

  /**
   * The forecast lies between the one made from the current month's rate
   * alone and the one made from the historical rate alone.
   */
  lemma PredictedEndBetween(ts: seq<Transaction>, today: Date)
    requires ValidDate(today)
    ensures var b, n := Balance(ts) as real, DaysLeft(today) as real;
      var c, h := DailyCurrentOf(ts, today), DailyHistOf(ts, today);
      && (c <= h ==> EndOf(b, h, n) <= PredictedEndBalance(ts, today) <= EndOf(b, c, n))
      && (h <= c ==> EndOf(b, c, n) <= PredictedEndBalance(ts, today) <= EndOf(b, h, n))
  {
    var c, h, p := DailyCurrentOf(ts, today), DailyHistOf(ts, today), PredictedDailyOf(ts, today);
    var n := DaysLeft(today) as real;
    var b := Balance(ts) as real;
    PredictedDailyOfBounds(ts, today);
    if c <= h {
      EndBetween(b, c, p, h, n);
    }
    if h <= c {
      EndBetween(b, h, p, c, n);
    }
  }

  /** One more expense of `a` over `day` days raises the current rate by `a / day`. */
  lemma DailyCurrentAdd(e: nat, a: nat, day: int)
    requires day > 0
    ensures DailyCurrent(e + a, day) == DailyCurrent(e, day) + a as real / day as real
  {
    var d := day as real;
    assert (e as real + a as real) / d == e as real / d + a as real / d;
  }

  /** The end balance after taking `a` off the balance and adding `y` to the rate. */
  lemma EndShift(b: real, a: real, p: real, y: real, n: real)
    ensures EndOf(b - a, p + y, n) == EndOf(b, p, n) - a - y * n
  {
  }

  /**
   * What one more expense of `a` on day `day` adds to the predicted spending
   * of the `n` days left: its share of the current rate, weighted.
   */
  function ExtraSpend(a: nat, day: int, n: real): real
    requires day > 0
  {
    a as real / day as real * CurrentWeight(day) * n
  }

  lemma ExtraSpendNonNegative(a: nat, day: int, n: real)
    requires day > 0 && 0.0 <= n
    ensures ExtraSpend(a, day, n) >= 0.0
  {
    MulNonNeg(a as real / day as real, CurrentWeight(day));
    MulNonNeg(a as real / day as real * CurrentWeight(day), n);
  }

  /**
   * The forecast arithmetic of one more expense `a` in the current month:
   * the balance drops by `a` and the current rate rises by `a / day`.
   */
  lemma EndAfterExpense(b: real, b': real, e: nat, e': nat, a: nat, h: real, day: int, n: real)
    requires day > 0 && b' == b - a as real && e' == e + a
    ensures EndOf(b', PredictedDaily(DailyCurrent(e', day), h, CurrentWeight(day)), n) ==
      EndOf(b, PredictedDaily(DailyCurrent(e, day), h, CurrentWeight(day)), n) - a as real - ExtraSpend(a, day, n)
  {
    var c, x, w := DailyCurrent(e, day), a as real / day as real, CurrentWeight(day);
    DailyCurrentAdd(e, a, day);
    PredictedDailyShift(c, h, w, x);
    EndShift(b, a as real, PredictedDaily(c, h, w), x * w, n);
  }

  /**
   * A record of today's month and year is not a past transaction, so adding
   * one leaves the historical average as it was.
   */
  lemma CurrentRecordKeepsHistory(t: Transaction, ts: seq<Transaction>, today: Date)
    requires InMonthOf(today)(t)
    ensures Past([t] + ts, today) == Past(ts, today)
    ensures HistAvgExpense([t] + ts, today) == HistAvgExpense(ts, today)
  {
    FilterCons(t, ts, OutsideMonthOf(today));
  }

  /**
   * Recording a new expense dated today, for the same historical average,
   * lowers the forecast by its amount and by the extra spending it adds to
   * the current rate over the days left.
   */
  lemma ExpenseTodayLowersForecast(t: Transaction, ts: seq<Transaction>, today: Date, histAvg: real)
    requires ValidDate(today) && t.kind == Chi && t.date == today
    ensures PredictedEndFrom([t] + ts, today, histAvg) ==
      PredictedEndFrom(ts, today, histAvg) - t.amount as real - ExtraSpend(t.amount, today.day, DaysLeft(today) as real)
  {
    assert ForecastMonthExpense([t] + ts, today) == ForecastMonthExpense(ts, today) + t.amount by {
      FilterCons(t, ts, SameMonthExpenseOf(today));
      SumCons(t, Filter(ts, SameMonthExpenseOf(today)));
    }
    assert Balance([t] + ts) == Balance(ts) - t.amount by {
      BalanceCons(t, ts);
    }
    EndAfterExpense(Balance(ts) as real, Balance([t] + ts) as real,
      ForecastMonthExpense(ts, today), ForecastMonthExpense([t] + ts, today),
      t.amount, DailyHist(histAvg), today.day, DaysLeft(today) as real);
  }

  /**
   * The same for the forecast the page shows: a new expense dated today
   * lowers it by its amount and by its weighted share over the days left.
   */
  lemma ExpenseTodayLowersPrediction(t: Transaction, ts: seq<Transaction>, today: Date)
    requires ValidDate(today) && t.kind == Chi && t.date == today
    ensures PredictedEndBalance([t] + ts, today) <=
      PredictedEndBalance(ts, today) - t.amount as real
    ensures PredictedEndBalance([t] + ts, today) ==
      PredictedEndBalance(ts, today) - t.amount as real - ExtraSpend(t.amount, today.day, DaysLeft(today) as real)
  {
    CurrentRecordKeepsHistory(t, ts, today);
    ExpenseTodayLowersForecast(t, ts, today, HistAvgExpense(ts, today));
    ExtraSpendNonNegative(t.amount, today.day, DaysLeft(today) as real);
  }
}
