/**
 * The two series of `renderCharts`: the expense of each palette category
 * (the doughnut chart) and the expense of each of the last seven days,
 * today included, oldest first (the bar chart).
 */
module Charts {
  import opened Ledger
  import opened Tips

  /** The keys of `CATEGORY_COLORS`, in declaration order. */
  const Palette: seq<string> :=
    ["Ăn uống", "Di chuyển", "Mua sắm", "Hóa đơn", "Giải trí", "Đầu tư", "Tiết kiệm", "Khác"]

  /** The filter of one doughnut slice: exactly that category, and a 'chi'. */
  function ExpenseIn(c: string): Transaction -> bool {
    (t: Transaction) => t.category == c && t.kind == Chi
  }

  /** script.js:184-188: one total per palette category, in palette order. */
  function CategorySeries(ts: seq<Transaction>): (r: seq<nat>)
    ensures |r| == |Palette| == 8
  {
    seq(|Palette|, i requires 0 <= i < |Palette| => Sum(Filter(ts, ExpenseIn(Palette[i]))))
  }

  /** Each slice is the total the saving tip ranks for that category. */
  lemma CategorySeriesIsCategoryTotal(ts: seq<Transaction>)
    ensures forall i :: 0 <= i < 8 ==> CategorySeries(ts)[i] == CategoryTotal(Expenses(ts), Palette[i])
  {
    forall i | 0 <= i < 8
      ensures CategorySeries(ts)[i] == CategoryTotal(Expenses(ts), Palette[i])
    {
      FilterFilter(ts, IsExpense, HasCategory(Palette[i]), ExpenseIn(Palette[i]));
    }
  }

  /** One more record adds its amount to its own slice if it is a 'chi', and changes nothing else. */
  lemma CategorySeriesCons(t: Transaction, ts: seq<Transaction>)
    ensures forall i :: 0 <= i < 8 ==>
      CategorySeries([t] + ts)[i] ==
        CategorySeries(ts)[i] + (if t.kind == Chi && t.category == Palette[i] then t.amount else 0)
  {
    forall i | 0 <= i < 8
      ensures CategorySeries([t] + ts)[i] ==
        CategorySeries(ts)[i] + (if t.kind == Chi && t.category == Palette[i] then t.amount else 0)
    {
      var p := ExpenseIn(Palette[i]);
      FilterCons(t, ts, p);
      if p(t) {
        SumCons(t, Filter(ts, p));
      } else {
        assert Filter([t] + ts, p) == Filter(ts, p);
      }
    }
  }

  /** A category outside the palette never shows in the doughnut. */
  lemma UnknownCategoryIgnored(t: Transaction, ts: seq<Transaction>)
    requires t.category !in Palette
    ensures CategorySeries([t] + ts) == CategorySeries(ts)
  {
    CategorySeriesCons(t, ts);
  }

  /** Calendar order of dates. */
  predicate Before(a: Date, b: Date) {
    a.year < b.year
    || (a.year == b.year && a.month < b.month)
    || (a.year == b.year && a.month == b.month && a.day < b.day)
  }

  /** The day after `d`. */
  function NextDay(d: Date): (r: Date)
    requires ValidDate(d)
    ensures ValidDate(r) && Before(d, r)
  {
    if d.day < DaysInMonth(d.year, d.month) then Date(d.year, d.month, d.day + 1)
    else if d.month < 12 then Date(d.year, d.month + 1, 1)
    else Date(d.year + 1, 1, 1)
  }

  /** The day before `d`: what `setDate(getDate() - 1)` steps to. */
  function PrevDay(d: Date): (r: Date)
    requires ValidDate(d)
    ensures ValidDate(r) && Before(r, d)
  {
    if d.day > 1 then Date(d.year, d.month, d.day - 1)
    else if d.month > 1 then Date(d.year, d.month - 1, DaysInMonth(d.year, d.month - 1))
    else Date(d.year - 1, 12, 31)
  }

  /** Stepping back a day and then forward again returns to the same date. */
  lemma NextOfPrev(d: Date)
    requires ValidDate(d)
    ensures NextDay(PrevDay(d)) == d
  {
  }

  /** Stepping forward a day and then back again returns to the same date. */
  lemma PrevOfNext(d: Date)
    requires ValidDate(d)
    ensures PrevDay(NextDay(d)) == d
  {
  }

  lemma BeforeTransitive(a: Date, b: Date, c: Date)
    requires Before(a, b) && Before(b, c)
    ensures Before(a, c)
  {
  }

  /** `n` days before `d`. */
  function DaysBack(d: Date, n: nat): (r: Date)
    requires ValidDate(d)
    ensures ValidDate(r)
  {
    if n == 0 then d else PrevDay(DaysBack(d, n - 1))
  }

  /** script.js:214-218: today-6, ..., today. */
  function Last7Days(today: Date): (r: seq<Date>)
    requires ValidDate(today)
    ensures |r| == 7 && r[6] == today
    ensures forall i :: 0 <= i < 7 ==> ValidDate(r[i])
  {
    seq(7, i requires 0 <= i < 7 => DaysBack(today, 6 - i))
  }

  /** Consecutive labels are consecutive calendar days. */
  lemma Last7DaysConsecutive(today: Date)
    requires ValidDate(today)
    ensures forall i :: 0 <= i < 6 ==> NextDay(Last7Days(today)[i]) == Last7Days(today)[i + 1]
  {
    var days := Last7Days(today);
    forall i | 0 <= i < 6 ensures NextDay(days[i]) == days[i + 1] {
      assert days[i] == PrevDay(DaysBack(today, 5 - i));
      NextOfPrev(DaysBack(today, 5 - i));
    }
  }

  /** Going further back lands strictly earlier. */
  lemma {:induction false} DaysBackEarlier(d: Date, n: nat, m: nat)
    requires ValidDate(d) && n < m
    ensures Before(DaysBack(d, m), DaysBack(d, n))
    decreases m
  {
    if m - 1 > n {
      DaysBackEarlier(d, n, m - 1);
      BeforeTransitive(DaysBack(d, m), DaysBack(d, m - 1), DaysBack(d, n));
    }
  }

  /** The labels run strictly forward in time, so no date appears twice. */
  lemma Last7DaysAscending(today: Date)
    requires ValidDate(today)
    ensures forall i, j :: 0 <= i < j < 7 ==> Before(Last7Days(today)[i], Last7Days(today)[j])
  {
    var days := Last7Days(today);
    forall i, j | 0 <= i < j < 7 ensures Before(days[i], days[j]) {
      DaysBackEarlier(today, 6 - j, 6 - i);
    }
  }

  /** The filter of one bar: a 'chi' dated exactly that day. */
  function ExpenseOn(d: Date): Transaction -> bool {
    (t: Transaction) => t.date == d && t.kind == Chi
  }

  /** script.js:227-230: the expense of each of the last seven days. */
  function DailySeries(ts: seq<Transaction>, today: Date): (r: seq<nat>)
    requires ValidDate(today)
    ensures |r| == 7
  {
    var days := Last7Days(today);
    seq(7, i requires 0 <= i < 7 => Sum(Filter(ts, ExpenseOn(days[i]))))
  }

  /** A day without any 'chi' record gets a zero bar. */
  lemma NoExpenseZeroBar(ts: seq<Transaction>, today: Date, i: int)
    requires ValidDate(today) && 0 <= i < 7
    requires forall t :: t in ts && t.kind == Chi ==> t.date != Last7Days(today)[i]
    ensures DailySeries(ts, today)[i] == 0
  {
    FilterNone(ts, ExpenseOn(Last7Days(today)[i]));
  }

  /** One more record adds its amount to the bar of its date if it is a 'chi', and changes nothing else. */
  lemma DailySeriesCons(t: Transaction, ts: seq<Transaction>, today: Date)
    requires ValidDate(today)
    ensures forall i :: 0 <= i < 7 ==>
      DailySeries([t] + ts, today)[i] ==
        DailySeries(ts, today)[i] + (if t.kind == Chi && t.date == Last7Days(today)[i] then t.amount else 0)
  {
    var days := Last7Days(today);
    forall i | 0 <= i < 7
      ensures DailySeries([t] + ts, today)[i] ==
        DailySeries(ts, today)[i] + (if t.kind == Chi && t.date == days[i] then t.amount else 0)
    {
      var p := ExpenseOn(days[i]);
      FilterCons(t, ts, p);
      if p(t) {
        SumCons(t, Filter(ts, p));
      } else {
        assert Filter([t] + ts, p) == Filter(ts, p);
      }
    }
  }

  /** A new expense dated inside the window raises exactly one bar, by its amount. */
  lemma ExpenseRaisesOneBar(t: Transaction, ts: seq<Transaction>, today: Date, k: int)
    requires ValidDate(today) && 0 <= k < 7
    requires t.kind == Chi && t.date == Last7Days(today)[k]
    ensures DailySeries([t] + ts, today)[k] == DailySeries(ts, today)[k] + t.amount
    ensures forall i :: 0 <= i < 7 && i != k ==> DailySeries([t] + ts, today)[i] == DailySeries(ts, today)[i]
  {
    DailySeriesCons(t, ts, today);
    Last7DaysAscending(today);
    var days := Last7Days(today);
    forall i | 0 <= i < 7 && i != k ensures days[i] != days[k] {
      if i < k {
        assert Before(days[i], days[k]);
      } else {
        assert Before(days[k], days[i]);
      }
    }
  }
}
