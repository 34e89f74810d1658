/**
 * The first step of `renderAIInsights`: every transaction outside today's
 * (month, year) is put in a bucket keyed by its own (month, year); each bucket
 * totals 'thu' amounts as income and every other type as expense, and the
 * historical monthly expense is the mean of the bucket expenses (0 when no
 * record has another (month, year)). Records dated after today's month are
 * bucketed too: the filter only asks for a different (month, year).
 */
module History {
  import opened Ledger

  /** The `${month}-${year}` key of `monthlyData`. */
  datatype MonthKey = MonthKey(month: int, year: int)

  /** The `{ income, expense }` record stored under each key. */
  datatype MonthTotals = MonthTotals(income: nat, expense: nat)

  function KeyOf(t: Transaction): MonthKey {
    MonthKey(t.date.month, t.date.year)
  }

  function TodayKey(today: Date): MonthKey {
    MonthKey(today.month, today.year)
  }

  /** The filter of `pastTransactions`: another month OR another year. */
  function OutsideMonthOf(today: Date): Transaction -> bool {
    (t: Transaction) => t.date.month != today.month || t.date.year != today.year
  }

  function Past(ts: seq<Transaction>, today: Date): (r: seq<Transaction>)
    ensures |r| <= |ts|
    ensures forall t :: t in r <==> t in ts && KeyOf(t) != TodayKey(today)
  {
    Filter(ts, OutsideMonthOf(today))
  }

  /** The keys a list of transactions falls into. */
  function KeySet(s: seq<Transaction>): set<MonthKey> {
    set t | t in s :: KeyOf(t)
  }

  function InBucket(k: MonthKey): Transaction -> bool {
    (t: Transaction) => KeyOf(t) == k
  }

  /** The transactions of one bucket, in list order. */
  function Bucket(s: seq<Transaction>, k: MonthKey): seq<Transaction> {
    Filter(s, InBucket(k))
  }

  /** What a bucket accumulates: 'thu' as income, anything else as expense. */
  function Totals(s: seq<Transaction>): MonthTotals {
    MonthTotals(Sum(Filter(s, IsIncome)), Sum(Filter(s, IsOutgo)))
  }

  predicate Distinct(ks: seq<MonthKey>) {
    forall i, j :: 0 <= i < j < |ks| ==> ks[i] != ks[j]
  }

  function SetOf(ks: seq<MonthKey>): set<MonthKey> {
    set k | k in ks
  }

  /** script.js:123-125: one transaction added to its bucket's running totals. */
  function Accumulate(m: MonthTotals, t: Transaction): (r: MonthTotals)
    ensures r.income + r.expense == m.income + m.expense + t.amount
    ensures t.kind == Thu ==> r.expense == m.expense
    ensures t.kind != Thu ==> r.income == m.income
  {
    if t.kind == Thu then m.(income := m.income + t.amount) else m.(expense := m.expense + t.amount)
  }

  /**
   * A past transaction is in the bucket of its own (month, year) and in no
   * other, and that key is never today's.
   */
  lemma PastInOneBucket(ts: seq<Transaction>, today: Date, t: Transaction, k: MonthKey)
    requires t in Past(ts, today)
    ensures t in Bucket(Past(ts, today), k) <==> k == KeyOf(t)
    ensures KeyOf(t) != TodayKey(today)
  {
  }

  /** Accumulating one more transaction into a list's totals is what `Accumulate` does. */
  lemma TotalsAppendOne(b: seq<Transaction>, t: Transaction)
    ensures Totals(b + [t]) == Accumulate(Totals(b), t)
  {
    SumFilterSnoc(b, t, IsIncome);
    SumFilterSnoc(b, t, IsOutgo);
  }

  /** One more transaction changes the totals of its own bucket only, by accumulating into it. */
  lemma TotalsSnoc(s: seq<Transaction>, t: Transaction, k: MonthKey)
    ensures Totals(Bucket(s + [t], k)) ==
      if KeyOf(t) == k then Accumulate(Totals(Bucket(s, k)), t) else Totals(Bucket(s, k))
  {
    FilterSnoc(s, t, InBucket(k));
    if KeyOf(t) == k {
      TotalsAppendOne(Bucket(s, k), t);
    } else {
      assert Bucket(s, k) + [] == Bucket(s, k);
    }
  }

  lemma KeySetSnoc(s: seq<Transaction>, t: Transaction)
    ensures KeySet(s + [t]) == KeySet(s) + {KeyOf(t)}
  {
    assert t in s + [t];
    forall x | x in s ensures x in s + [t] {}
    forall x | x in s + [t] ensures x in s || x == t {}
  }

  /** `keys` lists, once each, the keys of `s`, which are those of `data`. */
  ghost predicate KeysOf(s: seq<Transaction>, keys: seq<MonthKey>, data: map<MonthKey, MonthTotals>) {
    Distinct(keys) && SetOf(keys) == data.Keys && data.Keys == KeySet(s)
  }

  /** Every bucket of `data` holds the totals of the transactions of `s` with its key. */
  ghost predicate TotalsOf(s: seq<Transaction>, data: map<MonthKey, MonthTotals>) {
    forall k :: k in data ==> data[k] == Totals(Bucket(s, k))
  }

  /** The buckets `keys` / `data` hold exactly the transactions of `s`. */
  ghost predicate BucketsOf(s: seq<Transaction>, keys: seq<MonthKey>, data: map<MonthKey, MonthTotals>) {
    KeysOf(s, keys, data) && TotalsOf(s, data)
  }

  lemma KeysStep(s: seq<Transaction>, t: Transaction,
                 keys: seq<MonthKey>, data: map<MonthKey, MonthTotals>,
                 keys': seq<MonthKey>, data': map<MonthKey, MonthTotals>)
    requires KeysOf(s, keys, data)
    requires keys' == if KeyOf(t) in data then keys else keys + [KeyOf(t)]
    requires data'.Keys == data.Keys + {KeyOf(t)}
    ensures KeysOf(s + [t], keys', data')
  {
    KeySetSnoc(s, t);
    if KeyOf(t) !in data {
      assert SetOf(keys') == SetOf(keys) + {KeyOf(t)};
    }
  }

  lemma TotalsStep(s: seq<Transaction>, t: Transaction,
                   data: map<MonthKey, MonthTotals>, data': map<MonthKey, MonthTotals>)
    requires TotalsOf(s, data) && data.Keys == KeySet(s)
    requires data' == data[KeyOf(t) := Accumulate(if KeyOf(t) in data then data[KeyOf(t)] else MonthTotals(0, 0), t)]
    ensures TotalsOf(s + [t], data')
  {
    if KeyOf(t) !in data {
      assert Totals(Bucket(s, KeyOf(t))) == MonthTotals(0, 0) by {
        FilterNone(s, InBucket(KeyOf(t)));
      }
    }
    forall k | k in data'
      ensures data'[k] == Totals(Bucket(s + [t], k))
    {
      TotalsSnoc(s, t, k);
    }
  }

  /** One pass of the `forEach` body keeps the buckets exact for the list one element longer. */
  lemma BucketsStep(past: seq<Transaction>, i: nat,
                    keys: seq<MonthKey>, data: map<MonthKey, MonthTotals>,
                    keys': seq<MonthKey>, data': map<MonthKey, MonthTotals>)
    requires i < |past| && BucketsOf(past[..i], keys, data)
    requires keys' == if KeyOf(past[i]) in data then keys else keys + [KeyOf(past[i])]
    requires data' == data[KeyOf(past[i]) := Accumulate(if KeyOf(past[i]) in data then data[KeyOf(past[i])] else MonthTotals(0, 0), past[i])]
    ensures BucketsOf(past[..i + 1], keys', data')
  {
    var s, t := past[..i], past[i];
    assert past[..i + 1] == s + [t];
    assert KeysOf(s + [t], keys', data') by {
      KeysStep(s, t, keys, data, keys', data');
    }
    assert TotalsOf(s + [t], data') by {
      TotalsStep(s, t, data, data');
    }
  }

  /**
   * The `forEach` that fills `monthlyData`. `keys` is the insertion order of
   * the object's keys, which `Object.values` follows.
   */
  method MonthlyData(ts: seq<Transaction>, today: Date)
    returns (keys: seq<MonthKey>, data: map<MonthKey, MonthTotals>)
    ensures BucketsOf(Past(ts, today), keys, data)
    ensures TodayKey(today) !in data
  {
    var past := Past(ts, today);
    keys, data := [], map[];
    var i := 0;
    while i < |past|
      invariant 0 <= i <= |past|
      invariant BucketsOf(past[..i], keys, data)
    {
      var t := past[i];
      var key := KeyOf(t);
      ghost var keys0, data0 := keys, data;
      var totals := if key in data then data[key] else MonthTotals(0, 0);
      if key !in data {
        keys := keys + [key];
      }
      data := data[key := Accumulate(totals, t)];
      BucketsStep(past, i, keys0, data0, keys, data);
      i := i + 1;
    }
    assert past[..i] == past;
    assert TodayKey(today) !in KeySet(past);
  }

  function MonthsCount(ts: seq<Transaction>, today: Date): nat {
    |KeySet(Past(ts, today))|
  }

  /**
   * The reference definition of the historical average: everything subtracted
   * from the balance outside today's (month, year), over the number of other
   * (month, year) pairs that occur, earlier or later.
   */
  function HistAvgExpense(ts: seq<Transaction>, today: Date): (avg: real)
    ensures avg >= 0.0
    ensures MonthsCount(ts, today) == 0 ==> avg == 0.0
  {
    Mean(Sum(Filter(Past(ts, today), IsOutgo)), MonthsCount(ts, today))
  }

  /** `count > 0 ? total / count : 0`. */
  function Mean(total: nat, count: nat): (m: real)
    ensures m >= 0.0
    ensures count == 0 ==> m == 0.0
  {
    if count > 0 then total as real / count as real else 0.0
  }

  /** Outgo of the buckets `ks`, summed in key order (`reduce((a, b) => a + b.expense, 0)`). */
  function BucketOutgo(s: seq<Transaction>, ks: seq<MonthKey>): nat {
    if ks == [] then 0
    else BucketOutgo(s, ks[..|ks| - 1]) + Totals(Bucket(s, ks[|ks| - 1])).expense
  }

  function OutgoIn(keys: set<MonthKey>): Transaction -> bool {
    (t: Transaction) => KeyOf(t) in keys && IsOutgo(t)
  }

  /** The bucket expenses over distinct keys add up to the outgo of all those months together. */
  lemma {:induction false} BucketOutgoIsOutgo(s: seq<Transaction>, ks: seq<MonthKey>)
    requires Distinct(ks)
    ensures BucketOutgo(s, ks) == Sum(Filter(s, OutgoIn(SetOf(ks))))
  {
    if ks == [] {
      assert SetOf(ks) == {};
      FilterNone(s, OutgoIn({}));
    } else {
      var init, k := ks[..|ks| - 1], ks[|ks| - 1];
      assert ks == init + [k];
      assert SetOf(ks) == SetOf(init) + {k};
      BucketOutgoIsOutgo(s, init);
      FilterFilter(s, InBucket(k), IsOutgo, OutgoIn({k}));
      SumFilterOr(s, OutgoIn(SetOf(init)), OutgoIn({k}), OutgoIn(SetOf(ks)));
    }
  }

  /**
   * The bucket expenses of `monthlyData`, over all its keys, add up to the
   * outgo of every transaction outside today's month: no transaction is lost
   * or counted twice by the bucketing.
   */
  lemma BucketsCoverPast(ts: seq<Transaction>, today: Date, keys: seq<MonthKey>)
    requires Distinct(keys) && SetOf(keys) == KeySet(Past(ts, today))
    ensures BucketOutgo(Past(ts, today), keys) == Sum(Filter(Past(ts, today), IsOutgo))
  {
    var past := Past(ts, today);
    BucketOutgoIsOutgo(past, keys);
    forall x | x in past ensures OutgoIn(SetOf(keys))(x) == IsOutgo(x) {
      assert KeyOf(x) in KeySet(past);
    }
    FilterExt(past, OutgoIn(SetOf(keys)), IsOutgo);
  }

  /** `Object.values(data).reduce((a, b) => a + b.expense, 0)`, over the key order `ks`. */
  function ValuesExpense(ks: seq<MonthKey>, data: map<MonthKey, MonthTotals>): nat
    requires forall k :: k in ks ==> k in data
  {
    if ks == [] then 0 else ValuesExpense(ks[..|ks| - 1], data) + data[ks[|ks| - 1]].expense
  }

  /** Summing the stored expenses gives the bucket outgo of the same keys. */
  lemma {:induction false} ValuesExpenseIsBucketOutgo(past: seq<Transaction>, ks: seq<MonthKey>, data: map<MonthKey, MonthTotals>)
    requires TotalsOf(past, data) && forall k :: k in ks ==> k in data
    ensures ValuesExpense(ks, data) == BucketOutgo(past, ks)
  {
    if ks != [] {
      ValuesExpenseIsBucketOutgo(past, ks[..|ks| - 1], data);
    }
  }

  /** Over all keys of the buckets, the count is the number of other (month, year) pairs and the sum the whole outgo. */
  lemma BucketsAverage(ts: seq<Transaction>, today: Date, keys: seq<MonthKey>, data: map<MonthKey, MonthTotals>)
    requires BucketsOf(Past(ts, today), keys, data)
    ensures forall k :: k in keys ==> k in data
    ensures |data| == MonthsCount(ts, today)
    ensures ValuesExpense(keys, data) == Sum(Filter(Past(ts, today), IsOutgo))
  {
    assert |data| == |data.Keys|;
    assert forall k :: k in keys ==> k in SetOf(keys);
    ValuesExpenseIsBucketOutgo(Past(ts, today), keys, data);
    BucketsCoverPast(ts, today, keys);
  }

  /** script.js:130: `Object.values(monthlyData).reduce((a, b) => a + b.expense, 0)`. */
  method ExpenseTotal(keys: seq<MonthKey>, data: map<MonthKey, MonthTotals>) returns (total: nat)
    requires forall k :: k in keys ==> k in data
    ensures total == ValuesExpense(keys, data)
  {
    total := 0;
    var j := 0;
    while j < |keys|
      invariant 0 <= j <= |keys|
      invariant total == ValuesExpense(keys[..j], data)
    {
      assert keys[..j + 1][..j] == keys[..j];
      total := total + data[keys[j]].expense;
      j := j + 1;
    }
    assert keys[..j] == keys;
  }

  /** script.js:119-131: fill the buckets, then average their expense over their number. */
  method HistoricalAverage(ts: seq<Transaction>, today: Date) returns (avg: real)
    ensures avg == HistAvgExpense(ts, today)
  {
    var keys, data := MonthlyData(ts, today);
    BucketsAverage(ts, today, keys, data);
    var monthsCount := |data|;
    var total := ExpenseTotal(keys, data);
    avg := if monthsCount > 0 then total as real / monthsCount as real else 0.0;
    assert avg == Mean(total, monthsCount);
  }
}
