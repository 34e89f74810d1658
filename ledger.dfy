/**
 * The transaction record of the wallet and the list operations every other
 * module is written in: filtering (JavaScript's `Array.prototype.filter`),
 * summing amounts (`reduce((s, t) => s + t.amount, 0)`) and the signed
 * balance (`reduce((s, t) => t.type === 'thu' ? s + t.amount : s - t.amount, 0)`).
 */
module Ledger {

  /** The `type` field: 'thu' (income), 'chi' (expense), or any other string. */
  datatype Kind = Thu | Chi | Other

  /** A calendar date; `month` is 1..12 (JavaScript's getMonth() + 1). */
  datatype Date = Date(year: int, month: int, day: int)

  datatype Transaction = Transaction(
    id: string,
    kind: Kind,
    date: Date,
    category: string,
    amount: nat,
    note: string)

  function Min(a: int, b: int): (m: int)
    ensures m <= a && m <= b && (m == a || m == b)
  {
    if a <= b then a else b
  }

  /** Gregorian leap-year rule. */
  predicate IsLeapYear(year: int) {
    year % 4 == 0 && (year % 100 != 0 || year % 400 == 0)
  }

  /** The day count that `new Date(year, month, 0).getDate()` yields for a 1-based month. */
  function DaysInMonth(year: int, month: int): (n: int)
    requires 1 <= month <= 12
    ensures 28 <= n <= 31
    ensures n == 29 <==> month == 2 && IsLeapYear(year)
  {
    if month == 2 then (if IsLeapYear(year) then 29 else 28)
    else if month == 4 || month == 6 || month == 9 || month == 11 then 30
    else 31
  }

  predicate ValidDate(d: Date) {
    1 <= d.month <= 12 && 1 <= d.day <= DaysInMonth(d.year, d.month)
  }

  predicate IsIncome(t: Transaction) { t.kind == Thu }
  predicate IsExpense(t: Transaction) { t.kind == Chi }
  /** Everything the balance subtracts: every type other than 'thu'. */
  predicate IsOutgo(t: Transaction) { t.kind != Thu }

  /** `s.filter(p)`: the elements satisfying `p`, in their original order. */
  function Filter(s: seq<Transaction>, p: Transaction -> bool): (r: seq<Transaction>)
    ensures |r| <= |s|
    ensures forall x :: x in r <==> x in s && p(x)
  {
    if s == [] then [] else (if p(s[0]) then [s[0]] else []) + Filter(s[1..], p)
  }

  /** `s.reduce((acc, t) => acc + t.amount, 0)`, folded from the left. */
  function Sum(s: seq<Transaction>): nat {
    if s == [] then 0 else Sum(s[..|s| - 1]) + s[|s| - 1].amount
  }

  /** What one transaction adds to the balance. */
  function Signed(t: Transaction): int {
    if t.kind == Thu then t.amount else -(t.amount as int)
  }

  /** The all-time signed balance, folded from the left as `reduce` does. */
  function Balance(s: seq<Transaction>): (b: int)
    ensures -(Sum(s) as int) <= b <= Sum(s)
  {
    if s == [] then 0 else Balance(s[..|s| - 1]) + Signed(s[|s| - 1])
  }

  lemma {:induction false} FilterAppend(a: seq<Transaction>, b: seq<Transaction>, p: Transaction -> bool)
    ensures Filter(a + b, p) == Filter(a, p) + Filter(b, p)
  {
    if a == [] {
      assert a + b == b;
    } else {
      assert (a + b)[0] == a[0];
      assert (a + b)[1..] == a[1..] + b;
      FilterAppend(a[1..], b, p);
    }
  }

  /** Filtering keeps a list whose elements all pass unchanged. */
  lemma {:induction false} FilterAll(s: seq<Transaction>, p: Transaction -> bool)
    requires forall x :: x in s ==> p(x)
    ensures Filter(s, p) == s
  {
    if s != [] {
      assert s[0] in s;
      forall x | x in s[1..] ensures p(x) { assert x in s; }
      FilterAll(s[1..], p);
      assert [s[0]] + s[1..] == s;
    }
  }

  /** Filtering drops a list whose elements all fail. */
  lemma FilterNone(s: seq<Transaction>, p: Transaction -> bool)
    requires forall x :: x in s ==> !p(x)
    ensures Filter(s, p) == []
  {
    if Filter(s, p) != [] {
      assert Filter(s, p)[0] in Filter(s, p);
    }
  }

  /** Two successive filters keep the same elements whichever runs first. */
  lemma {:induction false} FilterFilter(s: seq<Transaction>, p: Transaction -> bool, q: Transaction -> bool, pq: Transaction -> bool)
    requires forall x :: pq(x) == (p(x) && q(x))
    ensures Filter(Filter(s, p), q) == Filter(s, pq)
  {
    if s != [] {
      FilterFilter(s[1..], p, q, pq);
      var head := if p(s[0]) then [s[0]] else [];
      FilterAppend(head, Filter(s[1..], p), q);
    }
  }

  lemma {:induction false} SumAppend(a: seq<Transaction>, b: seq<Transaction>)
    ensures Sum(a + b) == Sum(a) + Sum(b)
  {
    if b == [] {
      assert a + b == a;
    } else {
      assert (a + b)[..|a + b| - 1] == a + b[..|b| - 1];
      SumAppend(a, b[..|b| - 1]);
    }
  }

  lemma SumOne(t: Transaction)
    ensures Sum([t]) == t.amount
  {
    assert [t][..0] == [];
  }

  /** A list with exactly one more element at the front sums to that element more. */
  lemma SumCons(t: Transaction, s: seq<Transaction>)
    ensures Sum([t] + s) == t.amount + Sum(s)
  {
    SumAppend([t], s);
    SumOne(t);
  }

  /** What `[t] + s` keeps under a filter. */
  lemma FilterCons(t: Transaction, s: seq<Transaction>, p: Transaction -> bool)
    ensures Filter([t] + s, p) == (if p(t) then [t] else []) + Filter(s, p)
  {
    assert ([t] + s)[0] == t;
    assert ([t] + s)[1..] == s;
  }

  /** What `s + [t]` keeps under a filter. */
  lemma FilterSnoc(s: seq<Transaction>, t: Transaction, p: Transaction -> bool)
    ensures Filter(s + [t], p) == Filter(s, p) + (if p(t) then [t] else [])
  {
    FilterAppend(s, [t], p);
    assert Filter([t], p) == (if p(t) then [t] else []) + Filter([t][1..], p);
    assert [t][1..] == [];
  }

  /** Filters that agree on every element of a list keep the same sublist. */
  lemma {:induction false} FilterExt(s: seq<Transaction>, p: Transaction -> bool, q: Transaction -> bool)
    requires forall x :: x in s ==> p(x) == q(x)
    ensures Filter(s, p) == Filter(s, q)
  {
    if s != [] {
      assert s[0] in s;
      forall x | x in s[1..] ensures p(x) == q(x) { assert x in s; }
      FilterExt(s[1..], p, q);
    }
  }

  /** One more element at the end adds its amount to a filtered sum exactly when it passes. */
  lemma SumFilterSnoc(s: seq<Transaction>, t: Transaction, p: Transaction -> bool)
    ensures Sum(Filter(s + [t], p)) == Sum(Filter(s, p)) + (if p(t) then t.amount else 0)
  {
    FilterSnoc(s, t, p);
    SumAppend(Filter(s, p), if p(t) then [t] else []);
    SumOne(t);
    assert Sum([]) == 0;
  }

  /** The sum over a union of two disjoint filters is the sum of the two sums. */
  lemma {:induction false} SumFilterOr(s: seq<Transaction>, p: Transaction -> bool, q: Transaction -> bool, pq: Transaction -> bool)
    requires forall x :: !(p(x) && q(x))
    requires forall x :: pq(x) == (p(x) || q(x))
    ensures Sum(Filter(s, pq)) == Sum(Filter(s, p)) + Sum(Filter(s, q))
  {
    if s != [] {
      var init, last := s[..|s| - 1], s[|s| - 1];
      assert s == init + [last];
      SumFilterOr(init, p, q, pq);
      SumFilterSnoc(init, last, p);
      SumFilterSnoc(init, last, q);
      SumFilterSnoc(init, last, pq);
    }
  }

  /** Summing what passes a filter plus what passes its complement gives the whole sum. */
  lemma {:induction false} SumSplit(s: seq<Transaction>, p: Transaction -> bool, q: Transaction -> bool)
    requires forall x :: q(x) == !p(x)
    ensures Sum(Filter(s, p)) + Sum(Filter(s, q)) == Sum(s)
  {
    if s != [] {
      var init, last := s[..|s| - 1], s[|s| - 1];
      assert s == init + [last];
      SumSplit(init, p, q);
      FilterSnoc(init, last, p);
      FilterSnoc(init, last, q);
      SumAppend(Filter(init, p), if p(last) then [last] else []);
      SumAppend(Filter(init, q), if q(last) then [last] else []);
      SumOne(last);
      assert Sum([]) == 0;
    }
  }

  /**
   * The balance is the income total minus the total of every other type:
   * a transaction whose type is neither 'thu' nor 'chi' is subtracted too.
   */
  lemma {:induction false} BalanceIsIncomeMinusOutgo(s: seq<Transaction>)
    ensures Balance(s) == Sum(Filter(s, IsIncome)) - Sum(Filter(s, IsOutgo))
  {
    if s != [] {
      var init, last := s[..|s| - 1], s[|s| - 1];
      assert s == init + [last];
      BalanceIsIncomeMinusOutgo(init);
      FilterSnoc(init, last, IsIncome);
      FilterSnoc(init, last, IsOutgo);
      SumAppend(Filter(init, IsIncome), if IsIncome(last) then [last] else []);
      SumAppend(Filter(init, IsOutgo), if IsOutgo(last) then [last] else []);
      SumOne(last);
      assert Sum([]) == 0;
    }
  }

  lemma {:induction false} BalanceAppend(a: seq<Transaction>, b: seq<Transaction>)
    ensures Balance(a + b) == Balance(a) + Balance(b)
  {
    if b == [] {
      assert a + b == a;
    } else {
      assert (a + b)[..|a + b| - 1] == a + b[..|b| - 1];
      BalanceAppend(a, b[..|b| - 1]);
    }
  }

  /** Prepending a transaction (what adding one does) moves the balance by its signed amount. */
  lemma BalanceCons(t: Transaction, s: seq<Transaction>)
    ensures Balance([t] + s) == Signed(t) + Balance(s)
  {
    BalanceAppend([t], s);
    assert [t][..0] == [];
  }

  /** A sequence is its part before index `k`, the element at `k` and its part after. */
  lemma SplitAt<T>(s: seq<T>, k: int)
    requires 0 <= k < |s|
    ensures s == s[..k] + ([s[k]] + s[k + 1..])
  {
    assert s[k..] == [s[k]] + s[k + 1..];
    assert s == s[..k] + s[k..];
  }

  /** Removing the record at index `k` moves the balance back by its signed amount. */
  lemma BalanceRemoveAt(s: seq<Transaction>, k: int)
    requires 0 <= k < |s|
    ensures Balance(s[..k] + s[k + 1..]) == Balance(s) - Signed(s[k])
  {
    var before, after := s[..k], s[k + 1..];
    SplitAt(s, k);
    BalanceAppend(before, [s[k]] + after);
    BalanceCons(s[k], after);
    BalanceAppend(before, after);
  }
}
