/**
 * The saving tip of `renderAIInsights`: the all-time 'chi' total of every
 * category (the object `catTotals`, whose keys keep first-insertion order),
 * the entry a stable descending sort puts first, and a suggested saving of
 * 15 percent of it. No tip is shown when there is no 'chi' record at all.
 */
module Tips {
  import opened Ledger

  /** The share of the top category the tip suggests saving. */
  const SavingRate: real := 0.15

  /** The `transactions.filter(t => t.type === 'chi')` of script.js:162. */
  function Expenses(ts: seq<Transaction>): seq<Transaction> {
    Filter(ts, IsExpense)
  }

  function HasCategory(c: string): Transaction -> bool {
    (t: Transaction) => t.category == c
  }

  /** The total of the records of `s` with category `c` exactly. */
  function CategoryTotal(s: seq<Transaction>, c: string): nat {
    Sum(Filter(s, HasCategory(c)))
  }

  /**
   * The categories of `s` in the order of their first record: the key order
   * of `catTotals`; there are never more categories than records.
   */
  function Categories(s: seq<Transaction>): (r: seq<string>)
    ensures |r| <= |s|
  {
    if s == [] then []
    else
      var cs := Categories(s[..|s| - 1]);
      var c := s[|s| - 1].category;
      if c in cs then cs else cs + [c]
  }

  /** Each category of a record appears in `Categories`, and nothing else does. */
  lemma {:induction false} CategoriesCover(s: seq<Transaction>, c: string)
    ensures c in Categories(s) <==> exists t :: t in s && t.category == c
  {
    if s != [] {
      var init, last := s[..|s| - 1], s[|s| - 1];
      assert s == init + [last];
      CategoriesCover(init, c);
      if c in Categories(s) && c !in Categories(init) {
        assert last in s;
      }
      if t :| t in s && t.category == c {
        if t != last {
          assert t in init;
        }
      }
    }
  }

  /** Some record of `s` before index `q` carries category `c`. */
  ghost predicate SeenBefore(s: seq<Transaction>, c: string, q: int) {
    exists p :: 0 <= p < q && p < |s| && s[p].category == c
  }

  /** A category carried by a record of `s` is carried by one at some index. */
  lemma CategoryAt(s: seq<Transaction>, c: string)
    requires c in Categories(s)
    ensures SeenBefore(s, c, |s|)
  {
    CategoriesCover(s, c);
    var t :| t in s && t.category == c;
    var p :| 0 <= p < |s| && s[p] == t;
  }

  /**
   * The key order is the order of first records: any record carrying the
   * `j`-th category comes after some record carrying an earlier, `i`-th one.
   */
  lemma {:induction false} CategoriesFirstSeen(s: seq<Transaction>, i: int, j: int, q: int)
    requires 0 <= i < j < |Categories(s)| && 0 <= q < |s|
    requires s[q].category == Categories(s)[j]
    ensures SeenBefore(s, Categories(s)[i], q)
  {
    var n := |s|;
    var init, last := s[..n - 1], s[n - 1];
    assert s == init + [last];
    var cs := Categories(init);
    CategoriesSnoc(init, last);
    if q < n - 1 && j < |cs| {
      assert init[q] == s[q];
      CategoriesFirstSeen(init, i, j, q);
      var p :| 0 <= p < q && p < |init| && init[p].category == cs[i];
      assert s[p] == init[p];
    } else if j < |cs| {
      // the last record carries `cs[j]`, which an earlier record carried first
      assert q == n - 1 && last.category == cs[j];
      CategoryAt(init, cs[j]);
      var q' :| 0 <= q' < |init| && init[q'].category == cs[j];
      CategoriesFirstSeen(init, i, j, q');
      var p :| 0 <= p < q' && p < |init| && init[p].category == cs[i];
      assert s[p] == init[p];
    } else {
      // the `j`-th category is new with the last record, so no earlier record carries it
      assert Categories(s)[j] == last.category && last.category !in cs;
      if q < n - 1 {
        assert init[q] in init;
        CategoriesCover(init, last.category);
        assert false;
      }
      CategoryAt(init, cs[i]);
      var p :| 0 <= p < |init| && init[p].category == cs[i];
      assert s[p] == init[p];
    }
  }

  /** No category is listed twice. */
  lemma {:induction false} CategoriesDistinct(s: seq<Transaction>)
    ensures forall i, j :: 0 <= i < j < |Categories(s)| ==> Categories(s)[i] != Categories(s)[j]
  {
    if s != [] {
      CategoriesDistinct(s[..|s| - 1]);
    }
  }

  /** `cats` and `totals` are `catTotals` after folding in every record of `s`. */
  ghost predicate TotalsOf(s: seq<Transaction>, cats: seq<string>, totals: map<string, nat>) {
    && cats == Categories(s)
    && (forall c :: c in totals <==> c in cats)
    && forall c :: c in totals ==> totals[c] == CategoryTotal(s, c)
  }

  lemma CategoryTotalSnoc(s: seq<Transaction>, t: Transaction, c: string)
    ensures CategoryTotal(s + [t], c) == CategoryTotal(s, c) + (if t.category == c then t.amount else 0)
  {
    SumFilterSnoc(s, t, HasCategory(c));
  }

  /** One more record appends its category to the key order exactly when it is new. */
  lemma CategoriesSnoc(s: seq<Transaction>, t: Transaction)
    ensures Categories(s + [t]) ==
      if t.category in Categories(s) then Categories(s) else Categories(s) + [t.category]
  {
    assert (s + [t])[..|s + [t]| - 1] == s;
  }

  /** A category not yet listed has total 0. */
  lemma UnlistedTotalZero(s: seq<Transaction>, c: string)
    requires c !in Categories(s)
    ensures CategoryTotal(s, c) == 0
  {
    forall x | x in s ensures !HasCategory(c)(x) {
      CategoriesCover(s, c);
    }
    FilterNone(s, HasCategory(c));
  }

  /** The stored totals stay exact when the next record is folded in. */
  lemma StoredTotalsStep(s: seq<Transaction>, t: Transaction, totals: map<string, nat>, totals': map<string, nat>)
    requires forall c :: c in totals ==> totals[c] == CategoryTotal(s, c)
    requires t.category !in totals ==> CategoryTotal(s, t.category) == 0
    requires totals' == totals[t.category := (if t.category in totals then totals[t.category] else 0) + t.amount]
    ensures forall c :: c in totals' ==> totals'[c] == CategoryTotal(s + [t], c)
  {
    forall c | c in totals'
      ensures totals'[c] == CategoryTotal(s + [t], c)
    {
      CategoryTotalSnoc(s, t, c);
    }
  }

  /** The key order and the key set of `catTotals` stay right when the next record is folded in. */
  lemma StoredKeysStep(s: seq<Transaction>, t: Transaction,
                       cats: seq<string>, totals: map<string, nat>,
                       cats': seq<string>, totals': map<string, nat>)
    requires cats == Categories(s) && forall c :: c in totals <==> c in cats
    requires cats' == if t.category in totals then cats else cats + [t.category]
    requires totals'.Keys == totals.Keys + {t.category}
    ensures cats' == Categories(s + [t])
    ensures forall c :: c in totals' <==> c in cats'
  {
    CategoriesSnoc(s, t);
  }

  /** One pass of the `forEach` keeps `catTotals` exact for the list one record longer. */
  lemma TotalsStep(s: seq<Transaction>, t: Transaction,
                   cats: seq<string>, totals: map<string, nat>,
                   cats': seq<string>, totals': map<string, nat>)
    requires TotalsOf(s, cats, totals)
    requires cats' == if t.category in totals then cats else cats + [t.category]
    requires totals' == totals[t.category := (if t.category in totals then totals[t.category] else 0) + t.amount]
    ensures TotalsOf(s + [t], cats', totals')
  {
    StoredKeysStep(s, t, cats, totals, cats', totals');
    if t.category !in totals {
      UnlistedTotalZero(s, t.category);
    }
    StoredTotalsStep(s, t, totals, totals');
  }

  /** A prefix one longer is the prefix with the next record appended. */
  lemma PrefixSnoc(s: seq<Transaction>, i: nat)
    requires i < |s|
    ensures s[..i + 1] == s[..i] + [s[i]]
  {
  }

  /** The `forEach` of script.js:162: fold each record's amount into the total of its category. */
  method AccumulateTotals(spent: seq<Transaction>) returns (cats: seq<string>, totals: map<string, nat>)
    ensures TotalsOf(spent, cats, totals)
  {
    cats, totals := [], map[];
    var i := 0;
    ghost var done: seq<Transaction> := [];
    while i < |spent|
      invariant 0 <= i <= |spent| && done == spent[..i]
      invariant TotalsOf(done, cats, totals)
    {
      var t := spent[i];
      ghost var cats0, totals0 := cats, totals;
      var sofar := if t.category in totals then totals[t.category] else 0;
      cats := if t.category in totals then cats else cats + [t.category];
      totals := totals[t.category := sofar + t.amount];
      TotalsStep(done, t, cats0, totals0, cats, totals);
      PrefixSnoc(spent, i);
      done := done + [t];
      i := i + 1;
    }
    assert spent[..i] == spent;
  }

  /** script.js:161-162: `catTotals` over the 'chi' records, in list order. */
  method CategoryTotals(ts: seq<Transaction>) returns (cats: seq<string>, totals: map<string, nat>)
    ensures TotalsOf(Expenses(ts), cats, totals)
  {
    cats, totals := AccumulateTotals(Expenses(ts));
  }

  /**
   * script.js:163: the first entry of a stable sort by descending total is the
   * first-inserted key among those with the largest total.
   */
  method FirstLargest(cats: seq<string>, totals: map<string, nat>) returns (best: nat)
    requires cats != []
    requires forall c :: c in cats ==> c in totals
    ensures best < |cats|
    ensures forall j :: 0 <= j < |cats| ==> totals[cats[j]] <= totals[cats[best]]
    ensures forall j :: 0 <= j < best ==> totals[cats[j]] < totals[cats[best]]
  {
    best := 0;
    var j := 1;
    while j < |cats|
      invariant best < j <= |cats|
      invariant forall k :: 0 <= k < j ==> totals[cats[k]] <= totals[cats[best]]
      invariant forall k :: 0 <= k < best ==> totals[cats[k]] < totals[cats[best]]
    {
      if totals[cats[j]] > totals[cats[best]] {
        best := j;
      }
      j := j + 1;
    }
  }

  /** `c` is the category at index `i` of `cats`, with the largest total and none as large before it. */
  ghost predicate TopAt(s: seq<Transaction>, cats: seq<string>, i: int) {
    && 0 <= i < |cats|
    && (forall j :: 0 <= j < |cats| ==> CategoryTotal(s, cats[j]) <= CategoryTotal(s, cats[i]))
    && (forall j :: 0 <= j < i ==> CategoryTotal(s, cats[j]) < CategoryTotal(s, cats[i]))
  }

  /** At most one index satisfies the tie rule, so the tip is determined by the list. */
  lemma TopIsUnique(s: seq<Transaction>, cats: seq<string>, i: int, j: int)
    requires TopAt(s, cats, i) && TopAt(s, cats, j)
    ensures i == j
  {
    assert CategoryTotal(s, cats[i]) <= CategoryTotal(s, cats[j]);
    assert CategoryTotal(s, cats[j]) <= CategoryTotal(s, cats[i]);
  }

  /** The tip shown in the amber card. */
  datatype Tip = Tip(category: string, total: nat, saving: real)

  /** There are no categories to rank exactly when no record is a 'chi'. */
  lemma NoCategoriesWithoutExpenses(ts: seq<Transaction>)
    ensures Categories(Expenses(ts)) == [] <==> forall t :: t in ts ==> t.kind != Chi
  {
    var spent := Expenses(ts);
    if Categories(spent) == [] {
      forall t | t in ts ensures t.kind != Chi {
        if t.kind == Chi {
          assert t in spent;
          CategoriesCover(spent, t.category);
        }
      }
    } else {
      CategoriesCover(spent, Categories(spent)[0]);
    }
  }

  /** The stored totals ranked by `FirstLargest` rank the categories by their true totals. */
  lemma TopFromTotals(s: seq<Transaction>, cats: seq<string>, totals: map<string, nat>, best: nat)
    requires TotalsOf(s, cats, totals) && best < |cats|
    requires forall j :: 0 <= j < |cats| ==> totals[cats[j]] <= totals[cats[best]]
    requires forall j :: 0 <= j < best ==> totals[cats[j]] < totals[cats[best]]
    ensures TopAt(s, cats, best)
  {
    forall j | 0 <= j < |cats| ensures totals[cats[j]] == CategoryTotal(s, cats[j]) {
      assert cats[j] in cats;
    }
  }

  /** script.js:161-171: the top category and 15 percent of its total, or nothing without expenses. */
  method SavingTip(ts: seq<Transaction>) returns (tip: Option<Tip>)
    ensures tip.None? <==> forall t :: t in ts ==> t.kind != Chi
    ensures tip.Some? ==>
      var cats := Categories(Expenses(ts));
      && (exists i :: TopAt(Expenses(ts), cats, i) && cats[i] == tip.value.category)
      && tip.value.total == CategoryTotal(Expenses(ts), tip.value.category)
      && tip.value.saving == SavingRate * tip.value.total as real
  {
    var cats, totals := CategoryTotals(ts);
    NoCategoriesWithoutExpenses(ts);
    if cats == [] {
      tip := None;
    } else {
      assert forall c :: c in cats ==> c in totals;
      var best := FirstLargest(cats, totals);
      var c := cats[best];
      tip := Some(Tip(c, totals[c], SavingRate * totals[c] as real));
      TopFromTotals(Expenses(ts), cats, totals, best);
      assert cats[best] in cats;
    }
  }

  /**
   * A worked case: two 'chi' records of "Di chuyển" totalling 2,000,000 and
   * an income of another category make "Di chuyển" the only ranked category,
   * with a suggested saving of 300,000.
   */
  lemma TipExample(a: Transaction, i: Transaction, b: Transaction)
    requires a == Transaction("3", Chi, Date(2025, 4, 9), "Di chuyển", 1_200_000, "")
    requires i == Transaction("2", Thu, Date(2025, 4, 2), "Khác", 5_000_000, "")
    requires b == Transaction("1", Chi, Date(2025, 4, 1), "Di chuyển", 800_000, "")
    ensures var ts := [a, i, b];
      && Categories(Expenses(ts)) == ["Di chuyển"]
      && CategoryTotal(Expenses(ts), "Di chuyển") == 2_000_000
      && TopAt(Expenses(ts), ["Di chuyển"], 0)
      && SavingRate * CategoryTotal(Expenses(ts), "Di chuyển") as real == 300_000.0
  {
    var ts, spent := [a, i, b], [a, b];
    assert Expenses(ts) == spent by {
      assert ts == [a] + ([i] + ([b] + []));
      FilterCons(b, [], IsExpense);
      FilterCons(i, [b] + [], IsExpense);
      FilterCons(a, [i] + ([b] + []), IsExpense);
      assert Filter([], IsExpense) == [];
    }
    assert Categories(spent) == ["Di chuyển"] by {
      assert spent[..1] == [a] && [a][..0] == [];
    }
    assert CategoryTotal(spent, "Di chuyển") == 2_000_000 by {
      FilterAll(spent, HasCategory("Di chuyển"));
      assert spent == [a] + [b];
      SumCons(a, [b]);
      SumOne(b);
    }
  }

  datatype Option<T> = None | Some(value: T)
}
