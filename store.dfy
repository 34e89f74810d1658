/**
 * The `transactions` list and the three handlers that change it: the form
 * submit prepends a record, the delete button drops every record with the
 * given id, and the reset button empties the list. Confirmation dialogs are
 * taken as answered "OK". The "recent" panel shows the head of the list.
 */
module Store {
  import opened Ledger

  /** How many records the recent panel shows. */
  const RecentCount := 5

  /** The records whose id differs from `id`, in their original order. */
  function WithoutId(s: seq<Transaction>, id: string): (r: seq<Transaction>)
    ensures |r| <= |s|
    ensures forall x :: x in r <==> x in s && x.id != id
  {
    Filter(s, (t: Transaction) => t.id != id)
  }

  /** script.js:71: the head of the list, at most five records. */
  function Recent(s: seq<Transaction>): (r: seq<Transaction>)
    ensures |r| <= RecentCount
    ensures r <= s
    ensures |r| == Min(RecentCount, |s|)
  {
    s[..Min(RecentCount, |s|)]
  }

  /** No two records share an id. */
  ghost predicate UniqueIds(s: seq<Transaction>) {
    forall i, j :: 0 <= i < j < |s| ==> s[i].id != s[j].id
  }

  /** The record list the page works on. */
  class TransactionStore {
    var items: seq<Transaction>

    /** script.js:7: the list parsed from storage, or empty when nothing was saved. */
    constructor (loaded: seq<Transaction>)
      ensures items == loaded
    {
      items := loaded;
    }

    /** script.js:297: the new record goes to the front; the rest stays as it was. */
    method Add(t: Transaction)
      modifies this
      ensures items == [t] + old(items)
      ensures items[0] == t && items[1..] == old(items)
      ensures Balance(items) == Balance(old(items)) + Signed(t)
      ensures Recent(items)[0] == t
    {
      items := [t] + items;
      BalanceCons(t, old(items));
    }

    /** script.js:306: every record with this id goes; the others keep their order. */
    method Delete(id: string)
      modifies this
      ensures items == WithoutId(old(items), id)
      ensures forall x :: x in items ==> x.id != id
    {
      items := WithoutId(items, id);
    }

    /** script.js:314: the list becomes empty. */
    method Reset()
      modifies this
      ensures items == []
      ensures Balance(items) == 0
    {
      items := [];
    }
  }

  /** Deleting an id no record carries changes nothing. */
  lemma DeleteAbsentId(s: seq<Transaction>, id: string)
    requires forall x :: x in s ==> x.id != id
    ensures WithoutId(s, id) == s
  {
    FilterAll(s, (t: Transaction) => t.id != id);
  }

  /** Deleting keeps relative order: deleting from a concatenation deletes from each part. */
  lemma DeleteKeepsOrder(a: seq<Transaction>, b: seq<Transaction>, id: string)
    ensures WithoutId(a + b, id) == WithoutId(a, id) + WithoutId(b, id)
  {
    FilterAppend(a, b, (t: Transaction) => t.id != id);
  }

  /** Deleting an id twice is the same as deleting it once. */
  lemma DeleteIdempotent(s: seq<Transaction>, id: string)
    ensures WithoutId(WithoutId(s, id), id) == WithoutId(s, id)
  {
    DeleteAbsentId(WithoutId(s, id), id);
  }

  /** With unique ids, no record other than the `k`-th carries its id. */
  lemma OthersLackId(s: seq<Transaction>, k: int)
    requires 0 <= k < |s| && UniqueIds(s)
    ensures forall x :: x in s[..k] ==> x.id != s[k].id
    ensures forall x :: x in s[k + 1..] ==> x.id != s[k].id
  {
    forall x | x in s[..k] ensures x.id != s[k].id {
      var j :| 0 <= j < k && s[..k][j] == x;
      assert s[j] == x;
    }
    forall x | x in s[k + 1..] ensures x.id != s[k].id {
      var j :| 0 <= j < |s| - k - 1 && s[k + 1..][j] == x;
      assert s[k + 1 + j] == x;
    }
  }

  /** With unique ids, deleting a record's id removes exactly that record. */
  lemma DeleteUnique(s: seq<Transaction>, k: int)
    requires 0 <= k < |s| && UniqueIds(s)
    ensures WithoutId(s, s[k].id) == s[..k] + s[k + 1..]
  {
    var id := s[k].id;
    var before, after := s[..k], s[k + 1..];
    assert s == (before + [s[k]]) + after;
    OthersLackId(s, k);
    assert WithoutId([s[k]], id) == [] by {
      FilterCons(s[k], [], (t: Transaction) => t.id != id);
    }
    assert WithoutId(before + [s[k]], id) == before by {
      DeleteKeepsOrder(before, [s[k]], id);
      DeleteAbsentId(before, id);
    }
    assert WithoutId(after, id) == after by {
      DeleteAbsentId(after, id);
    }
    DeleteKeepsOrder(before + [s[k]], after, id);
  }

  /** With unique ids, deleting a record moves the balance back by that record's signed amount. */
  lemma DeleteUniqueBalance(s: seq<Transaction>, k: int)
    requires 0 <= k < |s| && UniqueIds(s)
    ensures Balance(WithoutId(s, s[k].id)) == Balance(s) - Signed(s[k])
  {
    DeleteUnique(s, k);
    BalanceRemoveAt(s, k);
  }

  /** Adding a record with a fresh id and then deleting that id restores the list. */
  lemma AddThenDelete(t: Transaction, s: seq<Transaction>)
    requires forall x :: x in s ==> x.id != t.id
    ensures WithoutId([t] + s, t.id) == s
  {
    DeleteKeepsOrder([t], s, t.id);
    FilterCons(t, [], (x: Transaction) => x.id != t.id);
    DeleteAbsentId(s, t.id);
  }

  /** A record with a fresh id keeps the ids unique. */
  lemma AddKeepsUniqueIds(t: Transaction, s: seq<Transaction>)
    requires UniqueIds(s)
    requires forall x :: x in s ==> x.id != t.id
    ensures UniqueIds([t] + s)
  {
    var s' := [t] + s;
    forall i, j | 0 <= i < j < |s'| ensures s'[i].id != s'[j].id {
      if i == 0 {
        assert s'[j] == s[j - 1];
        assert s[j - 1] in s;
      } else {
        assert s'[i] == s[i - 1] && s'[j] == s[j - 1];
      }
    }
  }

  /** Removing records keeps the ids unique. */
  lemma {:induction false} DeleteKeepsUniqueIds(s: seq<Transaction>, id: string)
    requires UniqueIds(s)
    ensures UniqueIds(WithoutId(s, id))
    decreases |s|
  {
    if s != [] {
      var rest := s[1..];
      assert UniqueIds(rest) by {
        forall i, j | 0 <= i < j < |rest| ensures rest[i].id != rest[j].id {
          assert rest[i] == s[i + 1] && rest[j] == s[j + 1];
        }
      }
      DeleteKeepsUniqueIds(rest, id);
      assert s == [s[0]] + rest;
      DeleteKeepsOrder([s[0]], rest, id);
      FilterCons(s[0], [], (t: Transaction) => t.id != id);
      if s[0].id != id {
        forall x | x in WithoutId(rest, id) ensures x.id != s[0].id {
          var j :| 0 <= j < |rest| && rest[j] == x;
          assert s[j + 1] == x;
        }
        AddKeepsUniqueIds(s[0], WithoutId(rest, id));
      }
    }
  }

  /** After an add, the recent panel is the new record followed by the old panel, cut to five. */
  lemma RecentAfterAdd(t: Transaction, s: seq<Transaction>)
    ensures Recent([t] + s) == ([t] + Recent(s))[..Min(RecentCount, |s| + 1)]
  {
  }
}
