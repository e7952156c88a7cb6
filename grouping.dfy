/** `groupby(key)[col].sum()` and `groupby(key).size()`: one entry per distinct
    key, keys in ascending order (groupby sorts its keys by default), each
    entry holding the sum of the column over the rows with that key. */
module Grouping {
  import opened Seqs
  import opened Orders

  /** Sum of `val` over the rows whose key is `k`. */
  function SumWhere<T, K(==)>(rows: seq<T>, key: T -> K, val: T -> nat, k: K): nat
  {
    if |rows| == 0 then 0
    else (if key(rows[0]) == k then val(rows[0]) else 0) + SumWhere(rows[1..], key, val, k)
  }

  /** Sum of `val` over all rows. */
  function Total<T>(rows: seq<T>, val: T -> nat): nat
  {
    if |rows| == 0 then 0 else val(rows[0]) + Total(rows[1..], val)
  }

  /** The keys that occur in `rows`. */
  function KeysOf<T, K>(rows: seq<T>, key: T -> K): set<K>
  {
    set i | 0 <= i < |rows| :: key(rows[i])
  }

  /** The keys of a grouped result, in order. */
  function GroupKeys<K>(gs: seq<(K, nat)>): (ks: seq<K>)
    ensures |ks| == |gs| && forall i :: 0 <= i < |gs| ==> ks[i] == gs[i].0
  {
    seq(|gs|, i requires 0 <= i < |gs| => gs[i].0)
  }

  /** Sum of the measures of a grouped result. */
  function SumValues<K>(gs: seq<(K, nat)>): nat
  {
    if |gs| == 0 then 0 else gs[0].1 + SumValues(gs[1..])
  }

  /** The keys of `gs` strictly ascend under `lt`. */
  ghost predicate Ascending<K>(gs: seq<(K, nat)>, lt: (K, K) -> bool)
  {
    forall i, j :: 0 <= i < j < |gs| ==> lt(gs[i].0, gs[j].0)
  }

  /** The measure stored under `k`, 0 when `k` is absent. */
  function Lookup<K(==)>(gs: seq<(K, nat)>, k: K): nat
  {
    if |gs| == 0 then 0 else if gs[0].0 == k then gs[0].1 else Lookup(gs[1..], k)
  }

  /** Adds `v` to the entry for `k`, creating it in its sorted place if absent. */
  function Insert<K(==)>(gs: seq<(K, nat)>, k: K, v: nat, lt: (K, K) -> bool): (r: seq<(K, nat)>)
    ensures |r| == |gs| || |r| == |gs| + 1
    ensures |r| > 0
  {
    if |gs| == 0 then [(k, v)]
    else if gs[0].0 == k then [(k, gs[0].1 + v)] + gs[1..]
    else if lt(k, gs[0].0) then [(k, v)] + gs
    else [gs[0]] + Insert(gs[1..], k, v, lt)
  }

  /** The grouped sums of `val` by `key`: at most one entry per row, and at
      least one entry as soon as there is a row. */
  function GroupSum<T, K(==)>(rows: seq<T>, key: T -> K, val: T -> nat, lt: (K, K) -> bool): (gs: seq<(K, nat)>)
    ensures |gs| <= |rows|
    ensures |rows| > 0 ==> |gs| > 0
  {
    if |rows| == 0 then []
    else Insert(GroupSum(rows[1..], key, val, lt), key(rows[0]), val(rows[0]), lt)
  }

  lemma {:induction false} LookupAbsent<K>(gs: seq<(K, nat)>, k: K)
    requires k !in Elements(GroupKeys(gs))
    ensures Lookup(gs, k) == 0
  {
    if |gs| > 0 {
      assert gs[0].0 == GroupKeys(gs)[0];
      assert Elements(GroupKeys(gs[1..])) <= Elements(GroupKeys(gs)) by {
        forall x | x in Elements(GroupKeys(gs[1..])) ensures x in Elements(GroupKeys(gs)) {
          var i :| 0 <= i < |gs[1..]| && GroupKeys(gs[1..])[i] == x;
          assert GroupKeys(gs)[i + 1] == x;
        }
      }
      LookupAbsent(gs[1..], k);
    }
  }

  lemma GroupKeysCons<K>(g: (K, nat), gs: seq<(K, nat)>)
    ensures Elements(GroupKeys([g] + gs)) == {g.0} + Elements(GroupKeys(gs))
  {
    assert GroupKeys([g] + gs) == [g.0] + GroupKeys(gs);
    ElementsCons(g.0, GroupKeys(gs));
  }

  lemma AscendingTail<K>(gs: seq<(K, nat)>, lt: (K, K) -> bool)
    requires |gs| > 0 && Ascending(gs, lt)
    ensures Ascending(gs[1..], lt)
    ensures forall x :: x in Elements(GroupKeys(gs[1..])) ==> lt(gs[0].0, x)
  {
    forall x | x in Elements(GroupKeys(gs[1..])) ensures lt(gs[0].0, x) {
      var i :| 0 <= i < |gs[1..]| && GroupKeys(gs[1..])[i] == x;
      assert gs[i + 1].0 == x;
    }
  }

  lemma AscendingCons<K>(g: (K, nat), gs: seq<(K, nat)>, lt: (K, K) -> bool)
    requires Ascending(gs, lt)
    requires forall x :: x in Elements(GroupKeys(gs)) ==> lt(g.0, x)
    ensures Ascending([g] + gs, lt)
  {
    var t := [g] + gs;
    forall i, j | 0 <= i < j < |t| ensures lt(t[i].0, t[j].0) {
      assert t[j] == gs[j - 1];
      if i == 0 {
        assert GroupKeys(gs)[j - 1] == t[j].0;
      } else {
        assert t[i] == gs[i - 1];
      }
    }
  }

  /** Inserting adds `k` to the keys. */
  lemma {:induction false} InsertKeys<K>(gs: seq<(K, nat)>, k: K, v: nat, lt: (K, K) -> bool)
    ensures Elements(GroupKeys(Insert(gs, k, v, lt))) == Elements(GroupKeys(gs)) + {k}
  {
    if |gs| == 0 {
      GroupKeysCons((k, v), gs);
      assert Elements(GroupKeys(gs)) == {};
    } else {
      GroupKeysCons(gs[0], gs[1..]);
      assert gs == [gs[0]] + gs[1..];
      if gs[0].0 == k {
        GroupKeysCons((k, gs[0].1 + v), gs[1..]);
      } else if lt(k, gs[0].0) {
        GroupKeysCons((k, v), gs);
      } else {
        InsertKeys(gs[1..], k, v, lt);
        GroupKeysCons(gs[0], Insert(gs[1..], k, v, lt));
      }
    }
  }

  /** Inserting adds `v` to the grand total. */
  lemma {:induction false} InsertSum<K>(gs: seq<(K, nat)>, k: K, v: nat, lt: (K, K) -> bool)
    ensures SumValues(Insert(gs, k, v, lt)) == SumValues(gs) + v
  {
    if |gs| > 0 && gs[0].0 != k && !lt(k, gs[0].0) {
      InsertSum(gs[1..], k, v, lt);
    }
  }

  /** Inserting keeps the keys ascending. */
  lemma {:induction false} InsertAscending<K(!new)>(gs: seq<(K, nat)>, k: K, v: nat, lt: (K, K) -> bool)
    requires StrictTotalOrder(lt)
    requires Ascending(gs, lt)
    ensures Ascending(Insert(gs, k, v, lt), lt)
  {
    if |gs| == 0 {
    } else if gs[0].0 == k {
      AscendingTail(gs, lt);
      AscendingCons((k, gs[0].1 + v), gs[1..], lt);
    } else if lt(k, gs[0].0) {
      AscendingTail(gs, lt);
      GroupKeysCons(gs[0], gs[1..]);
      assert gs == [gs[0]] + gs[1..];
      AscendingCons((k, v), gs, lt);
    } else {
      AscendingTail(gs, lt);
      InsertAscending(gs[1..], k, v, lt);
      InsertKeys(gs[1..], k, v, lt);
      assert lt(gs[0].0, k);
      AscendingCons(gs[0], Insert(gs[1..], k, v, lt), lt);
    }
  }

  /** Inserting adds `v` to the measure of `k` and changes no other measure. */
  lemma {:induction false} InsertLookup<K(!new)>(gs: seq<(K, nat)>, k: K, v: nat, lt: (K, K) -> bool)
    requires StrictTotalOrder(lt)
    requires Ascending(gs, lt)
    ensures forall x :: Lookup(Insert(gs, k, v, lt), x) == Lookup(gs, x) + (if x == k then v else 0)
  {
    if |gs| == 0 {
    } else if gs[0].0 == k {
    } else if lt(k, gs[0].0) {
      AscendingTail(gs, lt);
      GroupKeysCons(gs[0], gs[1..]);
      assert gs == [gs[0]] + gs[1..];
      assert k !in Elements(GroupKeys(gs));
      LookupAbsent(gs, k);
    } else {
      AscendingTail(gs, lt);
      InsertLookup(gs[1..], k, v, lt);
    }
  }

  lemma KeysOfCons<T, K>(rows: seq<T>, key: T -> K)
    requires |rows| > 0
    ensures KeysOf(rows, key) == KeysOf(rows[1..], key) + {key(rows[0])}
  {
    forall x | x in KeysOf(rows, key) ensures x in KeysOf(rows[1..], key) + {key(rows[0])} {
      var i :| 0 <= i < |rows| && key(rows[i]) == x;
      if i > 0 { assert key(rows[1..][i - 1]) == x; }
    }
    forall x | x in KeysOf(rows[1..], key) ensures x in KeysOf(rows, key) {
      var i :| 0 <= i < |rows[1..]| && key(rows[1..][i]) == x;
      assert key(rows[i + 1]) == x;
    }
  }

  /** What `groupby(key)[val].sum()` promises: keys ascending (so each key
      once), exactly the keys that occur in `rows`, each with the sum of `val`
      over its rows, and the measures adding up to the column's total. */
  lemma {:induction false} GroupSumSpec<T, K(!new)>(rows: seq<T>, key: T -> K, val: T -> nat, lt: (K, K) -> bool)
    requires StrictTotalOrder(lt)
    ensures Ascending(GroupSum(rows, key, val, lt), lt)
    ensures Elements(GroupKeys(GroupSum(rows, key, val, lt))) == KeysOf(rows, key)
    ensures forall x :: Lookup(GroupSum(rows, key, val, lt), x) == SumWhere(rows, key, val, x)
    ensures SumValues(GroupSum(rows, key, val, lt)) == Total(rows, val)
  {
    if |rows| == 0 {
      assert GroupKeys(GroupSum(rows, key, val, lt)) == [];
    } else {
      GroupSumSpec(rows[1..], key, val, lt);
      var gs := GroupSum(rows[1..], key, val, lt);
      InsertKeys(gs, key(rows[0]), val(rows[0]), lt);
      InsertSum(gs, key(rows[0]), val(rows[0]), lt);
      InsertAscending(gs, key(rows[0]), val(rows[0]), lt);
      InsertLookup(gs, key(rows[0]), val(rows[0]), lt);
      KeysOfCons(rows, key);
    }
  }

  /** In a result with ascending keys, the entry at position `i` is what
      `Lookup` finds for its key. */
  lemma {:induction false} LookupAt<K(!new)>(gs: seq<(K, nat)>, lt: (K, K) -> bool, i: nat)
    requires StrictTotalOrder(lt) && Ascending(gs, lt) && i < |gs|
    ensures Lookup(gs, gs[i].0) == gs[i].1
  {
    if i > 0 {
      assert lt(gs[0].0, gs[i].0);
      AscendingTail(gs, lt);
      LookupAt(gs[1..], lt, i - 1);
    }
  }

  /** Ascending keys are pairwise distinct. */
  lemma AscendingNoDup<K(!new)>(gs: seq<(K, nat)>, lt: (K, K) -> bool)
    requires StrictTotalOrder(lt) && Ascending(gs, lt)
    ensures NoDup(GroupKeys(gs))
  {
    forall i, j | 0 <= i < j < |gs| ensures GroupKeys(gs)[i] != GroupKeys(gs)[j] {
      assert lt(gs[i].0, gs[j].0);
    }
  }

  /** The measure of a row when rows are counted (`size()`). */
  function One<T>(x: T): nat
  {
    1
  }

  /** A key that occurs in `rows` has a positive row count. */
  lemma {:induction false} CountPositive<T, K>(rows: seq<T>, key: T -> K, k: K)
    requires k in KeysOf(rows, key)
    ensures SumWhere(rows, key, One, k) >= 1
  {
    if key(rows[0]) != k {
      KeysOfCons(rows, key);
      CountPositive(rows[1..], key, k);
    }
  }

  /** Counting rows is summing the constant 1. */
  lemma {:induction false} TotalOne<T>(rows: seq<T>)
    ensures Total(rows, One) == |rows|
  {
    if |rows| > 0 { TotalOne(rows[1..]); }
  }

  /** `GroupSumSpec` read position by position: one entry per distinct key
      (as many entries as keys), each holding its key's sum. */
  lemma GroupSumEntries<T, K(!new)>(rows: seq<T>, key: T -> K, val: T -> nat, lt: (K, K) -> bool)
    requires StrictTotalOrder(lt)
    ensures var gs := GroupSum(rows, key, val, lt);
      && Ascending(gs, lt)
      && NoDup(GroupKeys(gs))
      && Elements(GroupKeys(gs)) == KeysOf(rows, key)
      && |gs| == |KeysOf(rows, key)|
      && (forall i :: 0 <= i < |gs| ==> gs[i].1 == SumWhere(rows, key, val, gs[i].0))
      && SumValues(gs) == Total(rows, val)
  {
    var gs := GroupSum(rows, key, val, lt);
    GroupSumSpec(rows, key, val, lt);
    AscendingNoDup(gs, lt);
    NoDupCard(GroupKeys(gs));
    forall i | 0 <= i < |gs| ensures gs[i].1 == SumWhere(rows, key, val, gs[i].0) {
      LookupAt(gs, lt, i);
    }
  }
}
