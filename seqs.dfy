/** Sequence helpers shared by the dashboard model: sums, distinctness,
    the set of elements of a sequence and subsequences. */
module Seqs {

  /** Sum of a sequence of naturals. */
  function Sum(s: seq<nat>): nat
  {
    if |s| == 0 then 0 else s[0] + Sum(s[1..])
  }

  /** The set of elements of `s`. */
  function Elements<T>(s: seq<T>): set<T>
  {
    set i | 0 <= i < |s| :: s[i]
  }

  /** No element of `s` occurs twice. */
  ghost predicate NoDup<T>(s: seq<T>)
  {
    forall i, j :: 0 <= i < j < |s| ==> s[i] != s[j]
  }

  lemma ElementsCons<T>(x: T, s: seq<T>)
    ensures Elements([x] + s) == {x} + Elements(s)
  {
    var t := [x] + s;
    forall y | y in Elements(t) ensures y in {x} + Elements(s) {
      var i :| 0 <= i < |t| && t[i] == y;
      if i > 0 { assert s[i - 1] == y; }
    }
    forall y | y in {x} + Elements(s) ensures y in Elements(t) {
      if y == x { assert t[0] == y; } else {
        var i :| 0 <= i < |s| && s[i] == y;
        assert t[i + 1] == y;
      }
    }
  }

  /** A sequence has at most as many distinct elements as it has positions. */
  lemma {:induction false} ElementsCard<T>(s: seq<T>)
    ensures |Elements(s)| <= |s|
  {
    if |s| > 0 {
      ElementsCons(s[0], s[1..]);
      assert [s[0]] + s[1..] == s;
      ElementsCard(s[1..]);
    }
  }

  /** A sequence without duplicates has exactly as many distinct elements as positions. */
  lemma {:induction false} NoDupCard<T>(s: seq<T>)
    requires NoDup(s)
    ensures |Elements(s)| == |s|
  {
    if |s| > 0 {
      ElementsCons(s[0], s[1..]);
      assert [s[0]] + s[1..] == s;
      assert s[0] !in Elements(s[1..]) by {
        forall i | 0 <= i < |s[1..]| ensures s[1..][i] != s[0] {
          assert s[1..][i] == s[i + 1];
        }
      }
      NoDupCard(s[1..]);
    }
  }

  /** `a` is obtained from `b` by deleting some positions, keeping the order of the rest. */
  predicate IsSubsequence<T(==)>(a: seq<T>, b: seq<T>)
    decreases |b|
  {
    if |a| == 0 then true
    else if |b| == 0 then false
    else if a[0] == b[0] then IsSubsequence(a[1..], b[1..])
    else IsSubsequence(a, b[1..])
  }

  /** The distinct elements of `s`, each once (pandas `unique()`). The order,
      first occurrence first, is not part of the contract. */
  function Distinct<T(==)>(s: seq<T>): (d: seq<T>)
    ensures NoDup(d)
    ensures Elements(d) == Elements(s)
  {
    if |s| == 0 then []
    else
      var d := Distinct(s[..|s| - 1]);
      var x := s[|s| - 1];
      assert s == s[..|s| - 1] + [x];
      assert Elements(s) == Elements(s[..|s| - 1]) + {x} by {
        forall y | y in Elements(s) ensures y in Elements(s[..|s| - 1]) + {x} {
          var i :| 0 <= i < |s| && s[i] == y;
          if i < |s| - 1 { assert s[..|s| - 1][i] == y; }
        }
      }
      if x in d then d
      else
        assert Elements(d + [x]) == Elements(d) + {x} by {
          assert forall i :: 0 <= i < |d| ==> (d + [x])[i] == d[i];
          assert (d + [x])[|d|] == x;
        }
        d + [x]
  }

  /** `Distinct(s)` has one position per distinct value of `s`, so never more than `s`. */
  lemma {:induction false} DistinctCard<T>(s: seq<T>)
    ensures |Elements(Distinct(s))| == |Distinct(s)| <= |s|
  {
    NoDupCard(Distinct(s));
    ElementsCard(s);
  }
}
