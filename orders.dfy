/** Orders used to sort group keys: the lexicographic order on integer
    sequences, and strings compared by code point, the way Python and pandas
    compare `str` values. */
module Orders {

  /** `lt` is a strict total order on K. */
  ghost predicate StrictTotalOrder<K(!new)>(lt: (K, K) -> bool)
  {
    && (forall x :: !lt(x, x))
    && (forall x, y, z :: lt(x, y) && lt(y, z) ==> lt(x, z))
    && (forall x, y :: x != y ==> lt(x, y) || lt(y, x))
  }

  /** Lexicographic order; a proper prefix precedes its extensions. */
  predicate LexLt(a: seq<int>, b: seq<int>)
    decreases |a|
  {
    if |a| == 0 then |b| > 0
    else if |b| == 0 then false
    else a[0] < b[0] || (a[0] == b[0] && LexLt(a[1..], b[1..]))
  }

  lemma {:induction false} LexLtIrreflexive(a: seq<int>)
    ensures !LexLt(a, a)
  {
    if |a| > 0 { LexLtIrreflexive(a[1..]); }
  }

  lemma {:induction false} LexLtTransitive(a: seq<int>, b: seq<int>, c: seq<int>)
    requires LexLt(a, b) && LexLt(b, c)
    ensures LexLt(a, c)
  {
    if |a| > 0 && |b| > 0 && |c| > 0 && a[0] == b[0] == c[0] {
      LexLtTransitive(a[1..], b[1..], c[1..]);
    }
  }

  lemma {:induction false} LexLtTotal(a: seq<int>, b: seq<int>)
    requires a != b
    ensures LexLt(a, b) || LexLt(b, a)
  {
    if |a| > 0 && |b| > 0 && a[0] == b[0] {
      assert a == [a[0]] + a[1..] && b == [b[0]] + b[1..];
      LexLtTotal(a[1..], b[1..]);
    }
  }

  /** Any order that compares keys through an injective encoding into integer
      sequences is a strict total order. */
  lemma PullbackIsStrictTotal<K(!new)>(lt: (K, K) -> bool, f: K -> seq<int>)
    requires forall x, y :: f(x) == f(y) ==> x == y
    requires forall x, y :: lt(x, y) == LexLt(f(x), f(y))
    ensures StrictTotalOrder(lt)
  {
    forall x ensures !lt(x, x) { LexLtIrreflexive(f(x)); }
    forall x, y, z | lt(x, y) && lt(y, z) ensures lt(x, z) {
      LexLtTransitive(f(x), f(y), f(z));
    }
    forall x, y | x != y ensures lt(x, y) || lt(y, x) { LexLtTotal(f(x), f(y)); }
  }

  /** The code points of a string. */
  function Codes(s: string): (r: seq<int>)
    ensures |r| == |s|
  {
    seq(|s|, i requires 0 <= i < |s| => s[i] as int)
  }

  /** Python's `<` on `str`: lexicographic by code point. */
  predicate StrLt(a: string, b: string)
  {
    LexLt(Codes(a), Codes(b))
  }

  lemma CodesInjective(x: string, y: string)
    requires Codes(x) == Codes(y)
    ensures x == y
  {
    assert forall i :: 0 <= i < |x| ==> x[i] as int == Codes(x)[i];
  }

  lemma StrLtIsStrictTotal()
    ensures StrictTotalOrder(StrLt)
  {
    forall x: string, y: string | Codes(x) == Codes(y) ensures x == y {
      CodesInjective(x, y);
    }
    PullbackIsStrictTotal(StrLt, Codes);
  }

  /** The order of integers, as used for integer `ad_id` keys. */
  predicate IntLt(a: int, b: int)
  {
    a < b
  }

  lemma IntLtIsStrictTotal()
    ensures StrictTotalOrder(IntLt)
  {
  }
}
