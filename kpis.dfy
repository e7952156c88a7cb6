/** The four KPI cards: `total_users`, `unique_ads`, `most_common_gender` and
    `average_age`, with their fixed values on an empty view. */
module Kpis {
  import opened Seqs
  import opened Orders
  import opened Events
  import opened Grouping
  import opened Filtering
  import opened Aggregates

  datatype Kpis = Kpis(totalUsers: nat, uniqueAds: nat, mostCommonGender: string, averageAge: int)

  /** `filtered_data['ad_id'].nunique()`: the number of distinct ad ids, never
      more than the number of rows. */
  function UniqueAds(view: seq<Event>): (n: nat)
    ensures n == |KeysOf(view, AdOf)|
    ensures n <= |view|
  {
    var ids := AdIds(view);
    DistinctCard(ids);
    ElementsCard(ids);
    assert Elements(ids) == KeysOf(view, AdOf) by {
      forall x | x in KeysOf(view, AdOf) ensures x in Elements(ids) {
        var i :| 0 <= i < |view| && AdOf(view[i]) == x;
        assert ids[i] == x;
      }
    }
    |Distinct(ids)|
  }

  /** The first position holding a largest measure. */
  function MaxIndex<K>(gs: seq<(K, nat)>): (j: nat)
    requires |gs| > 0
    ensures j < |gs|
    ensures forall i :: 0 <= i < |gs| ==> gs[i].1 <= gs[j].1
    ensures forall i :: 0 <= i < j ==> gs[i].1 < gs[j].1
  {
    if |gs| == 1 then 0
    else
      var k := MaxIndex(gs[1..]) + 1;
      assert forall i :: 1 <= i < |gs| ==> gs[i] == gs[1..][i - 1];
      if gs[0].1 >= gs[k].1 then 0 else k
  }

  /** `filtered_data['gender'].mode()[0]`, or "N/A" on an empty view. `mode()`
      returns every most frequent value in sorted order, so the card shows the
      code-point-least gender among those with the largest count. */
  function MostCommonGender(view: seq<Event>): (g: string)
    ensures |view| == 0 ==> g == "N/A"
    ensures |view| > 0 ==> g in KeysOf(view, GenderOf)
    ensures |view| > 0 ==> forall h :: GenderCount(view, h) <= GenderCount(view, g)
    ensures |view| > 0 ==> forall h :: GenderCount(view, h) == GenderCount(view, g) ==> h == g || StrLt(g, h)
  {
    if |view| == 0 then "N/A"
    else
      var gc := GenderCounts(view);
      var j := MaxIndex(gc);
      var g := gc[j].0;
      StrLtIsStrictTotal();
      GroupSumSpec(view, GenderOf, One, StrLt);
      assert GroupKeys(gc)[j] == g;
      forall h ensures GenderCount(view, h) <= GenderCount(view, g)
        && (GenderCount(view, h) == GenderCount(view, g) ==> h == g || StrLt(g, h))
      {
        if h in Elements(GroupKeys(gc)) {
          var i :| 0 <= i < |gc| && GroupKeys(gc)[i] == h;
          assert gc[i].0 == h;
          if i < j { assert gc[i].1 < gc[j].1; }
          if i > j { assert StrLt(gc[j].0, gc[i].0); }
        } else {
          LookupAbsent(gc, h);
        }
      }
      g
  }

  lemma DivisionFacts(num: int, den: int)
    requires den > 0
    ensures 0 <= num % den < den
    ensures 2 * den * (num / den) == 2 * num - 2 * (num % den)
    ensures 2 * den * (num / den + 1) == 2 * num - 2 * (num % den) + 2 * den
  {
    var q, m := num / den, num % den;
    assert num == den * q + m;
    assert 2 * den * q == 2 * (den * q);
    assert 2 * den * (q + 1) == 2 * (den * q) + 2 * den;
  }

  /** Python's `round` of `num / den`: the nearest integer, ties to the even one. */
  function RoundHalfEven(num: int, den: int): (r: int)
    requires den > 0
    ensures 2 * num - den <= 2 * den * r <= 2 * num + den
    ensures (2 * den * r == 2 * num - den || 2 * den * r == 2 * num + den) ==> r % 2 == 0
  {
    var q, m := num / den, num % den;
    DivisionFacts(num, den);
    if 2 * m < den then q
    else if 2 * m > den then q + 1
    else if q % 2 == 0 then q
    else q + 1
  }

  lemma MulMonotone(a: int, x: int, y: int)
    requires a > 0
    ensures x <= y ==> a * x <= a * y
  {
    assert a * y - a * x == a * (y - x);
  }

  /** The two properties of `RoundHalfEven` determine its result. */
  lemma RoundHalfEvenUnique(num: int, den: int, r: int)
    requires den > 0
    requires 2 * num - den <= 2 * den * r <= 2 * num + den
    requires (2 * den * r == 2 * num - den || 2 * den * r == 2 * num + den) ==> r % 2 == 0
    ensures r == RoundHalfEven(num, den)
  {
    var s := RoundHalfEven(num, den);
    var d := r - s;
    assert 2 * den * r - 2 * den * s == 2 * den * d;
    MulMonotone(2 * den, 2, d);
    MulMonotone(2 * den, d, -2);
    assert -1 <= d <= 1;
    assert d == 1 ==> 2 * den * r == 2 * den * s + 2 * den;
    assert d == -1 ==> 2 * den * s == 2 * den * r + 2 * den;
  }

  /** Sum of the ages of `view`. */
  function AgeSum(view: seq<Event>): int
  {
    if |view| == 0 then 0 else view[0].age + AgeSum(view[1..])
  }

  /** `round(filtered_data['age'].mean())`, or 0 on an empty view. */
  function AverageAge(view: seq<Event>): (a: int)
    ensures |view| == 0 ==> a == 0
    ensures |view| > 0 ==> 2 * AgeSum(view) - |view| <= 2 * |view| * a <= 2 * AgeSum(view) + |view|
    ensures |view| > 0 && (2 * |view| * a == 2 * AgeSum(view) - |view| || 2 * |view| * a == 2 * AgeSum(view) + |view|) ==> a % 2 == 0
  {
    if |view| == 0 then 0 else RoundHalfEven(AgeSum(view), |view|)
  }

  /** The KPI cards for one view. */
  function ComputeKpis(view: seq<Event>): (k: Kpis)
    ensures k.totalUsers == |view|
    ensures k.uniqueAds <= k.totalUsers
    ensures |view| == 0 ==> k == Kpis(0, 0, "N/A", 0)
    ensures |view| > 0 ==> 1 <= k.uniqueAds && k.mostCommonGender in KeysOf(view, GenderOf)
  {
    assert |view| > 0 ==> AdOf(view[0]) in KeysOf(view, AdOf);
    Kpis(|view|, UniqueAds(view), MostCommonGender(view), AverageAge(view))
  }
}
