/** The age chart: `pd.cut(age, bins, labels, right=False)` with the edges
    10, 20, ..., 80, 100, and the number of rows in each age group. */
module AgeGroups {
  import opened Seqs
  import opened Wrappers
  import opened Events

  const AGE_BINS: seq<int> := [10, 20, 30, 40, 50, 60, 70, 80, 100]
  const AGE_LABELS: seq<string> := ["10-20", "20-30", "30-40", "40-50", "50-60", "60-70", "70-80", "80+"]

  ghost predicate StrictlyIncreasing(edges: seq<int>)
  {
    forall i, j :: 0 <= i < j < |edges| ==> edges[i] < edges[j]
  }

  /** `pd.cut(x, edges, right=False)`: the index of the left-closed,
      right-open bin holding `x`, or no bin (NaN) when `x` lies outside
      [first edge, last edge). */
  function Cut(edges: seq<int>, x: int): (b: Option<nat>)
    requires StrictlyIncreasing(edges)
    ensures b.Some? ==> b.value + 1 < |edges| && edges[b.value] <= x < edges[b.value + 1]
    ensures b.None? <==> |edges| < 2 || x < edges[0] || edges[|edges| - 1] <= x
  {
    if |edges| < 2 || x < edges[0] then None
    else if x < edges[1] then Some(0)
    else
      match Cut(edges[1..], x)
      case None => None
      case Some(i) => Some(i + 1)
  }

  /** The age group of one age, as an index into `AGE_LABELS`. */
  function AgeGroup(age: int): (b: Option<nat>)
    ensures b.Some? ==> b.value < |AGE_LABELS|
  {
    Cut(AGE_BINS, age)
  }

  /** An age in [10, 80) falls in the decade bin that contains it, an age in
      [80, 100) in '80+', and any other age in no group. */
  lemma AgeGroupSpec(age: int)
    ensures 10 <= age < 80 ==>
      && AgeGroup(age) == Some(age / 10 - 1)
      && AGE_BINS[age / 10 - 1] == 10 * (age / 10) <= age < 10 * (age / 10) + 10 == AGE_BINS[age / 10]
    ensures 80 <= age < 100 ==> AgeGroup(age) == Some(7) && AGE_LABELS[7] == "80+"
    ensures AgeGroup(age).None? <==> age < 10 || 100 <= age
  {
    var b := AgeGroup(age);
    if b.Some? {
      var i := b.value;
      assert i == 0 || i == 1 || i == 2 || i == 3 || i == 4 || i == 5 || i == 6 || i == 7;
    }
  }

  /** Rows in [10, 100), the ages that get a group. */
  function CountGrouped(view: seq<Event>): (n: nat)
    ensures n <= |view|
  {
    if |view| == 0 then 0
    else (if 10 <= view[0].age < 100 then 1 else 0) + CountGrouped(view[1..])
  }

  /** The number of rows of `view` in age group `i`. */
  function CountInGroup(view: seq<Event>, i: nat): nat
  {
    if |view| == 0 then 0
    else (if AgeGroup(view[0].age) == Some(i) then 1 else 0) + CountInGroup(view[1..], i)
  }

  lemma {:induction false} SumUpdate(h: seq<nat>, i: nat, v: nat)
    requires i < |h|
    ensures Sum(h[i := v]) + h[i] == Sum(h) + v
  {
    if i > 0 {
      assert h[i := v][1..] == h[1..][i - 1 := v];
      SumUpdate(h[1..], i - 1, v);
    }
  }

  lemma {:induction false} SumZeros(n: nat)
    ensures Sum(seq(n, _ => 0)) == 0
  {
    if n > 0 {
      assert seq(n, _ => 0)[1..] == seq(n - 1, _ => 0);
      SumZeros(n - 1);
    }
  }

  /** `age_count`: the number of rows in each age group, in bin order with
      empty groups counted as 0; the counts add up to the rows with an age
      in [10, 100). */
  function AgeCounts(view: seq<Event>): (h: seq<nat>)
    ensures |h| == |AGE_LABELS|
    ensures forall i :: 0 <= i < |h| ==> h[i] == CountInGroup(view, i)
    ensures Sum(h) == CountGrouped(view)
  {
    if |view| == 0 then
      SumZeros(|AGE_LABELS|);
      seq(|AGE_LABELS|, _ => 0)
    else
      var h := AgeCounts(view[1..]);
      AgeGroupSpec(view[0].age);
      match AgeGroup(view[0].age)
      case None => h
      case Some(i) =>
        SumUpdate(h, i, h[i] + 1);
        h[i := h[i] + 1]
  }
}
