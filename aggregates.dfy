/** The grouped aggregations behind the charts: the time series of persons
    (`groupby('time')`), persons per ad (`groupby('ad_id')`), the hour-by-day
    counts (`groupby(['hour', 'day']).size()`) and the row count per gender
    behind the gender chart and the modal gender. */
module Aggregates {
  import opened Seqs
  import opened Orders
  import opened Events
  import opened Grouping

  function TimeOf(e: Event): Timestamp { e.time }
  function AdOf(e: Event): AdId { e.adId }
  function GenderOf(e: Event): string { e.gender }
  function PersonsOf(e: Event): nat { e.totalPersons }
  function HourDayOf(e: Event): (int, string) { (e.hour, e.day) }

  /** The order pandas sorts `(hour, day)` keys by: hour, then day name as a string. */
  predicate HourDayLt(a: (int, string), b: (int, string))
  {
    LexLt([a.0] + Codes(a.1), [b.0] + Codes(b.1))
  }

  lemma HourDayLtIsStrictTotal()
    ensures StrictTotalOrder(HourDayLt)
  {
    var f := (p: (int, string)) => [p.0] + Codes(p.1);
    forall x: (int, string), y: (int, string) | f(x) == f(y) ensures x == y {
      assert f(x)[0] == x.0 && f(y)[0] == y.0;
      assert f(x)[1..] == Codes(x.1) && f(y)[1..] == Codes(y.1);
      CodesInjective(x.1, y.1);
    }
    PullbackIsStrictTotal(HourDayLt, f);
  }

  /** `time_series`: per exact timestamp, ascending, the sum of `total_persons`. */
  function TimeSeries(view: seq<Event>): (ts: seq<(Timestamp, nat)>)
    ensures Ascending(ts, TimestampLt)
    ensures Elements(GroupKeys(ts)) == KeysOf(view, TimeOf) && |ts| == |KeysOf(view, TimeOf)|
    ensures forall i :: 0 <= i < |ts| ==> ts[i].1 == SumWhere(view, TimeOf, PersonsOf, ts[i].0)
    ensures SumValues(ts) == Total(view, PersonsOf)
  {
    TimestampLtIsStrictTotal();
    GroupSumEntries(view, TimeOf, PersonsOf, TimestampLt);
    GroupSum(view, TimeOf, PersonsOf, TimestampLt)
  }

  /** `persons_per_ad`: per ad id, ascending, the sum of `total_persons`. */
  function PersonsPerAd(view: seq<Event>): (pa: seq<(AdId, nat)>)
    ensures Ascending(pa, IntLt)
    ensures Elements(GroupKeys(pa)) == KeysOf(view, AdOf) && |pa| == |KeysOf(view, AdOf)|
    ensures forall i :: 0 <= i < |pa| ==> pa[i].1 == SumWhere(view, AdOf, PersonsOf, pa[i].0)
    ensures SumValues(pa) == Total(view, PersonsOf)
  {
    IntLtIsStrictTotal();
    GroupSumEntries(view, AdOf, PersonsOf, IntLt);
    GroupSum(view, AdOf, PersonsOf, IntLt)
  }

  /** `bar_data`: per observed `(hour, day)` pair the number of rows. Only
      observed pairs appear, every count is positive, the counts add up to
      the number of rows and, on prepared rows, every hour is in 0..23 and
      every day is a weekday name. */
  function BarData(view: seq<Event>): (bd: seq<((int, string), nat)>)
    ensures Ascending(bd, HourDayLt)
    ensures Elements(GroupKeys(bd)) == KeysOf(view, HourDayOf) && |bd| == |KeysOf(view, HourDayOf)|
    ensures forall i :: 0 <= i < |bd| ==> bd[i].1 == SumWhere(view, HourDayOf, One, bd[i].0) && bd[i].1 >= 1
    ensures SumValues(bd) == |view|
    ensures Prepared(view) ==> forall i :: 0 <= i < |bd| ==> 0 <= bd[i].0.0 <= 23 && bd[i].0.1 in WEEKDAY_NAMES
  {
    HourDayLtIsStrictTotal();
    GroupSumEntries(view, HourDayOf, One, HourDayLt);
    var bd := GroupSum(view, HourDayOf, One, HourDayLt);
    TotalOne(view);
    forall i | 0 <= i < |bd| ensures bd[i].1 >= 1 && (Prepared(view) ==> 0 <= bd[i].0.0 <= 23 && bd[i].0.1 in WEEKDAY_NAMES) {
      assert GroupKeys(bd)[i] == bd[i].0;
      assert bd[i].0 in KeysOf(view, HourDayOf);
      CountPositive(view, HourDayOf, bd[i].0);
    }
    bd
  }

  /** The number of rows of `view` whose gender is `g`. */
  function GenderCount(view: seq<Event>, g: string): nat
  {
    SumWhere(view, GenderOf, One, g)
  }

  /** `value_counts()` of the gender column: per gender the number of rows,
      every count positive, the counts adding up to the number of rows. The
      entries are kept in gender order. */
  function GenderCounts(view: seq<Event>): (gc: seq<(string, nat)>)
    ensures Ascending(gc, StrLt)
    ensures Elements(GroupKeys(gc)) == KeysOf(view, GenderOf) && |gc| == |KeysOf(view, GenderOf)|
    ensures forall i :: 0 <= i < |gc| ==> gc[i].1 == GenderCount(view, gc[i].0) && gc[i].1 >= 1
    ensures SumValues(gc) == |view|
  {
    StrLtIsStrictTotal();
    GroupSumEntries(view, GenderOf, One, StrLt);
    var gc := GroupSum(view, GenderOf, One, StrLt);
    TotalOne(view);
    forall i | 0 <= i < |gc| ensures gc[i].1 >= 1 {
      assert GroupKeys(gc)[i] == gc[i].0;
      CountPositive(view, GenderOf, gc[i].0);
    }
    gc
  }
}
