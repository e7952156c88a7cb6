/** The filter engine: the boolean mask over the table built from the sidebar
    selections (a date range, a set of ad ids, an age range), and the bounds
    of the sidebar controls derived from the whole table. */
module Filtering {
  import opened Seqs
  import opened Wrappers
  import opened Events

  /** What the sidebar widgets return: `start_date`, `end_date`, `ad_filter`
      and `age_filter`. */
  datatype Criteria = Criteria(startDate: Date, endDate: Date, ads: set<AdId>, minAge: int, maxAge: int)

  /** The mask for one row: its calendar date lies in the inclusive date range,
      its ad id is selected, and `age.between(lo, hi)` (inclusive on both ends).
      Nothing rejects inverted ranges: a row can only pass when the start date
      is not after the end date and the minimum age not above the maximum. */
  predicate Keep(e: Event, c: Criteria)
    ensures Keep(e, c) ==> DateLe(c.startDate, c.endDate) && c.minAge <= c.maxAge
    ensures Keep(e, c) ==> e.adId in c.ads
  {
    && DateLe(c.startDate, e.time.date)
    && DateLe(e.time.date, c.endDate)
    && e.adId in c.ads
    && c.minAge <= e.age <= c.maxAge
  }

  /** `filtered_data`: the rows of `data` the mask keeps, in their original order. */
  function Apply(data: seq<Event>, c: Criteria): (view: seq<Event>)
    ensures |view| <= |data|
    ensures forall i :: 0 <= i < |view| ==> Keep(view[i], c)
    ensures c.ads == {} ==> view == []
  {
    if |data| == 0 then []
    else
      var rest := Apply(data[1..], c);
      if Keep(data[0], c) then [data[0]] + rest else rest
  }

  /** The view keeps the order of the table: it is a subsequence of it. */
  lemma {:induction false} ApplySubsequence(data: seq<Event>, c: Criteria)
    ensures IsSubsequence(Apply(data, c), data)
  {
    if |data| > 0 {
      ApplySubsequence(data[1..], c);
    }
  }

  /** The view holds each kept row as often as the table does, and no other row. */
  lemma {:induction false} ApplyMultiset(data: seq<Event>, c: Criteria)
    ensures forall e :: multiset(Apply(data, c))[e] == if Keep(e, c) then multiset(data)[e] else 0
  {
    if |data| > 0 {
      ApplyMultiset(data[1..], c);
      assert data == [data[0]] + data[1..];
      assert multiset(data) == multiset{data[0]} + multiset(data[1..]);
    }
  }

  /** Filtering keeps the derived columns consistent with the timestamps. */
  lemma {:induction false} ApplyPrepared(data: seq<Event>, c: Criteria)
    requires Prepared(data)
    ensures Prepared(Apply(data, c))
  {
    if |data| > 0 {
      ApplyPrepared(data[1..], c);
      assert Prepared(data[1..]) by {
        forall i | 0 <= i < |data[1..]| ensures Consistent(data[1..][i]) {
          assert data[1..][i] == data[i + 1];
        }
      }
    }
  }

  /** When the mask keeps every row, the view is the whole table. */
  lemma {:induction false} ApplyKeepsAll(data: seq<Event>, c: Criteria)
    requires forall i :: 0 <= i < |data| ==> Keep(data[i], c)
    ensures Apply(data, c) == data
  {
    if |data| > 0 {
      ApplyKeepsAll(data[1..], c);
    }
  }

  /** Conversely, a view as long as the table means the mask kept every row. */
  lemma {:induction false} ApplyFullLength(data: seq<Event>, c: Criteria)
    requires |Apply(data, c)| == |data|
    ensures forall i :: 0 <= i < |data| ==> Keep(data[i], c)
  {
    if |data| > 0 {
      assert Keep(data[0], c);
      ApplyFullLength(data[1..], c);
      assert forall i :: 1 <= i < |data| ==> data[i] == data[1..][i - 1];
    }
  }

  /** Filtering twice with the same criteria changes nothing. */
  lemma ApplyIdempotent(data: seq<Event>, c: Criteria)
    ensures Apply(Apply(data, c), c) == Apply(data, c)
  {
    ApplyKeepsAll(Apply(data, c), c);
  }

  /** `le` is total and transitive. */
  ghost predicate TotalPreorder<T(!new)>(le: (T, T) -> bool)
  {
    && (forall x, y :: le(x, y) || le(y, x))
    && (forall x, y, z :: le(x, y) && le(y, z) ==> le(x, z))
  }

  /** A least element of the non-empty sequence `s` under `le` (pandas `min()`). */
  function Least<T(!new)>(s: seq<T>, le: (T, T) -> bool): (m: T)
    requires |s| > 0
    requires TotalPreorder(le)
    ensures exists i :: 0 <= i < |s| && s[i] == m
    ensures forall i :: 0 <= i < |s| ==> le(m, s[i])
  {
    if |s| == 1 then s[0]
    else
      var m := Least(s[1..], le);
      assert forall i :: 1 <= i < |s| ==> s[i] == s[1..][i - 1];
      if le(s[0], m) then s[0] else m
  }

  /** The sidebar's bounds and defaults, read off the whole table. */
  datatype Bounds = Bounds(minDate: Date, maxDate: Date, adOptions: seq<AdId>, minAge: int, maxAge: int)

  function Dates(data: seq<Event>): (ds: seq<Date>)
    ensures |ds| == |data| && forall i :: 0 <= i < |data| ==> ds[i] == data[i].time.date
  {
    seq(|data|, i requires 0 <= i < |data| => data[i].time.date)
  }

  function Ages(data: seq<Event>): (as_: seq<int>)
    ensures |as_| == |data| && forall i :: 0 <= i < |data| ==> as_[i] == data[i].age
  {
    seq(|data|, i requires 0 <= i < |data| => data[i].age)
  }

  function AdIds(data: seq<Event>): (ids: seq<AdId>)
    ensures |ids| == |data| && forall i :: 0 <= i < |data| ==> ids[i] == data[i].adId
  {
    seq(|data|, i requires 0 <= i < |data| => data[i].adId)
  }

  /** The date-range bounds (`min_date`, `max_date`), the ad options
      (`unique()`) and the age slider's bounds. An empty table has none. */
  function TableBounds(data: seq<Event>): (b: Option<Bounds>)
    ensures b.None? <==> |data| == 0
    ensures b.Some? ==>
      && (forall i :: 0 <= i < |data| ==>
            && DateLe(b.value.minDate, data[i].time.date)
            && DateLe(data[i].time.date, b.value.maxDate)
            && b.value.minAge <= data[i].age <= b.value.maxAge)
      && (exists i :: 0 <= i < |data| && data[i].time.date == b.value.minDate)
      && (exists i :: 0 <= i < |data| && data[i].time.date == b.value.maxDate)
      && (exists i :: 0 <= i < |data| && data[i].age == b.value.minAge)
      && (exists i :: 0 <= i < |data| && data[i].age == b.value.maxAge)
      && NoDup(b.value.adOptions)
      && Elements(b.value.adOptions) == Elements(AdIds(data))
  {
    if |data| == 0 then None
    else
      var ds, as_ := Dates(data), Ages(data);
      Some(Bounds(
        Least(ds, DateLe),
        Least(ds, (x, y) => DateLe(y, x)),
        Distinct(AdIds(data)),
        Least(as_, (x: int, y: int) => x <= y),
        Least(as_, (x: int, y: int) => y <= x)))
  }

  /** The criteria that span the whole table: every date, every ad, every age. */
  function FullSpan(b: Bounds): Criteria
  {
    Criteria(b.minDate, b.maxDate, Elements(b.adOptions), b.minAge, b.maxAge)
  }

  /** Selecting the full date range, every ad option and the full age range
      keeps every row of the table. */
  lemma FullSpanKeepsAll(data: seq<Event>)
    requires |data| > 0
    ensures Apply(data, FullSpan(TableBounds(data).value)) == data
  {
    var c := FullSpan(TableBounds(data).value);
    forall i | 0 <= i < |data| ensures Keep(data[i], c) {
      assert AdIds(data)[i] == data[i].adId;
    }
    ApplyKeepsAll(data, c);
  }

  /** The view is the whole table exactly when the criteria cover the
      table's date span, every ad option and its age span. */
  lemma CoversIffKeepsAll(data: seq<Event>, c: Criteria)
    requires |data| > 0
    ensures var b := TableBounds(data).value;
      |Apply(data, c)| == |data| <==>
        && DateLe(c.startDate, b.minDate) && DateLe(b.maxDate, c.endDate)
        && Elements(b.adOptions) <= c.ads
        && c.minAge <= b.minAge && b.maxAge <= c.maxAge
  {
    var b := TableBounds(data).value;
    if |Apply(data, c)| == |data| {
      ApplyFullLength(data, c);
      var i0 :| 0 <= i0 < |data| && data[i0].time.date == b.minDate;
      var i1 :| 0 <= i1 < |data| && data[i1].time.date == b.maxDate;
      var i2 :| 0 <= i2 < |data| && data[i2].age == b.minAge;
      var i3 :| 0 <= i3 < |data| && data[i3].age == b.maxAge;
      assert Keep(data[i0], c) && Keep(data[i1], c) && Keep(data[i2], c) && Keep(data[i3], c);
      forall x | x in Elements(b.adOptions) ensures x in c.ads {
        var i :| 0 <= i < |data| && AdIds(data)[i] == x;
        assert Keep(data[i], c);
      }
    }
    if && DateLe(c.startDate, b.minDate) && DateLe(b.maxDate, c.endDate)
       && Elements(b.adOptions) <= c.ads
       && c.minAge <= b.minAge && b.maxAge <= c.maxAge
    {
      forall i | 0 <= i < |data| ensures Keep(data[i], c) {
        assert AdIds(data)[i] == data[i].adId;
      }
      ApplyKeepsAll(data, c);
    }
  }
}
