/** One full pass of the dashboard: prepare the table, filter it with the
    sidebar's criteria and compute every aggregate from the same view. */
module Dashboard {
  import opened Seqs
  import opened Orders
  import opened Events
  import opened Grouping
  import opened Filtering
  import opened Aggregates
  import opened Kpis
  import opened GenderChart
  import opened AgeGroups
  import opened Summary

  datatype Dashboard = Dashboard(
    kpis: Kpis,
    genders: seq<Slice>,
    ageCounts: seq<nat>,
    timeSeries: seq<(Timestamp, nat)>,
    personsPerAd: seq<(AdId, nat)>,
    barData: seq<((int, string), nat)>,
    table: seq<SummaryRow>)

  /** Everything the page shows for `data` filtered by `c`. The aggregates
      agree with each other: the gender counts and the hour-by-day counts add
      up to the total users, the time series and the per-ad sums add up to
      the same number of persons, there is one bar per unique ad, and no
      aggregate holds more rows than the view. */
  function Render(data: seq<Event>, c: Criteria): (d: Dashboard)
    ensures d.kpis.totalUsers <= |data|
    ensures SliceTotal(d.genders) == d.kpis.totalUsers
    ensures SumValues(d.barData) == d.kpis.totalUsers
    ensures Sum(d.ageCounts) <= d.kpis.totalUsers
    ensures SumValues(d.timeSeries) == SumValues(d.personsPerAd)
    ensures |d.personsPerAd| == d.kpis.uniqueAds
    ensures |d.table| <= d.kpis.totalUsers && |d.table| <= SHOWN_ROWS
    ensures c.ads == {} ==> d.kpis == Kpis(0, 0, "N/A", 0) && d.genders == [] && d.table == []
  {
    var view := Apply(data, c);
    Dashboard(
      ComputeKpis(view),
      GenderDistribution(view),
      AgeCounts(view),
      TimeSeries(view),
      PersonsPerAd(view),
      BarData(view),
      SummaryTable(view))
  }

  /** The page for a freshly loaded table: no card counts more rows than
      were loaded, and an empty table gives the empty-view cards. */
  function Run(rows: seq<Row>, c: Criteria): (d: Dashboard)
    ensures d.kpis.totalUsers <= |rows|
    ensures |rows| == 0 ==> d.kpis == Kpis(0, 0, "N/A", 0)
  {
    Render(Prepare(rows), c)
  }

  /** The freshly prepared table and every view of it have derived columns
      that agree with their timestamps. */
  lemma RunPrepared(rows: seq<Row>, c: Criteria)
    ensures Prepared(Prepare(rows)) && Prepared(Apply(Prepare(rows), c))
  {
    ApplyPrepared(Prepare(rows), c);
  }

  function At(year: int, month: Month, day: DayOfMonth, hour: Hour): Timestamp
  {
    Timestamp(Date(year, month, day), Clock(hour, 0, 0, 0), 0)
  }

  /** Three rows over three days, two ads, genders "M" and "F". */
  function ScenarioRows(): seq<Row>
  {
    [ Row(At(2024, 1, 1, 9), 1, "M", 25, 5),
      Row(At(2024, 1, 2, 10), 2, "F", 35, 3),
      Row(At(2024, 1, 3, 11), 1, "M", 45, 2) ]
  }

  function ScenarioCriteria(ads: set<AdId>): Criteria
  {
    Criteria(Date(2024, 1, 1), Date(2024, 1, 3), ads, 0, 100)
  }

  /** With the full date range, both ads and ages 0..100 every row is kept. */
  lemma ScenarioKeepsAll()
    ensures Apply(Prepare(ScenarioRows()), ScenarioCriteria({1, 2})) == Prepare(ScenarioRows())
  {
    var c := ScenarioCriteria({1, 2});
    var events := Prepare(ScenarioRows());
    assert forall i :: 0 <= i < |events| ==> Keep(events[i], c);
    ApplyKeepsAll(events, c);
  }

  /** The columns of the scenario's rows that the aggregates read. */
  ghost predicate ScenarioShape(view: seq<Event>)
  {
    && |view| == 3
    && view[0].adId == 1 && view[0].gender == "M" && view[0].age == 25 && view[0].totalPersons == 5
    && view[1].adId == 2 && view[1].gender == "F" && view[1].age == 35 && view[1].totalPersons == 3
    && view[2].adId == 1 && view[2].gender == "M" && view[2].age == 45 && view[2].totalPersons == 2
  }

  lemma ScenarioPrepared()
    ensures ScenarioShape(Prepare(ScenarioRows()))
  {
    var events := Prepare(ScenarioRows());
    assert RowOf(events[0]) == ScenarioRows()[0];
    assert RowOf(events[1]) == ScenarioRows()[1];
    assert RowOf(events[2]) == ScenarioRows()[2];
  }

  /** 3 users, 2 ads, "M" most common (2 against 1), mean age round(105 / 3) = 35. */
  lemma ScenarioKpis(view: seq<Event>)
    requires ScenarioShape(view)
    ensures ComputeKpis(view) == Kpis(3, 2, "M", 35)
  {
    var e0, e1, e2 := view[0], view[1], view[2];
    assert view[1..][1..] == [e2] && view[1..][1..][1..] == [];
    assert KeysOf(view, AdOf) == {1, 2} by {
      assert AdOf(e0) == 1 && AdOf(e1) == 2;
    }
    assert KeysOf(view, GenderOf) == {"M", "F"} by {
      assert GenderOf(e0) == "M" && GenderOf(e1) == "F";
    }
    var v1 := view[1..];
    var v2 := v1[1..];
    assert v1[0] == e1 && v2[0] == e2 && v2[1..] == [];
    assert SumWhere(v2[1..], GenderOf, One, "M") == 0 && SumWhere(v2[1..], GenderOf, One, "F") == 0;
    assert GenderOf(e2) == "M" != "F" && One(e2) == 1;
    assert GenderCount(v2, "M") == 1 && GenderCount(v2, "F") == 0;
    assert GenderCount(v1, "M") == 1 && GenderCount(v1, "F") == 1;
    assert GenderCount(view, "M") == 2 && GenderCount(view, "F") == 1;
    assert AgeSum(v2) == 45 && AgeSum(v1) == 80 && AgeSum(view) == 105;
    RoundHalfEvenUnique(105, 3, 35);
  }

  /** Ad 1 has 5 + 2 = 7 persons and ad 2 has 3, in ad order. */
  lemma ScenarioPersonsPerAd(view: seq<Event>)
    requires ScenarioShape(view)
    ensures PersonsPerAd(view) == [(1, 7), (2, 3)]
  {
    var e0, e1, e2 := view[0], view[1], view[2];
    assert view[1..][1..] == [e2] && view[1..][1..][1..] == [];
    assert KeysOf(view, AdOf) == {1, 2} by {
      assert AdOf(e0) == 1 && AdOf(e1) == 2;
    }
    var v1 := view[1..];
    var v2 := v1[1..];
    assert v1[0] == e1 && v2[0] == e2 && v2[1..] == [];
    assert SumWhere(v2, AdOf, PersonsOf, 1) == 2 && SumWhere(v2, AdOf, PersonsOf, 2) == 0;
    assert SumWhere(v1, AdOf, PersonsOf, 1) == 2 && SumWhere(v1, AdOf, PersonsOf, 2) == 3;
    assert SumWhere(view, AdOf, PersonsOf, 1) == 7 && SumWhere(view, AdOf, PersonsOf, 2) == 3;
    var pa := PersonsPerAd(view);
    assert GroupKeys(pa)[0] == pa[0].0 && GroupKeys(pa)[1] == pa[1].0;
    assert pa[0].0 == 1 && pa[1].0 == 2;
  }

  /** One row each in 20-30, 30-40 and 40-50, every other group empty. */
  lemma ScenarioAgeCounts(view: seq<Event>)
    requires ScenarioShape(view)
    ensures AgeCounts(view) == [0, 1, 1, 1, 0, 0, 0, 0]
  {
    var v1 := view[1..];
    var v2 := v1[1..];
    assert v1[0] == view[1] && v2[0] == view[2] && v2[1..] == [];
    AgeGroupSpec(25);
    AgeGroupSpec(35);
    AgeGroupSpec(45);
    assert AgeCounts(v2[1..]) == [0, 0, 0, 0, 0, 0, 0, 0];
    assert AgeCounts(v2) == [0, 0, 0, 1, 0, 0, 0, 0];
    assert AgeCounts(v1) == [0, 0, 1, 1, 0, 0, 0, 0];
  }

  /** The whole scenario through `Run`. */
  lemma ScenarioFullView()
    ensures var d := Run(ScenarioRows(), ScenarioCriteria({1, 2}));
      && d.kpis == Kpis(3, 2, "M", 35)
      && d.personsPerAd == [(1, 7), (2, 3)]
      && d.ageCounts == [0, 1, 1, 1, 0, 0, 0, 0]
  {
    ScenarioKeepsAll();
    ScenarioPrepared();
    var view := Prepare(ScenarioRows());
    ScenarioKpis(view);
    ScenarioPersonsPerAd(view);
    ScenarioAgeCounts(view);
  }

  /** Selecting only an ad that does not occur empties the view and the KPI
      cards fall back to their defaults. */
  lemma ScenarioUnknownAd()
    ensures Run(ScenarioRows(), ScenarioCriteria({3})).kpis == Kpis(0, 0, "N/A", 0)
  {
    var c := ScenarioCriteria({3});
    var events := Prepare(ScenarioRows());
    assert Apply(events, c) == [];
  }
}
