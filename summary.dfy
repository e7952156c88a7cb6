/** The data summary table: the view projected to date, time of day, ad id,
    total persons, gender and age, of which the last ten rows are shown. */
module Summary {
  import opened Events

  const SHOWN_ROWS: nat := 10

  /** One row of `summary_data`. */
  datatype SummaryRow = SummaryRow(date: Date, timeOnly: Clock, adId: AdId, totalPersons: nat, gender: string, age: int)

  /** The timestamp that a date and a time of day stand for. */
  function Combine(date: Date, clock: Clock): Timestamp
  {
    Timestamp(date, clock, 0)
  }

  /** `dt.date` and `dt.time` split the timestamp into its date and its time
      of day, and the other four columns are copied. `dt.time` keeps microseconds only, so the two columns recover
      the timestamp exactly when it has no nanoseconds below the microsecond. */
  function Project(e: Event): (r: SummaryRow)
    ensures r.date == e.time.date && r.timeOnly == e.time.clock
    ensures Combine(r.date, r.timeOnly) == e.time <==> e.time.nanosecond == 0
    ensures (r.adId, r.totalPersons, r.gender, r.age) == (e.adId, e.totalPersons, e.gender, e.age)
  {
    SummaryRow(e.time.date, e.time.clock, e.adId, e.totalPersons, e.gender, e.age)
  }

  /** The derived columns of a prepared row can be recomputed from its summary row. */
  lemma ProjectKeepsDerived(e: Event)
    requires Consistent(e)
    ensures e.hour == Project(e).timeOnly.hour
    ensures e.day == DayName(Project(e).date) && e.month == MonthName(Project(e).date)
  {
  }

  /** `summary_data.tail(10)`: the last min(10, n) rows of the view, projected,
      in their original order; an empty view gives an empty table. */
  function SummaryTable(view: seq<Event>): (t: seq<SummaryRow>)
    ensures |t| == if |view| < SHOWN_ROWS then |view| else SHOWN_ROWS
    ensures forall i :: 0 <= i < |t| ==> t[i] == Project(view[|view| - |t| + i])
  {
    var start := if |view| < SHOWN_ROWS then 0 else |view| - SHOWN_ROWS;
    seq(|view| - start, i requires 0 <= i < |view| - start => Project(view[start + i]))
  }
}
