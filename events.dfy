/** The record store: one parsed row of the ad-exposure table, and the event
    that data preparation makes of it by adding the fields derived from the
    timestamp (`hour`, weekday name `day`, month name `month`). */
module Events {
  import opened Orders

  type Month = m: int | 1 <= m <= 12 witness 1
  type DayOfMonth = d: int | 1 <= d <= 31 witness 1
  type Hour = h: int | 0 <= h <= 23
  type Minute = m: int | 0 <= m <= 59
  type Second = s: int | 0 <= s <= 59
  type Microsecond = u: int | 0 <= u <= 999_999
  type Nanosecond = n: int | 0 <= n <= 999

  /** Ad identifiers as the CSV reader yields them for a numeric column. */
  type AdId = int

  datatype Date = Date(year: int, month: Month, day: DayOfMonth)

  /** A time of day to microsecond precision, like Python's `datetime.time`. */
  datatype Clock = Clock(hour: Hour, minute: Minute, second: Second, microsecond: Microsecond)

  /** A pandas timestamp: a date, a time of day and the nanoseconds below the
      microsecond that `datetime.time` cannot hold. */
  datatype Timestamp = Timestamp(date: Date, clock: Clock, nanosecond: Nanosecond)

  /** One row of the table once its `time` column has been parsed. */
  datatype Row = Row(time: Timestamp, adId: AdId, gender: string, age: int, totalPersons: nat)

  /** A row with the derived columns added by data preparation. */
  datatype Event = Event(
    time: Timestamp, adId: AdId, gender: string, age: int, totalPersons: nat,
    hour: Hour, day: string, month: string)

  const WEEKDAY_NAMES: seq<string> :=
    ["Sunday", "Monday", "Tuesday", "Wednesday", "Thursday", "Friday", "Saturday"]

  const MONTH_NAMES: seq<string> :=
    ["January", "February", "March", "April", "May", "June", "July",
     "August", "September", "October", "November", "December"]

  /** Day of the week in the proleptic Gregorian calendar, 0 being Sunday
      (Sakamoto's method; `/` and `%` are floor division here, as in Python). */
  function WeekdayIndex(d: Date): (i: int)
    ensures 0 <= i < 7
  {
    var offsets := [0, 3, 2, 5, 0, 3, 5, 1, 4, 6, 2, 4];
    var y := if d.month < 3 then d.year - 1 else d.year;
    (y + y / 4 - y / 100 + y / 400 + offsets[d.month - 1] + d.day) % 7
  }

  /** `Series.dt.day_name()` for one date. */
  function DayName(d: Date): (name: string)
    ensures name in WEEKDAY_NAMES
  {
    WEEKDAY_NAMES[WeekdayIndex(d)]
  }

  /** `Series.dt.month_name()` for one date. */
  function MonthName(d: Date): (name: string)
    ensures name in MONTH_NAMES
  {
    MONTH_NAMES[d.month - 1]
  }

  /** The derived columns of `e` agree with its timestamp. */
  predicate Consistent(e: Event)
  {
    && e.hour == e.time.clock.hour
    && e.day == DayName(e.time.date)
    && e.month == MonthName(e.time.date)
  }

  /** The parsed row an event was prepared from. */
  function RowOf(e: Event): Row
  {
    Row(e.time, e.adId, e.gender, e.age, e.totalPersons)
  }

  /** Data preparation of one row: `hour`, `day` and `month` from `time`. */
  function Derive(r: Row): (e: Event)
    ensures Consistent(e) && RowOf(e) == r
  {
    Event(r.time, r.adId, r.gender, r.age, r.totalPersons,
          r.time.clock.hour, DayName(r.time.date), MonthName(r.time.date))
  }

  /** A consistent event is exactly the preparation of its row: the derived
      columns hold nothing that the timestamp does not determine. */
  lemma DeriveRowOf(e: Event)
    requires Consistent(e)
    ensures Derive(RowOf(e)) == e
  {
  }

  /** Data preparation of the whole table, row by row and in order. */
  function Prepare(rows: seq<Row>): (events: seq<Event>)
    ensures |events| == |rows|
    ensures forall i :: 0 <= i < |rows| ==> Consistent(events[i]) && RowOf(events[i]) == rows[i]
  {
    seq(|rows|, i requires 0 <= i < |rows| => Derive(rows[i]))
  }

  /** Every event of the table has derived columns that agree with its timestamp. */
  ghost predicate Prepared(events: seq<Event>)
  {
    forall i :: 0 <= i < |events| ==> Consistent(events[i])
  }

  /** Comparison of calendar dates (`datetime.date`'s `<=`). */
  predicate DateLe(a: Date, b: Date)
  {
    || a.year < b.year
    || (a.year == b.year && a.month < b.month)
    || (a.year == b.year && a.month == b.month && a.day <= b.day)
  }

  /** The fields of a timestamp from the most to the least significant. */
  function TimestampKey(t: Timestamp): seq<int>
  {
    [t.date.year, t.date.month, t.date.day, t.clock.hour, t.clock.minute,
     t.clock.second, t.clock.microsecond, t.nanosecond]
  }

  /** Chronological order of timestamps, the order `groupby('time')` sorts by. */
  predicate TimestampLt(a: Timestamp, b: Timestamp)
  {
    LexLt(TimestampKey(a), TimestampKey(b))
  }

  lemma TimestampLtIsStrictTotal()
    ensures StrictTotalOrder(TimestampLt)
  {
    forall a: Timestamp, b: Timestamp | TimestampKey(a) == TimestampKey(b) ensures a == b {
      assert TimestampKey(a)[0] == TimestampKey(b)[0];
    }
    PullbackIsStrictTotal(TimestampLt, TimestampKey);
  }
}
