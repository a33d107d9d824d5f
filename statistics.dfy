/**
 * The four statistic groups computed over a loaded frame: travel times,
 * stations, trip durations and riders.
 */
module Statistics {
  import opened Wrappers
  import opened Ordering
  import opened Frequency
  import opened Filtering
  import opened Trips

  /** `mode()[0]` on an empty column raises KeyError: there is no mode to index. */
  datatype StatsError = EmptyMode

  function MonthColumn(rows: seq<Trip>): seq<int> {
    seq(|rows|, i requires 0 <= i < |rows| => rows[i].start.month)
  }

  function DayColumn(rows: seq<Trip>): seq<int> {
    seq(|rows|, i requires 0 <= i < |rows| => rows[i].start.dayOfWeek)
  }

  function HourColumn(rows: seq<Trip>): seq<int> {
    seq(|rows|, i requires 0 <= i < |rows| => rows[i].start.hour)
  }

  function StartColumn(rows: seq<Trip>): seq<string> {
    seq(|rows|, i requires 0 <= i < |rows| => rows[i].startStation)
  }

  function EndColumn(rows: seq<Trip>): seq<string> {
    seq(|rows|, i requires 0 <= i < |rows| => rows[i].endStation)
  }

  function DurationColumn(rows: seq<Trip>): seq<int> {
    seq(|rows|, i requires 0 <= i < |rows| => rows[i].duration)
  }

  // ---------------------------------------------------------------- time

  /** Most common month name, day name and hour of the trips' start times. */
  datatype TimeSummary = TimeSummary(month: string, dayOfWeek: string, hour: int)

  /**
   * Each field is the calendar name (or the number, for the hour) of the mode
   * of its column; an empty frame has no mode.
   */
  function TimeStats(rows: seq<Trip>): (r: Result<TimeSummary, StatsError>)
    ensures r.Failure? <==> rows == []
    ensures r.Success? ==> exists m: MonthNum :: IsMode(MonthColumn(rows), NumLe, m) && r.value.month == MonthName(m)
    ensures r.Success? ==> exists d: DayNum :: IsMode(DayColumn(rows), NumLe, d) && r.value.dayOfWeek == DayName(d)
    ensures r.Success? ==> IsMode(HourColumn(rows), NumLe, r.value.hour) && 0 <= r.value.hour <= 23
  {
    if rows == [] then Failure(EmptyMode)
    else
      NumLeIsTotalOrder();
      var m := Mode(MonthColumn(rows), NumLe);
      var d := Mode(DayColumn(rows), NumLe);
      var h := Mode(HourColumn(rows), NumLe);
      assert 1 <= m <= 12 && 0 <= d <= 6 && 0 <= h <= 23;
      Success(TimeSummary(MonthName(m), DayName(d), h))
  }

  // ---------------------------------------------------------------- stations

  /** Most common start station, end station and "start -> end" combination. */
  datatype StationSummary = StationSummary(start: string, end: string, combo: string)

  /** The three station modes, ties going to the first name in Python's string order. */
  function StationModes(rows: seq<Trip>): (r: Result<StationSummary, StatsError>)
    ensures r.Failure? <==> rows == []
    ensures r.Success? ==>
              && IsMode(StartColumn(rows), StrLe, r.value.start)
              && IsMode(EndColumn(rows), StrLe, r.value.end)
              && IsMode(ComboColumn(rows), StrLe, r.value.combo)
    ensures r.Success? ==> exists t :: t in rows && r.value.combo == ComboKey(t)
  {
    if rows == [] then Failure(EmptyMode)
    else
      StrLeIsTotalOrder();
      var combo := Mode(ComboColumn(rows), StrLe);
      var i :| 0 <= i < |rows| && ComboColumn(rows)[i] == combo;
      assert rows[i] in rows && combo == ComboKey(rows[i]);
      Success(StationSummary(Mode(StartColumn(rows), StrLe), Mode(EndColumn(rows), StrLe), combo))
  }

  /**
   * `station_stats`: computes the station modes and, on a non-empty frame,
   * adds the 'combo station' column to `df`. Nothing else about `df` changes.
   * On an empty frame the first `mode()[0]` raises before the column is added.
   */
  method StationStats(df: Frame) returns (r: Result<StationSummary, StatsError>)
    modifies df
    ensures df.rows == old(df.rows) && df.hasGender == old(df.hasGender) && df.hasBirthYear == old(df.hasBirthYear)
    ensures df.combo == if df.rows == [] then old(df.combo) else Some(ComboColumn(df.rows))
    ensures r == StationModes(df.rows)
    ensures old(df.Valid()) ==> df.Valid()
  {
    if df.rows == [] {
      return Failure(EmptyMode);
    }
    StrLeIsTotalOrder();
    var start := Mode(StartColumn(df.rows), StrLe);
    var end := Mode(EndColumn(df.rows), StrLe);
    df.combo := Some(ComboColumn(df.rows));
    var combo := Mode(df.combo.value, StrLe);
    r := Success(StationSummary(start, end, combo));
  }

  // ---------------------------------------------------------------- durations

  /** Sum of the trip durations. */
  function TotalDuration(rows: seq<Trip>): int {
    if rows == [] then 0 else rows[0].duration + TotalDuration(rows[1..])
  }

  /** Total and mean trip duration; the mean of no trips is NaN, here `None`. */
  datatype DurationSummary = DurationSummary(total: int, mean: Option<real>)

  function TripDurationStats(rows: seq<Trip>): (r: DurationSummary)
    ensures r.total == TotalDuration(rows)
    ensures r.mean.Some? <==> rows != []
    ensures r.mean.Some? ==> r.mean.value * (|rows| as real) == r.total as real
  {
    var total := TotalDuration(rows);
    DurationSummary(total, if rows == [] then None else Some(total as real / |rows| as real))
  }

  /** Splitting the trips by any mask splits the total duration the same way. */
  lemma {:induction false} TotalDurationSplits(rows: seq<Trip>, keep: Trip -> bool)
    ensures TotalDuration(rows)
         == TotalDuration(Where(rows, keep)) + TotalDuration(Where(rows, (t: Trip) => !keep(t)))
  {
    if rows != [] {
      TotalDurationSplits(rows[1..], keep);
      var kept := Where(rows[1..], keep);
      var dropped := Where(rows[1..], (t: Trip) => !keep(t));
      if keep(rows[0]) {
        assert ([rows[0]] + kept)[1..] == kept;
      } else {
        assert ([rows[0]] + dropped)[1..] == dropped;
      }
    }
  }

  /** If every duration lies in [lo, hi], the total lies in [n * lo, n * hi]. */
  lemma {:induction false} TotalDurationBounds(rows: seq<Trip>, lo: int, hi: int)
    requires forall t :: t in rows ==> lo <= t.duration <= hi
    ensures |rows| * lo <= TotalDuration(rows) <= |rows| * hi
  {
    if rows != [] {
      assert rows[0] in rows;
      assert forall t :: t in rows[1..] ==> t in rows;
      TotalDurationBounds(rows[1..], lo, hi);
      OneMoreBetween(|rows| - 1, lo, hi, rows[0].duration, TotalDuration(rows[1..]));
    }
  }

  /** Adding one value from [lo, hi] to a total in [n * lo, n * hi]. */
  lemma OneMoreBetween(n: nat, lo: int, hi: int, d: int, total: int)
    requires lo <= d <= hi && n * lo <= total <= n * hi
    ensures (n + 1) * lo <= d + total <= (n + 1) * hi
  {
    assert (n + 1) * lo == n * lo + lo;
    assert (n + 1) * hi == n * hi + hi;
  }

  /** The mean duration lies between the shortest and the longest trip. */
  lemma MeanWithinRange(rows: seq<Trip>)
    requires rows != []
    ensures var d := TripDurationStats(rows);
            Min(DurationColumn(rows)) as real <= d.mean.value <= Max(DurationColumn(rows)) as real
  {
    var col := DurationColumn(rows);
    var lo, hi := Min(col), Max(col);
    forall t | t in rows ensures lo <= t.duration <= hi {
      var i :| 0 <= i < |rows| && rows[i] == t;
      assert col[i] == t.duration && col[i] in col;
    }
    TotalDurationBounds(rows, lo, hi);
    MeanBetween(lo, hi, TotalDuration(rows), |rows|);
  }

  /** If n * lo <= total <= n * hi with n > 0, the mean total / n lies in [lo, hi]. */
  lemma MeanBetween(lo: int, hi: int, total: int, n: int)
    requires n > 0 && n * lo <= total <= n * hi
    ensures lo as real <= total as real / n as real <= hi as real
  {
    var x, m := total as real, n as real;
    assert m * (lo as real) <= x <= m * (hi as real);
    assert x / m * m == x;
  }

  // ---------------------------------------------------------------- riders

  /** The sentinel for a city whose data has no Gender column. */
  const NoGenderData: string := "No Gender Data available for this City"

  /** Per-gender counts, or the sentinel text when the column is missing. */
  datatype GenderSplit = Counts(counts: seq<(string, nat)>) | Note(text: string)

  /** Minimum, maximum and most common birth year. */
  datatype YearStats = YearStats(min: int, max: int, common: int)

  datatype UserSummary = UserSummary(genders: GenderSplit, years: Option<YearStats>)

  /** The mask `df['Gender'] == g`. */
  function GenderIs(g: string): Trip -> bool {
    (t: Trip) => t.gender == Some(g)
  }

  /** The mask `df['Birth Year'] == y`. */
  function BirthYearIs(y: int): Trip -> bool {
    (t: Trip) => t.birthYear == Some(y)
  }

  /**
   * The non-empty gender cells, in row order (`value_counts` skips empty cells):
   * each label occurs as often as there are trips with that label.
   */
  function GenderColumn(rows: seq<Trip>): (c: seq<string>)
    ensures |c| <= |rows|
    ensures (forall t :: t in rows ==> t.gender.Some?) ==> |c| == |rows|
    ensures forall g :: g in c <==> exists t :: t in rows && t.gender == Some(g)
    ensures forall g :: Count(c, g) == |Where(rows, GenderIs(g))|
  {
    if rows == [] then []
    else
      var rest := GenderColumn(rows[1..]);
      assert forall t :: t in rows <==> t == rows[0] || t in rows[1..];
      var c := if rows[0].gender.Some? then [rows[0].gender.value] + rest else rest;
      assert forall g :: Count(c, g) == |Where(rows, GenderIs(g))| by {
        forall g ensures Count(c, g) == |Where(rows, GenderIs(g))| {
          if rows[0].gender.Some? {
            assert multiset(c) == multiset{rows[0].gender.value} + multiset(rest);
          }
        }
      }
      c
  }

  /**
   * The non-empty birth-year cells, in row order (min, max and mode skip empty
   * cells): each year occurs as often as there are trips born that year.
   */
  function BirthYearColumn(rows: seq<Trip>): (c: seq<int>)
    ensures |c| <= |rows|
    ensures forall y :: y in c <==> exists t :: t in rows && t.birthYear == Some(y)
    ensures forall y :: Count(c, y) == |Where(rows, BirthYearIs(y))|
  {
    if rows == [] then []
    else
      var rest := BirthYearColumn(rows[1..]);
      assert forall t :: t in rows <==> t == rows[0] || t in rows[1..];
      var c := if rows[0].birthYear.Some? then [rows[0].birthYear.value] + rest else rest;
      assert forall y :: Count(c, y) == |Where(rows, BirthYearIs(y))| by {
        forall y ensures Count(c, y) == |Where(rows, BirthYearIs(y))| {
          if rows[0].birthYear.Some? {
            assert multiset(c) == multiset{rows[0].birthYear.value} + multiset(rest);
          }
        }
      }
      c
  }

  /**
   * `user_stats`. Without a Gender column the split is the sentinel text;
   * otherwise it is the label-sorted count table. The birth-year figures are
   * missing when there is no Birth Year column or no birth year at all (then
   * `mode()[0]` raises KeyError, which is caught).
   */
  function UserStats(rows: seq<Trip>, hasGender: bool, hasBirthYear: bool): (r: UserSummary)
    ensures !hasGender ==> r.genders == Note(NoGenderData)
    ensures hasGender ==> r.genders.Counts?
    ensures hasGender ==>
              var cs := r.genders.counts;
              && (forall i, j :: 0 <= i < j < |cs| ==> StrLe(cs[i].0, cs[j].0) && cs[i].0 != cs[j].0)
              && (forall g :: g in GenderColumn(rows) <==> exists i :: 0 <= i < |cs| && cs[i].0 == g)
              && (forall i :: 0 <= i < |cs| ==> cs[i].1 == Count(GenderColumn(rows), cs[i].0) >= 1)
              && Total(cs) == |GenderColumn(rows)|
    ensures r.years.None? <==> !hasBirthYear || BirthYearColumn(rows) == []
    ensures r.years.Some? ==>
              var ys, y := BirthYearColumn(rows), r.years.value;
              && y.min in ys && y.max in ys
              && (forall x :: x in ys ==> y.min <= x <= y.max)
              && IsMode(ys, NumLe, y.common)
              && y.min <= y.common <= y.max
  {
    StrLeIsTotalOrder();
    NumLeIsTotalOrder();
    var genders := GenderColumn(rows);
    var split := if hasGender then Counts(ValueCounts(StrLe, genders)) else Note(NoGenderData);
    ValueCountsTotal(StrLe, genders);
    var ys := BirthYearColumn(rows);
    var years := if !hasBirthYear || ys == [] then None else Some(YearStats(Min(ys), Max(ys), Mode(ys, NumLe)));
    UserSummary(split, years)
  }

  /** On a loaded frame every row has a gender label, so the gender counts add up to the number of trips. */
  lemma GenderCountsCoverEveryTrip(rows: seq<Trip>, hasBirthYear: bool)
    requires forall t :: t in rows ==> t.gender.Some?
    ensures Total(UserStats(rows, true, hasBirthYear).genders.counts) == |rows|
  {
  }
}
