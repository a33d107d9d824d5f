/**
 * The trip records of one city, the fixed lookup tables, and the data frame
 * that the statistics read (and that the station statistics extend in place).
 */
module Trips {
  import opened Wrappers

  type MonthNum = m: int | 1 <= m <= 12 witness 1
  type DayNum = d: int | 0 <= d <= 6
  type HourNum = h: int | 0 <= h <= 23

  /** The parts of a parsed 'Start Time' the statistics use; day of week counts Monday as 0. */
  datatype Timestamp = Timestamp(month: MonthNum, dayOfWeek: DayNum, hour: HourNum)

  /**
   * One row of a city's trip log. `gender` and `birthYear` are `None` where the
   * cell is empty, and are ignored altogether when the city has no such column.
   */
  datatype Trip = Trip(
    start: Timestamp,
    startStation: string,
    endStation: string,
    duration: int,
    gender: Option<string>,
    birthYear: Option<int>)

  /** A city's trip log as read from disk: its rows and which optional columns it has. */
  datatype Table = Table(rows: seq<Trip>, hasGender: bool, hasBirthYear: bool)

  /** City name to data file name. */
  const CityData: map<string, string> :=
    map["Chicago" := "chicago.csv",
        "New York City" := "new_york_city.csv",
        "Washington" := "washington.csv"]

  /** The month names a month filter may use, January first. */
  const Months: seq<string> := ["January", "February", "March", "April", "May", "June"]

  /** The day names a day filter may use, Monday first. */
  const Days: seq<string> := ["Mon", "Tue", "Wed", "Thu", "Fri", "Sat", "Sun"]

  /** The word that switches a filter off. */
  const All: string := "All"

  /** `calendar.month_name`, which is indexed from 1. */
  const MonthNames: seq<string> :=
    ["January", "February", "March", "April", "May", "June",
     "July", "August", "September", "October", "November", "December"]

  /** `calendar.day_name`, which is indexed from 0 = Monday. */
  const DayNames: seq<string> :=
    ["Monday", "Tuesday", "Wednesday", "Thursday", "Friday", "Saturday", "Sunday"]

  function MonthName(m: MonthNum): string {
    MonthNames[m - 1]
  }

  function DayName(d: DayNum): string {
    DayNames[d]
  }

  /** The filter vocabulary agrees with the calendar's names for the same numbers. */
  lemma FilterNamesMatchCalendar()
    ensures forall k :: 0 <= k < |Months| ==> MonthName(k + 1) == Months[k]
    ensures forall d :: 0 <= d < |Days| ==> DayName(d)[..3] == Days[d]
  {
  }

  /** The 'combo station' value of a trip: start station, " -> ", end station. */
  function ComboKey(t: Trip): (k: string)
    ensures |k| == |t.startStation| + 4 + |t.endStation|
    ensures k[..|t.startStation|] == t.startStation
    ensures k[|t.startStation|..|t.startStation| + 4] == " -> "
    ensures k[|t.startStation| + 4..] == t.endStation
  {
    t.startStation + " -> " + t.endStation
  }

  /** The 'combo station' column of a frame with rows `rows`. */
  function ComboColumn(rows: seq<Trip>): (c: seq<string>)
    ensures |c| == |rows|
    ensures forall i :: 0 <= i < |rows| ==> c[i] == ComboKey(rows[i])
  {
    seq(|rows|, i requires 0 <= i < |rows| => ComboKey(rows[i]))
  }

  /**
   * A loaded data frame. Its rows are fixed once loaded; the station
   * statistics add the 'combo station' column to it in place.
   */
  class Frame {
    var rows: seq<Trip>
    var hasGender: bool
    var hasBirthYear: bool
    /** The 'combo station' column, once it has been added. */
    var combo: Option<seq<string>>

    /**
     * What loading establishes and the statistics keep: with a Gender column
     * every row has a label (so the gender counts cover every trip, see
     * `ReportGenderCountsCoverFrame`), and an added combo column matches the rows.
     */
    ghost predicate Valid()
      reads this
    {
      && (hasGender ==> forall t :: t in rows ==> t.gender.Some?)
      && (combo.Some? ==> combo.value == ComboColumn(rows))
    }

    constructor (rows: seq<Trip>, hasGender: bool, hasBirthYear: bool)
      ensures this.rows == rows && this.hasGender == hasGender && this.hasBirthYear == hasBirthYear
      ensures combo == None
    {
      this.rows := rows;
      this.hasGender := hasGender;
      this.hasBirthYear := hasBirthYear;
      combo := None;
    }
  }
}
