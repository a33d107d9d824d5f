/**
 * Assembling the four statistic groups into the nested result dictionary
 * that the result page displays.
 */
module Presenter {
  import opened Wrappers
  import opened Ordering
  import opened Frequency
  import opened Trips
  import opened Statistics

  /** A display value: text, an integer, a real, pandas' NaN, or a gender count table. */
  datatype Value = Text(text: string) | Int(n: int) | Real(x: real) | NaN | CountTable(pairs: seq<(string, nat)>)

  /** Seconds each group took to compute, as read from the clock. */
  datatype Timings = Timings(time: real, station: real, duration: real, user: real)

  /** An insertion-ordered dictionary from labels to display values. */
  type Group = seq<(string, Value)>

  /** An insertion-ordered dictionary from group names to groups. */
  type ResultDict = seq<(string, Group)>

  /** The sentinel for a missing birth-year figure. */
  const NoBirthYearData: string := "No Birth Year Data available for this City"

  const GroupNames: seq<string> :=
    ["Time Statistics", "Station Statistics", "Trip Duration Statistics", "User Statistics"]

  const TimeLabels: seq<string> :=
    ["Most Common Month of Travel: ", "Most Common Day of Travel: ", "Most Common Hour of Travel: ", "Time Taken:"]

  const StationLabels: seq<string> :=
    ["Most Common Starting Station:", "Most Common Ending Station:",
     "Most Common Start -> End Station Combination:", "Time Taken:"]

  const DurationLabels: seq<string> :=
    ["Total Time of Travel (in seconds): ", "Average Time of Travel per trip (in seconds): ", "Time Taken:"]

  const UserLabels: seq<string> :=
    ["Gender Split: ", "Minimum Year of Birth: ", "Most Recent Year of Birth: ",
     "Most Common Year of Birth: ", "Time Taken:"]

  /** The keys of a dictionary, in insertion order. */
  function Keys<V>(kvs: seq<(string, V)>): seq<string> {
    seq(|kvs|, i requires 0 <= i < |kvs| => kvs[i].0)
  }

  /** `d[k]`, or `None` where Python raises KeyError. */
  function Lookup<V>(kvs: seq<(string, V)>, k: string): (r: Option<V>)
    ensures r.Some? <==> k in Keys(kvs)
    ensures r.Some? ==> (k, r.value) in kvs
  {
    if kvs == [] then None
    else
      assert Keys(kvs) == [kvs[0].0] + Keys(kvs[1..]);
      if kvs[0].0 == k then Some(kvs[0].1)
      else
        assert forall kv :: kv in kvs[1..] ==> kv in kvs;
        Lookup(kvs[1..], k)
  }

  /** A key found at position `i` and at no earlier position is looked up to the value at `i`. */
  lemma {:induction false} LookupFirst<V>(kvs: seq<(string, V)>, i: nat, k: string)
    requires i < |kvs| && kvs[i].0 == k
    requires forall j :: 0 <= j < i ==> kvs[j].0 != k
    ensures Lookup(kvs, k) == Some(kvs[i].1)
  {
    if i > 0 {
      LookupFirst(kvs[1..], i - 1, k);
    }
  }

  /** `result[group][label]`. */
  function Field(d: ResultDict, group: string, name: string): Option<Value> {
    match Lookup(d, group)
    case None => None
    case Some(g) => Lookup(g, name)
  }

  /** The fixed shape: four groups in order, each with its fixed labels in order. */
  predicate WellShaped(d: ResultDict) {
    && Keys(d) == GroupNames
    && Keys(d[0].1) == TimeLabels
    && Keys(d[1].1) == StationLabels
    && Keys(d[2].1) == DurationLabels
    && Keys(d[3].1) == UserLabels
  }

  /** The displayed gender split: the count table, or the sentinel where `to_string` fails on the sentinel text. */
  function GenderDisplay(g: GenderSplit): (v: Value)
    ensures v == Text(NoGenderData) <==> g.Note?
    ensures g.Counts? ==> v == CountTable(g.counts)
  {
    match g
    case Counts(cs) => CountTable(cs)
    case Note(_) => Text(NoGenderData)
  }

  /** The displayed mean: pandas' NaN for no trips. */
  function MeanDisplay(m: Option<real>): (v: Value)
    ensures v == NaN <==> m.None?
    ensures m.Some? ==> v == Real(m.value)
  {
    match m
    case None => NaN
    case Some(x) => Real(x)
  }

  /**
   * The birth-year fields as the source writes them: `if min_yob:` is Python
   * truthiness, which is false for a missing value AND for a minimum of 0.
   */
  function YearFieldsAsWritten(y: Option<YearStats>): (r: (Value, Value, Value))
    ensures r.0 == Text(NoBirthYearData) <==> y.None? || y.value.min == 0
    ensures (y.None? || y.value.min == 0) ==>
              r == (Text(NoBirthYearData), Text(NoBirthYearData), Text(NoBirthYearData))
    ensures y.Some? && y.value.min != 0 ==>
              r == (Int(y.value.min), Int(y.value.max), Int(y.value.common))
  {
    if y.Some? && y.value.min != 0 then (Int(y.value.min), Int(y.value.max), Int(y.value.common))
    else (Text(NoBirthYearData), Text(NoBirthYearData), Text(NoBirthYearData))
  }

  /** The birth-year fields as intended: the figures whenever they exist, else three sentinels. */
  function YearFields(y: Option<YearStats>): (r: (Value, Value, Value))
    ensures y.None? <==> r == (Text(NoBirthYearData), Text(NoBirthYearData), Text(NoBirthYearData))
    ensures y.Some? ==> r.0 == Int(y.value.min) && r.1 == Int(y.value.max) && r.2 == Int(y.value.common)
  {
    match y
    case None => (Text(NoBirthYearData), Text(NoBirthYearData), Text(NoBirthYearData))
    case Some(ys) => (Int(ys.min), Int(ys.max), Int(ys.common))
  }

  /** The truthiness test hides real figures exactly when the minimum birth year is 0. */
  lemma YearFieldsAsWrittenDiffer(y: Option<YearStats>)
    ensures YearFieldsAsWritten(y) != YearFields(y) <==> y.Some? && y.value.min == 0
  {
  }

  /** A concrete case: years {0, 1985, 1985, 1990} are shown as missing. */
  lemma MinimumYearZeroIsHidden()
    ensures YearFieldsAsWritten(Some(YearStats(0, 1990, 1985))).0 == Text(NoBirthYearData)
    ensures YearFields(Some(YearStats(0, 1990, 1985))).0 == Int(0)
  {
  }

  /** The 'Time Statistics' group. */
  function TimeGroup(ts: TimeSummary, elapsed: real): (g: Group)
    ensures Keys(g) == TimeLabels
  {
    [("Most Common Month of Travel: ", Text(ts.month)),
     ("Most Common Day of Travel: ", Text(ts.dayOfWeek)),
     ("Most Common Hour of Travel: ", Int(ts.hour)),
     ("Time Taken:", Real(elapsed))]
  }

  /** The 'Station Statistics' group. */
  function StationGroup(ss: StationSummary, elapsed: real): (g: Group)
    ensures Keys(g) == StationLabels
  {
    [("Most Common Starting Station:", Text(ss.start)),
     ("Most Common Ending Station:", Text(ss.end)),
     ("Most Common Start -> End Station Combination:", Text(ss.combo)),
     ("Time Taken:", Real(elapsed))]
  }

  /** The 'Trip Duration Statistics' group. */
  function DurationGroup(ds: DurationSummary, elapsed: real): (g: Group)
    ensures Keys(g) == DurationLabels
  {
    [("Total Time of Travel (in seconds): ", Int(ds.total)),
     ("Average Time of Travel per trip (in seconds): ", MeanDisplay(ds.mean)),
     ("Time Taken:", Real(elapsed))]
  }

  /** A 'User Statistics' group from its displayed gender split and birth-year values. */
  function UserFields(genders: Value, years: (Value, Value, Value), elapsed: real): (g: Group)
    ensures Keys(g) == UserLabels
  {
    [("Gender Split: ", genders),
     ("Minimum Year of Birth: ", years.0),
     ("Most Recent Year of Birth: ", years.1),
     ("Most Common Year of Birth: ", years.2),
     ("Time Taken:", Real(elapsed))]
  }

  /** The 'User Statistics' group. */
  function UserGroup(us: UserSummary, elapsed: real): (g: Group)
    ensures Keys(g) == UserLabels
    ensures g[0].1 == GenderDisplay(us.genders)
    ensures (g[1].1, g[2].1, g[3].1) == YearFields(us.years)
  {
    UserFields(GenderDisplay(us.genders), YearFields(us.years), elapsed)
  }

  /** The four groups, in their fixed order. */
  function Assemble(time: Group, station: Group, duration: Group, user: Group): (d: ResultDict)
    ensures Keys(d) == GroupNames
    ensures d[0].1 == time && d[1].1 == station && d[2].1 == duration && d[3].1 == user
  {
    [("Time Statistics", time),
     ("Station Statistics", station),
     ("Trip Duration Statistics", duration),
     ("User Statistics", user)]
  }

  /**
   * `render_result` as a value: the four groups in order, or the KeyError of
   * `mode()[0]` on an empty frame (the first statistic raises it).
   */
  function Report(rows: seq<Trip>, hasGender: bool, hasBirthYear: bool, clock: Timings)
    : (r: Result<ResultDict, StatsError>)
    ensures r.Failure? <==> rows == []
    ensures r.Success? ==> WellShaped(r.value)
  {
    if rows == [] then Failure(EmptyMode)
    else
      Success(Assemble(
        TimeGroup(TimeStats(rows).value, clock.time),
        StationGroup(StationModes(rows).value, clock.station),
        DurationGroup(TripDurationStats(rows), clock.duration),
        UserGroup(UserStats(rows, hasGender, hasBirthYear), clock.user)))
  }

  /**
   * `render_result`: runs the four statistics in order and builds the result
   * key by key. The station statistics add the 'combo station' column to `df`.
   */
  method Render(df: Frame, clock: Timings) returns (r: Result<ResultDict, StatsError>)
    modifies df
    ensures df.rows == old(df.rows) && df.hasGender == old(df.hasGender) && df.hasBirthYear == old(df.hasBirthYear)
    ensures df.combo == if df.rows == [] then old(df.combo) else Some(ComboColumn(df.rows))
    ensures old(df.Valid()) ==> df.Valid()
    ensures r == Report(df.rows, df.hasGender, df.hasBirthYear, clock)
  {
    var rows, hasGender, hasBirthYear := df.rows, df.hasGender, df.hasBirthYear;
    var result: ResultDict := [];

    var time := TimeSection(rows, clock.time);
    if time.Failure? {
      assert time.error.EmptyMode? && Report(rows, hasGender, hasBirthYear, clock) == Failure(EmptyMode);
      return Failure(time.error);
    }
    result := result + [("Time Statistics", time.value)];

    var station := StationSection(df, clock.station);
    result := result + [("Station Statistics", station)];

    var duration := DurationGroup(TripDurationStats(rows), clock.duration);
    result := result + [("Trip Duration Statistics", duration)];

    var user := UserSection(rows, hasGender, hasBirthYear, clock.user);
    result := result + [("User Statistics", user)];
    AssembleByAppending(time.value, station, duration, user);

    ReportOfTrips(rows, hasGender, hasBirthYear, clock);
    return Success(result);
  }

  /** The 'Time Statistics' entry of the result, or the KeyError of `mode()[0]` on an empty frame. */
  method TimeSection(rows: seq<Trip>, elapsed: real) returns (r: Result<Group, StatsError>)
    ensures r.Failure? <==> rows == []
    ensures r.Success? ==> r.value == TimeGroup(TimeStats(rows).value, elapsed)
  {
    var ts := TimeStats(rows);
    if ts.Failure? {
      return Failure(ts.error);
    }
    return Success(TimeGroup(ts.value, elapsed));
  }

  /** The 'Station Statistics' entry of the result; `station_stats` adds the 'combo station' column. */
  method StationSection(df: Frame, elapsed: real) returns (g: Group)
    requires df.rows != []
    modifies df
    ensures df.rows == old(df.rows) && df.hasGender == old(df.hasGender) && df.hasBirthYear == old(df.hasBirthYear)
    ensures df.combo == Some(ComboColumn(df.rows))
    ensures old(df.Valid()) ==> df.Valid()
    ensures g == StationGroup(StationModes(df.rows).value, elapsed)
  {
    var ss := StationStats(df);
    g := StationGroup(ss.value, elapsed);
  }

  /**
   * The 'User Statistics' entry of the result: the gender split is the count
   * table, or the sentinel where `to_string` fails on the sentinel text; the
   * three birth-year values are overwritten by their sentinel when there are
   * no birth years.
   */
  method UserSection(rows: seq<Trip>, hasGender: bool, hasBirthYear: bool, elapsed: real) returns (g: Group)
    ensures g == UserGroup(UserStats(rows, hasGender, hasBirthYear), elapsed)
  {
    var us := UserStats(rows, hasGender, hasBirthYear);
    var genderSplit: Value;
    match us.genders {
      case Counts(cs) => genderSplit := CountTable(cs);
      case Note(_) => genderSplit := Text(NoGenderData);
    }
    var minYob, maxYob, commYob: Value;
    if us.years.Some? {
      minYob, maxYob, commYob := Int(us.years.value.min), Int(us.years.value.max), Int(us.years.value.common);
    } else {
      minYob, maxYob, commYob := Text(NoBirthYearData), Text(NoBirthYearData), Text(NoBirthYearData);
    }
    g := UserFields(genderSplit, (minYob, maxYob, commYob), elapsed);
  }

  /** Adding the four groups one by one to an empty result gives the assembled result. */
  lemma AssembleByAppending(time: Group, station: Group, duration: Group, user: Group)
    ensures [] + [("Time Statistics", time)] + [("Station Statistics", station)]
            + [("Trip Duration Statistics", duration)] + [("User Statistics", user)]
         == Assemble(time, station, duration, user)
  {
  }

  /** Looking a field up in the assembled result looks it up in the group of that name. */
  lemma AssembledField(time: Group, station: Group, duration: Group, user: Group, name: string)
    ensures var d := Assemble(time, station, duration, user);
            && Field(d, "Time Statistics", name) == Lookup(time, name)
            && Field(d, "Station Statistics", name) == Lookup(station, name)
            && Field(d, "Trip Duration Statistics", name) == Lookup(duration, name)
            && Field(d, "User Statistics", name) == Lookup(user, name)
  {
    var d := Assemble(time, station, duration, user);
    LookupFirst(d, 0, "Time Statistics");
    LookupFirst(d, 1, "Station Statistics");
    LookupFirst(d, 2, "Trip Duration Statistics");
    LookupFirst(d, 3, "User Statistics");
  }

  /** The result of a non-empty frame is the four groups of its four statistics. */
  lemma ReportOfTrips(rows: seq<Trip>, hasGender: bool, hasBirthYear: bool, clock: Timings)
    requires rows != []
    ensures Report(rows, hasGender, hasBirthYear, clock) == Success(Assemble(
              TimeGroup(TimeStats(rows).value, clock.time),
              StationGroup(StationModes(rows).value, clock.station),
              DurationGroup(TripDurationStats(rows), clock.duration),
              UserGroup(UserStats(rows, hasGender, hasBirthYear), clock.user)))
  {
  }

  /** Fields of the 'Time Statistics' group of a report are those of the time group. */
  lemma ReportTimeField(rows: seq<Trip>, hasGender: bool, hasBirthYear: bool, clock: Timings, name: string)
    requires rows != []
    ensures Field(Report(rows, hasGender, hasBirthYear, clock).value, "Time Statistics", name)
         == Lookup(TimeGroup(TimeStats(rows).value, clock.time), name)
  {
    ReportOfTrips(rows, hasGender, hasBirthYear, clock);
    AssembledField(TimeGroup(TimeStats(rows).value, clock.time), StationGroup(StationModes(rows).value, clock.station),
      DurationGroup(TripDurationStats(rows), clock.duration), UserGroup(UserStats(rows, hasGender, hasBirthYear), clock.user), name);
  }

  /** Fields of the 'Trip Duration Statistics' group of a report are those of the duration group. */
  lemma ReportDurationField(rows: seq<Trip>, hasGender: bool, hasBirthYear: bool, clock: Timings, name: string)
    requires rows != []
    ensures Field(Report(rows, hasGender, hasBirthYear, clock).value, "Trip Duration Statistics", name)
         == Lookup(DurationGroup(TripDurationStats(rows), clock.duration), name)
  {
    ReportOfTrips(rows, hasGender, hasBirthYear, clock);
    AssembledField(TimeGroup(TimeStats(rows).value, clock.time), StationGroup(StationModes(rows).value, clock.station),
      DurationGroup(TripDurationStats(rows), clock.duration), UserGroup(UserStats(rows, hasGender, hasBirthYear), clock.user), name);
  }

  /** Fields of the 'User Statistics' group of a report are those of the user group. */
  lemma ReportUserField(rows: seq<Trip>, hasGender: bool, hasBirthYear: bool, clock: Timings, name: string)
    requires rows != []
    ensures Field(Report(rows, hasGender, hasBirthYear, clock).value, "User Statistics", name)
         == Lookup(UserGroup(UserStats(rows, hasGender, hasBirthYear), clock.user), name)
  {
    ReportOfTrips(rows, hasGender, hasBirthYear, clock);
    AssembledField(TimeGroup(TimeStats(rows).value, clock.time), StationGroup(StationModes(rows).value, clock.station),
      DurationGroup(TripDurationStats(rows), clock.duration), UserGroup(UserStats(rows, hasGender, hasBirthYear), clock.user), name);
  }

  /** Fields of the 'Station Statistics' group of a report are those of the station group. */
  lemma ReportStationField(rows: seq<Trip>, hasGender: bool, hasBirthYear: bool, clock: Timings, name: string)
    requires rows != []
    ensures Field(Report(rows, hasGender, hasBirthYear, clock).value, "Station Statistics", name)
         == Lookup(StationGroup(StationModes(rows).value, clock.station), name)
  {
    ReportOfTrips(rows, hasGender, hasBirthYear, clock);
    AssembledField(TimeGroup(TimeStats(rows).value, clock.time), StationGroup(StationModes(rows).value, clock.station),
      DurationGroup(TripDurationStats(rows), clock.duration), UserGroup(UserStats(rows, hasGender, hasBirthYear), clock.user), name);
  }

  /** The user group's birth-year fields are the three birth-year display values. */
  lemma UserGroupYears(us: UserSummary, elapsed: real)
    ensures var g, y := UserGroup(us, elapsed), YearFields(us.years);
            && Lookup(g, "Minimum Year of Birth: ") == Some(y.0)
            && Lookup(g, "Most Recent Year of Birth: ") == Some(y.1)
            && Lookup(g, "Most Common Year of Birth: ") == Some(y.2)
  {
    var g := UserGroup(us, elapsed);
    LookupFirst(g, 1, "Minimum Year of Birth: ");
    LookupFirst(g, 2, "Most Recent Year of Birth: ");
    LookupFirst(g, 3, "Most Common Year of Birth: ");
  }

  /** The duration group reports the total duration and the total divided by the number of trips. */
  lemma ReportDurations(rows: seq<Trip>, hasGender: bool, hasBirthYear: bool, clock: Timings)
    requires rows != []
    ensures var d := Report(rows, hasGender, hasBirthYear, clock).value;
            && Field(d, "Trip Duration Statistics", "Total Time of Travel (in seconds): ")
               == Some(Int(TotalDuration(rows)))
            && Field(d, "Trip Duration Statistics", "Average Time of Travel per trip (in seconds): ")
               == Some(Real(TotalDuration(rows) as real / |rows| as real))
  {
    var ds := TripDurationStats(rows);
    ReportDurationField(rows, hasGender, hasBirthYear, clock, "Total Time of Travel (in seconds): ");
    ReportDurationField(rows, hasGender, hasBirthYear, clock, "Average Time of Travel per trip (in seconds): ");
    DurationGroupFields(ds, clock.duration);
    assert ds.mean == Some(TotalDuration(rows) as real / |rows| as real);
  }

  /** The duration group's first two fields are the total and the displayed mean. */
  lemma DurationGroupFields(ds: DurationSummary, elapsed: real)
    ensures var g := DurationGroup(ds, elapsed);
            && Lookup(g, "Total Time of Travel (in seconds): ") == Some(Int(ds.total))
            && Lookup(g, "Average Time of Travel per trip (in seconds): ") == Some(MeanDisplay(ds.mean))
  {
    var g := DurationGroup(ds, elapsed);
    LookupFirst(g, 0, "Total Time of Travel (in seconds): ");
    LookupFirst(g, 1, "Average Time of Travel per trip (in seconds): ");
  }

  /** Without a Birth Year column all three birth-year fields show the same sentinel. */
  lemma ReportWithoutBirthYears(rows: seq<Trip>, hasGender: bool, clock: Timings)
    requires rows != []
    ensures var d := Report(rows, hasGender, false, clock).value;
            && Field(d, "User Statistics", "Minimum Year of Birth: ") == Some(Text(NoBirthYearData))
            && Field(d, "User Statistics", "Most Recent Year of Birth: ") == Some(Text(NoBirthYearData))
            && Field(d, "User Statistics", "Most Common Year of Birth: ") == Some(Text(NoBirthYearData))
  {
    var us := UserStats(rows, hasGender, false);
    ReportUserField(rows, hasGender, false, clock, "Minimum Year of Birth: ");
    ReportUserField(rows, hasGender, false, clock, "Most Recent Year of Birth: ");
    ReportUserField(rows, hasGender, false, clock, "Most Common Year of Birth: ");
    UserGroupYears(us, clock.user);
  }

  /** Without a Gender column the gender split shows the sentinel, whatever the filters. */
  lemma ReportWithoutGender(rows: seq<Trip>, hasBirthYear: bool, clock: Timings)
    requires rows != []
    ensures var d := Report(rows, false, hasBirthYear, clock).value;
            Field(d, "User Statistics", "Gender Split: ") == Some(Text(NoGenderData))
  {
    ReportUserField(rows, false, hasBirthYear, clock, "Gender Split: ");
    LookupFirst(UserGroup(UserStats(rows, false, hasBirthYear), clock.user), 0, "Gender Split: ");
  }

  /** Displayed birth years are ordered: minimum <= most common <= most recent. */
  lemma ReportBirthYearsOrdered(rows: seq<Trip>, hasGender: bool, hasBirthYear: bool, clock: Timings)
    requires rows != []
    ensures var d := Report(rows, hasGender, hasBirthYear, clock).value;
            forall lo, common, hi ::
              && Field(d, "User Statistics", "Minimum Year of Birth: ") == Some(Int(lo))
              && Field(d, "User Statistics", "Most Common Year of Birth: ") == Some(Int(common))
              && Field(d, "User Statistics", "Most Recent Year of Birth: ") == Some(Int(hi))
              ==> lo <= common <= hi
  {
    var us := UserStats(rows, hasGender, hasBirthYear);
    ReportUserField(rows, hasGender, hasBirthYear, clock, "Minimum Year of Birth: ");
    ReportUserField(rows, hasGender, hasBirthYear, clock, "Most Recent Year of Birth: ");
    ReportUserField(rows, hasGender, hasBirthYear, clock, "Most Common Year of Birth: ");
    UserGroupYears(us, clock.user);
  }

  /** The station group's combination field is the summary's combination. */
  lemma StationGroupCombo(ss: StationSummary, elapsed: real)
    ensures Lookup(StationGroup(ss, elapsed), "Most Common Start -> End Station Combination:") == Some(Text(ss.combo))
  {
    LookupFirst(StationGroup(ss, elapsed), 2, "Most Common Start -> End Station Combination:");
  }

  /** The reported combination is the " -> " key of one of the trips. */
  lemma ReportComboIsATripKey(rows: seq<Trip>, hasGender: bool, hasBirthYear: bool, clock: Timings)
    requires rows != []
    ensures var d := Report(rows, hasGender, hasBirthYear, clock).value;
            exists t :: t in rows &&
              Field(d, "Station Statistics", "Most Common Start -> End Station Combination:") == Some(Text(ComboKey(t)))
  {
    var ss := StationModes(rows).value;
    ReportStationField(rows, hasGender, hasBirthYear, clock, "Most Common Start -> End Station Combination:");
    StationGroupCombo(ss, clock.station);
    var t :| t in rows && ss.combo == ComboKey(t);
    assert Field(Report(rows, hasGender, hasBirthYear, clock).value, "Station Statistics",
                 "Most Common Start -> End Station Combination:") == Some(Text(ComboKey(t)));
  }

  /** The time group's first three fields are the summary's month, day and hour. */
  lemma TimeGroupFields(ts: TimeSummary, elapsed: real)
    ensures var g := TimeGroup(ts, elapsed);
            && Lookup(g, "Most Common Month of Travel: ") == Some(Text(ts.month))
            && Lookup(g, "Most Common Day of Travel: ") == Some(Text(ts.dayOfWeek))
            && Lookup(g, "Most Common Hour of Travel: ") == Some(Int(ts.hour))
  {
    var g := TimeGroup(ts, elapsed);
    LookupFirst(g, 0, "Most Common Month of Travel: ");
    LookupFirst(g, 1, "Most Common Day of Travel: ");
    LookupFirst(g, 2, "Most Common Hour of Travel: ");
  }

  /** The time fields of a report are the fields of the time summary. */
  lemma ReportTimeSummary(rows: seq<Trip>, hasGender: bool, hasBirthYear: bool, clock: Timings)
    requires rows != []
    ensures var d, ts := Report(rows, hasGender, hasBirthYear, clock).value, TimeStats(rows).value;
            && Field(d, "Time Statistics", "Most Common Month of Travel: ") == Some(Text(ts.month))
            && Field(d, "Time Statistics", "Most Common Day of Travel: ") == Some(Text(ts.dayOfWeek))
            && Field(d, "Time Statistics", "Most Common Hour of Travel: ") == Some(Int(ts.hour))
  {
    ReportTimeField(rows, hasGender, hasBirthYear, clock, "Most Common Month of Travel: ");
    ReportTimeField(rows, hasGender, hasBirthYear, clock, "Most Common Day of Travel: ");
    ReportTimeField(rows, hasGender, hasBirthYear, clock, "Most Common Hour of Travel: ");
    TimeGroupFields(TimeStats(rows).value, clock.time);
  }

  /**
   * The result shows the calendar name of the most common month, the calendar
   * name of the most common weekday, and the most common hour of the trips.
   */
  lemma ReportTimes(rows: seq<Trip>, hasGender: bool, hasBirthYear: bool, clock: Timings)
    requires rows != []
    ensures var d := Report(rows, hasGender, hasBirthYear, clock).value;
            && (exists m: MonthNum :: IsMode(MonthColumn(rows), NumLe, m)
                  && Field(d, "Time Statistics", "Most Common Month of Travel: ") == Some(Text(MonthName(m))))
            && (exists w: DayNum :: IsMode(DayColumn(rows), NumLe, w)
                  && Field(d, "Time Statistics", "Most Common Day of Travel: ") == Some(Text(DayName(w))))
            && (exists h :: IsMode(HourColumn(rows), NumLe, h) && 0 <= h <= 23
                  && Field(d, "Time Statistics", "Most Common Hour of Travel: ") == Some(Int(h)))
  {
    var ts := TimeStats(rows).value;
    ReportTimeSummary(rows, hasGender, hasBirthYear, clock);
    var m: MonthNum :| IsMode(MonthColumn(rows), NumLe, m) && ts.month == MonthName(m);
    var w: DayNum :| IsMode(DayColumn(rows), NumLe, w) && ts.dayOfWeek == DayName(w);
    var h := ts.hour;
    assert IsMode(HourColumn(rows), NumLe, h) && 0 <= h <= 23;
  }

  /**
   * On a frame as loaded (every row labelled, by `Frame.Valid`) that has a
   * Gender column, the displayed gender counts add up to the number of trips.
   */
  lemma ReportGenderCountsCoverFrame(df: Frame, clock: Timings)
    requires df.Valid() && df.hasGender && df.rows != []
    ensures var d := Report(df.rows, df.hasGender, df.hasBirthYear, clock).value;
            exists cs :: Field(d, "User Statistics", "Gender Split: ") == Some(CountTable(cs)) && Total(cs) == |df.rows|
  {
    var us := UserStats(df.rows, true, df.hasBirthYear);
    ReportUserField(df.rows, true, df.hasBirthYear, clock, "Gender Split: ");
    LookupFirst(UserGroup(us, clock.user), 0, "Gender Split: ");
    GenderCountsCoverEveryTrip(df.rows, df.hasBirthYear);
    assert Field(Report(df.rows, true, df.hasBirthYear, clock).value, "User Statistics", "Gender Split: ")
        == Some(CountTable(us.genders.counts));
  }
}
