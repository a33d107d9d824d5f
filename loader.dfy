/**
 * Loading a city's trips: look the city up, fill in missing gender labels,
 * and keep the rows of the requested month and day of week.
 */
module Loader {
  import opened Wrappers
  import opened Filtering
  import opened Trips

  /** Why a load fails; each is an exception the loader lets through. */
  datatype LoadError =
    | UnknownCity(city: string)   // KeyError: the city is not a key of CityData
    | FileNotFound(path: string)  // the data file is not on disk
    | NotInList(name: string)     // ValueError from list.index: an unknown month or day name

  /** The label that replaces an empty gender cell. */
  const NotAvailable: string := "Not Available"

  /** Where a city's data file lives. */
  function DataPath(city: string): string
    requires city in CityData
  {
    "static\\" + CityData[city]
  }

  /** `s.index(x)`: the first position of `x`, or `None` where Python raises ValueError. */
  function IndexOf<T(==)>(s: seq<T>, x: T): (r: Option<nat>)
    ensures r.Some? <==> x in s
    ensures r.Some? ==> r.value < |s| && s[r.value] == x
    ensures r.Some? ==> forall j :: 0 <= j < r.value ==> s[j] != x
  {
    if s == [] then None
    else if s[0] == x then Some(0)
    else
      match IndexOf(s[1..], x)
      case None => None
      case Some(i) => Some(i + 1)
  }

  /** `fillna('Not Available')` on the gender column. */
  function FillMissingGender(rows: seq<Trip>): (r: seq<Trip>)
    ensures |r| == |rows|
    ensures forall i :: 0 <= i < |rows| ==> r[i].gender.Some?
    ensures forall i :: 0 <= i < |rows| && rows[i].gender.Some? ==> r[i] == rows[i]
    ensures forall i :: 0 <= i < |rows| && rows[i].gender.None? ==>
              r[i] == rows[i].(gender := Some(NotAvailable))
  {
    seq(|rows|, i requires 0 <= i < |rows| =>
      if rows[i].gender.None? then rows[i].(gender := Some(NotAvailable)) else rows[i])
  }

  /** The rows of a table once its gender column, if it has one, is filled. */
  function Filled(t: Table): seq<Trip> {
    if t.hasGender then FillMissingGender(t.rows) else t.rows
  }

  /** Whether a row survives the month and day filters (`All` switches a filter off). */
  predicate Keep(t: Trip, month: string, day: string) {
    && (month == All || (IndexOf(Months, month).Some? && t.start.month == IndexOf(Months, month).value + 1))
    && (day == All || (IndexOf(Days, day).Some? && t.start.dayOfWeek == IndexOf(Days, day).value))
  }

  /** The mask of both filters together. */
  function Selection(month: string, day: string): Trip -> bool {
    (t: Trip) => Keep(t, month, day)
  }

  /** The mask `df['month'] == k`. */
  function MonthIs(k: int): Trip -> bool {
    (t: Trip) => t.start.month == k
  }

  /** The mask `df['day_of_week'] == d`. */
  function DayIs(d: int): Trip -> bool {
    (t: Trip) => t.start.dayOfWeek == d
  }

  /**
   * Loads the trips of `city` from `disk` (path to table) and keeps those of
   * `month` and `day`. The checks happen in the source's order: city, file,
   * month, day.
   */
  method LoadData(disk: map<string, Table>, city: string, month: string, day: string)
    returns (r: Result<Frame, LoadError>)
    ensures city !in CityData ==> r == Failure(UnknownCity(city))
    ensures city in CityData && DataPath(city) !in disk ==> r == Failure(FileNotFound(DataPath(city)))
    ensures city in CityData && DataPath(city) in disk && month != All && month !in Months ==>
              r == Failure(NotInList(month))
    ensures city in CityData && DataPath(city) in disk && (month == All || month in Months)
              && day != All && day !in Days ==>
              r == Failure(NotInList(day))
    ensures r.Success? <==>
              city in CityData && DataPath(city) in disk
              && (month == All || month in Months) && (day == All || day in Days)
    ensures r.Success? ==>
              var t := disk[DataPath(city)];
              && fresh(r.value)
              && r.value.Valid()
              && r.value.rows == Where(Filled(t), Selection(month, day))
              && r.value.hasGender == t.hasGender
              && r.value.hasBirthYear == t.hasBirthYear
              && r.value.combo == None
  {
    if city !in CityData {
      return Failure(UnknownCity(city));
    }
    var filename := DataPath(city);
    if filename !in disk {
      return Failure(FileNotFound(filename));
    }
    var table := disk[filename];
    var rows := table.rows;
    if table.hasGender {
      rows := FillMissingGender(rows);
    }
    ghost var loaded := rows;
    assert loaded == Filled(table);

    if month != All {
      var k := IndexOf(Months, month);
      if k.None? {
        return Failure(NotInList(month));
      }
      rows := Where(rows, MonthIs(k.value + 1));
      WhereAgree(loaded, MonthIs(k.value + 1), Selection(month, All));
    } else {
      WhereKeepsAll(loaded, Selection(All, All));
    }
    assert rows == Where(loaded, Selection(month, All));

    if day != All {
      var d := IndexOf(Days, day);
      if d.None? {
        return Failure(NotInList(day));
      }
      rows := Where(rows, DayIs(d.value));
      WhereBoth(loaded, Selection(month, All), DayIs(d.value), Selection(month, day));
    } else {
      WhereAgree(loaded, Selection(month, All), Selection(month, day));
    }
    assert rows == Where(loaded, Selection(month, day));

    var df := new Frame(rows, table.hasGender, table.hasBirthYear);
    return Success(df);
  }

  /** With no month and no day filter every row is kept. */
  lemma SelectAllKeepsEverything(rows: seq<Trip>)
    ensures Where(rows, Selection(All, All)) == rows
  {
    WhereKeepsAll(rows, Selection(All, All));
  }

  /** Both filters select the month-only rows that also pass the day-only filter. */
  lemma SelectionIsIntersection(rows: seq<Trip>, month: string, day: string)
    ensures Where(rows, Selection(month, day))
         == Where(Where(rows, Selection(month, All)), Selection(All, day))
    ensures Where(rows, Selection(month, day))
         == Where(Where(rows, Selection(All, day)), Selection(month, All))
  {
    WhereBoth(rows, Selection(month, All), Selection(All, day), Selection(month, day));
    WhereBoth(rows, Selection(All, day), Selection(month, All), Selection(month, day));
  }

  /**
   * For valid filter words, a row is kept exactly when it is a row of the
   * table whose month is the filter month's position plus one and whose day
   * of week is the filter day's position (a filter set to `All` admits every row).
   */
  lemma SelectionMembership(rows: seq<Trip>, month: string, day: string, t: Trip)
    requires month == All || month in Months
    requires day == All || day in Days
    ensures t in Where(rows, Selection(month, day)) <==>
              && t in rows
              && (month == All || t.start.month == IndexOf(Months, month).value + 1)
              && (day == All || t.start.dayOfWeek == IndexOf(Days, day).value)
  {
    WhereMembership(rows, Selection(month, day), t);
  }

  /** Filtering a loaded frame again by the same month and day changes nothing. */
  lemma SelectionIdempotent(rows: seq<Trip>, month: string, day: string)
    ensures Where(Where(rows, Selection(month, day)), Selection(month, day)) == Where(rows, Selection(month, day))
  {
    WhereIdempotent(rows, Selection(month, day));
  }
}
