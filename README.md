# Bikeshare statistics — a Dafny model

This project models the logic of the Udacity bikeshare explorer (`bs_logic.py`).
The explorer loads a city's trip log and keeps the trips of one month and/or
one day of the week. It then computes four groups of statistics over them and
assembles them into a nested dictionary for the result page:

- travel times: the most common month, day and hour;
- stations: the most common start station, end station and "start -> end" combination;
- trip durations: the total and the mean;
- users: the gender split, and the minimum, most recent and most common birth year.

The model has eight modules, one file each:

- `Wrappers` (`wrappers.dfy`): `Option` and `Result`.
- `Ordering` (`ordering.dfy`): total orders, for ints and for Python's string order (code point by code point). The order picks the mode among tied values: pandas' `mode()` returns its values sorted and the code takes element `[0]`.
- `Frequency` (`frequency.dfy`): counts, the mode (a value of maximal count, the least under the order among ties), minimum and maximum, and `value_counts().sort_index()` as a strictly ascending table of (label, count) pairs.
- `Filtering` (`filtering.dfy`): `df[mask]` as `Where`, the order-preserving subsequence of the rows a predicate keeps, and its laws.
- `Trips` (`trips.dfy`): the trip record, the city/month/day tables, the calendar names, the " -> " key, and the `Frame` class. `Frame` is the loaded data frame; its 'combo station' column is added in place.
- `Loader` (`loader.dfy`): `load_data` as an imperative method over a map from file path to table, with the source's three error paths.
- `Statistics` (`statistics.dfy`): `time_stats`, `station_stats` (a method that adds the combo column to its frame), `trip_duration_stats` and `user_stats`.
- `Presenter` (`presenter.dfy`): `render_result`. It is a method that builds the dictionary key by key, specified by the function `Report`, and lemmas read fields back out of the result.

A dictionary is modelled as an insertion-ordered sequence of (key, value) pairs. `Lookup` is Python's `d[k]`, with `None` for the KeyError.

## Model

| member | source | states |
|---|---|---|
| Trips.FilterNamesMatchCalendar | bs_logic.py:69-70 | the n-th month filter word is `calendar.month_name[n+1]`, and each day filter word is the first three letters of `calendar.day_name` at the same index |
| Trips.ComboKey | bs_logic.py:90 | a trip's combo key is exactly its start station, then " -> ", then its end station (length and all three slices) |
| Trips.ComboColumn | bs_logic.py:90 | the 'combo station' column has one entry per row, the row's combo key |
| Loader.IndexOf | bs_logic.py:43 | `list.index`: defined iff the item occurs, the item is at that position, and it is the first such position |
| Loader.FillMissingGender | bs_logic.py:31-34 | after `fillna`, every row has a gender label; a present label is unchanged; a missing one becomes 'Not Available'; nothing else in the row changes |
| Loader.LoadData | bs_logic.py:13-55 | unknown city gives the KeyError; a missing file, an unknown month and an unknown day each give their error, in that order; success iff all are valid; the new frame's rows are the filled rows that pass both filters, in order; the column flags are kept; no combo column yet |
| Loader.SelectAllKeepsEverything | bs_logic.py:41-53 | with 'All' for both month and day, every row is kept |
| Loader.SelectionIsIntersection | bs_logic.py:41-53 | filtering by month and day equals filtering by month and then day, and equals filtering by day and then month: the filters commute |
| Loader.SelectionMembership | bs_logic.py:41-53 | for valid filter words, a trip is kept iff it is a row, its month is the month's list position plus one, and its weekday is the day's list position ('All' admits every row) |
| Loader.SelectionIdempotent | bs_logic.py:41-53 | applying the same filters to already filtered rows changes nothing |
| Filtering.Where | bs_logic.py:46 | a boolean mask keeps no more rows than it is given, and every kept row is a given row that passes the mask |
| Filtering.WhereIsSubsequence | bs_logic.py:46 | masking keeps the surviving rows in their original order |
| Filtering.WhereCount | bs_logic.py:46 | a row value's count after masking is its count before if it passes, else zero |
| Filtering.WhereMembership | bs_logic.py:46 | a row survives the mask iff it was there and passes the mask |
| Filtering.WhereConcat | bs_logic.py:46 | masking a concatenation masks each part |
| Filtering.WhereKeepsAll | bs_logic.py:41 | a mask that passes every row changes nothing |
| Filtering.WhereAgree | bs_logic.py:46 | two masks that agree on every row keep the same rows |
| Filtering.WhereBoth | bs_logic.py:46-53 | masking by p and then by q equals masking by (p and q) |
| Filtering.WhereCommutes | bs_logic.py:46-53 | two masks applied in either order keep the same rows |
| Filtering.WhereIdempotent | bs_logic.py:46-53 | a mask applied twice equals the mask applied once |
| Ordering.NumLeIsTotalOrder | bs_logic.py:69-71 | `<=` on numbers is a total order (the tie order of a numeric `mode()`) |
| Ordering.StrLeIsTotalOrder | bs_logic.py:88-91 | Python's string order, code point by code point, is reflexive, antisymmetric, transitive and total (the tie order of a string `mode()`) |
| Frequency.Mode | bs_logic.py:69 | `mode()[0]` on a non-empty column occurs in it, has a count at least every value's count, and is the least value under the order among those of maximal count |
| Frequency.ModeIsUnique | bs_logic.py:69 | two values that both meet the mode's definition are equal, so the mode is fully determined |
| Frequency.Min | bs_logic.py:127 | the minimum occurs in the column and is at most every value |
| Frequency.Max | bs_logic.py:128 | the maximum occurs in the column and is at least every value |
| Frequency.ModeBetweenMinAndMax | bs_logic.py:127-129 | min <= mode <= max for every non-empty numeric column |
| Frequency.ValueCounts | bs_logic.py:122 | `value_counts().sort_index()`: labels strictly ascending, a label is listed iff it occurs, and each count equals its number of occurrences and is at least one |
| Frequency.ValueCountsTotal | bs_logic.py:122 | the counts sum to the number of values counted |
| Statistics.TimeStats | bs_logic.py:67-74 | fails (KeyError of `mode()[0]`) iff there are no trips; otherwise the month and day are the calendar names of the modes of the month and weekday columns, and the hour is the mode of the hour column, between 0 and 23 |
| Statistics.StationModes | bs_logic.py:88-91 | fails iff there are no trips; otherwise start, end and combination are the modes of their columns under string order, and the combination is the key of some trip |
| Statistics.StationStats | bs_logic.py:77-94 | rows and column flags unchanged; on a non-empty frame the 'combo station' column is added and equals the combo column of the rows; on an empty frame it fails before adding it; the frame's invariant is kept; the result is `StationModes` |
| Statistics.TripDurationStats | bs_logic.py:104-108 | the total is the sum of the durations; the mean exists iff there are trips, and mean times count equals total |
| Statistics.TotalDurationSplits | bs_logic.py:105 | the total of a frame is the total of the rows a mask keeps plus the total of those it drops |
| Statistics.TotalDurationBounds | bs_logic.py:105 | if every duration lies in [lo, hi], then count times lo <= total <= count times hi |
| Statistics.MeanWithinRange | bs_logic.py:106 | the mean lies between the shortest and the longest trip duration |
| Statistics.GenderColumn | bs_logic.py:122 | the non-empty gender cells: a label is in it iff some trip has it, each label occurs as often as the trips that carry it, and on filled rows it has one entry per trip |
| Statistics.BirthYearColumn | bs_logic.py:127-129 | the non-empty birth-year cells: a year is in it iff some trip has it, and each year occurs as often as the trips born that year |
| Statistics.UserStats | bs_logic.py:119-135 | no Gender column gives the sentinel text; otherwise the ascending, distinct, complete count table whose counts sum to the number of labelled trips; the birth-year figures are missing iff there is no column or no year (the KeyError is caught); otherwise min and max occur and bound every year, the most common year is the mode, and min <= common <= max |
| Statistics.GenderCountsCoverEveryTrip | bs_logic.py:122 | on a loaded frame, whose genders are all filled, the gender counts add up to the number of trips |
| Presenter.Lookup | bs_logic.py:145 | `d[k]` is defined iff k is a key, and gives a value stored under k |
| Presenter.GenderDisplay | bs_logic.py:166-169 | the split shows the sentinel iff user statistics gave the sentinel (`to_string` fails on a str), else the count table |
| Presenter.MeanDisplay | bs_logic.py:106 | the displayed mean is NaN iff there is no mean, else the mean |
| Presenter.YearFieldsAsWritten | bs_logic.py:172-179 | as written: all three fields show the sentinel iff the figures are missing or the minimum is 0; otherwise they show the minimum, most recent and most common year |
| Presenter.YearFields | bs_logic.py:172-179 | as intended: all three fields show the sentinel iff the figures are missing, else the three figures |
| Presenter.YearFieldsAsWrittenDiffer | bs_logic.py:172 | the written and intended birth-year fields differ exactly when the minimum birth year is 0 |
| Presenter.MinimumYearZeroIsHidden | bs_logic.py:172 | years {0, 1985, 1985, 1990} display as missing as written, and as 0 as intended |
| Presenter.TimeGroup | bs_logic.py:146-150 | the 'Time Statistics' group has exactly its four labels, in order, ending with 'Time Taken:' |
| Presenter.StationGroup | bs_logic.py:152-156 | the 'Station Statistics' group has exactly its four labels, in order |
| Presenter.DurationGroup | bs_logic.py:158-161 | the 'Trip Duration Statistics' group has exactly its three labels, in order |
| Presenter.UserGroup | bs_logic.py:181-185 | the 'User Statistics' group has exactly its five labels, in order; it shows the displayed gender split and the corrected birth-year fields (`YearFields`) |
| Presenter.Assemble | bs_logic.py:144-185 | the result has exactly the four group names, in order, holding the four given groups |
| Presenter.Report | bs_logic.py:138-187 | fails iff there are no trips; otherwise the result has the fixed shape: four groups, each with its fixed labels (birth years by the corrected test) |
| Presenter.Render | bs_logic.py:138-187 | rows and flags unchanged; the combo column added as by the station statistics; a loaded frame stays valid; the result built key by key equals `Report` |
| Presenter.TimeSection | bs_logic.py:146-150 | the time entry fails iff there are no trips, else it is the time group of `TimeStats` |
| Presenter.StationSection | bs_logic.py:152-156 | on a non-empty frame the station entry is the station group of `StationModes`, and the frame gains its combo column and nothing else |
| Presenter.UserSection | bs_logic.py:163-185 | the user entry, with the gender split from `to_string` or its sentinel and the three birth-year values overwritten by their sentinel when there are none, is the user group of `UserStats` |
| Presenter.ReportTimes | bs_logic.py:146-150 | the result shows the calendar name of a most common month, the calendar name of a most common weekday, and a most common hour (0 to 23) of the trips |
| Presenter.ReportDurations | bs_logic.py:158-161 | the result shows the total duration, and as average the total divided by the number of trips |
| Presenter.ReportWithoutBirthYears | bs_logic.py:172-179 | without a Birth Year column all three birth-year fields show the same sentinel |
| Presenter.ReportWithoutGender | bs_logic.py:166-169 | without a Gender column the gender split shows its sentinel |
| Presenter.ReportGenderCountsCoverFrame | bs_logic.py:122 | on a loaded frame with a Gender column, the displayed gender counts add up to the number of trips |
| Presenter.ReportBirthYearsOrdered | bs_logic.py:127-129 | whenever the three birth-year fields show numbers, minimum <= most common <= most recent |
| Presenter.ReportComboIsATripKey | bs_logic.py:90-91 | the shown combination is the " -> " key of one of the trips |

## Left out

- Reading CSV files (`pd.read_csv`) is modelled by the `disk` map from path to table given to `LoadData`. A path that is not in it is the file-not-found error.
- Timestamp parsing (`pd.to_datetime`, `.dt.month`, `.dt.dayofweek`, `.dt.hour`) is left out. Month, weekday and hour are fields of each trip's `Timestamp`.
- The clock (`time.time()`) is left out. The elapsed seconds of each group are a `Timings` parameter of `Render`.
- Floating point is left out: durations are integers and the mean is an exact `real` quotient. NaN is the `NaN` display value; it only appears for a mean over no trips.
- `to_string()` formatting is left out. The gender split is shown as the count table itself (`CountTable`).
- `main()`, `app.py` and `forms.py` are not part of this model: they are console and web plumbing.
- `fillna(..., inplace=True)` and the added `month`/`day_of_week` columns are modelled as value updates of the rows `LoadData` builds. The only in-place column the model tracks is 'combo station', which outlives the call that adds it.
- Loader.LoadData: does not model pandas' KeyError for a city whose file lacks a column the code indexes ('Start Time' and the like). Every table is assumed to carry the mandatory columns.
- Presenter.UserGroup: uses the corrected birth-year test (`YearFields`), not the truthiness test of line 172. For a least birth year of 0 it shows the three figures, where the code shows the sentinel (see Findings; `YearFieldsAsWritten` is the code's test).
- Presenter.UserSection: overwrites the birth-year values only when there are none, so, like `UserGroup`, it shows the figures for a least birth year of 0 where the code shows the sentinel.
- Presenter.Report: built from `UserGroup`, so it carries the corrected birth-year test and differs from the code when the least birth year is 0.
- Presenter.Render: equals `Report`, so it too shows the figures for a least birth year of 0 where the code shows the sentinel.
- Statistics.TripDurationStats: the mean is exact, not a 64-bit float, so rounding of `mean()` is not captured.
- An empty selection is not a separate case in the code: `time_stats` raises KeyError from `mode()[0]`, and nothing in `bs_logic.py` catches it. The model does the same: `Report` and `Render` fail with `EmptyMode`.

## Findings

| source | as written | input that shows it | evidently intended | confidence | as-written member | corrected member |
|---|---|---|---|---|---|---|
| bs_logic.py:172 | tests the minimum birth year for Python truthiness, which is false for a missing value and also for the number 0 | a frame whose birth years are 0, 1985, 1985, 1990: the three figures are replaced by "No Birth Year Data available for this City" | show the figures whenever they exist (test for `None`) | not executed | Presenter.MinimumYearZeroIsHidden | Presenter.YearFields |
