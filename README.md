# COVID-19 Italy ETL: a verified model of the table transforms

The repository downloads the Italian Civil Protection COVID-19 feeds (national,
regional, provincial) into pandas tables indexed by date, repairs a known data
defect, adds derived columns (day-over-day differences, growth factors, test
ratios, rolling means), reshapes regions and provinces into one wide table per
level, and labels plot axes with dates. This project models those transforms
in Dafny and proves what they compute.

- `calendar.dfy` (module `Calendar`): Python `datetime.date` values. It covers
  the proleptic Gregorian calendar, `date + timedelta(days=n)` and the
  chronological order of a date index.
- `text.dfy` (module `Text`): `str(n)`, `strftime('%d')` and `strftime('%m')`.
  It also holds the `name_unit` suffix that renamed columns carry.
- `series.dfy` (module `Series`): a pandas float column, with NaN and the
  infinities of a zero division written as `None`. It gives the vectorised
  calls the pipeline makes (`diff`, `shift`, `pct_change`, `cumsum`, `fillna`,
  `mean`, trailing and centred `rolling(...).mean()`) as pure functions, with
  lemmas about them.
- `frames.dfy` (module `Frames`): a date-indexed table, in two forms.
  - `Frame` is a table as a value. Its invariant: unique ascending dates,
    unique column names, one cell per date in each column.
  - `DataFrame` is the mutable object the pipeline changes in place, with
    column assignment, `.loc` cell writes and `rename`.
  - The module also defines column selection, the inner join on the date, and
    the left fold of joins that builds the wide tables.
- `etl_utilities.dfy` (module `Etl`): `src/ETL_utilities.py`. It covers the
  2020-03-10 fix, `add_delta_growth_perc`, `add_ra_days` and `add_ra`.
- `italy.dfy` (module `Italy`): the notebook `src/italy.py`. It covers:
  - the hand corrections of the national table and of Lombardia;
  - the notebook's own (older) `add_delta_and_growth` and `add_ra_and_perc`;
  - `new_columns_mapping` and `localize_plot_column`;
  - the regional loop: Lombardia seeds the accumulator, then every other
    region is derived, renamed and inner-joined onto it.
- `places.dfy` (module `Places`): the notebook's `ITALIAN_REGIONS` and
  `PROVINCE` lists. It proves their names distinct and free of underscores, so
  the renamed columns never clash.
- `provinces.dfy` (module `Provinces`): the notebook's province loop. It covers
  the `first_iteration` accumulator, which starts as `None`.
- `formatting.dfy` (module `Formatting`): `src/formatting_utilities.py`. It
  covers tick labels and `dd/mm/yyyy` texts for day numbers.

A function of a table's value specifies each in-place operation. The method
that mutates a `DataFrame` ensures `Value() == F(old(Value()))`, and the lemmas
beside `F` state what the new table holds:
- which columns exist;
- which cells were written, and with what;
- which columns were left alone.

Loops in the source are methods with loop invariants. These are
`new_columns_mapping`, the region loop and the province loop.

Facts about the code that shape the model:
- `totale_casi_DELTA` is `totale_casi.diff()` (src/ETL_utilities.py:42 and
  src/italy.py:82). Its NaN are then filled with 0 in `add_delta_growth_perc`
  (src/ETL_utilities.py:67) but not in the notebook's `add_delta_and_growth`.
- `add_delta_growth_perc` differences exactly six fields
  (src/ETL_utilities.py:42-47), and `add_delta_and_growth` differences five
  (src/italy.py:82-86).
- The only data fix is the 2020-03-10 split of 600 cases over two days
  (src/ETL_utilities.py:24-38, src/italy.py:65-74 and 387-392).
- The centred rolling means use `min_periods=4` whatever the window
  (src/ETL_utilities.py:79-81).

## Model

| member | source | states |
|---|---|---|
| Calendar.AddDays | src/formatting_utilities.py:31 | `date + timedelta(days=n)` is a valid calendar date for every offset; the members that format a date require it to lie in years 1..9999, where Python's result exists |
| Calendar.AddDaysStep | src/ETL_utilities.py:9 | one more day of offset is the calendar successor, so ERR_DATE_P1 is the day after ERR_DATE |
| Calendar.AddDaysAdditive | src/formatting_utilities.py:31 | offsets compose: (d + m days) + n days is d + (m + n) days |
| Calendar.AddDaysIncreasing | src/formatting_utilities.py:31 | a larger offset gives a strictly later date |
| Calendar.SuccessorIsNext | src/ETL_utilities.py:9 | no date lies between a date and its successor |
| Calendar.PredecessorOfSuccessor | src/ETL_utilities.py:9 | stepping a day forward and back returns the same date |
| Calendar.BeforeTransitive | src/ETL_utilities.py:69 | the order of a date index is transitive |
| Text.NatToStringRoundTrip | src/formatting_utilities.py:12 | `str(day)` is a digit string that reads back as the day |
| Text.NatToStringInjective | src/formatting_utilities.py:12 | different numbers render differently |
| Text.NatToStringFourDigits | src/formatting_utilities.py:31 | a year from 1000 to 9999 renders in four characters |
| Text.Pad2 | src/formatting_utilities.py:31 | `%d` and `%m` are two digits that read back as the number |
| Text.AfterLastUnderscoreOfSuffixed | src/italy.py:370 | the unit is what follows the last underscore of `column_unit` when the unit has no underscore |
| Text.SuffixedInjective | src/italy.py:370 | `column + '_' + unit` never makes two (column, unit) pairs collide |
| Series.CountDefinedBound | src/ETL_utilities.py:72 | the NaN-skipping count reaches the length exactly when every cell is defined |
| Series.AggregatesAppend | src/ETL_utilities.py:72 | NaN-skipping sums and counts split over concatenation |
| Series.AggregatesOfUndefined | src/ETL_utilities.py:69 | blanked cells add nothing to the sum or the count |
| Series.SumDefinedNonNegative | src/ETL_utilities.py:50 | a sum of non-negative cells is non-negative |
| Series.DiffTelescopes | src/ETL_utilities.py:42 | summing `s.diff()` over rows a+1..b gives s[b] - s[a], and each of those differences is defined |
| Series.FilledDiffTelescopes | src/ETL_utilities.py:67 | the same after the NaN are filled with 0 |
| Series.MinusOfDiffs | src/ETL_utilities.py:57-58 | a difference of two differenced columns is defined exactly when both columns are known on the day and the day before, and adding back the second increase gives the first |
| Series.RatioOfDiffs | src/ETL_utilities.py:55-56 | a quotient of differenced columns is, row by row, the quotient of the day-over-day changes, NaN on row 0 |
| Series.CumSumStep | src/ETL_utilities.py:50 | the running sum adds each day's value to the previous total |
| Series.CumSumFirst | src/ETL_utilities.py:50 | the running sum starts at the first value |
| Series.DiffOfCumSum | src/ETL_utilities.py:50 | `diff` undoes `cumsum` on a fully known column |
| Series.CumSumMonotone | src/ETL_utilities.py:50 | with non-negative input the running sum never decreases |
| Series.GrowthFactorIsQuotient | src/ETL_utilities.py:52-53 | `pct_change() + 1` is s[i] / s[i-1], defined only where both are defined and s[i-1] is non-zero |
| Series.TrailingDefinedIff | src/ETL_utilities.py:76 | a trailing window is defined exactly when all w rows exist and hold values, and is then their mean |
| Series.TrailingMeanOfDiff | src/italy.py:100 | the trailing mean of `diff()` is (s[i] - s[i-w]) / w, defined exactly from row w on |
| Series.TrailingMeanOfFilledDiff | src/ETL_utilities.py:76 | after the zero fill it is defined from row w-1 on, with the same value from row w |
| Series.FiveRowMeanOfFilledDiff | src/ETL_utilities.py:76 | the 5-row mean of filled differences is defined from row 4 and is the mean daily increase of the last five days from row 5 |
| Series.CenteredSevenDefinedIff | src/ETL_utilities.py:79-81 | a centred 7-row mean with min_periods 4 is defined exactly when 4 of the clipped rows i-3..i+3 are defined, and is then their mean |
| Series.CenteredSevenDefinedEverywhere | src/ETL_utilities.py:79-81 | on a fully known column of at least 4 rows the centred 7-row mean is defined on every row, ends included |
| Series.MeanAfterBlankingPrefix | src/ETL_utilities.py:69-72 | blanking rows before k and then taking the mean gives the mean of rows k onwards |
| Frames.DistinctAppend | src/italy.py:416 | the join's column list has no repeated name when the two sides share none |
| Frames.Position | src/ETL_utilities.py:27 | `.loc` finds the row holding a date present in the index |
| Frames.RowsBeforeIsPrefix | src/ETL_utilities.py:69 | on an ascending index the mask `index < d` selects exactly the leading rows |
| Frames.PositionUnique | src/ETL_utilities.py:27 | a date has exactly one row in an ascending index |
| Frames.AppendAbsentIs | src/ETL_utilities.py:42 | the column list after `ds[name] = ...`: unchanged for an existing name, otherwise the name is appended |
| Frames.FieldDiff | src/ETL_utilities.py:42-47 | `ds[name].diff()` has one cell per row; its cells are stated by Etl.CasesDeltaCells, Italy.DeltaCells and Series.DiffTelescopes |
| Frames.With | src/ETL_utilities.py:42 | `ds[name] = col` keeps the index and replaces or adds exactly that column |
| Frames.WithWellFormed | src/ETL_utilities.py:42 | a column assignment keeps the table invariant and appends a new name at the end |
| Frames.SetCellValue | src/ETL_utilities.py:27 | a `.loc` write into an existing date keeps the index and the table invariant |
| Frames.SetCellValueColumns | src/ETL_utilities.py:27 | a `.loc` write into an existing column leaves the columns alone |
| Frames.SetCellValueCell | src/ETL_utilities.py:27 | a `.loc` write changes exactly its cell; a new column is NaN on every other row |
| Frames.ApplyCorrectionsSnoc | src/ETL_utilities.py:27-31 | a registry is its writes applied one after another |
| Frames.ApplyFourCorrections | src/ETL_utilities.py:27-31 | a four-entry registry is four `.loc` writes in order |
| Frames.ApplyCorrections | src/ETL_utilities.py:24-38 | a registry keeps the index and the table invariant |
| Frames.WrittenSnoc | src/ETL_utilities.py:27-31 | a cell is written by a registry exactly when it is written by its prefix or by its last entry |
| Frames.FieldSnoc | src/ETL_utilities.py:27-31 | a registry names a field exactly when its prefix or its last entry does |
| Frames.CorrectionCells | src/ETL_utilities.py:24-38 | exactly the registry's cells change, each to the value of the last entry for it; every other cell keeps its value |
| Frames.CorrectionColumns | src/ETL_utilities.py:24-38 | a registry whose fields exist leaves the column list and its keys unchanged |
| Frames.CorrectionsKeepColumns | src/ETL_utilities.py:24-38 | a registry never removes a column |
| Frames.SameCells | src/ETL_utilities.py:24-38 | two columns equal cell by cell are equal |
| Frames.ReapplyCell | src/ETL_utilities.py:24-38 | re-applying a registry leaves each cell of the corrected table as it is |
| Frames.ReapplyColumn | src/ETL_utilities.py:24-38 | re-applying a registry leaves each column of the corrected table as it is |
| Frames.ReapplyColumns | src/ETL_utilities.py:24-38 | after one application every registry field is a column, so a second keeps the columns |
| Frames.CorrectionsIdempotent | src/ETL_utilities.py:24-38 | corrections overwrite and never accumulate: applying a registry twice equals applying it once |
| Frames.Select | src/italy.py:387 | `.loc[:, fields]` keeps the index, has exactly those columns in that order, and each holds the original data |
| Frames.RenamedProperties | src/italy.py:397 | `rename(columns=m)` with m injective keeps the index and the invariant and moves each column's data to its new name |
| Frames.SuffixMappingInjective | src/italy.py:367-371 | suffixing every column with the same unit never merges two columns |
| Frames.RenamedForUnit | src/italy.py:397 | the renamed copy has exactly the columns `c_unit`, each holding column c's data |
| Frames.RenamedTagged | src/italy.py:414 | every column of a renamed copy ends in its unit |
| Frames.TaggedDisjoint | src/italy.py:416 | tables tagged with different units share no column |
| Frames.TaggedJoinable | src/italy.py:416 | proper tables tagged with pairwise different units can be folded by joins |
| Frames.TaggedJoinableCons | src/italy.py:405-416 | the same with the seed table given apart from the rest |
| Frames.RenamedDisjoint | src/italy.py:414-416 | the renamed copies of two different units never clash |
| Frames.KeepDates | src/italy.py:416 | the dates an inner join keeps are exactly the common ones, still ascending |
| Frames.KeepIgnoresAbsent | src/italy.py:416 | a date of the right table that the left one lacks does not affect the join |
| Frames.KeepNothing | src/italy.py:416 | nothing is kept when no date is shared |
| Frames.KeepSymmetric | src/italy.py:416 | filtering a by b and b by a give the same dates |
| Frames.KeepSource | src/italy.py:416 | each kept cell comes from the row of the same date |
| Frames.KeepLength | src/italy.py:416 | each column is cut to the same number of rows as the index |
| Frames.InnerJoin | src/italy.py:416 | `pd.merge(on='data')` is a proper table whose dates are those of both sides and whose columns are both sides' columns |
| Frames.JoinRow | src/italy.py:416 | each cell of the join is the cell its own table holds for the same date |
| Frames.AllKeysMember | src/italy.py:405-416 | a name is a column of some unit exactly when some unit has it |
| Frames.FoldJoin | src/italy.py:405-416 | the fold of joins is a proper table holding exactly all the units' columns |
| Frames.FoldJoinDisjointLast | src/italy.py:416 | the unit joined last shares no column with the fold before it |
| Frames.FoldJoinCell | src/italy.py:405-416 | every cell of the folded table is the cell its own unit holds for that date |
| Frames.FoldJoinCellStep | src/italy.py:416 | the last join takes each cell from the unit itself or from the fold so far |
| Frames.FoldJoinUnfold | src/italy.py:416 | the fold is the join of the fold of all units but the last with the last |
| Frames.FoldPrefix | src/italy.py:405-416 | the accumulator after n units is a proper table |
| Frames.FoldPrefixFirst | src/italy.py:405 | the first unit is the seed of the accumulator |
| Frames.FoldPrefixStep | src/italy.py:416 | folding one more unit in is one more join, with disjoint columns |
| Frames.FoldPrefixJoin | src/italy.py:416 | the join that grows the accumulator is allowed and gives the longer prefix's fold |
| Frames.JoinNext | src/italy.py:416 | one merge takes the accumulator of n units to that of n + 1 |
| Frames.FoldPrefixAll | src/italy.py:408-416 | when every unit is in, the accumulator is the whole fold |
| Frames.DateInAllSnoc | src/italy.py:416 | a date is in every unit exactly when it is in every unit but the last and in the last |
| Frames.FoldJoinDates | src/italy.py:405-416 | the folded table's dates are those every unit has: an intersection, not a union |
| Frames.DateInAllCons | src/italy.py:405-416 | a date is in a seed and the rest exactly when it is in the seed and in each of the rest |
| Frames.FoldJoinConsDates | src/italy.py:405-416 | the intersection of dates, for a seed followed by the other units |
| Frames.FoldJoinSeedCell | src/italy.py:405 | a cell of the seed's column in the folded table is the seed's cell for that date |
| Frames.FoldJoinRestCell | src/italy.py:408-416 | a cell of a later unit's column is that unit's cell for that date |
| Frames.DataFrame.constructor | src/italy.py:387 | `.copy()` gives a fresh table holding the given value |
| Frames.DataFrame.Assign | src/ETL_utilities.py:42 | `ds[name] = col` in place: the new value is the old one with that column set |
| Frames.DataFrame.SetCell | src/ETL_utilities.py:27 | `ds.loc[d, field] = v` in place: the new value is the old one with that cell written |
| Frames.DataFrame.Rename | src/italy.py:397 | `ds.rename(columns=m, inplace=True)`: the new value is the renamed old one |
| Etl.ErrDateP1IsNextDay | src/ETL_utilities.py:8-9 | ERR_DATE is 2020-03-10 and ERR_DATE_P1 is the day after it |
| Etl.RegistryDatesIn | src/ETL_utilities.py:27-38 | every entry of both registries is dated ERR_DATE or ERR_DATE_P1 |
| Etl.Fix20200310 | src/ETL_utilities.py:24-38 | `fix_2020_03_10(ds, region)` writes the scope's four cells in order, in place |
| Etl.NationalFixCells | src/ETL_utilities.py:27-31 | national scope: 2020-03-10 totale_casi 10749, totale_positivi 9114, nuovi_positivi 1129; 2020-03-11 nuovi_positivi 1476; every other cell unchanged |
| Etl.RegionalFixCells | src/ETL_utilities.py:34-38 | regional scope: 2020-03-10 totale_casi 6391, totale_positivi 5027, nuovi_positivi 922; 2020-03-11 nuovi_positivi 889; every other cell unchanged |
| Etl.RegistryCells | src/ETL_utilities.py:24-38 | a four-entry registry of this shape writes its four cells and nothing else |
| Etl.FixIdempotent | src/ETL_utilities.py:24-38 | running the fix twice gives the table of running it once |
| Etl.BeforeMask | src/ETL_utilities.py:69 | the mask `ds.index < fix_date` has one entry per row |
| Etl.AssignmentsInOrder | src/ETL_utilities.py:42-76 | the assignments in source order, with the two overwritten first values, leave the final columns in place |
| Etl.AddDeltaGrowthPerc | src/ETL_utilities.py:40-76 | `add_delta_growth_perc(ds)` in place: the new table is DeltaGrowthPerc of the old one |
| Etl.CasesDeltaCells | src/ETL_utilities.py:42-67 | totale_casi_DELTA is 0 on row 0 and the day-over-day increase of totale_casi later, 0 where a day is missing |
| Etl.CasesDeltaTelescopes | src/ETL_utilities.py:42-67 | summing the new cases over rows a+1..b gives the growth of the total between rows a and b |
| Etl.FirstRowDeltas | src/ETL_utilities.py:42-47 | on row 0 every difference is NaN except totale_casi_DELTA, which is 0 |
| Etl.FirstRowDerived | src/ETL_utilities.py:52-64 | on row 0 the growth factors, test ratios, negative tests and delta ratios are NaN |
| Etl.NegativeTests | src/ETL_utilities.py:57 | tamponi_negativi is the day's tests minus the day's new cases, defined exactly when both totals are known on the day and the day before |
| Etl.NegativeTestsTrue | src/ETL_utilities.py:58 | the same with casi_testati instead of tamponi |
| Etl.IcuCumulativeStep | src/ETL_utilities.py:50 | terapia_intensiva_CUM adds each day's occupancy to the previous total |
| Etl.IcuCumulativeMonotone | src/ETL_utilities.py:50 | with non-negative occupancy terapia_intensiva_CUM never decreases |
| Etl.GrowthFactors | src/ETL_utilities.py:52-53 | the growth factors are today's increase over yesterday's, NaN on the first two rows and where yesterday's increase is 0 or unknown |
| Etl.LaggedColumns | src/ETL_utilities.py:62-75 | the lagged columns divide the new cases by the positives of the same day, 7 and 10 days earlier; totale_positivi_10_R0 is the positives 10 rows earlier |
| Etl.CasesRa5R0Defined | src/ETL_utilities.py:67-76 | for any input the 5-row mean of new cases is NaN on rows 0-3 and, from row 4, the mean of the last five zero-filled differences |
| Etl.CasesRa5R0Value | src/ETL_utilities.py:67-76 | on a fully known total, from row 5 it is the mean daily increase of the last five days |
| Etl.PositiveTestRatioCells | src/ETL_utilities.py:55-69 | positive_test_RATIO is NaN before 2020-03-11 and new cases over new tests from then on |
| Etl.PositiveTestRatioMeanCells | src/ETL_utilities.py:69-72 | every row of positive_test_RATIO_MEAN holds the mean of the ratios from 2020-03-11 on |
| Etl.DeltasReadBack | src/ETL_utilities.py:42-50 | reading back by name gives the derived differences and the cumulative column |
| Etl.CountsReadBack | src/ETL_utilities.py:57-58 | reading back by name gives the negative-test counts |
| Etl.RatiosReadBack | src/ETL_utilities.py:52-62 | reading back by name gives the growth factors and ratios |
| Etl.LaggedReadBack | src/ETL_utilities.py:63-76 | reading back by name gives the lagged, mean and R0 columns |
| Etl.DeltaGrowthPercDeltas | src/ETL_utilities.py:42-50 | the table after `add_delta_growth_perc` holds the derived differences under their names |
| Etl.DeltaGrowthPercRatios | src/ETL_utilities.py:52-62 | it holds the growth factors and ratios under their names |
| Etl.DeltaGrowthPercLagged | src/ETL_utilities.py:63-76 | it holds the lagged, mean and R0 columns under their names |
| Etl.DeltaGrowthPercKeeps | src/ETL_utilities.py:40-76 | it keeps every column, adds exactly the derived ones, and leaves every other column as it was |
| Etl.ColumnMapKeys | src/ETL_utilities.py:42-76 | the assigned names are exactly the derived names |
| Etl.CenteredMean | src/ETL_utilities.py:79 | the centred mean has one cell per row |
| Etl.RaDays | src/ETL_utilities.py:78-81 | `add_ra_days` keeps the index and the table invariant |
| Etl.RaNamesFresh | src/ETL_utilities.py:79-81 | no rolling-mean name collides with a column it is computed from or with another rolling-mean name |
| Etl.AddRaDays | src/ETL_utilities.py:78-81 | `add_ra_days(ds, days)` in place: the new table is RaDays of the old one |
| Etl.AddRa | src/ETL_utilities.py:83-84 | `add_ra(ds)` is `add_ra_days(ds, 7)` |
| Etl.RaDaysColumns | src/ETL_utilities.py:78-81 | exactly three columns are written, each the centred mean of its source; the rest are untouched |
| Etl.RaSevenNames | src/ETL_utilities.py:79-84 | `add_ra` writes totale_casi_RA_7, totale_casi_DELTA_RA_7 and growth_factor_cum_infected_RA_7 |
| Etl.SevenDayMean | src/ETL_utilities.py:79-84 | a 7-day cell is defined exactly when 4 of the existing rows i-3..i+3 hold a value, and is then their mean |
| Etl.SevenDayMeanEverywhere | src/ETL_utilities.py:79-84 | on a fully known column of at least 4 rows every 7-day cell is defined |
| Italy.FixDatesIn | src/italy.py:67-74 | every correction cell is dated 2020-03-10 or 2020-03-11 |
| Italy.Correct | src/italy.py:70-74 | the four `.loc` writes in order, in place |
| Italy.NationalFixCells | src/italy.py:65-74 | national: 2020-03-10 totale_casi 10749, totale_attualmente_positivi 9114, nuovi_attualmente_positivi 1129; 2020-03-11 nuovi_attualmente_positivi 1476; nothing else changes |
| Italy.LombardiaFixCells | src/italy.py:389-392 | Lombardia: 2020-03-10 totale_casi 6391, totale_attualmente_positivi 5027, nuovi_attualmente_positivi 537; 2020-03-11 nuovi_attualmente_positivi 736; nothing else changes |
| Italy.GrowthAssignments | src/italy.py:80-91 | the eight assignments in order leave the eight final columns in place |
| Italy.AddDeltaAndGrowth | src/italy.py:80-91 | `add_delta_and_growth(ds)` in place: the new table is DeltaAndGrowth of the old one |
| Italy.GrowthMapKeys | src/italy.py:80-91 | the assigned names are exactly the eight growth names |
| Italy.GrowthReadBack | src/italy.py:80-91 | reading back by name gives the eight assigned columns |
| Italy.DeltaAndGrowthWellFormed | src/italy.py:80-91 | the result is a proper table with the same dates |
| Italy.DeltaAndGrowthTable | src/italy.py:80-91 | it holds every old column plus exactly the eight assigned; unassigned columns are untouched |
| Italy.DeltaAndGrowthColumns | src/italy.py:82-91 | the differences are plain `diff()`s, the growth factors `pct_change() + 1` of the case and current-positive differences, the ratio case difference over test difference |
| Italy.DeltaCells | src/italy.py:82-86 | every difference is NaN on row 0 (nothing is filled) and the day-over-day change later |
| Italy.GrowthFactorCells | src/italy.py:88-89 | the growth factor of day i is day i's increase over day i-1's, defined only where the latter is defined and non-zero |
| Italy.PositiveTestRatioCells | src/italy.py:91 | new cases over new tests, NaN on row 0 and where the tests did not change |
| Italy.TrailingMeans | src/italy.py:98-104 | one window length's two trailing means keep the index and the invariant |
| Italy.RaAndPerc | src/italy.py:97-104 | `add_ra_and_perc` keeps the index and the invariant |
| Italy.AddRaAndPerc | src/italy.py:97-104 | `add_ra_and_perc(ds)` in place: the new table is RaAndPerc of the old one |
| Italy.RaNamesSpelled | src/italy.py:99-104 | the names written are totale_casi_RA_3, totale_casi_DELTA_RA_3, totale_casi_RA_4, totale_casi_DELTA_RA_4 |
| Italy.TrailingMeansColumns | src/italy.py:98-100 | one window length writes its two columns and leaves the rest |
| Italy.RaAndPercColumns | src/italy.py:97-104 | exactly four columns are written, the 3- and 4-row trailing means of totale_casi and totale_casi_DELTA |
| Italy.Processed | src/italy.py:394-395 | both derivation steps keep the index and the invariant |
| Italy.CaseMeans | src/italy.py:99-103 | on a fully known total the case means are defined exactly from row days-1, as the plain mean of the window |
| Italy.TrailingOnDefined | src/italy.py:99-103 | a trailing mean over a fully known column is defined exactly from row w-1, as the window's mean |
| Italy.DeltaMeanColumn | src/italy.py:100-104 | the DELTA means are the trailing means of totale_casi_DELTA |
| Italy.DeltaMeans | src/italy.py:100-104 | on the unfilled difference of a fully known total the DELTA means are defined exactly from row days, one row later than the case means |
| Italy.NewColumnsMapping | src/italy.py:367-371 | one entry per column, mapping c to `c + '_' + unit`; no two columns get the same name |
| Italy.LocalizePlotColumn | src/italy.py:426-427 | one name per unit, in the units' order |
| Italy.LocalizedIsRenamed | src/italy.py:426-427 | the k-th name is the one `new_columns_mapping` gave the column in unit k's table, and it holds the column's data there |
| Italy.LocalizedNamesDistinct | src/italy.py:426-427 | each name ends in its unit, so distinct underscore-free units give distinct names |
| Italy.InterestingFieldsDistinct | src/italy.py:384 | the kept fields are six different names |
| Italy.RegionInput | src/italy.py:387 | a region's selected copy has the region's dates and the kept fields |
| Italy.LombardiaInput | src/italy.py:387-392 | Lombardia's corrected copy has Lombardia's dates and the kept fields |
| Italy.LombardiaUnit | src/italy.py:387-397 | Lombardia's seed table is a proper table with Lombardia's dates |
| Italy.LombardiaUnitTagged | src/italy.py:397 | every column of the seed ends in `_Lombardia` |
| Italy.RegionUnit | src/italy.py:409-414 | another region's prepared table is a proper table with the region's dates |
| Italy.RegionUnitTagged | src/italy.py:414 | every column of a region's table ends in `_region` |
| Italy.RegionCopies | src/italy.py:401-402 | one copy per region, in order |
| Italy.RegionUnits | src/italy.py:405-416 | Lombardia then the other regions: one more unit than regions |
| Italy.RegionCopiesAt | src/italy.py:408-414 | copy k is region k's prepared table |
| Italy.RegionCopiesTagged | src/italy.py:414 | each copy carries its region's tag |
| Italy.RegionUnitsJoinable | src/italy.py:405-416 | no two regions' tables share a column, so the fold is allowed |
| Italy.RegionsSided | src/italy.py:405-416 | `ds_regions_sided` is a proper table |
| Italy.PrepareUnit | src/italy.py:394-397 | derivation, trailing means and rename in place: the new table is the renamed processed old one |
| Italy.LombardiaSeed | src/italy.py:387-397 | Lombardia's copy is corrected, derived and renamed |
| Italy.RegionCopy | src/italy.py:402-414 | another region's copy is derived and renamed, with no correction |
| Italy.NextRegion | src/italy.py:409-414 | region i's copy, as the loop builds it |
| Italy.JoinRegions | src/italy.py:408-416 | the loop joins every region's copy, in order, onto the seed |
| Italy.RegionFold | src/italy.py:380-416 | the regional reshaping gives `ds_regions_sided` |
| Italy.ProcessedColumns | src/italy.py:394-395 | after both steps a table holds its columns plus the twelve derived names; its other columns are untouched |
| Italy.InterestingFieldsUnwritten | src/italy.py:384 | no kept field is overwritten by a derived column |
| Italy.RegionCopiesIndex | src/italy.py:402 | copy k has the dates of region k's rows |
| Italy.RegionsSidedDates | src/italy.py:405-416 | the regional table has a date exactly when Lombardia and every other region report it |
| Italy.LombardiaUnitColumn | src/italy.py:387-397 | Lombardia's field c, renamed c_Lombardia, is the corrected copy's column |
| Italy.RegionUnitColumn | src/italy.py:402-414 | another region's field c, renamed c_region, is the region's own raw column |
| Italy.RegionsSidedLombardia | src/italy.py:389-416 | in the regional table Lombardia's fields hold the corrected cells on 2020-03-10 and 2020-03-11 and Lombardia's own values elsewhere |
| Italy.RegionsSidedOther | src/italy.py:408-416 | every other region's fields hold the region's own values: only Lombardia is corrected |
| Places.LombardiaPlain | src/italy.py:397 | the name Lombardia has no underscore |
| Places.SignaturesADistinct | src/italy.py:381 | the first block of region signatures is free of repeats |
| Places.SignaturesBDistinct | src/italy.py:381-382 | the second block of region signatures is free of repeats |
| Places.SignaturesCDistinct | src/italy.py:382 | the third block of region signatures is free of repeats |
| Places.SignaturesApart | src/italy.py:381-382 | signatures from different blocks differ |
| Places.UnitSignaturesDistinct | src/italy.py:380-383 | the 21 signatures, Lombardia's first, are pairwise different |
| Places.SignaturesOfRegions | src/italy.py:380-383 | the signatures are those of Lombardia and the listed regions |
| Places.NoUnderscoreInRegions | src/italy.py:380-383 | no listed region has an underscore |
| Places.ItalianRegionsUsable | src/italy.py:380-383 | Lombardia and the 20 regions are 21 different underscore-free names |
| Places.ProvincesUsable | src/italy.py:705 | the seven provinces are different underscore-free names |
| Provinces.ProvinceInput | src/italy.py:711 | a province's selected copy has its dates and exactly the totale_casi column |
| Provinces.WithCasesDelta | src/italy.py:718 | `totale_casi_DELTA = totale_casi.diff()` adds exactly that column |
| Provinces.DeltaTableKeys | src/italy.py:718 | before the rename a province's table holds only the totals and their difference |
| Provinces.ProvinceUnit | src/italy.py:716-720 | a province's prepared table is a proper table with its dates |
| Provinces.ProvinceUnitColumns | src/italy.py:716-720 | a province's table holds exactly totale_casi_p (its raw totals) and totale_casi_DELTA_p (their plain diff) |
| Provinces.ProvinceUnitTagged | src/italy.py:720 | every column of a province's table ends in its name |
| Provinces.ProvinceCopies | src/italy.py:709-711 | one copy per province, in order |
| Provinces.ProvinceCopiesAt | src/italy.py:715-720 | copy k is province k's prepared table |
| Provinces.ProvinceCopiesJoinable | src/italy.py:713-726 | no two provinces' tables share a column |
| Provinces.ProvincesSided | src/italy.py:713-726 | `ds_province_sided` is a proper table |
| Provinces.ProvinceCopy | src/italy.py:716-720 | difference then rename, in place, gives the prepared table |
| Provinces.NextProvince | src/italy.py:716-720 | province i's copy, as the loop builds it |
| Provinces.MergeProvince | src/italy.py:722-726 | the first pass seeds the accumulator; later passes join onto it; after pass i it holds the first i+1 provinces |
| Provinces.JoinProvinces | src/italy.py:713-726 | the accumulator stays None for no province and otherwise ends as the join of all |
| Provinces.ProvinceFold | src/italy.py:702-726 | the province reshaping: None for no province, the joined provinces otherwise |
| Provinces.ProvinceCopiesIndex | src/italy.py:711 | copy k has the dates of province k's rows |
| Provinces.ProvincesSidedDates | src/italy.py:713-726 | the joined table has a date exactly when every province reports it |
| Provinces.ProvincesSidedColumns | src/italy.py:713-726 | its columns are exactly totale_casi_p and totale_casi_DELTA_p for the provinces p |
| Provinces.ProvincesSidedCells | src/italy.py:713-726 | province k's columns hold its own total and the diff of its own totals at that date, taken before the join |
| Formatting.MonthAbbrev | src/formatting_utilities.py:17-19 | `%b` is three characters |
| Formatting.MonthAbbrevRoundTrip | src/formatting_utilities.py:17-19 | each abbreviation names its month |
| Formatting.YearText | src/formatting_utilities.py:17-19 | `%Y` is digits that read back as the year |
| Formatting.FormatDate | src/formatting_utilities.py:10-22 | a label is at least as long as the day's digits |
| Formatting.PlainLabel | src/formatting_utilities.py:10-22 | an unrotated label starts with the day's digits; it is only those unless full (first tick, base date, first of the month), when it is day, month and year on three lines; it has a line break exactly when full |
| Formatting.RotatedLabel | src/formatting_utilities.py:13-17 | a rotated label ends in a space and the day; it is only that unless full, and then year, month and day |
| Formatting.SpecialPrefix | src/formatting_utilities.py:20-21 | a special label is a prefix in front of the label without it |
| Formatting.FormatDatesFromNumbersWholeDays | src/formatting_utilities.py:27-28 | a tick value anywhere in [n, n + 1) gets the label of the date n whole days after the base date |
| Formatting.FullLabelTicks | src/formatting_utilities.py:15 | day 0 and the day after any month's last day get full labels |
| Formatting.Number2Date | src/formatting_utilities.py:30-31 | `dd/mm/y...` text naming the date `number` days after the base |
| Formatting.Number2DateOrdered | src/formatting_utilities.py:30-31 | a later day number names a later date |
| Formatting.Number2DateInjective | src/formatting_utilities.py:30-31 | different day numbers give different texts |
| Formatting.Number2DateLength | src/formatting_utilities.py:30-31 | from year 1000 on the text is ten characters |
| Formatting.Number2DateSuccessor | src/formatting_utilities.py:30-31 | day number n + 1 names the calendar day after day number n |
| Formatting.Number2DateOfBase | src/formatting_utilities.py:8 | day 0 from BASE_DATE is 24/02/2020 |
| Formatting.Numbers2Dates | src/formatting_utilities.py:33-34 | one text per number, each naming its number's date |
| Formatting.Numbers2DatesAt | src/formatting_utilities.py:33-34 | element k is `number2date(numbers[k])` |
| Formatting.Numbers2DatesOrdered | src/formatting_utilities.py:33-34 | increasing day numbers give texts naming increasing dates |

## Left out

- The data loaders (`it_data_load`, `reg_data_load`, the notebook's `read_csv` calls) fetch the network feeds. Each unit's rows are parameters (a map from place name to table).
- The row filter `ds_reg['denominazione_regione'] == r` is not modelled as a filter. Its result is the per-unit input table.
- `region_dss` and `province_dss` are not modelled as dictionaries. Each unit's copy is built where the loop reads it. Only the order of the copies matters to the result, and that order is kept.
- Plotting (matplotlib), the legend helper `LegendTitle`, and `format_dates` are not modelled. `format_dates` converts matplotlib date numbers with `num2date`.
- `localize_plot_columns` (plural) is called in the notebook but never defined, so it is not modelled.
- Floating point is not modelled: cells are reals, and NaN and ±inf are `None`. A division by zero gives `None`, where pandas gives ±inf when the numerator is non-zero.
- `pct_change` forward-fills interior NaN before dividing. The model does not.
- Locale is not modelled: `%b` uses the C locale's English abbreviations.
- Years below 1000: `%Y` is rendered without leading zeros. Python's rendering of those years varies by platform.
- Python's `date + timedelta` raises OverflowError outside years 1..9999. That case is excluded by precondition (`InPythonRange`) in the Formatting members.
- The `.loc` writes to a date missing from the index are excluded by precondition. pandas would append a row there.
- A missing source column is excluded by precondition. pandas raises KeyError there.
- `add_ra_days` with a window shorter than 4 is excluded by precondition. pandas raises ValueError there.
- Joins on tables with repeated dates are not modelled: every index is unique and ascending.
- Aliasing is not modelled. The notebook seeds the accumulator with the first unit's own object. The model passes table values instead, and that is indistinguishable here because every later step builds a new table.
- Italy.DeltaMeans: states only where the DELTA means are defined. Their values follow from Series.TrailingMeanOfDiff through Italy.DeltaMeanColumn.
- Formatting.FormatDatesFromNumbers: the `.item()` unboxing of a numpy scalar is not modelled; the tick value is a real.
- Formatting.MonthAbbrev: states the length of the abbreviation. Its content is the C locale's, and MonthAbbrevRoundTrip makes it injective.
