/** The final ETL module (src/ETL_utilities.py): the 2020-03-10 data fix and
    the derived columns added in place to a national or regional table. */
module Etl {
  import opened Calendar
  import opened Series
  import opened Frames
  import opened Text

  /** The day whose source data were cut at the wrong time, and the day after. */
  const ErrDate: Date := Date(2020, 3, 10)
  const ErrDateP1: Date := Date(2020, 3, 11)
  /** The cases that ended up on the wrong day. */
  const MissingCases: real := 600.0
  /** Before this date the positive-test ratio is not meaningful. */
  const FixDate: Date := Date(2020, 3, 11)

  /** ERR_DATE + timedelta(days=1) is 2020-03-11. */
  lemma ErrDateP1IsNextDay()
    ensures ValidDate(ErrDate) && ErrDateP1 == AddDays(ErrDate, 1)
  {
  }

  /** The cells `fix_2020_03_10` writes, in order, for each scope. */
  const NationalFix: seq<Correction> := [
    Correction(ErrDate, "totale_casi", 10149.0 + MissingCases),
    Correction(ErrDate, "totale_positivi", 8514.0 + MissingCases),
    Correction(ErrDate, "nuovi_positivi", 529.0 + MissingCases),
    Correction(ErrDateP1, "nuovi_positivi", 2076.0 - MissingCases)
  ]

  const RegionalFix: seq<Correction> := [
    Correction(ErrDate, "totale_casi", 5791.0 + MissingCases),
    Correction(ErrDate, "totale_positivi", 4427.0 + MissingCases),
    Correction(ErrDate, "nuovi_positivi", 322.0 + MissingCases),
    Correction(ErrDateP1, "nuovi_positivi", 1489.0 - MissingCases)
  ]

  function Registry(region: bool): seq<Correction> {
    if region then RegionalFix else NationalFix
  }

  /** Every registry entry is dated on one of the two days. */
  lemma RegistryDatesIn(region: bool, index: seq<Date>)
    requires ErrDate in index && ErrDateP1 in index
    ensures DatesIn(Registry(region), index)
  {
    var cs := Registry(region);
    forall i | 0 <= i < |cs|
      ensures cs[i].date in index
    {
      assert cs[i].date == if i < 3 then ErrDate else ErrDateP1;
    }
  }

  /** `fix_2020_03_10(ds, region)`: overwrite the four cells of the scope's
      registry. Both dates must already be rows (otherwise `.loc` would append
      rows). */
  method Fix20200310(ds: DataFrame, region: bool)
    requires ds.Valid() && ErrDate in ds.index && ErrDateP1 in ds.index
    modifies ds
    ensures ds.Valid() && ds.Value() == ApplyCorrections(old(ds.Value()), Registry(region))
  {
    ghost var f := ds.Value();
    var cs := Registry(region);
    ds.SetCell(cs[0]);
    ds.SetCell(cs[1]);
    ds.SetCell(cs[2]);
    ds.SetCell(cs[3]);
    RegistryDatesIn(region, f.index);
    ApplyFourCorrections(f, cs);
  }

  /** The national fix writes exactly these four cells and no others:
      2020-03-10 totale_casi 10749, totale_positivi 9114, nuovi_positivi 1129;
      2020-03-11 nuovi_positivi 1476. */
  lemma NationalFixCells(f: Frame, name: string, k: nat)
    requires WellFormed(f) && ErrDate in f.index && ErrDateP1 in f.index && k < |f.index|
    requires name in f.data
    ensures var g := ApplyCorrections(f, NationalFix);
      var d := f.index[k];
      && g.index == f.index
      && name in g.data
      && g.data[name][k] ==
           if d == ErrDate && name == "totale_casi" then Some(10749.0)
           else if d == ErrDate && name == "totale_positivi" then Some(9114.0)
           else if d == ErrDate && name == "nuovi_positivi" then Some(1129.0)
           else if d == ErrDateP1 && name == "nuovi_positivi" then Some(1476.0)
           else f.data[name][k]
  {
    var cs := NationalFix;
    assert cs[0].value == 10749.0 && cs[1].value == 9114.0 && cs[2].value == 1129.0 && cs[3].value == 1476.0;
    RegistryCells(f, cs, name, k);
  }

  /** The regional fix: 2020-03-10 totale_casi 6391, totale_positivi 5027,
      nuovi_positivi 922; 2020-03-11 nuovi_positivi 889; nothing else. */
  lemma RegionalFixCells(f: Frame, name: string, k: nat)
    requires WellFormed(f) && ErrDate in f.index && ErrDateP1 in f.index && k < |f.index|
    requires name in f.data
    ensures var g := ApplyCorrections(f, RegionalFix);
      var d := f.index[k];
      && g.index == f.index
      && name in g.data
      && g.data[name][k] ==
           if d == ErrDate && name == "totale_casi" then Some(6391.0)
           else if d == ErrDate && name == "totale_positivi" then Some(5027.0)
           else if d == ErrDate && name == "nuovi_positivi" then Some(922.0)
           else if d == ErrDateP1 && name == "nuovi_positivi" then Some(889.0)
           else f.data[name][k]
  {
    var cs := RegionalFix;
    assert cs[0].value == 6391.0 && cs[1].value == 5027.0 && cs[2].value == 922.0 && cs[3].value == 889.0;
    RegistryCells(f, cs, name, k);
  }

  /** Shared step: for a four-entry registry with three distinct cells on one
      day and the third field again on the next, the general cell lemma
      reduces to a case split. */
  lemma RegistryCells(f: Frame, cs: seq<Correction>, name: string, k: nat)
    requires WellFormed(f) && k < |f.index| && name in f.data
    requires |cs| == 4 && DatesIn(cs, f.index)
    requires cs[0].date == cs[1].date == cs[2].date == ErrDate && cs[3].date == ErrDateP1
    requires cs[0].field != cs[1].field && cs[0].field != cs[2].field && cs[1].field != cs[2].field
    requires cs[3].field == cs[2].field
    ensures var g := ApplyCorrections(f, cs);
      var d := f.index[k];
      && name in g.data
      && g.data[name][k] ==
           if d == ErrDate && name == cs[0].field then Some(cs[0].value)
           else if d == ErrDate && name == cs[1].field then Some(cs[1].value)
           else if d == ErrDate && name == cs[2].field then Some(cs[2].value)
           else if d == ErrDateP1 && name == cs[3].field then Some(cs[3].value)
           else f.data[name][k]
  {
    ApplyFourCorrections(f, cs);
    var g1 := SetCellValue(f, cs[0]);
    var g2 := SetCellValue(g1, cs[1]);
    var g3 := SetCellValue(g2, cs[2]);
    SetCellValueCell(f, cs[0], name, k);
    SetCellValueCell(g1, cs[1], name, k);
    SetCellValueCell(g2, cs[2], name, k);
    SetCellValueCell(g3, cs[3], name, k);
    assert ErrDate != ErrDateP1;
  }

  /** Applying the fix twice is the same as applying it once. */
  lemma FixIdempotent(f: Frame, region: bool)
    requires WellFormed(f) && ErrDate in f.index && ErrDateP1 in f.index
    ensures ApplyCorrections(ApplyCorrections(f, Registry(region)), Registry(region))
            == ApplyCorrections(f, Registry(region))
  {
    CorrectionsIdempotent(f, Registry(region));
  }

  // ---------------------------------------------------------------------------
  // add_delta_growth_perc

  /** The source columns `add_delta_growth_perc` reads (a missing one raises
      KeyError in the source). */
  predicate HasBaseFields(f: Frame) {
    && "totale_casi" in f.data && "totale_positivi" in f.data && "tamponi" in f.data
    && "casi_testati" in f.data && "dimessi_guariti" in f.data && "deceduti" in f.data
    && "terapia_intensiva" in f.data && "totale_ospedalizzati" in f.data
  }

  /** The source columns are present and have one cell per row. */
  predicate BaseColumns(f: Frame) {
    && HasBaseFields(f)
    && |f.data["totale_casi"]| == |f.index| && |f.data["totale_positivi"]| == |f.index|
    && |f.data["tamponi"]| == |f.index| && |f.data["casi_testati"]| == |f.index|
    && |f.data["dimessi_guariti"]| == |f.index| && |f.data["deceduti"]| == |f.index|
    && |f.data["terapia_intensiva"]| == |f.index| && |f.data["totale_ospedalizzati"]| == |f.index|
  }

  /** The row mask `ds.index < d`. */
  function BeforeMask(index: seq<Date>, d: Date): (r: seq<bool>)
    ensures |r| == |index|
  {
    seq(|index|, i requires 0 <= i < |index| => Before(index[i], d))
  }

  /** The final values of the columns `add_delta_growth_perc` assigns, one
      field per column. */
  datatype DeltaColumns = DeltaColumns(
    totaleCasiDelta: Column,
    totalePositiviDelta: Column,
    tamponiDelta: Column,
    casiTestatiDelta: Column,
    dimessiGuaritiDelta: Column,
    decedutiDelta: Column,
    terapiaIntensivaCum: Column,
    growthFactorCumInfected: Column,
    growthFactorCurrInfected: Column,
    positiveTestRatio: Column,
    positiveTestRatioTrue: Column,
    tamponiNegativi: Column,
    tamponiNegativiTrue: Column,
    terapiaIntensivaRatio: Column,
    totaleOspedalizzatiRatio: Column,
    totaleCasiDeltaRatio: Column,
    totaleCasiDeltaRatio7: Column,
    totaleCasiDeltaRatio10: Column,
    positiveTestRatioMean: Column,
    totalePositivi10R0: Column,
    totaleCasiDeltaRa5R0: Column)

  /** The columns under the names the source gives them. */
  function ColumnMap(d: DeltaColumns): map<string, Column> {
    map[
      "totale_casi_DELTA" := d.totaleCasiDelta,
      "totale_positivi_DELTA" := d.totalePositiviDelta,
      "tamponi_DELTA" := d.tamponiDelta,
      "casi_testati_DELTA" := d.casiTestatiDelta,
      "dimessi_guariti_DELTA" := d.dimessiGuaritiDelta,
      "deceduti_DELTA" := d.decedutiDelta,
      "terapia_intensiva_CUM" := d.terapiaIntensivaCum,
      "growth_factor_cum_infected" := d.growthFactorCumInfected,
      "growth_factor_curr_infected" := d.growthFactorCurrInfected,
      "positive_test_RATIO" := d.positiveTestRatio,
      "positive_test_RATIO_TRUE" := d.positiveTestRatioTrue,
      "tamponi_negativi" := d.tamponiNegativi,
      "tamponi_negativi_TRUE" := d.tamponiNegativiTrue,
      "terapia_intensiva_RATIO" := d.terapiaIntensivaRatio,
      "totale_ospedalizzati_RATIO" := d.totaleOspedalizzatiRatio,
      "totale_casi_DELTA_RATIO" := d.totaleCasiDeltaRatio,
      "totale_casi_DELTA_RATIO-7" := d.totaleCasiDeltaRatio7,
      "totale_casi_DELTA_RATIO-10" := d.totaleCasiDeltaRatio10,
      "positive_test_RATIO_MEAN" := d.positiveTestRatioMean,
      "totale_positivi_10_R0" := d.totalePositivi10R0,
      "totale_casi_DELTA_RA_5_R0" := d.totaleCasiDeltaRa5R0
    ]
  }

  // The derived columns, each as a function of the table it is computed from.

  /** totale_casi_DELTA after its NaN are filled with 0: row 0 and every row
      where the case total is missing on the day or the day before. */
  function TotaleCasiDelta(f: Frame): (r: Column)
    requires BaseColumns(f)
    ensures |r| == |f.index|
  {
    FillNa(FieldDiff(f, "totale_casi"), 0.0)
  }

  function TerapiaIntensivaCum(f: Frame): (r: Column)
    requires BaseColumns(f)
  {
    CumSum(f.data["terapia_intensiva"])
  }

  function GrowthFactorCumInfected(f: Frame): (r: Column)
    requires BaseColumns(f)
  {
    AddScalar(PctChange(FieldDiff(f, "totale_casi")), 1.0)
  }

  function GrowthFactorCurrInfected(f: Frame): (r: Column)
    requires BaseColumns(f)
  {
    AddScalar(PctChange(FieldDiff(f, "totale_positivi")), 1.0)
  }

  /** `totale_casi_DELTA / tamponi_DELTA`: the first value assigned to
      positive_test_RATIO. */
  function RawPositiveTestRatio(f: Frame): (r: Column)
    requires BaseColumns(f)
    ensures |r| == |f.index|
  {
    Ratio(FieldDiff(f, "totale_casi"), FieldDiff(f, "tamponi"))
  }

  /** positive_test_RATIO after the rows before the fix date are blanked. */
  function PositiveTestRatio(f: Frame): (r: Column)
    requires BaseColumns(f)
    ensures |r| == |f.index|
  {
    Blank(RawPositiveTestRatio(f), BeforeMask(f.index, FixDate))
  }

  function PositiveTestRatioTrue(f: Frame): (r: Column)
    requires BaseColumns(f)
  {
    Ratio(FieldDiff(f, "totale_casi"), FieldDiff(f, "casi_testati"))
  }

  function TamponiNegativi(f: Frame): (r: Column)
    requires BaseColumns(f)
  {
    Minus(FieldDiff(f, "tamponi"), FieldDiff(f, "totale_casi"))
  }

  function TamponiNegativiTrue(f: Frame): (r: Column)
    requires BaseColumns(f)
  {
    Minus(FieldDiff(f, "casi_testati"), FieldDiff(f, "totale_casi"))
  }

  function TotaleCasiDeltaRatio(f: Frame): (r: Column)
    requires BaseColumns(f)
  {
    Ratio(FieldDiff(f, "totale_casi"), f.data["totale_positivi"])
  }

  /** `totale_casi_DELTA / totale_positivi.shift(periods=lag)`: the -7 and
      -10 columns. */
  function TotaleCasiDeltaRatioLagged(f: Frame, lag: nat): (r: Column)
    requires BaseColumns(f)
  {
    Ratio(FieldDiff(f, "totale_casi"), Shift(f.data["totale_positivi"], lag))
  }

  /** The mean of the blanked ratio, broadcast to every row. */
  function PositiveTestRatioMean(f: Frame): (r: Column)
    requires BaseColumns(f)
  {
    Constant(|f.index|, MeanDefined(PositiveTestRatio(f)))
  }

  function TotaleCasiDeltaRa5R0(f: Frame): (r: Column)
    requires BaseColumns(f)
  {
    RollingTrailing(TotaleCasiDelta(f), 5)
  }

  /** The final value of each column `add_delta_growth_perc` assigns. */
  function DerivedColumns(f: Frame): (d: DeltaColumns)
    requires BaseColumns(f)
  {
    var tp := f.data["totale_positivi"];
    DeltaColumns(
      TotaleCasiDelta(f), FieldDiff(f, "totale_positivi"), FieldDiff(f, "tamponi"), FieldDiff(f, "casi_testati"),
      FieldDiff(f, "dimessi_guariti"), FieldDiff(f, "deceduti"),
      TerapiaIntensivaCum(f), GrowthFactorCumInfected(f), GrowthFactorCurrInfected(f),
      PositiveTestRatio(f), PositiveTestRatioTrue(f), TamponiNegativi(f), TamponiNegativiTrue(f),
      Ratio(f.data["terapia_intensiva"], tp), Ratio(f.data["totale_ospedalizzati"], tp),
      TotaleCasiDeltaRatio(f), TotaleCasiDeltaRatioLagged(f, 7), TotaleCasiDeltaRatioLagged(f, 10),
      PositiveTestRatioMean(f), Shift(tp, 10), TotaleCasiDeltaRa5R0(f))
  }

  /** Assigning the columns one by one in the source's order, with the
      overwritten first values x (raw case delta) and y (unblanked ratio),
      leaves the final values in place. */
  lemma AssignmentsInOrder(m: map<string, Column>, d: DeltaColumns, x: Column, y: Column)
    ensures m
      ["totale_casi_DELTA" := x]
      ["totale_positivi_DELTA" := d.totalePositiviDelta]
      ["tamponi_DELTA" := d.tamponiDelta]
      ["casi_testati_DELTA" := d.casiTestatiDelta]
      ["dimessi_guariti_DELTA" := d.dimessiGuaritiDelta]
      ["deceduti_DELTA" := d.decedutiDelta]
      ["terapia_intensiva_CUM" := d.terapiaIntensivaCum]
      ["growth_factor_cum_infected" := d.growthFactorCumInfected]
      ["growth_factor_curr_infected" := d.growthFactorCurrInfected]
      ["positive_test_RATIO" := y]
      ["positive_test_RATIO_TRUE" := d.positiveTestRatioTrue]
      ["tamponi_negativi" := d.tamponiNegativi]
      ["tamponi_negativi_TRUE" := d.tamponiNegativiTrue]
      ["terapia_intensiva_RATIO" := d.terapiaIntensivaRatio]
      ["totale_ospedalizzati_RATIO" := d.totaleOspedalizzatiRatio]
      ["totale_casi_DELTA_RATIO" := d.totaleCasiDeltaRatio]
      ["totale_casi_DELTA_RATIO-7" := d.totaleCasiDeltaRatio7]
      ["totale_casi_DELTA_RATIO-10" := d.totaleCasiDeltaRatio10]
      ["totale_casi_DELTA" := d.totaleCasiDelta]
      ["positive_test_RATIO" := d.positiveTestRatio]
      ["positive_test_RATIO_MEAN" := d.positiveTestRatioMean]
      ["totale_positivi_10_R0" := d.totalePositivi10R0]
      ["totale_casi_DELTA_RA_5_R0" := d.totaleCasiDeltaRa5R0]
      == m + ColumnMap(d)
  {
  }

  /** The column list after the assignments, in the order the source makes
      them: a name not yet present is appended at its first assignment. */
  function DerivedColumnOrder(cs: seq<string>): seq<string> {
    var c1 := AppendAbsent(cs, "totale_casi_DELTA");
    var c2 := AppendAbsent(c1, "totale_positivi_DELTA");
    var c3 := AppendAbsent(c2, "tamponi_DELTA");
    var c4 := AppendAbsent(c3, "casi_testati_DELTA");
    var c5 := AppendAbsent(c4, "dimessi_guariti_DELTA");
    var c6 := AppendAbsent(c5, "deceduti_DELTA");
    var c7 := AppendAbsent(c6, "terapia_intensiva_CUM");
    var c8 := AppendAbsent(c7, "growth_factor_cum_infected");
    var c9 := AppendAbsent(c8, "growth_factor_curr_infected");
    var c10 := AppendAbsent(c9, "positive_test_RATIO");
    var c11 := AppendAbsent(c10, "positive_test_RATIO_TRUE");
    var c12 := AppendAbsent(c11, "tamponi_negativi");
    var c13 := AppendAbsent(c12, "tamponi_negativi_TRUE");
    var c14 := AppendAbsent(c13, "terapia_intensiva_RATIO");
    var c15 := AppendAbsent(c14, "totale_ospedalizzati_RATIO");
    var c16 := AppendAbsent(c15, "totale_casi_DELTA_RATIO");
    var c17 := AppendAbsent(c16, "totale_casi_DELTA_RATIO-7");
    var c18 := AppendAbsent(c17, "totale_casi_DELTA_RATIO-10");
    var c19 := AppendAbsent(c18, "totale_casi_DELTA");
    var c20 := AppendAbsent(c19, "positive_test_RATIO");
    var c21 := AppendAbsent(c20, "positive_test_RATIO_MEAN");
    var c22 := AppendAbsent(c21, "totale_positivi_10_R0");
    AppendAbsent(c22, "totale_casi_DELTA_RA_5_R0")
  }

  /** The table `add_delta_growth_perc` leaves behind: the same rows, the
      derived columns added or overwritten, every other column untouched. */
  function DeltaGrowthPerc(f: Frame): Frame
    requires BaseColumns(f)
  {
    Frame(f.index, DerivedColumnOrder(f.columns), DeltaGrowthPercData(f))
  }

  /** The cells of that table, by column name. */
  function DeltaGrowthPercData(f: Frame): map<string, Column>
    requires BaseColumns(f)
  {
    f.data + ColumnMap(DerivedColumns(f))
  }

  /** `add_delta_growth_perc(ds)`. The source columns are read once up front
      and every derived column is taken from the local it was written from:
      none of the columns read is overwritten before it is read, so the values
      are those the source reads back from the table. */
  method AddDeltaGrowthPerc(ds: DataFrame)
    requires ds.Valid() && HasBaseFields(ds.Value())
    modifies ds
    ensures ds.Valid() && ds.Value() == DeltaGrowthPerc(old(ds.Value()))
  {
    ghost var f := ds.Value();
    var tc, tp, tamponi, testati := ds.data["totale_casi"], ds.data["totale_positivi"],
      ds.data["tamponi"], ds.data["casi_testati"];
    var guariti, deceduti, ti, to := ds.data["dimessi_guariti"], ds.data["deceduti"],
      ds.data["terapia_intensiva"], ds.data["totale_ospedalizzati"];
    // Deltas
    var casesDelta := Diff(tc);
    ds.Assign("totale_casi_DELTA", casesDelta);
    var positiviDelta := Diff(tp);
    ds.Assign("totale_positivi_DELTA", positiviDelta);
    var tamponiDelta := Diff(tamponi);
    ds.Assign("tamponi_DELTA", tamponiDelta);
    var testatiDelta := Diff(testati);
    ds.Assign("casi_testati_DELTA", testatiDelta);
    ds.Assign("dimessi_guariti_DELTA", Diff(guariti));
    ds.Assign("deceduti_DELTA", Diff(deceduti));
    // Cumulative intensive care, growth factors and ratios
    ds.Assign("terapia_intensiva_CUM", CumSum(ti));
    ds.Assign("growth_factor_cum_infected", AddScalar(PctChange(casesDelta), 1.0));
    ds.Assign("growth_factor_curr_infected", AddScalar(PctChange(positiviDelta), 1.0));
    var ratio := Ratio(casesDelta, tamponiDelta);
    ds.Assign("positive_test_RATIO", ratio);
    ds.Assign("positive_test_RATIO_TRUE", Ratio(casesDelta, testatiDelta));
    ds.Assign("tamponi_negativi", Minus(tamponiDelta, casesDelta));
    ds.Assign("tamponi_negativi_TRUE", Minus(testatiDelta, casesDelta));
    ds.Assign("terapia_intensiva_RATIO", Ratio(ti, tp));
    ds.Assign("totale_ospedalizzati_RATIO", Ratio(to, tp));
    ds.Assign("totale_casi_DELTA_RATIO", Ratio(casesDelta, tp));
    ds.Assign("totale_casi_DELTA_RATIO-7", Ratio(casesDelta, Shift(tp, 7)));
    ds.Assign("totale_casi_DELTA_RATIO-10", Ratio(casesDelta, Shift(tp, 10)));
    // The first delta is NaN; the ratio is meaningless before the fix date
    var filled := FillNa(casesDelta, 0.0);
    ds.Assign("totale_casi_DELTA", filled);
    var ratioFixed := Blank(ratio, BeforeMask(ds.index, FixDate));
    ds.Assign("positive_test_RATIO", ratioFixed);
    ds.Assign("positive_test_RATIO_MEAN", Constant(|ds.index|, MeanDefined(ratioFixed)));
    // Lagged columns for the reproduction-number estimate
    ds.Assign("totale_positivi_10_R0", Shift(tp, 10));
    ds.Assign("totale_casi_DELTA_RA_5_R0", RollingTrailing(filled, 5));
    AssignmentsInOrder(f.data, DerivedColumns(f), casesDelta, ratio);
  }

  // ---------------------------------------------------------------------------
  // What add_delta_growth_perc computes, column by column

  /** The new-cases column: row 0 is 0 (the NaN the first difference leaves
      is filled); every later row is the day-over-day increase of
      totale_casi, or 0 where either day is missing. */
  lemma CasesDeltaCells(f: Frame, i: nat)
    requires BaseColumns(f) && i < |f.index|
    ensures var tc := f.data["totale_casi"];
      TotaleCasiDelta(f)[i] ==
        if i > 0 && tc[i].Some? && tc[i - 1].Some? then Some(tc[i].value - tc[i - 1].value)
        else Some(0.0)
  {
  }

  /** Summing the new cases over rows a+1..b gives the growth of the running
      total between rows a and b, when the total is known on every one of
      those days. */
  lemma CasesDeltaTelescopes(f: Frame, a: nat, b: nat)
    requires BaseColumns(f) && a <= b < |f.index|
    requires forall i :: a <= i <= b ==> f.data["totale_casi"][i].Some?
    ensures var tc := f.data["totale_casi"];
      SumDefined(TotaleCasiDelta(f)[a + 1..b + 1]) == tc[b].value - tc[a].value
  {
    FilledDiffTelescopes(f.data["totale_casi"], a, b);
  }

  /** On the first row every difference is NaN, except the new cases, which
      are filled with 0. */
  lemma FirstRowDeltas(f: Frame)
    requires BaseColumns(f) && |f.index| > 0
    ensures TotaleCasiDelta(f)[0] == Some(0.0)
    ensures FieldDiff(f, "totale_casi")[0].None? && FieldDiff(f, "totale_positivi")[0].None?
    ensures FieldDiff(f, "tamponi")[0].None? && FieldDiff(f, "casi_testati")[0].None?
    ensures DerivedColumns(f).dimessiGuaritiDelta[0].None? && DerivedColumns(f).decedutiDelta[0].None?
  {
  }

  /** Every growth factor, ratio and negative-test count built on a
      difference is NaN on the first row too. */
  lemma FirstRowDerived(f: Frame)
    requires BaseColumns(f) && |f.index| > 0
    ensures GrowthFactorCumInfected(f)[0].None? && GrowthFactorCurrInfected(f)[0].None?
    ensures PositiveTestRatio(f)[0].None? && PositiveTestRatioTrue(f)[0].None?
    ensures TamponiNegativi(f)[0].None? && TamponiNegativiTrue(f)[0].None?
    ensures TotaleCasiDeltaRatio(f)[0].None?
    ensures TotaleCasiDeltaRatioLagged(f, 7)[0].None? && TotaleCasiDeltaRatioLagged(f, 10)[0].None?
  {
    GrowthFactorIsQuotient(FieldDiff(f, "totale_casi"), 0);
    GrowthFactorIsQuotient(FieldDiff(f, "totale_positivi"), 0);
  }

  /** Negative tests of a day are that day's tests minus that day's new
      cases; they are known exactly when both running totals are known on the
      day and the day before. */
  lemma NegativeTests(f: Frame, i: nat)
    requires BaseColumns(f) && 0 < i < |f.index|
    ensures var tc, tt := f.data["totale_casi"], f.data["tamponi"];
      && (TamponiNegativi(f)[i].Some? <==>
            tc[i].Some? && tc[i - 1].Some? && tt[i].Some? && tt[i - 1].Some?)
      && (TamponiNegativi(f)[i].Some? ==>
            && TamponiNegativi(f)[i].value == (tt[i].value - tt[i - 1].value) - (tc[i].value - tc[i - 1].value)
            && TotaleCasiDelta(f)[i].Some? && FieldDiff(f, "tamponi")[i].Some?
            && TamponiNegativi(f)[i].value + TotaleCasiDelta(f)[i].value == FieldDiff(f, "tamponi")[i].value)
  {
    MinusOfDiffs(f.data["tamponi"], f.data["totale_casi"], i);
  }

  /** The same for tested people instead of tests. */
  lemma NegativeTestsTrue(f: Frame, i: nat)
    requires BaseColumns(f) && 0 < i < |f.index|
    ensures var tc, ct := f.data["totale_casi"], f.data["casi_testati"];
      && (TamponiNegativiTrue(f)[i].Some? <==>
            tc[i].Some? && tc[i - 1].Some? && ct[i].Some? && ct[i - 1].Some?)
      && (TamponiNegativiTrue(f)[i].Some? ==>
            && TamponiNegativiTrue(f)[i].value == (ct[i].value - ct[i - 1].value) - (tc[i].value - tc[i - 1].value)
            && TotaleCasiDelta(f)[i].Some? && FieldDiff(f, "casi_testati")[i].Some?
            && TamponiNegativiTrue(f)[i].value + TotaleCasiDelta(f)[i].value == FieldDiff(f, "casi_testati")[i].value)
  {
    MinusOfDiffs(f.data["casi_testati"], f.data["totale_casi"], i);
  }

  /** The cumulative intensive-care column starts at the first value and adds
      each day's value to the previous total. */
  lemma IcuCumulativeStep(f: Frame, i: nat)
    requires BaseColumns(f) && 0 < i < |f.index|
    ensures var cum, ti := TerapiaIntensivaCum(f), f.data["terapia_intensiva"];
      && cum[0] == ti[0]
      && (ti[i].Some? && ti[i - 1].Some? ==>
            cum[i].Some? && cum[i - 1].Some? && cum[i].value == cum[i - 1].value + ti[i].value)
  {
    var ti := f.data["terapia_intensiva"];
    CumSumFirst(ti);
    if ti[i].Some? && ti[i - 1].Some? {
      CumSumStep(ti, i);
    }
  }

  /** With non-negative occupancy the cumulative column never decreases. */
  lemma IcuCumulativeMonotone(f: Frame, i: nat, j: nat)
    requires BaseColumns(f) && i <= j < |f.index|
    requires var ti := f.data["terapia_intensiva"]; ti[i].Some? && ti[j].Some?
    requires var ti := f.data["terapia_intensiva"];
      forall k :: 0 <= k < |ti| && ti[k].Some? ==> ti[k].value >= 0.0
    ensures var cum := TerapiaIntensivaCum(f);
      cum[i].Some? && cum[j].Some? && cum[i].value <= cum[j].value
  {
    CumSumMonotone(f.data["terapia_intensiva"], i, j);
  }

  /** The growth factors are today's new cases (new positives) divided by
      yesterday's, computed on the unfilled differences: NaN on the first two
      rows, and wherever yesterday's increase is 0 or unknown. */
  lemma GrowthFactors(f: Frame, i: nat)
    requires BaseColumns(f) && i < |f.index|
    ensures var tc, tp := f.data["totale_casi"], f.data["totale_positivi"];
      && GrowthFactorCumInfected(f)[i] ==
           (if i < 2 then None else Div(Sub(tc[i], tc[i - 1]), Sub(tc[i - 1], tc[i - 2])))
      && GrowthFactorCurrInfected(f)[i] ==
           (if i < 2 then None else Div(Sub(tp[i], tp[i - 1]), Sub(tp[i - 1], tp[i - 2])))
  {
    GrowthFactorIsQuotient(FieldDiff(f, "totale_casi"), i);
    GrowthFactorIsQuotient(FieldDiff(f, "totale_positivi"), i);
  }

  /** The lagged columns: positives ten days earlier, and the new cases
      divided by the positives of the same day, seven and ten days earlier. */
  lemma LaggedColumns(f: Frame, i: nat)
    requires BaseColumns(f) && i < |f.index|
    ensures var tc, tp := f.data["totale_casi"], f.data["totale_positivi"];
      var newCases := if i == 0 then None else Sub(tc[i], tc[i - 1]);
      && DerivedColumns(f).totalePositivi10R0[i] == (if i < 10 then None else tp[i - 10])
      && TotaleCasiDeltaRatio(f)[i] == Div(newCases, tp[i])
      && TotaleCasiDeltaRatioLagged(f, 7)[i] == (if i < 7 then None else Div(newCases, tp[i - 7]))
      && TotaleCasiDeltaRatioLagged(f, 10)[i] == (if i < 10 then None else Div(newCases, tp[i - 10]))
  {
  }

  /** The 5-day trailing mean of new cases: since `fillna(0)` leaves no NaN
      in totale_casi_DELTA, whatever the case total holds, it is NaN on the
      first four rows and, from row 4 on, the mean of the last five filled
      differences. */
  lemma CasesRa5R0Defined(f: Frame, i: nat)
    requires BaseColumns(f) && i < |f.index|
    ensures TotaleCasiDeltaRa5R0(f)[i].Some? <==> 4 <= i
    ensures 4 <= i ==>
      TotaleCasiDeltaRa5R0(f)[i] == Some(SumDefined(TotaleCasiDelta(f)[i - 4..i + 1]) / 5.0)
  {
    var delta := TotaleCasiDelta(f);
    TrailingDefinedIff(delta, 5, i);
    if 4 <= i {
      assert AllDefined(delta[i - 4..i + 1]);
      var m := RollingTrailing(delta, 5)[i];
      assert m.Some? && m.value == SumDefined(delta[i - 4..i + 1]) / 5.0;
      assert TotaleCasiDeltaRa5R0(f)[i] == m;
    }
  }

  /** From row 5 on it is the average daily increase of the case total over
      the last five days. */
  lemma CasesRa5R0Value(f: Frame, i: nat)
    requires BaseColumns(f) && 5 <= i < |f.index|
    requires AllDefined(f.data["totale_casi"])
    ensures var tc := f.data["totale_casi"];
      TotaleCasiDeltaRa5R0(f)[i] == Some((tc[i].value - tc[i - 5].value) / 5.0)
  {
    FiveRowMeanOfFilledDiff(f.data["totale_casi"], i);
  }

  /** The positive-test ratio is blanked on the rows before 2020-03-11 and is
      new cases over new tests afterwards. */
  lemma PositiveTestRatioCells(f: Frame, i: nat)
    requires BaseColumns(f) && i < |f.index|
    ensures var tc, tt := f.data["totale_casi"], f.data["tamponi"];
      PositiveTestRatio(f)[i] ==
        if Before(f.index[i], FixDate) || i == 0 then None
        else Div(Sub(tc[i], tc[i - 1]), Sub(tt[i], tt[i - 1]))
  {
    RatioOfDiffs(f.data["totale_casi"], f.data["tamponi"], i);
  }

  /** The ratio mean is taken after the blanking: every row holds the mean of
      the ratios of the rows from 2020-03-11 on. */
  lemma PositiveTestRatioMeanCells(f: Frame, i: nat)
    requires BaseColumns(f) && Ascending(f.index) && i < |f.index|
    ensures var k := RowsBefore(f.index, FixDate);
      PositiveTestRatioMean(f)[i] == MeanDefined(RawPositiveTestRatio(f)[k..])
  {
    var mask := BeforeMask(f.index, FixDate);
    var k := RowsBefore(f.index, FixDate);
    forall j | 0 <= j < |f.index|
      ensures mask[j] <==> j < k
    {
      RowsBeforeIsPrefix(f.index, FixDate, j);
    }
    MeanAfterBlankingPrefix(RawPositiveTestRatio(f), mask, k);
  }

  // ---------------------------------------------------------------------------
  // The table after add_delta_growth_perc

  /** The names of the columns `add_delta_growth_perc` assigns. */
  const DerivedNames: set<string> := {"totale_casi_DELTA", "totale_positivi_DELTA", "tamponi_DELTA", "casi_testati_DELTA", "dimessi_guariti_DELTA", "deceduti_DELTA", "terapia_intensiva_CUM", "growth_factor_cum_infected", "growth_factor_curr_infected", "positive_test_RATIO", "positive_test_RATIO_TRUE", "tamponi_negativi", "tamponi_negativi_TRUE", "terapia_intensiva_RATIO", "totale_ospedalizzati_RATIO", "totale_casi_DELTA_RATIO", "totale_casi_DELTA_RATIO-7", "totale_casi_DELTA_RATIO-10", "positive_test_RATIO_MEAN", "totale_positivi_10_R0", "totale_casi_DELTA_RA_5_R0"}

  lemma DeltasReadBack(m: map<string, Column>, d: DeltaColumns)
    ensures var g := m + ColumnMap(d);
      && "totale_casi_DELTA" in g && g["totale_casi_DELTA"] == d.totaleCasiDelta
      && "totale_positivi_DELTA" in g && g["totale_positivi_DELTA"] == d.totalePositiviDelta
      && "tamponi_DELTA" in g && g["tamponi_DELTA"] == d.tamponiDelta
      && "casi_testati_DELTA" in g && g["casi_testati_DELTA"] == d.casiTestatiDelta
  {
  }

  lemma CountsReadBack(m: map<string, Column>, d: DeltaColumns)
    ensures var g := m + ColumnMap(d);
      && "dimessi_guariti_DELTA" in g && g["dimessi_guariti_DELTA"] == d.dimessiGuaritiDelta
      && "deceduti_DELTA" in g && g["deceduti_DELTA"] == d.decedutiDelta
      && "terapia_intensiva_CUM" in g && g["terapia_intensiva_CUM"] == d.terapiaIntensivaCum
  {
  }

  lemma RatiosReadBack(m: map<string, Column>, d: DeltaColumns)
    ensures var g := m + ColumnMap(d);
      && "growth_factor_cum_infected" in g && g["growth_factor_cum_infected"] == d.growthFactorCumInfected
      && "growth_factor_curr_infected" in g && g["growth_factor_curr_infected"] == d.growthFactorCurrInfected
      && "positive_test_RATIO" in g && g["positive_test_RATIO"] == d.positiveTestRatio
      && "positive_test_RATIO_TRUE" in g && g["positive_test_RATIO_TRUE"] == d.positiveTestRatioTrue
      && "tamponi_negativi" in g && g["tamponi_negativi"] == d.tamponiNegativi
      && "tamponi_negativi_TRUE" in g && g["tamponi_negativi_TRUE"] == d.tamponiNegativiTrue
      && "terapia_intensiva_RATIO" in g && g["terapia_intensiva_RATIO"] == d.terapiaIntensivaRatio
  {
  }

  lemma LaggedReadBack(m: map<string, Column>, d: DeltaColumns)
    ensures var g := m + ColumnMap(d);
      && "totale_ospedalizzati_RATIO" in g && g["totale_ospedalizzati_RATIO"] == d.totaleOspedalizzatiRatio
      && "totale_casi_DELTA_RATIO" in g && g["totale_casi_DELTA_RATIO"] == d.totaleCasiDeltaRatio
      && "totale_casi_DELTA_RATIO-7" in g && g["totale_casi_DELTA_RATIO-7"] == d.totaleCasiDeltaRatio7
      && "totale_casi_DELTA_RATIO-10" in g && g["totale_casi_DELTA_RATIO-10"] == d.totaleCasiDeltaRatio10
      && "positive_test_RATIO_MEAN" in g && g["positive_test_RATIO_MEAN"] == d.positiveTestRatioMean
      && "totale_positivi_10_R0" in g && g["totale_positivi_10_R0"] == d.totalePositivi10R0
      && "totale_casi_DELTA_RA_5_R0" in g && g["totale_casi_DELTA_RA_5_R0"] == d.totaleCasiDeltaRa5R0
  {
  }

  /** Reading the table back by column name gives the derived columns. */
  lemma DeltaGrowthPercDeltas(f: Frame)
    requires BaseColumns(f)
    ensures var g := DeltaGrowthPercData(f);
      && "totale_casi_DELTA" in g && g["totale_casi_DELTA"] == TotaleCasiDelta(f)
      && "totale_positivi_DELTA" in g && g["totale_positivi_DELTA"] == FieldDiff(f, "totale_positivi")
      && "tamponi_DELTA" in g && g["tamponi_DELTA"] == FieldDiff(f, "tamponi")
      && "casi_testati_DELTA" in g && g["casi_testati_DELTA"] == FieldDiff(f, "casi_testati")
      && "dimessi_guariti_DELTA" in g && g["dimessi_guariti_DELTA"] == FieldDiff(f, "dimessi_guariti")
      && "deceduti_DELTA" in g && g["deceduti_DELTA"] == FieldDiff(f, "deceduti")
      && "terapia_intensiva_CUM" in g && g["terapia_intensiva_CUM"] == TerapiaIntensivaCum(f)
  {
    DeltasReadBack(f.data, DerivedColumns(f));
    CountsReadBack(f.data, DerivedColumns(f));
  }

  /** Reading the table back by column name gives the derived columns. */
  lemma DeltaGrowthPercRatios(f: Frame)
    requires BaseColumns(f)
    ensures var g := DeltaGrowthPercData(f);
      && "growth_factor_cum_infected" in g && g["growth_factor_cum_infected"] == GrowthFactorCumInfected(f)
      && "growth_factor_curr_infected" in g && g["growth_factor_curr_infected"] == GrowthFactorCurrInfected(f)
      && "positive_test_RATIO" in g && g["positive_test_RATIO"] == PositiveTestRatio(f)
      && "positive_test_RATIO_TRUE" in g && g["positive_test_RATIO_TRUE"] == PositiveTestRatioTrue(f)
      && "tamponi_negativi" in g && g["tamponi_negativi"] == TamponiNegativi(f)
      && "tamponi_negativi_TRUE" in g && g["tamponi_negativi_TRUE"] == TamponiNegativiTrue(f)
      && "terapia_intensiva_RATIO" in g && g["terapia_intensiva_RATIO"] == Ratio(f.data["terapia_intensiva"], f.data["totale_positivi"])
  {
    RatiosReadBack(f.data, DerivedColumns(f));
  }

  /** Reading the table back by column name gives the derived columns. */
  lemma DeltaGrowthPercLagged(f: Frame)
    requires BaseColumns(f)
    ensures var g := DeltaGrowthPercData(f);
      && "totale_ospedalizzati_RATIO" in g && g["totale_ospedalizzati_RATIO"] == Ratio(f.data["totale_ospedalizzati"], f.data["totale_positivi"])
      && "totale_casi_DELTA_RATIO" in g && g["totale_casi_DELTA_RATIO"] == TotaleCasiDeltaRatio(f)
      && "totale_casi_DELTA_RATIO-7" in g && g["totale_casi_DELTA_RATIO-7"] == TotaleCasiDeltaRatioLagged(f, 7)
      && "totale_casi_DELTA_RATIO-10" in g && g["totale_casi_DELTA_RATIO-10"] == TotaleCasiDeltaRatioLagged(f, 10)
      && "positive_test_RATIO_MEAN" in g && g["positive_test_RATIO_MEAN"] == PositiveTestRatioMean(f)
      && "totale_positivi_10_R0" in g && g["totale_positivi_10_R0"] == Shift(f.data["totale_positivi"], 10)
      && "totale_casi_DELTA_RA_5_R0" in g && g["totale_casi_DELTA_RA_5_R0"] == TotaleCasiDeltaRa5R0(f)
  {
    LaggedReadBack(f.data, DerivedColumns(f));
  }

  /** The table keeps every column it had, adds exactly the derived ones,
      and leaves every column it does not assign as it was. */
  lemma DeltaGrowthPercKeeps(f: Frame, c: string)
    requires BaseColumns(f)
    ensures c in DeltaGrowthPercData(f) <==> c in f.data || c in DerivedNames
    ensures c in f.data && c !in DerivedNames ==> DeltaGrowthPercData(f)[c] == f.data[c]
  {
    ColumnMapKeys(DerivedColumns(f));
  }

  lemma ColumnMapKeys(d: DeltaColumns)
    ensures ColumnMap(d).Keys == DerivedNames
  {
  }

  // ---------------------------------------------------------------------------
  // add_ra_days / add_ra

  /** `prefix + '_RA_' + str(days)`. */
  function RaName(prefix: string, days: nat): string {
    prefix + "_RA_" + NatToString(days)
  }

  /** The columns `add_ra_days` reads. */
  predicate HasRaFields(f: Frame) {
    "totale_casi" in f.data && "totale_casi_DELTA" in f.data && "growth_factor_cum_infected" in f.data
  }

  /** The centred mean pandas computes for `rolling(window=days, center=True,
      min_periods=4).mean()`. */
  function CenteredMean(s: Column, days: nat): (r: Column)
    ensures |r| == |s|
  {
    RollingCentered(s, days, 4)
  }

  /** The table `add_ra_days(ds, days)` leaves behind. */
  function RaDays(f: Frame, days: nat): (r: Frame)
    requires WellFormed(f) && HasRaFields(f)
    ensures WellFormed(r) && r.index == f.index
  {
    var f1 := With(f, RaName("totale_casi", days), CenteredMean(f.data["totale_casi"], days));
    WithWellFormed(f, RaName("totale_casi", days), CenteredMean(f.data["totale_casi"], days));
    var f2 := With(f1, RaName("totale_casi_DELTA", days), CenteredMean(f.data["totale_casi_DELTA"], days));
    WithWellFormed(f1, RaName("totale_casi_DELTA", days), CenteredMean(f.data["totale_casi_DELTA"], days));
    var col := CenteredMean(f.data["growth_factor_cum_infected"], days);
    WithWellFormed(f2, RaName("growth_factor_cum_infected", days), col);
    With(f2, RaName("growth_factor_cum_infected", days), col)
  }

  /** A rolling-mean name never collides with the columns it is computed
      from: the character after `totale_casi_` is `R`, not `D`, and the
      growth-factor name is longer than both. */
  lemma RaNamesFresh(days: nat)
    ensures RaName("totale_casi", days) != "totale_casi_DELTA"
    ensures RaName("totale_casi", days) != "growth_factor_cum_infected"
    ensures RaName("totale_casi_DELTA", days) != "growth_factor_cum_infected"
    ensures RaName("totale_casi", days) != RaName("totale_casi_DELTA", days)
    ensures RaName("totale_casi", days) != RaName("growth_factor_cum_infected", days)
    ensures RaName("totale_casi_DELTA", days) != RaName("growth_factor_cum_infected", days)
  {
    var a, b, c := RaName("totale_casi", days), RaName("totale_casi_DELTA", days), RaName("growth_factor_cum_infected", days);
    assert a[12] == 'R' && "totale_casi_DELTA"[12] == 'D' && b[12] == 'D';
    assert a[0] == 't' && c[0] == 'g' && b[0] == 't';
  }

  /** `add_ra_days(ds, days)`: three centred rolling means with at least 4
      values per window. pandas refuses a window shorter than min_periods,
      hence days >= 4. Each column is read back from the table after the
      previous assignment, as the source does. */
  method AddRaDays(ds: DataFrame, days: nat)
    requires ds.Valid() && HasRaFields(ds.Value()) && days >= 4
    modifies ds
    ensures ds.Valid() && ds.Value() == RaDays(old(ds.Value()), days)
  {
    RaNamesFresh(days);
    ds.Assign(RaName("totale_casi", days), CenteredMean(ds.data["totale_casi"], days));
    ds.Assign(RaName("totale_casi_DELTA", days), CenteredMean(ds.data["totale_casi_DELTA"], days));
    ds.Assign(RaName("growth_factor_cum_infected", days), CenteredMean(ds.data["growth_factor_cum_infected"], days));
  }

  /** `add_ra(ds)`: the 7-day centred means. */
  method AddRa(ds: DataFrame)
    requires ds.Valid() && HasRaFields(ds.Value())
    modifies ds
    ensures ds.Valid() && ds.Value() == RaDays(old(ds.Value()), 7)
  {
    AddRaDays(ds, 7);
  }

  /** `add_ra_days` writes exactly its three columns: each holds the centred
      mean of its source column, and every other column is untouched. */
  lemma RaDaysColumns(f: Frame, days: nat, c: string)
    requires WellFormed(f) && HasRaFields(f)
    ensures var g := RaDays(f, days).data;
      var names := {RaName("totale_casi", days), RaName("totale_casi_DELTA", days), RaName("growth_factor_cum_infected", days)};
      && (c in g <==> c in f.data || c in names)
      && (c in f.data && c !in names ==> g[c] == f.data[c])
      && g[RaName("totale_casi", days)] == CenteredMean(f.data["totale_casi"], days)
      && g[RaName("totale_casi_DELTA", days)] == CenteredMean(f.data["totale_casi_DELTA"], days)
      && g[RaName("growth_factor_cum_infected", days)] == CenteredMean(f.data["growth_factor_cum_infected"], days)
  {
    RaNamesFresh(days);
  }

  /** `str(7)` is "7": `add_ra` writes totale_casi_RA_7,
      totale_casi_DELTA_RA_7 and growth_factor_cum_infected_RA_7. */
  lemma RaSevenNames()
    ensures RaName("totale_casi", 7) == "totale_casi_RA_7"
    ensures RaName("totale_casi_DELTA", 7) == "totale_casi_DELTA_RA_7"
    ensures RaName("growth_factor_cum_infected", 7) == "growth_factor_cum_infected_RA_7"
  {
    assert NatToString(7) == "7";
  }

  /** The source columns `add_ra_days` averages. */
  predicate RaSource(p: string) {
    p == "totale_casi" || p == "totale_casi_DELTA" || p == "growth_factor_cum_infected"
  }

  /** A cell of a 7-day column written by `add_ra`: defined exactly when at
      least 4 of the source rows i-3..i+3 that exist hold a value, and then
      their mean. */
  lemma SevenDayMean(f: Frame, p: string, i: nat)
    requires WellFormed(f) && HasRaFields(f) && RaSource(p) && i < |f.index|
    ensures var s := f.data[p];
      var r := RaDays(f, 7).data[RaName(p, 7)];
      var w := Clip(s, i - 3, i + 4);
      && |r| == |f.index|
      && (r[i].Some? <==> CountDefined(w) >= 4)
      && (r[i].Some? ==> r[i].value == SumDefined(w) / CountDefined(w) as real)
  {
    RaDaysColumns(f, 7, p);
    CenteredSevenDefinedIff(f.data[p], i);
  }

  /** When the source column is fully known and the table has at least 4
      rows, the 7-day column written by `add_ra` is defined on every row. */
  lemma SevenDayMeanEverywhere(f: Frame, p: string, i: nat)
    requires WellFormed(f) && HasRaFields(f) && RaSource(p) && i < |f.index|
    requires AllDefined(f.data[p]) && 4 <= |f.index|
    ensures RaDays(f, 7).data[RaName(p, 7)][i].Some?
  {
    RaDaysColumns(f, 7, p);
    CenteredSevenDefinedEverywhere(f.data[p], i);
  }
}
