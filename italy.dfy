/** The notebook src/italy.py: the corrections it applies by hand, its own
    (older) derived columns, the per-unit renaming, and the folds that join
    the regions and the provinces into one wide table. */
module Italy {
  import opened Calendar
  import opened Series
  import opened Frames
  import opened Text
  import opened Places
  import Etl

  // ---------------------------------------------------------------------------
  // Hand corrections of 2020-03-10 (older column names *_attualmente_*)

  /** The national cells written by the notebook. */
  const NationalFix: seq<Correction> := [
    Correction(Etl.ErrDate, "totale_casi", 10149.0 + Etl.MissingCases),
    Correction(Etl.ErrDate, "totale_attualmente_positivi", 8514.0 + Etl.MissingCases),
    Correction(Etl.ErrDate, "nuovi_attualmente_positivi", 529.0 + Etl.MissingCases),
    Correction(Etl.ErrDateP1, "nuovi_attualmente_positivi", 2076.0 - Etl.MissingCases)
  ]

  /** The cells written into the Lombardia copy only. */
  const LombardiaFix: seq<Correction> := [
    Correction(Etl.ErrDate, "totale_casi", 5791.0 + Etl.MissingCases),
    Correction(Etl.ErrDate, "totale_attualmente_positivi", 4427.0 + Etl.MissingCases),
    Correction(Etl.ErrDate, "nuovi_attualmente_positivi", -63.0 + Etl.MissingCases),
    Correction(Etl.ErrDateP1, "nuovi_attualmente_positivi", 1336.0 - Etl.MissingCases)
  ]

  predicate IsFix(cs: seq<Correction>) {
    cs == NationalFix || cs == LombardiaFix
  }

  lemma FixDatesIn(cs: seq<Correction>, index: seq<Date>)
    requires IsFix(cs) && Etl.ErrDate in index && Etl.ErrDateP1 in index
    ensures DatesIn(cs, index)
  {
    forall i | 0 <= i < |cs|
      ensures cs[i].date in index
    {
      assert cs[i].date == if i < 3 then Etl.ErrDate else Etl.ErrDateP1;
    }
  }

  /** The four `.loc` writes of a correction cell, in order. Both dates must
      already be rows (otherwise `.loc` would append rows). */
  method Correct(ds: DataFrame, cs: seq<Correction>)
    requires ds.Valid() && IsFix(cs) && Etl.ErrDate in ds.index && Etl.ErrDateP1 in ds.index
    modifies ds
    ensures ds.Valid() && ds.Value() == ApplyCorrections(old(ds.Value()), cs)
  {
    ghost var f := ds.Value();
    ds.SetCell(cs[0]);
    ds.SetCell(cs[1]);
    ds.SetCell(cs[2]);
    ds.SetCell(cs[3]);
    FixDatesIn(cs, f.index);
    ApplyFourCorrections(f, cs);
  }

  /** The national correction writes exactly these cells: 2020-03-10
      totale_casi 10749, totale_attualmente_positivi 9114,
      nuovi_attualmente_positivi 1129; 2020-03-11 nuovi_attualmente_positivi
      1476. */
  lemma NationalFixCells(f: Frame, name: string, k: nat)
    requires WellFormed(f) && Etl.ErrDate in f.index && Etl.ErrDateP1 in f.index && k < |f.index|
    requires name in f.data
    ensures var g := ApplyCorrections(f, NationalFix);
      var d := f.index[k];
      && g.index == f.index
      && name in g.data
      && g.data[name][k] ==
           if d == Etl.ErrDate && name == "totale_casi" then Some(10749.0)
           else if d == Etl.ErrDate && name == "totale_attualmente_positivi" then Some(9114.0)
           else if d == Etl.ErrDate && name == "nuovi_attualmente_positivi" then Some(1129.0)
           else if d == Etl.ErrDateP1 && name == "nuovi_attualmente_positivi" then Some(1476.0)
           else f.data[name][k]
  {
    var cs := NationalFix;
    FixDatesIn(cs, f.index);
    assert cs[0].value == 10749.0 && cs[1].value == 9114.0 && cs[2].value == 1129.0 && cs[3].value == 1476.0;
    Etl.RegistryCells(f, cs, name, k);
  }

  /** The Lombardia correction: 2020-03-10 totale_casi 6391,
      totale_attualmente_positivi 5027, nuovi_attualmente_positivi 537;
      2020-03-11 nuovi_attualmente_positivi 736; nothing else. */
  lemma LombardiaFixCells(f: Frame, name: string, k: nat)
    requires WellFormed(f) && Etl.ErrDate in f.index && Etl.ErrDateP1 in f.index && k < |f.index|
    requires name in f.data
    ensures var g := ApplyCorrections(f, LombardiaFix);
      var d := f.index[k];
      && g.index == f.index
      && name in g.data
      && g.data[name][k] ==
           if d == Etl.ErrDate && name == "totale_casi" then Some(6391.0)
           else if d == Etl.ErrDate && name == "totale_attualmente_positivi" then Some(5027.0)
           else if d == Etl.ErrDate && name == "nuovi_attualmente_positivi" then Some(537.0)
           else if d == Etl.ErrDateP1 && name == "nuovi_attualmente_positivi" then Some(736.0)
           else f.data[name][k]
  {
    var cs := LombardiaFix;
    FixDatesIn(cs, f.index);
    assert cs[0].value == 6391.0 && cs[1].value == 5027.0 && cs[2].value == 537.0 && cs[3].value == 736.0;
    Etl.RegistryCells(f, cs, name, k);
  }

  // ---------------------------------------------------------------------------
  // add_delta_and_growth

  /** The columns `add_delta_and_growth` reads. */
  predicate HasGrowthFields(f: Frame) {
    && "totale_casi" in f.data && "totale_attualmente_positivi" in f.data && "tamponi" in f.data
    && "dimessi_guariti" in f.data && "deceduti" in f.data
  }

  /** They are present and have one cell per row. */
  predicate GrowthBase(f: Frame) {
    && HasGrowthFields(f)
    && |f.data["totale_casi"]| == |f.index| && |f.data["totale_attualmente_positivi"]| == |f.index|
    && |f.data["tamponi"]| == |f.index| && |f.data["dimessi_guariti"]| == |f.index|
    && |f.data["deceduti"]| == |f.index|
  }

  /** The eight columns `add_delta_and_growth` assigns. */
  datatype GrowthColumns = GrowthColumns(
    totaleCasiDelta: Column,
    attualmentePositiviDelta: Column,
    tamponiDelta: Column,
    dimessiGuaritiDelta: Column,
    decedutiDelta: Column,
    growthFactorCumInfected: Column,
    growthFactorCurrInfected: Column,
    positiveTestRatio: Column)

  function GrowthMap(d: GrowthColumns): map<string, Column> {
    map[
      "totale_casi_DELTA" := d.totaleCasiDelta,
      "totale_attualmente_positivi_DELTA" := d.attualmentePositiviDelta,
      "tamponi_DELTA" := d.tamponiDelta,
      "dimessi_guariti_DELTA" := d.dimessiGuaritiDelta,
      "deceduti_DELTA" := d.decedutiDelta,
      "growth_factor_cum_infected" := d.growthFactorCumInfected,
      "growth_factor_curr_infected" := d.growthFactorCurrInfected,
      "positive_test_ratio" := d.positiveTestRatio
    ]
  }

  const GrowthNames: set<string> := {"totale_casi_DELTA", "totale_attualmente_positivi_DELTA", "tamponi_DELTA", "dimessi_guariti_DELTA", "deceduti_DELTA", "growth_factor_cum_infected", "growth_factor_curr_infected", "positive_test_ratio"}

  function GrowthColumnsOf(f: Frame): GrowthColumns
    requires GrowthBase(f)
  {
    GrowthColumns(
      FieldDiff(f, "totale_casi"), FieldDiff(f, "totale_attualmente_positivi"), FieldDiff(f, "tamponi"),
      FieldDiff(f, "dimessi_guariti"), FieldDiff(f, "deceduti"),
      AddScalar(PctChange(FieldDiff(f, "totale_casi")), 1.0), AddScalar(PctChange(FieldDiff(f, "totale_attualmente_positivi")), 1.0),
      Ratio(FieldDiff(f, "totale_casi"), FieldDiff(f, "tamponi")))
  }

  /** The column list after the eight assignments. */
  function GrowthColumnOrder(cs: seq<string>): seq<string> {
    var c1 := AppendAbsent(cs, "totale_casi_DELTA");
    var c2 := AppendAbsent(c1, "totale_attualmente_positivi_DELTA");
    var c3 := AppendAbsent(c2, "tamponi_DELTA");
    var c4 := AppendAbsent(c3, "dimessi_guariti_DELTA");
    var c5 := AppendAbsent(c4, "deceduti_DELTA");
    var c6 := AppendAbsent(c5, "growth_factor_cum_infected");
    var c7 := AppendAbsent(c6, "growth_factor_curr_infected");
    AppendAbsent(c7, "positive_test_ratio")
  }

  /** The table `add_delta_and_growth` leaves behind. */
  function DeltaAndGrowth(f: Frame): Frame
    requires GrowthBase(f)
  {
    Frame(f.index, GrowthColumnOrder(f.columns), f.data + GrowthMap(GrowthColumnsOf(f)))
  }

  lemma GrowthAssignments(m: map<string, Column>, d: GrowthColumns)
    ensures m
      ["totale_casi_DELTA" := d.totaleCasiDelta]
      ["totale_attualmente_positivi_DELTA" := d.attualmentePositiviDelta]
      ["tamponi_DELTA" := d.tamponiDelta]
      ["dimessi_guariti_DELTA" := d.dimessiGuaritiDelta]
      ["deceduti_DELTA" := d.decedutiDelta]
      ["growth_factor_cum_infected" := d.growthFactorCumInfected]
      ["growth_factor_curr_infected" := d.growthFactorCurrInfected]
      ["positive_test_ratio" := d.positiveTestRatio]
      == m + GrowthMap(d)
  {
  }

  /** `add_delta_and_growth(ds)`: five differences, two growth factors and
      the positive-test ratio, assigned in the source's order. The
      differences are kept in locals; the source reads them back from the
      table, where they hold the same values. */
  method AddDeltaAndGrowth(ds: DataFrame)
    requires ds.Valid() && HasGrowthFields(ds.Value())
    modifies ds
    ensures ds.Valid() && ds.Value() == DeltaAndGrowth(old(ds.Value()))
  {
    ghost var f := ds.Value();
    var tc, tap, tamponi := ds.data["totale_casi"], ds.data["totale_attualmente_positivi"], ds.data["tamponi"];
    var guariti, deceduti := ds.data["dimessi_guariti"], ds.data["deceduti"];
    // Deltas
    var casesDelta := Diff(tc);
    ds.Assign("totale_casi_DELTA", casesDelta);
    var currentDelta := Diff(tap);
    ds.Assign("totale_attualmente_positivi_DELTA", currentDelta);
    var testsDelta := Diff(tamponi);
    ds.Assign("tamponi_DELTA", testsDelta);
    ds.Assign("dimessi_guariti_DELTA", Diff(guariti));
    ds.Assign("deceduti_DELTA", Diff(deceduti));
    ds.Assign("growth_factor_cum_infected", AddScalar(PctChange(casesDelta), 1.0));
    ds.Assign("growth_factor_curr_infected", AddScalar(PctChange(currentDelta), 1.0));
    ds.Assign("positive_test_ratio", Ratio(casesDelta, testsDelta));
    GrowthAssignments(f.data, GrowthColumnsOf(f));
  }

  lemma GrowthMapKeys(d: GrowthColumns)
    ensures GrowthMap(d).Keys == GrowthNames
  {
  }

  lemma GrowthReadBack(m: map<string, Column>, d: GrowthColumns)
    ensures var g := m + GrowthMap(d);
      && "totale_casi_DELTA" in g && g["totale_casi_DELTA"] == d.totaleCasiDelta
      && "totale_attualmente_positivi_DELTA" in g && g["totale_attualmente_positivi_DELTA"] == d.attualmentePositiviDelta
      && "tamponi_DELTA" in g && g["tamponi_DELTA"] == d.tamponiDelta
      && "dimessi_guariti_DELTA" in g && g["dimessi_guariti_DELTA"] == d.dimessiGuaritiDelta
      && "deceduti_DELTA" in g && g["deceduti_DELTA"] == d.decedutiDelta
      && "growth_factor_cum_infected" in g && g["growth_factor_cum_infected"] == d.growthFactorCumInfected
      && "growth_factor_curr_infected" in g && g["growth_factor_curr_infected"] == d.growthFactorCurrInfected
      && "positive_test_ratio" in g && g["positive_test_ratio"] == d.positiveTestRatio
  {
  }

  /** The eight assignments keep the table well formed, with the same
      dates. */
  lemma DeltaAndGrowthWellFormed(f: Frame)
    requires WellFormed(f) && HasGrowthFields(f)
    ensures WellFormed(DeltaAndGrowth(f)) && DeltaAndGrowth(f).index == f.index
  {
    var d := GrowthColumnsOf(f);
    var g1 := With(f, "totale_casi_DELTA", d.totaleCasiDelta);
    WithWellFormed(f, "totale_casi_DELTA", d.totaleCasiDelta);
    var g2 := With(g1, "totale_attualmente_positivi_DELTA", d.attualmentePositiviDelta);
    WithWellFormed(g1, "totale_attualmente_positivi_DELTA", d.attualmentePositiviDelta);
    var g3 := With(g2, "tamponi_DELTA", d.tamponiDelta);
    WithWellFormed(g2, "tamponi_DELTA", d.tamponiDelta);
    var g4 := With(g3, "dimessi_guariti_DELTA", d.dimessiGuaritiDelta);
    WithWellFormed(g3, "dimessi_guariti_DELTA", d.dimessiGuaritiDelta);
    var g5 := With(g4, "deceduti_DELTA", d.decedutiDelta);
    WithWellFormed(g4, "deceduti_DELTA", d.decedutiDelta);
    var g6 := With(g5, "growth_factor_cum_infected", d.growthFactorCumInfected);
    WithWellFormed(g5, "growth_factor_cum_infected", d.growthFactorCumInfected);
    var g7 := With(g6, "growth_factor_curr_infected", d.growthFactorCurrInfected);
    WithWellFormed(g6, "growth_factor_curr_infected", d.growthFactorCurrInfected);
    var g8 := With(g7, "positive_test_ratio", d.positiveTestRatio);
    WithWellFormed(g7, "positive_test_ratio", d.positiveTestRatio);
    GrowthAssignments(f.data, d);
    assert g8 == DeltaAndGrowth(f);
  }

  /** The table after `add_delta_and_growth` is a proper table with the same
      dates; it holds every column it had plus exactly the eight assigned
      ones, and the columns it does not assign are untouched. */
  lemma DeltaAndGrowthTable(f: Frame, c: string)
    requires WellFormed(f) && HasGrowthFields(f)
    ensures var g := DeltaAndGrowth(f);
      && WellFormed(g) && g.index == f.index
      && (c in g.data <==> c in f.data || c in GrowthNames)
      && (c in f.data && c !in GrowthNames ==> g.data[c] == f.data[c])
  {
    DeltaAndGrowthWellFormed(f);
    GrowthMapKeys(GrowthColumnsOf(f));
  }

  /** Reading the table back: the differences are plain `diff()`s (no zero
      fill), the growth factors are `pct_change() + 1` of the case and
      current-positive differences, and the ratio divides the case
      difference by the test difference. */
  lemma DeltaAndGrowthColumns(f: Frame)
    requires GrowthBase(f)
    ensures var g := DeltaAndGrowth(f).data;
      && "totale_casi_DELTA" in g && g["totale_casi_DELTA"] == FieldDiff(f, "totale_casi")
      && "totale_attualmente_positivi_DELTA" in g && g["totale_attualmente_positivi_DELTA"] == FieldDiff(f, "totale_attualmente_positivi")
      && "tamponi_DELTA" in g && g["tamponi_DELTA"] == FieldDiff(f, "tamponi")
      && "dimessi_guariti_DELTA" in g && g["dimessi_guariti_DELTA"] == FieldDiff(f, "dimessi_guariti")
      && "deceduti_DELTA" in g && g["deceduti_DELTA"] == FieldDiff(f, "deceduti")
      && "growth_factor_cum_infected" in g && g["growth_factor_cum_infected"] == AddScalar(PctChange(FieldDiff(f, "totale_casi")), 1.0)
      && "growth_factor_curr_infected" in g && g["growth_factor_curr_infected"] == AddScalar(PctChange(FieldDiff(f, "totale_attualmente_positivi")), 1.0)
      && "positive_test_ratio" in g && g["positive_test_ratio"] == Ratio(FieldDiff(f, "totale_casi"), FieldDiff(f, "tamponi"))
  {
    GrowthReadBack(f.data, GrowthColumnsOf(f));
  }

  /** Every difference is undefined on row 0 (nothing is filled in) and is
      the day-over-day change on later rows. */
  lemma DeltaCells(f: Frame, i: nat)
    requires GrowthBase(f) && i < |f.index|
    ensures var tc, tap, tt := f.data["totale_casi"], f.data["totale_attualmente_positivi"], f.data["tamponi"];
      && FieldDiff(f, "totale_casi")[i] == (if i == 0 then None else Sub(tc[i], tc[i - 1]))
      && FieldDiff(f, "totale_attualmente_positivi")[i] == (if i == 0 then None else Sub(tap[i], tap[i - 1]))
      && FieldDiff(f, "tamponi")[i] == (if i == 0 then None else Sub(tt[i], tt[i - 1]))
      && FieldDiff(f, "dimessi_guariti")[i].None? == (i == 0 || f.data["dimessi_guariti"][i].None? || f.data["dimessi_guariti"][i - 1].None?)
      && FieldDiff(f, "deceduti")[i].None? == (i == 0 || f.data["deceduti"][i].None? || f.data["deceduti"][i - 1].None?)
  {
  }

  /** The growth factor of day i is the new cases (new current positives) of
      day i divided by those of day i-1: defined only where day i-1's
      difference is defined and non-zero. */
  lemma GrowthFactorCells(f: Frame, i: nat)
    requires GrowthBase(f) && i < |f.index|
    ensures var gc := AddScalar(PctChange(FieldDiff(f, "totale_casi")), 1.0);
      var gp := AddScalar(PctChange(FieldDiff(f, "totale_attualmente_positivi")), 1.0);
      && gc[i] == (if i == 0 then None else Div(FieldDiff(f, "totale_casi")[i], FieldDiff(f, "totale_casi")[i - 1]))
      && gp[i] == (if i == 0 then None else Div(FieldDiff(f, "totale_attualmente_positivi")[i], FieldDiff(f, "totale_attualmente_positivi")[i - 1]))
      && (i < 2 ==> gc[i].None? && gp[i].None?)
  {
    GrowthFactorIsQuotient(FieldDiff(f, "totale_casi"), i);
    GrowthFactorIsQuotient(FieldDiff(f, "totale_attualmente_positivi"), i);
  }

  /** The positive-test ratio: new cases over new tests, undefined on row 0
      and wherever the tests did not change. */
  lemma PositiveTestRatioCells(f: Frame, i: nat)
    requires GrowthBase(f) && i < |f.index|
    ensures var tc, tt := f.data["totale_casi"], f.data["tamponi"];
      Ratio(FieldDiff(f, "totale_casi"), FieldDiff(f, "tamponi"))[i] ==
        if i == 0 then None else Div(Sub(tc[i], tc[i - 1]), Sub(tt[i], tt[i - 1]))
  {
    RatioOfDiffs(f.data["totale_casi"], f.data["tamponi"], i);
  }

  // ---------------------------------------------------------------------------
  // add_ra_and_perc

  /** The two trailing means `add_ra_and_perc` assigns for one window
      length (min_periods defaults to the window). */
  function TrailingMeans(f: Frame, days: nat): (r: Frame)
    requires WellFormed(f) && "totale_casi" in f.data && "totale_casi_DELTA" in f.data
    ensures WellFormed(r) && r.index == f.index
  {
    var a := Etl.RaName("totale_casi", days);
    var b := Etl.RaName("totale_casi_DELTA", days);
    var f1 := With(f, a, RollingTrailing(f.data["totale_casi"], days));
    WithWellFormed(f, a, RollingTrailing(f.data["totale_casi"], days));
    WithWellFormed(f1, b, RollingTrailing(f.data["totale_casi_DELTA"], days));
    With(f1, b, RollingTrailing(f.data["totale_casi_DELTA"], days))
  }

  /** The table `add_ra_and_perc` leaves behind: 3-row, then 4-row means. */
  function RaAndPerc(f: Frame): (r: Frame)
    requires WellFormed(f) && "totale_casi" in f.data && "totale_casi_DELTA" in f.data
    ensures WellFormed(r) && r.index == f.index
  {
    Etl.RaNamesFresh(3);
    TrailingMeans(TrailingMeans(f, 3), 4)
  }

  /** `add_ra_and_perc(ds)`. */
  method AddRaAndPerc(ds: DataFrame)
    requires ds.Valid() && "totale_casi" in ds.data && "totale_casi_DELTA" in ds.data
    modifies ds
    ensures ds.Valid() && ds.Value() == RaAndPerc(old(ds.Value()))
  {
    var days := 3;
    Etl.RaNamesFresh(days);
    ds.Assign(Etl.RaName("totale_casi", days), RollingTrailing(ds.data["totale_casi"], days));
    ds.Assign(Etl.RaName("totale_casi_DELTA", days), RollingTrailing(ds.data["totale_casi_DELTA"], days));
    days := 4;
    ds.Assign(Etl.RaName("totale_casi", days), RollingTrailing(ds.data["totale_casi"], days));
    ds.Assign(Etl.RaName("totale_casi_DELTA", days), RollingTrailing(ds.data["totale_casi_DELTA"], days));
  }

  /** The names `add_ra_and_perc` writes. */
  const RaNames: set<string> := {
    Etl.RaName("totale_casi", 3), Etl.RaName("totale_casi_DELTA", 3),
    Etl.RaName("totale_casi", 4), Etl.RaName("totale_casi_DELTA", 4)}

  lemma RaNamesSpelled()
    ensures Etl.RaName("totale_casi", 3) == "totale_casi_RA_3"
    ensures Etl.RaName("totale_casi_DELTA", 3) == "totale_casi_DELTA_RA_3"
    ensures Etl.RaName("totale_casi", 4) == "totale_casi_RA_4"
    ensures Etl.RaName("totale_casi_DELTA", 4) == "totale_casi_DELTA_RA_4"
  {
    assert NatToString(3) == "3" && NatToString(4) == "4";
  }

  /** One window length: two columns written, the rest untouched. */
  lemma TrailingMeansColumns(f: Frame, days: nat, c: string)
    requires WellFormed(f) && "totale_casi" in f.data && "totale_casi_DELTA" in f.data
    ensures var g := TrailingMeans(f, days).data;
      var a, b := Etl.RaName("totale_casi", days), Etl.RaName("totale_casi_DELTA", days);
      && (c in g <==> c in f.data || c == a || c == b)
      && (c in f.data && c != a && c != b ==> g[c] == f.data[c])
      && g[a] == RollingTrailing(f.data["totale_casi"], days)
      && g[b] == RollingTrailing(f.data["totale_casi_DELTA"], days)
  {
    Etl.RaNamesFresh(days);
  }

  /** `add_ra_and_perc` writes exactly four columns, the trailing means of
      totale_casi and of totale_casi_DELTA over 3 and over 4 rows, and leaves
      every other column as it was. */
  lemma RaAndPercColumns(f: Frame, c: string)
    requires WellFormed(f) && "totale_casi" in f.data && "totale_casi_DELTA" in f.data
    ensures var g := RaAndPerc(f).data;
      && (c in g <==> c in f.data || c in RaNames)
      && (c in f.data && c !in RaNames ==> g[c] == f.data[c])
      && g[Etl.RaName("totale_casi", 3)] == RollingTrailing(f.data["totale_casi"], 3)
      && g[Etl.RaName("totale_casi_DELTA", 3)] == RollingTrailing(f.data["totale_casi_DELTA"], 3)
      && g[Etl.RaName("totale_casi", 4)] == RollingTrailing(f.data["totale_casi"], 4)
      && g[Etl.RaName("totale_casi_DELTA", 4)] == RollingTrailing(f.data["totale_casi_DELTA"], 4)
  {
    var f3 := TrailingMeans(f, 3);
    Etl.RaNamesFresh(3);
    RaNamesSpelled();
    TrailingMeansColumns(f, 3, c);
    TrailingMeansColumns(f, 3, "totale_casi");
    TrailingMeansColumns(f, 3, "totale_casi_DELTA");
    TrailingMeansColumns(f3, 4, c);
    TrailingMeansColumns(f3, 4, Etl.RaName("totale_casi", 3));
    TrailingMeansColumns(f3, 4, Etl.RaName("totale_casi_DELTA", 3));
  }

  /** A unit's table after `add_delta_and_growth` and `add_ra_and_perc`, the
      order in which the notebook always applies them. */
  function Processed(f: Frame): (r: Frame)
    requires WellFormed(f) && HasGrowthFields(f)
    ensures WellFormed(r) && r.index == f.index
  {
    DeltaAndGrowthTable(f, "totale_casi");
    DeltaAndGrowthColumns(f);
    RaAndPerc(DeltaAndGrowth(f))
  }

  /** On a fully known case total the trailing means of totale_casi are
      defined from row 2 (3 rows) and row 3 (4 rows) on, as the plain mean of
      the window. */
  lemma CaseMeans(h: Frame, days: nat, i: nat)
    requires WellFormed(h) && "totale_casi" in h.data && "totale_casi_DELTA" in h.data
    requires AllDefined(h.data["totale_casi"]) && i < |h.index| && (days == 3 || days == 4)
    ensures var ra := RaAndPerc(h).data[Etl.RaName("totale_casi", days)];
      var tc := h.data["totale_casi"];
      && (ra[i].Some? <==> days <= i + 1)
      && (days <= i + 1 ==> ra[i].value == SumDefined(tc[i + 1 - days..i + 1]) / days as real)
  {
    RaAndPercColumns(h, "totale_casi");
    TrailingOnDefined(h.data["totale_casi"], days, i);
  }

  /** A trailing mean over a fully known column. */
  lemma TrailingOnDefined(s: Column, w: nat, i: nat)
    requires 1 <= w && i < |s| && AllDefined(s)
    ensures RollingTrailing(s, w)[i].Some? <==> w <= i + 1
    ensures w <= i + 1 ==> RollingTrailing(s, w)[i].value == SumDefined(s[i + 1 - w..i + 1]) / w as real
  {
    TrailingDefinedIff(s, w, i);
    if w <= i + 1 {
      assert AllDefined(s[i + 1 - w..i + 1]);
    }
  }

  lemma DeltaMeanColumn(h: Frame, days: nat)
    requires WellFormed(h) && "totale_casi" in h.data && "totale_casi_DELTA" in h.data
    requires days == 3 || days == 4
    ensures RaAndPerc(h).data[Etl.RaName("totale_casi_DELTA", days)] == RollingTrailing(h.data["totale_casi_DELTA"], days)
  {
    RaAndPercColumns(h, "totale_casi");
  }

  /** When totale_casi_DELTA is the unfilled difference of a fully known
      total, as `add_delta_and_growth` leaves it (DeltaAndGrowthColumns), its
      trailing means start one row later than the total's, at row 3 and row
      4, because the difference is undefined on row 0. Their values, the
      average daily increase over the window, are Series.TrailingMeanOfDiff
      applied through DeltaMeanColumn. */
  lemma DeltaMeans(h: Frame, days: nat, i: nat)
    requires WellFormed(h) && "totale_casi" in h.data && "totale_casi_DELTA" in h.data
    requires h.data["totale_casi_DELTA"] == Diff(h.data["totale_casi"])
    requires AllDefined(h.data["totale_casi"]) && i < |h.index| && (days == 3 || days == 4)
    ensures RaAndPerc(h).data[Etl.RaName("totale_casi_DELTA", days)][i].Some? <==> days <= i
  {
    DeltaMeanColumn(h, days);
    TrailingMeanOfDiff(h.data["totale_casi"], days, i);
  }

  // ---------------------------------------------------------------------------
  // new_columns_mapping and localize_plot_column

  /** `new_columns_mapping(ds, unit)`: one entry per column of the table,
      mapping it to its suffixed name; no two columns get the same name. */
  method NewColumnsMapping(ds: DataFrame, unit: string) returns (m: map<string, string>)
    requires ds.Valid()
    ensures m == SuffixMapping(ds.columns, unit)
    ensures forall c :: c in m <==> c in ds.data
    ensures forall c :: c in m ==> m[c] == c + "_" + unit
    ensures forall c1, c2 :: c1 in m && c2 in m && m[c1] == m[c2] ==> c1 == c2
  {
    m := map[];
    var i := 0;
    while i < |ds.columns|
      invariant 0 <= i <= |ds.columns|
      invariant m == SuffixMapping(ds.columns[..i], unit)
    {
      var c := ds.columns[i];
      assert ds.columns[..i + 1] == ds.columns[..i] + [c];
      m := m[c := Suffixed(c, unit)];
      i := i + 1;
    }
    assert ds.columns[..i] == ds.columns;
    SuffixMappingInjective(ds.Value(), unit);
    forall c1, c2 | c1 in m && c2 in m && m[c1] == m[c2]
      ensures c1 == c2
    {
      assert NewName(m, c1) == NewName(m, c2);
    }
  }

  /** `localize_plot_column(column, units)`: the column's name in each
      unit's renamed table, in the order of the units. */
  function LocalizePlotColumn(column: string, units: seq<string>): (r: seq<string>)
    ensures |r| == |units|
  {
    seq(|units|, k requires 0 <= k < |units| => Suffixed(column, units[k]))
  }

  /** The k-th name is the one `new_columns_mapping` gave the column in
      unit k's table, and in that renamed table it holds the column's data. */
  lemma LocalizedIsRenamed(f: Frame, column: string, units: seq<string>, k: nat)
    requires WellFormed(f) && column in f.data && k < |units|
    ensures var name := LocalizePlotColumn(column, units)[k];
      && name == SuffixMapping(f.columns, units[k])[column]
      && name in RenamedForUnit(f, units[k]).data
      && RenamedForUnit(f, units[k]).data[name] == f.data[column]
  {
  }

  /** Each name still tells its unit (the part after the last underscore),
      so distinct units without underscores give distinct names. */
  lemma LocalizedNamesDistinct(column: string, units: seq<string>)
    requires Distinct(units) && forall k :: 0 <= k < |units| ==> '_' !in units[k]
    ensures var r := LocalizePlotColumn(column, units);
      && (forall k :: 0 <= k < |r| ==> AfterLastUnderscore(r[k]) == units[k])
      && Distinct(r)
  {
    var r := LocalizePlotColumn(column, units);
    forall k | 0 <= k < |r|
      ensures AfterLastUnderscore(r[k]) == units[k]
    {
      AfterLastUnderscoreOfSuffixed(column, units[k]);
    }
  }

  // ---------------------------------------------------------------------------
  // The regional table: one renamed copy per region, inner-joined on the date

  /** The columns kept from the regional data. */
  const InterestingFields: seq<string> := [
    "totale_casi", "tamponi", "dimessi_guariti", "deceduti",
    "totale_attualmente_positivi", "nuovi_attualmente_positivi"]

  lemma InterestingFieldsDistinct()
    ensures Distinct(InterestingFields)
  {
  }

  /** Region r's rows of the regional data (those whose
      denominazione_regione names it), holding the kept fields. */
  predicate UnitData(raw: map<string, Frame>, r: string) {
    r in raw && WellFormed(raw[r]) && HasColumns(raw[r], InterestingFields)
  }

  /** Lombardia's rows also hold the two dates its correction writes. */
  predicate LombardiaData(raw: map<string, Frame>) {
    && UnitData(raw, "Lombardia")
    && Etl.ErrDate in raw["Lombardia"].index && Etl.ErrDateP1 in raw["Lombardia"].index
  }

  predicate RegionData(raw: map<string, Frame>, regions: seq<string>) {
    && PlainNames(Units(regions)) && LombardiaData(raw)
    && forall k :: 0 <= k < |regions| ==> UnitData(raw, regions[k])
  }

  /** `ds_reg.loc[...].loc[:, INTERESTING_FIELDS].copy()` for region r. */
  function RegionInput(raw: map<string, Frame>, r: string): (s: Frame)
    requires UnitData(raw, r)
    ensures WellFormed(s) && s.index == raw[r].index && HasGrowthFields(s)
    ensures HasColumns(s, InterestingFields)
  {
    InterestingFieldsDistinct();
    var s := Select(raw[r], InterestingFields);
    assert HasGrowthFields(s) by {
      assert InterestingFields[0] == "totale_casi" && InterestingFields[1] == "tamponi";
      assert InterestingFields[2] == "dimessi_guariti" && InterestingFields[3] == "deceduti";
      assert InterestingFields[4] == "totale_attualmente_positivi";
    }
    s
  }

  /** Lombardia's copy after its four corrections. */
  function LombardiaInput(raw: map<string, Frame>): (s: Frame)
    requires LombardiaData(raw)
    ensures WellFormed(s) && s.index == raw["Lombardia"].index && HasGrowthFields(s)
    ensures HasColumns(s, InterestingFields)
  {
    var s := RegionInput(raw, "Lombardia");
    FixDatesIn(LombardiaFix, s.index);
    CorrectionsKeepColumns(s, LombardiaFix);
    ApplyCorrections(s, LombardiaFix)
  }

  /** Lombardia's table as it seeds the join. */
  function LombardiaUnit(raw: map<string, Frame>): (u: Frame)
    requires LombardiaData(raw)
    ensures WellFormed(u) && u.index == raw["Lombardia"].index
  {
    RenamedForUnit(Processed(LombardiaInput(raw)), "Lombardia")
  }

  lemma LombardiaUnitTagged(raw: map<string, Frame>)
    requires LombardiaData(raw)
    ensures TaggedWith(LombardiaUnit(raw), "Lombardia")
  {
    LombardiaPlain();
    RenamedTagged(Processed(LombardiaInput(raw)), "Lombardia");
  }

  /** Another region's table as it enters the join: derived columns added,
      then every column suffixed with the region's name. */
  function RegionUnit(raw: map<string, Frame>, r: string): (u: Frame)
    requires UnitData(raw, r)
    ensures WellFormed(u) && u.index == raw[r].index
  {
    RenamedForUnit(Processed(RegionInput(raw, r)), r)
  }

  lemma RegionUnitTagged(raw: map<string, Frame>, r: string)
    requires UnitData(raw, r) && '_' !in r
    ensures TaggedWith(RegionUnit(raw, r), r)
  {
    RenamedTagged(Processed(RegionInput(raw, r)), r);
  }

  /** The other regions' tables, in the order of `regions`. */
  function RegionCopies(raw: map<string, Frame>, regions: seq<string>): (cs: seq<Frame>)
    requires forall k :: 0 <= k < |regions| ==> UnitData(raw, regions[k])
    ensures |cs| == |regions|
  {
    seq(|regions|, k requires 0 <= k < |regions| => RegionUnit(raw, regions[k]))
  }

  /** The tables in the order they enter the join: Lombardia, then
      `regions` in order. */
  function RegionUnits(raw: map<string, Frame>, regions: seq<string>): (us: seq<Frame>)
    requires RegionData(raw, regions)
    ensures |us| == |regions| + 1
  {
    [LombardiaUnit(raw)] + RegionCopies(raw, regions)
  }

  /** Copy k is region k's prepared table. */
  lemma RegionCopiesAt(raw: map<string, Frame>, regions: seq<string>)
    requires forall k :: 0 <= k < |regions| ==> UnitData(raw, regions[k])
    ensures forall k {:trigger RegionUnit(raw, regions[k])} :: 0 <= k < |regions| ==>
      RegionCopies(raw, regions)[k] == RegionUnit(raw, regions[k])
  {
  }

  /** Each copy carries its region's tag. */
  lemma RegionCopiesTagged(raw: map<string, Frame>, regions: seq<string>)
    requires forall k :: 0 <= k < |regions| ==> UnitData(raw, regions[k]) && '_' !in regions[k]
    ensures forall k :: 0 <= k < |regions| ==>
      WellFormed(RegionCopies(raw, regions)[k]) && TaggedWith(RegionCopies(raw, regions)[k], regions[k])
  {
    forall k | 0 <= k < |regions|
      ensures TaggedWith(RegionCopies(raw, regions)[k], regions[k])
    {
      RegionUnitTagged(raw, regions[k]);
    }
  }

  /** No two units share a column name once renamed, so they can be joined. */
  lemma RegionUnitsJoinable(raw: map<string, Frame>, regions: seq<string>)
    requires RegionData(raw, regions)
    ensures Joinable(RegionUnits(raw, regions))
  {
    assert forall k :: 0 <= k < |regions| ==> '_' !in regions[k] by {
      forall k | 0 <= k < |regions|
        ensures '_' !in regions[k]
      {
        assert regions[k] == Units(regions)[k + 1];
      }
    }
    LombardiaUnitTagged(raw);
    RegionCopiesTagged(raw, regions);
    TaggedJoinableCons(LombardiaUnit(raw), "Lombardia", RegionCopies(raw, regions), regions);
  }

  /** `ds_regions_sided` after the loop. */
  function RegionsSided(raw: map<string, Frame>, regions: seq<string>): (r: Frame)
    requires RegionData(raw, regions)
    ensures WellFormed(r)
  {
    RegionUnitsJoinable(raw, regions);
    FoldJoin(RegionUnits(raw, regions))
  }

  /** The three steps every region's table goes through, in place:
      `add_delta_and_growth`, `add_ra_and_perc`, then the rename with
      `new_columns_mapping`. */
  method PrepareUnit(ds: DataFrame, unit: string)
    requires ds.Valid() && HasGrowthFields(ds.Value())
    modifies ds
    ensures ds.Valid() && ds.Value() == RenamedForUnit(Processed(old(ds.Value())), unit)
  {
    ghost var f := ds.Value();
    AddDeltaAndGrowth(ds);
    DeltaAndGrowthTable(f, "totale_casi");
    DeltaAndGrowthTable(f, "totale_casi_DELTA");
    AddRaAndPerc(ds);
    var m := NewColumnsMapping(ds, unit);
    ds.Rename(m);
  }

  /** Lombardia's copy: the correction, then the common steps. */
  method LombardiaSeed(raw: map<string, Frame>) returns (u: Frame)
    requires LombardiaData(raw)
    ensures u == LombardiaUnit(raw)
  {
    InterestingFieldsDistinct();
    var lombardia := new DataFrame(Select(raw["Lombardia"], InterestingFields));
    Correct(lombardia, LombardiaFix);
    assert lombardia.Value() == LombardiaInput(raw);
    PrepareUnit(lombardia, "Lombardia");
    u := lombardia.Value();
  }

  /** Another region's copy: the common steps only, no correction. */
  method RegionCopy(raw: map<string, Frame>, name: string) returns (u: Frame)
    requires UnitData(raw, name)
    ensures u == RegionUnit(raw, name)
  {
    InterestingFieldsDistinct();
    var region := new DataFrame(Select(raw[name], InterestingFields));
    assert region.Value() == RegionInput(raw, name);
    PrepareUnit(region, name);
    u := region.Value();
  }

  /** Region i's copy, as the loop builds it. */
  method NextRegion(raw: map<string, Frame>, regions: seq<string>, ghost copies: seq<Frame>, i: nat)
    returns (u: Frame)
    requires i < |regions| && |copies| == |regions|
    requires forall k :: 0 <= k < |regions| ==> UnitData(raw, regions[k])
    requires forall k {:trigger RegionUnit(raw, regions[k])} :: 0 <= k < |regions| ==>
      copies[k] == RegionUnit(raw, regions[k])
    ensures u == copies[i]
  {
    u := RegionCopy(raw, regions[i]);
  }

  /** The loop over `regions`: each region's prepared copy, in order, is
      inner-joined onto the accumulator that `seed` starts. */
  method JoinRegions(raw: map<string, Frame>, regions: seq<string>, ghost copies: seq<Frame>, seed: Frame)
    returns (sided: Frame)
    requires |copies| == |regions| && Joinable([seed] + copies)
    requires forall k :: 0 <= k < |regions| ==> UnitData(raw, regions[k])
    requires forall k {:trigger RegionUnit(raw, regions[k])} :: 0 <= k < |regions| ==>
      copies[k] == RegionUnit(raw, regions[k])
    ensures sided == FoldJoin([seed] + copies)
  {
    ghost var units := [seed] + copies;
    sided := seed;
    FoldPrefixFirst(units);
    var i := 0;
    while i < |regions|
      invariant 0 <= i <= |regions|
      invariant sided == FoldPrefix(units, i + 1)
    {
      var region := NextRegion(raw, regions, copies, i);
      assert units[i + 1] == region;
      sided := JoinNext(units, i + 1, sided, region);
      i := i + 1;
    }
    FoldPrefixAll(units, i + 1, sided);
  }

  /** The regional reshaping over `regions` (ITALIAN_REGIONS): Lombardia
      corrected, derived and renamed first, seeding the accumulator; then
      each other region, in order, gets the same derived columns and
      renaming (without correction) and is inner-joined onto it. */
  method RegionFold(raw: map<string, Frame>, regions: seq<string>) returns (sided: Frame)
    requires RegionData(raw, regions)
    ensures sided == RegionsSided(raw, regions)
  {
    RegionCopiesAt(raw, regions);
    RegionUnitsJoinable(raw, regions);
    var lombardia := LombardiaSeed(raw);
    sided := JoinRegions(raw, regions, RegionCopies(raw, regions), lombardia);
  }

  // ---------------------------------------------------------------------------
  // What the regional table holds

  /** After both derivation steps a table holds its own columns plus the
      eight growth columns and the four trailing means; its own columns,
      other than those twelve names, are untouched. */
  lemma ProcessedColumns(f: Frame, c: string)
    requires WellFormed(f) && HasGrowthFields(f)
    ensures var g := Processed(f).data;
      && (c in g <==> c in f.data || c in GrowthNames || c in RaNames)
      && (c in f.data && c !in GrowthNames && c !in RaNames ==> g[c] == f.data[c])
  {
    DeltaAndGrowthTable(f, c);
    DeltaAndGrowthTable(f, "totale_casi");
    DeltaAndGrowthTable(f, "totale_casi_DELTA");
    RaAndPercColumns(DeltaAndGrowth(f), c);
  }

  /** The kept raw fields are none of the derived names. */
  lemma InterestingFieldsUnwritten(c: string)
    requires c in InterestingFields
    ensures c !in GrowthNames && c !in RaNames
  {
    RaNamesSpelled();
  }

  /** Copy k of the other regions has the dates of that region's rows. */
  lemma RegionCopiesIndex(raw: map<string, Frame>, regions: seq<string>)
    requires forall k :: 0 <= k < |regions| ==> UnitData(raw, regions[k])
    ensures forall k :: 0 <= k < |regions| ==> RegionCopies(raw, regions)[k].index == raw[regions[k]].index
  {
  }

  /** The regional table has a row for a date exactly when Lombardia and
      every other region report that date: the inner joins keep the
      intersection of the regions' dates. */
  lemma RegionsSidedDates(raw: map<string, Frame>, regions: seq<string>, d: Date)
    requires RegionData(raw, regions)
    ensures d in RegionsSided(raw, regions).index <==>
      d in raw["Lombardia"].index && forall k :: 0 <= k < |regions| ==> d in raw[regions[k]].index
  {
    RegionUnitsJoinable(raw, regions);
    FoldJoinConsDates(LombardiaUnit(raw), RegionCopies(raw, regions), d);
    RegionCopiesIndex(raw, regions);
  }

  /** Lombardia's kept field c, renamed c_Lombardia, is the column of the
      corrected copy. */
  lemma LombardiaUnitColumn(raw: map<string, Frame>, c: string)
    requires LombardiaData(raw) && c in InterestingFields
    ensures var u := LombardiaUnit(raw);
      Suffixed(c, "Lombardia") in u.data && u.data[Suffixed(c, "Lombardia")] == LombardiaInput(raw).data[c]
  {
    InterestingFieldsUnwritten(c);
    ProcessedColumns(LombardiaInput(raw), c);
  }

  /** Another region's kept field c, renamed c_r, is the region's own raw
      column. */
  lemma RegionUnitColumn(raw: map<string, Frame>, r: string, c: string)
    requires UnitData(raw, r) && c in InterestingFields
    ensures var u := RegionUnit(raw, r);
      c + "_" + r in u.data && u.data[c + "_" + r] == raw[r].data[c]
  {
    InterestingFieldsUnwritten(c);
    ProcessedColumns(RegionInput(raw, r), c);
  }

  /** In the regional table, Lombardia's kept fields hold the corrected
      cells of 2020-03-10 (totale_casi 6391, totale_attualmente_positivi
      5027, nuovi_attualmente_positivi 537) and of 2020-03-11
      (nuovi_attualmente_positivi 736), and Lombardia's own value on every
      other row. */
  lemma RegionsSidedLombardia(raw: map<string, Frame>, regions: seq<string>, c: string, i: nat)
    requires RegionData(raw, regions) && c in InterestingFields
    requires i < |RegionsSided(raw, regions).index|
    ensures var s, lo := RegionsSided(raw, regions), raw["Lombardia"];
      var d := s.index[i];
      && d in lo.index && Suffixed(c, "Lombardia") in s.data
      && s.data[Suffixed(c, "Lombardia")][i] ==
           if d == Etl.ErrDate && c == "totale_casi" then Some(6391.0)
           else if d == Etl.ErrDate && c == "totale_attualmente_positivi" then Some(5027.0)
           else if d == Etl.ErrDate && c == "nuovi_attualmente_positivi" then Some(537.0)
           else if d == Etl.ErrDateP1 && c == "nuovi_attualmente_positivi" then Some(736.0)
           else lo.data[c][Position(lo.index, d)]
  {
    var u := LombardiaUnit(raw);
    RegionUnitsJoinable(raw, regions);
    FoldJoinSeedCell(u, RegionCopies(raw, regions), Suffixed(c, "Lombardia"), i);
    var p := Position(raw["Lombardia"].index, RegionsSided(raw, regions).index[i]);
    LombardiaUnitColumn(raw, c);
    LombardiaFixCells(RegionInput(raw, "Lombardia"), c, p);
  }

  /** In the regional table, every other region's kept fields hold the
      region's own values: the correction is applied to Lombardia only. */
  lemma RegionsSidedOther(raw: map<string, Frame>, regions: seq<string>, k: nat, c: string, i: nat)
    requires RegionData(raw, regions) && k < |regions| && c in InterestingFields
    requires i < |RegionsSided(raw, regions).index|
    ensures var s, rk := RegionsSided(raw, regions), raw[regions[k]];
      var d := s.index[i];
      && d in rk.index && c + "_" + regions[k] in s.data
      && s.data[c + "_" + regions[k]][i] == rk.data[c][Position(rk.index, d)]
  {
    var copies := RegionCopies(raw, regions);
    RegionUnitsJoinable(raw, regions);
    RegionCopiesAt(raw, regions);
    assert copies[k] == RegionUnit(raw, regions[k]);
    RegionUnitColumn(raw, regions[k], c);
    FoldJoinRestCell(LombardiaUnit(raw), copies, k, c + "_" + regions[k], i);
  }
}
