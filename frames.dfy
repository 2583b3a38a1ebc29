/** A pandas DataFrame indexed by date, as the pipeline uses one: a date index
    (unique and ascending), the column names in order, and each column's cells.
    `Frame` is the value of a table; `DataFrame` is the mutable object that the
    pipeline's functions change in place. */
module Frames {
  import opened Calendar
  import opened Series
  import opened Text

  datatype Frame = Frame(index: seq<Date>, columns: seq<string>, data: map<string, Column>)

  predicate Ascending(index: seq<Date>) {
    forall i, j :: 0 <= i < j < |index| ==> Before(index[i], index[j])
  }

  predicate Distinct<T(==)>(xs: seq<T>) {
    forall i, j :: 0 <= i < j < |xs| ==> xs[i] != xs[j]
  }

  lemma DistinctAppend<T>(a: seq<T>, b: seq<T>)
    requires Distinct(a) && Distinct(b)
    requires forall i, j :: 0 <= i < |a| && 0 <= j < |b| ==> a[i] != b[j]
    ensures Distinct(a + b)
  {
  }

  /** The table invariant: unique ascending dates, unique column names that
      are exactly the keys of the data, every column one cell per date. */
  predicate WellFormed(f: Frame) {
    && Ascending(f.index)
    && Distinct(f.columns)
    && (forall c :: c in f.columns ==> c in f.data)
    && (forall c :: c in f.data ==> c in f.columns)
    && (forall c :: c in f.data ==> |f.data[c]| == |f.index|)
  }

  predicate HasColumns(f: Frame, names: seq<string>) {
    forall c :: c in names ==> c in f.data
  }

  /** The row of a date in the index. */
  function Position(index: seq<Date>, d: Date): (k: nat)
    requires d in index
    ensures k < |index| && index[k] == d
  {
    if index[0] == d then 0 else 1 + Position(index[1..], d)
  }

  /** How many leading rows fall strictly before d: the rows the mask
      `index < d` selects when the index is ascending. */
  function RowsBefore(index: seq<Date>, d: Date): (k: nat)
    ensures k <= |index|
  {
    if index == [] || !Before(index[0], d) then 0 else 1 + RowsBefore(index[1..], d)
  }

  /** On an ascending index the mask `index < d` is a prefix of the rows. */
  lemma {:induction false} RowsBeforeIsPrefix(index: seq<Date>, d: Date, i: nat)
    requires Ascending(index) && i < |index|
    ensures Before(index[i], d) <==> i < RowsBefore(index, d)
  {
    if !Before(index[0], d) {
      if i > 0 && Before(index[i], d) {
        BeforeTransitive(index[0], index[i], d);
      }
    } else if i > 0 {
      RowsBeforeIsPrefix(index[1..], d, i - 1);
    }
  }

  /** In an ascending index a date has exactly one row. */
  lemma PositionUnique(index: seq<Date>, j: nat)
    requires Ascending(index) && j < |index|
    ensures Position(index, index[j]) == j
  {
  }

  // ---------------------------------------------------------------------------
  // Column assignment: `ds[name] = col`

  /** The column list after `ds[name] = ...`: unchanged when the name is
      already a column, else the name is appended. */
  function AppendAbsent(columns: seq<string>, name: string): (r: seq<string>)
  {
    if columns == [] then [name]
    else if columns[0] == name then columns
    else [columns[0]] + AppendAbsent(columns[1..], name)
  }

  lemma {:induction false} AppendAbsentIs(columns: seq<string>, name: string)
    ensures AppendAbsent(columns, name) == if name in columns then columns else columns + [name]
  {
    if columns != [] && columns[0] != name {
      AppendAbsentIs(columns[1..], name);
      assert name in columns <==> name in columns[1..];
    }
  }

  /** `ds[name].diff()`: the day-over-day change of one column of the
      table. */
  function FieldDiff(f: Frame, name: string): (r: Column)
    requires name in f.data && |f.data[name]| == |f.index|
    ensures |r| == |f.index|
  {
    Diff(f.data[name])
  }

  /** `ds[name] = col`: overwrite the column if it exists, else append it. */
  function With(f: Frame, name: string, col: Column): (r: Frame)
    requires |col| == |f.index|
    ensures r.index == f.index && r.data == f.data[name := col]
  {
    Frame(f.index, AppendAbsent(f.columns, name), f.data[name := col])
  }

  lemma WithWellFormed(f: Frame, name: string, col: Column)
    requires WellFormed(f) && |col| == |f.index|
    ensures WellFormed(With(f, name, col))
    ensures With(f, name, col).columns == if name in f.data then f.columns else f.columns + [name]
  {
    AppendAbsentIs(f.columns, name);
  }

  // ---------------------------------------------------------------------------
  // Cell writes and the correction registry: `ds.loc[date, field] = value`

  /** One hand-curated override of a (date, field) cell. */
  datatype Correction = Correction(date: Date, field: string, value: real)

  /** `ds.loc[c.date, c.field] = c.value` for a date already in the index: the
      cell is overwritten; a field not yet in the table becomes a new column
      that is NaN on every other row. */
  function SetCellValue(f: Frame, c: Correction): (r: Frame)
    requires WellFormed(f) && c.date in f.index
    ensures WellFormed(r) && r.index == f.index
  {
    var k := Position(f.index, c.date);
    var col := if c.field in f.data then f.data[c.field] else Constant(|f.index|, None);
    WithWellFormed(f, c.field, col[k := Some(c.value)]);
    With(f, c.field, col[k := Some(c.value)])
  }

  /** A cell write into an existing column leaves the column list alone. */
  lemma SetCellValueColumns(f: Frame, c: Correction)
    requires WellFormed(f) && c.date in f.index && c.field in f.data
    ensures SetCellValue(f, c).columns == f.columns && SetCellValue(f, c).data.Keys == f.data.Keys
  {
    var k := Position(f.index, c.date);
    WithWellFormed(f, c.field, f.data[c.field][k := Some(c.value)]);
  }

  predicate DatesIn(cs: seq<Correction>, index: seq<Date>) {
    forall i :: 0 <= i < |cs| ==> cs[i].date in index
  }

  lemma ApplyCorrectionsSnoc(f: Frame, cs: seq<Correction>, k: nat)
    requires WellFormed(f) && DatesIn(cs, f.index) && k < |cs|
    ensures DatesIn(cs[..k], f.index) && DatesIn(cs[..k + 1], f.index)
    ensures ApplyCorrections(f, cs[..k + 1]) == SetCellValue(ApplyCorrections(f, cs[..k]), cs[k])
  {
    assert cs[..k + 1][..k] == cs[..k];
  }

  /** A four-entry registry is four cell writes in a row. */
  lemma ApplyFourCorrections(f: Frame, cs: seq<Correction>)
    requires WellFormed(f) && |cs| == 4 && DatesIn(cs, f.index)
    ensures ApplyCorrections(f, cs) ==
      SetCellValue(SetCellValue(SetCellValue(SetCellValue(f, cs[0]), cs[1]), cs[2]), cs[3])
  {
    assert cs[..0] == [] && cs[..4] == cs;
    ApplyCorrectionsSnoc(f, cs, 0);
    ApplyCorrectionsSnoc(f, cs, 1);
    ApplyCorrectionsSnoc(f, cs, 2);
    ApplyCorrectionsSnoc(f, cs, 3);
  }

  /** The registry's entries applied one after the other. Overwriting cells
      never changes the date index, and keeps the table invariant. */
  function ApplyCorrections(f: Frame, cs: seq<Correction>): (r: Frame)
    requires WellFormed(f) && DatesIn(cs, f.index)
    ensures WellFormed(r) && r.index == f.index
  {
    if cs == [] then f
    else
      SetCellValue(ApplyCorrections(f, cs[..|cs| - 1]), cs[|cs| - 1])
  }

  /** Whether some entry writes the cell (d, name). */
  predicate Written(cs: seq<Correction>, d: Date, name: string) {
    exists i :: 0 <= i < |cs| && cs[i].date == d && cs[i].field == name
  }

  /** The value of the last entry that writes the cell (d, name). */
  function LastWrite(cs: seq<Correction>, d: Date, name: string): real
    requires Written(cs, d, name)
  {
    var e := cs[|cs| - 1];
    if e.date == d && e.field == name then e.value
    else
      assert Written(cs[..|cs| - 1], d, name) by {
        var i :| 0 <= i < |cs| && cs[i].date == d && cs[i].field == name;
        assert cs[..|cs| - 1][i] == cs[i];
      }
      LastWrite(cs[..|cs| - 1], d, name)
  }

  predicate Field(cs: seq<Correction>, name: string) {
    exists i :: 0 <= i < |cs| && cs[i].field == name
  }

  lemma WrittenSnoc(cs: seq<Correction>, d: Date, name: string)
    requires cs != []
    ensures Written(cs, d, name) <==>
              Written(cs[..|cs| - 1], d, name) || (cs[|cs| - 1].date == d && cs[|cs| - 1].field == name)
  {
    var cs' := cs[..|cs| - 1];
    if Written(cs', d, name) {
      var i :| 0 <= i < |cs'| && cs'[i].date == d && cs'[i].field == name;
      assert cs[i] == cs'[i];
    }
    if Written(cs, d, name) && !(cs[|cs| - 1].date == d && cs[|cs| - 1].field == name) {
      var i :| 0 <= i < |cs| && cs[i].date == d && cs[i].field == name;
      assert cs'[i] == cs[i];
    }
  }

  lemma FieldSnoc(cs: seq<Correction>, name: string)
    requires cs != []
    ensures Field(cs, name) <==> Field(cs[..|cs| - 1], name) || cs[|cs| - 1].field == name
  {
    var cs' := cs[..|cs| - 1];
    if Field(cs', name) {
      var i :| 0 <= i < |cs'| && cs'[i].field == name;
      assert cs[i] == cs'[i];
    }
    if Field(cs, name) && cs[|cs| - 1].field != name {
      var i :| 0 <= i < |cs| && cs[i].field == name;
      assert cs'[i] == cs[i];
    }
  }

  /** One cell write: the written cell takes the value, every other cell of
      the table keeps its value, and a new column is NaN elsewhere. */
  lemma SetCellValueCell(g: Frame, e: Correction, name: string, k: nat)
    requires WellFormed(g) && e.date in g.index && k < |g.index|
    ensures var h := SetCellValue(g, e);
      && (name in h.data <==> name in g.data || e.field == name)
      && (name in h.data ==>
            h.data[name][k] ==
              if e.date == g.index[k] && e.field == name then Some(e.value)
              else if name in g.data then g.data[name][k]
              else None)
  {
    var p := Position(g.index, e.date);
    PositionUnique(g.index, k);
    PositionUnique(g.index, p);
  }

  /** Exactly the registry's cells change: a written cell holds the value of
      the last entry for it; every other cell keeps its value (or is NaN in a
      column the registry created); the registry adds only its own fields. */
  lemma {:induction false} CorrectionCells(f: Frame, cs: seq<Correction>, name: string, k: nat)
    requires WellFormed(f) && DatesIn(cs, f.index) && k < |f.index|
    ensures var g := ApplyCorrections(f, cs);
      && (name in g.data <==> name in f.data || Field(cs, name))
      && (name in g.data ==>
            g.data[name][k] ==
              if Written(cs, f.index[k], name) then Some(LastWrite(cs, f.index[k], name))
              else if name in f.data then f.data[name][k]
              else None)
  {
    if cs != [] {
      var cs' := cs[..|cs| - 1];
      var e := cs[|cs| - 1];
      assert DatesIn(cs', f.index);
      CorrectionCells(f, cs', name, k);
      WrittenSnoc(cs, f.index[k], name);
      FieldSnoc(cs, name);
      var g := ApplyCorrections(f, cs');
      assert ApplyCorrections(f, cs) == SetCellValue(g, e);
      SetCellValueCell(g, e, name, k);
    }
  }

  /** A registry touches no column it does not name, and leaves the column
      order alone when all its fields already exist. */
  lemma {:induction false} CorrectionColumns(f: Frame, cs: seq<Correction>)
    requires WellFormed(f) && DatesIn(cs, f.index)
    requires forall i :: 0 <= i < |cs| ==> cs[i].field in f.data
    ensures ApplyCorrections(f, cs).columns == f.columns
    ensures ApplyCorrections(f, cs).data.Keys == f.data.Keys
  {
    if cs != [] {
      var g := ApplyCorrections(f, cs[..|cs| - 1]);
      CorrectionColumns(f, cs[..|cs| - 1]);
      SetCellValueColumns(g, cs[|cs| - 1]);
    }
  }

  /** A registry only ever adds columns. */
  lemma CorrectionsKeepColumns(f: Frame, cs: seq<Correction>)
    requires WellFormed(f) && DatesIn(cs, f.index)
    ensures f.data.Keys <= ApplyCorrections(f, cs).data.Keys
  {
    if f.index != [] {
      forall name | name in f.data
        ensures name in ApplyCorrections(f, cs).data
      {
        CorrectionCells(f, cs, name, 0);
      }
    }
  }

  lemma SameCells(a: Column, b: Column)
    requires |a| == |b| && forall k :: 0 <= k < |a| ==> a[k] == b[k]
    ensures a == b
  {
  }

  /** Re-applying a registry leaves each cell of a corrected table as it is. */
  lemma ReapplyCell(f: Frame, cs: seq<Correction>, name: string, k: nat)
    requires WellFormed(f) && DatesIn(cs, f.index) && k < |f.index|
    requires name in ApplyCorrections(f, cs).data
    ensures var g := ApplyCorrections(f, cs);
      name in ApplyCorrections(g, cs).data && ApplyCorrections(g, cs).data[name][k] == g.data[name][k]
  {
    var g := ApplyCorrections(f, cs);
    CorrectionCells(g, cs, name, k);
    CorrectionCells(f, cs, name, k);
  }

  /** Re-applying a registry leaves each column of a corrected table as it is. */
  lemma ReapplyColumn(f: Frame, cs: seq<Correction>, name: string)
    requires WellFormed(f) && DatesIn(cs, f.index)
    requires name in ApplyCorrections(f, cs).data
    requires name in ApplyCorrections(ApplyCorrections(f, cs), cs).data
    ensures var g := ApplyCorrections(f, cs);
      ApplyCorrections(g, cs).data[name] == g.data[name]
  {
    var g := ApplyCorrections(f, cs);
    var h := ApplyCorrections(g, cs);
    var a, b := h.data[name], g.data[name];
    assert |a| == |h.index| == |g.index| == |b|;
    forall k | 0 <= k < |g.index|
      ensures a[k] == b[k]
    {
      ReapplyCell(f, cs, name, k);
    }
    SameCells(a, b);
  }

  /** Every field a registry names is a column of the corrected table, so
      applying it again keeps the columns. */
  lemma ReapplyColumns(f: Frame, cs: seq<Correction>)
    requires WellFormed(f) && DatesIn(cs, f.index)
    ensures var g := ApplyCorrections(f, cs);
      && ApplyCorrections(g, cs).columns == g.columns
      && ApplyCorrections(g, cs).data.Keys == g.data.Keys
  {
    var g := ApplyCorrections(f, cs);
    forall i | 0 <= i < |cs|
      ensures cs[i].field in g.data
    {
      CorrectionCells(f, cs, cs[i].field, Position(f.index, cs[i].date));
    }
    CorrectionColumns(g, cs);
  }

  /** Corrections overwrite and never accumulate: applying a registry twice
      gives the same table as applying it once. */
  lemma CorrectionsIdempotent(f: Frame, cs: seq<Correction>)
    requires WellFormed(f) && DatesIn(cs, f.index)
    ensures ApplyCorrections(ApplyCorrections(f, cs), cs) == ApplyCorrections(f, cs)
  {
    var g := ApplyCorrections(f, cs);
    var h := ApplyCorrections(g, cs);
    ReapplyColumns(f, cs);
    forall name | name in g.data
      ensures h.data[name] == g.data[name]
    {
      ReapplyColumn(f, cs, name);
    }
    assert h.data == g.data;
  }

  // ---------------------------------------------------------------------------
  // Projection: `ds.loc[:, fields].copy()`

  function Select(f: Frame, fields: seq<string>): (r: Frame)
    requires WellFormed(f) && HasColumns(f, fields) && Distinct(fields)
    ensures WellFormed(r) && r.index == f.index && r.columns == fields
    ensures forall c :: c in fields ==> r.data[c] == f.data[c]
  {
    Frame(f.index, fields, map c | c in fields :: f.data[c])
  }

  // ---------------------------------------------------------------------------
  // Renaming: `ds.rename(columns=m)`

  function NewName(m: map<string, string>, c: string): string {
    if c in m then m[c] else c
  }

  predicate InjectiveOn(m: map<string, string>, keys: set<string>) {
    forall c1, c2 :: c1 in keys && c2 in keys && NewName(m, c1) == NewName(m, c2) ==> c1 == c2
  }

  /** Every column c becomes m[c] (when mapped); the data move with the name. */
  function Renamed(f: Frame, m: map<string, string>): Frame
    requires InjectiveOn(m, f.data.Keys)
  {
    Frame(f.index,
          seq(|f.columns|, i requires 0 <= i < |f.columns| => NewName(m, f.columns[i])),
          map c | c in f.data :: NewName(m, c) := f.data[c])
  }

  /** Renaming keeps the table invariant and the index, and each column's
      data now sits under its new name. */
  lemma RenamedProperties(f: Frame, m: map<string, string>)
    requires WellFormed(f) && InjectiveOn(m, f.data.Keys)
    ensures var r := Renamed(f, m);
      && WellFormed(r) && r.index == f.index
      && (forall c :: c in f.data ==> NewName(m, c) in r.data && r.data[NewName(m, c)] == f.data[c])
      && (forall k :: k in r.data ==> exists c :: c in f.data && k == NewName(m, c))
  {
    var r := Renamed(f, m);
    forall c | c in f.data
      ensures NewName(m, c) in r.data && r.data[NewName(m, c)] == f.data[c]
    {
    }
    forall k | k in r.columns
      ensures k in r.data
    {
      var i :| 0 <= i < |r.columns| && r.columns[i] == k;
      assert f.columns[i] in f.data;
    }
    forall k | k in r.data
      ensures k in r.columns
    {
      var c :| c in f.data && NewName(m, c) == k;
      var i :| 0 <= i < |f.columns| && f.columns[i] == c;
      assert r.columns[i] == k;
    }
    forall i, j | 0 <= i < j < |r.columns|
      ensures r.columns[i] != r.columns[j]
    {
      assert f.columns[i] in f.data && f.columns[j] in f.data;
    }
  }

  /** `{c: c + '_' + unit for c in columns}`. */
  function SuffixMapping(columns: seq<string>, unit: string): map<string, string> {
    map c | c in columns :: Suffixed(c, unit)
  }

  /** Appending the same suffix never merges two columns. */
  lemma SuffixMappingInjective(f: Frame, unit: string)
    requires WellFormed(f)
    ensures InjectiveOn(SuffixMapping(f.columns, unit), f.data.Keys)
  {
    var m := SuffixMapping(f.columns, unit);
    forall c1, c2 | c1 in f.data && c2 in f.data && NewName(m, c1) == NewName(m, c2)
      ensures c1 == c2
    {
      assert c1 + "_" + unit == c2 + "_" + unit;
      assert c1 == (c1 + "_" + unit)[..|c1|];
      assert |c1| == |c2|;
      assert c2 == (c2 + "_" + unit)[..|c2|];
    }
  }

  /** A per-unit copy renamed with its unit's suffix. */
  function RenamedForUnit(f: Frame, unit: string): (r: Frame)
    requires WellFormed(f)
    ensures WellFormed(r) && r.index == f.index
    ensures forall c :: c in f.data ==> Suffixed(c, unit) in r.data && r.data[Suffixed(c, unit)] == f.data[c]
    ensures forall k :: k in r.data ==> exists c :: c in f.data && k == Suffixed(c, unit)
  {
    SuffixMappingInjective(f, unit);
    var m := SuffixMapping(f.columns, unit);
    assert forall c :: c in f.data ==> NewName(m, c) == Suffixed(c, unit);
    RenamedProperties(f, m);
    Renamed(f, m)
  }

  /** Every column name of f ends in `_unit`: the text after its last
      underscore is the unit. */
  predicate TaggedWith(f: Frame, unit: string) {
    forall k :: k in f.data ==> AfterLastUnderscore(k) == unit
  }

  /** A renamed copy carries its unit's tag when the unit name holds no
      underscore. */
  lemma RenamedTagged(f: Frame, unit: string)
    requires WellFormed(f) && '_' !in unit
    ensures TaggedWith(RenamedForUnit(f, unit), unit)
  {
    var r := RenamedForUnit(f, unit);
    forall k | k in r.data
      ensures AfterLastUnderscore(k) == unit
    {
      var c :| c in f.data && k == Suffixed(c, unit);
      AfterLastUnderscoreOfSuffixed(c, unit);
    }
  }

  /** Tables tagged with pairwise different units share no column. */
  lemma TaggedDisjoint(fs: seq<Frame>, units: seq<string>)
    requires |fs| == |units| && Distinct(units)
    requires forall k :: 0 <= k < |fs| ==> TaggedWith(fs[k], units[k])
    ensures PairwiseDisjoint(fs)
  {
    forall i, j | 0 <= i < j < |fs|
      ensures fs[i].data.Keys !! fs[j].data.Keys
    {
      assert TaggedWith(fs[i], units[i]) && TaggedWith(fs[j], units[j]);
    }
  }

  /** Proper tables tagged with pairwise different units can be joined. */
  lemma TaggedJoinable(fs: seq<Frame>, units: seq<string>)
    requires |fs| == |units| >= 1 && Distinct(units)
    requires forall k :: 0 <= k < |fs| ==> WellFormed(fs[k]) && TaggedWith(fs[k], units[k])
    ensures Joinable(fs)
  {
    TaggedDisjoint(fs, units);
  }

  /** The same with the first table given apart from the rest. */
  lemma TaggedJoinableCons(first: Frame, unit: string, rest: seq<Frame>, units: seq<string>)
    requires WellFormed(first) && TaggedWith(first, unit)
    requires |rest| == |units| && Distinct([unit] + units)
    requires forall k :: 0 <= k < |rest| ==> WellFormed(rest[k]) && TaggedWith(rest[k], units[k])
    ensures Joinable([first] + rest)
  {
    var fs, us := [first] + rest, [unit] + units;
    forall k | 0 <= k < |fs|
      ensures WellFormed(fs[k]) && TaggedWith(fs[k], us[k])
    {
      if k > 0 {
        assert fs[k] == rest[k - 1] && us[k] == units[k - 1];
      }
    }
    TaggedJoinable(fs, us);
  }

  /** Two units' renamed columns never clash when the unit names differ and
      contain no underscore. */
  lemma RenamedDisjoint(f: Frame, u: string, g: Frame, v: string)
    requires WellFormed(f) && WellFormed(g)
    requires u != v && '_' !in u && '_' !in v
    ensures RenamedForUnit(f, u).data.Keys !! RenamedForUnit(g, v).data.Keys
  {
    var a := RenamedForUnit(f, u);
    var b := RenamedForUnit(g, v);
    forall k | k in a.data
      ensures k !in b.data
    {
      var c1 :| c1 in f.data && k == Suffixed(c1, u);
      AfterLastUnderscoreOfSuffixed(c1, u);
      forall c2 | c2 in g.data
        ensures k != Suffixed(c2, v)
      {
        AfterLastUnderscoreOfSuffixed(c2, v);
      }
    }
  }

  // ---------------------------------------------------------------------------
  // Inner join on the date key: `pd.merge(left=a, right=b, on='data')`

  /** The entries of xs (aligned with index) whose date is also in other, in
      their original order. */
  function Keep<T>(index: seq<Date>, xs: seq<T>, other: seq<Date>): (r: seq<T>)
    requires |xs| == |index|
    ensures |r| <= |xs|
  {
    if index == [] then []
    else
      Keep(index[..|index| - 1], xs[..|xs| - 1], other)
      + (if index[|index| - 1] in other then [xs[|xs| - 1]] else [])
  }

  /** The dates kept are exactly the common ones, still ascending. */
  lemma {:induction false} KeepDates(index: seq<Date>, other: seq<Date>)
    requires Ascending(index)
    ensures Ascending(Keep(index, index, other))
    ensures forall d :: d in Keep(index, index, other) <==> d in index && d in other
  {
    if index != [] {
      var p := index[..|index| - 1];
      KeepDates(p, other);
      var kp := Keep(p, p, other);
      var last := index[|index| - 1];
      forall i | 0 <= i < |kp|
        ensures Before(kp[i], last)
      {
        assert kp[i] in p;
      }
      forall d | d in index
        ensures d in p || d == last
      {
        var i :| 0 <= i < |index| && index[i] == d;
        if i < |index| - 1 {
          assert p[i] == d;
        }
      }
    }
  }

  /** Dropping, from the other index, a date that the index does not hold
      changes nothing. */
  lemma {:induction false} KeepIgnoresAbsent<T>(index: seq<Date>, xs: seq<T>, other: seq<Date>)
    requires |xs| == |index| && other != [] && other[|other| - 1] !in index
    ensures Keep(index, xs, other) == Keep(index, xs, other[..|other| - 1])
  {
    if index != [] {
      var p := index[..|index| - 1];
      assert other[|other| - 1] !in p;
      KeepIgnoresAbsent(p, xs[..|xs| - 1], other);
      var last := index[|index| - 1];
      assert last in other <==> last in other[..|other| - 1] by {
        if last in other {
          var i :| 0 <= i < |other| && other[i] == last;
          assert i < |other| - 1;
          assert other[..|other| - 1][i] == last;
        }
      }
    }
  }

  /** Nothing is kept when no date is shared. */
  lemma {:induction false} KeepNothing<T>(index: seq<Date>, xs: seq<T>, other: seq<Date>)
    requires |xs| == |index| && forall i :: 0 <= i < |index| ==> index[i] !in other
    ensures Keep(index, xs, other) == []
  {
    if index != [] {
      KeepNothing(index[..|index| - 1], xs[..|xs| - 1], other);
    }
  }

  /** Filtering a by b and b by a give the same dates: both are the
      ascending intersection. */
  lemma {:induction false} KeepSymmetric(a: seq<Date>, b: seq<Date>)
    requires Ascending(a) && Ascending(b)
    ensures Keep(a, a, b) == Keep(b, b, a)
    decreases |a| + |b|
  {
    if a == [] {
      KeepNothing(b, b, a);
    } else if b == [] {
      KeepNothing(a, a, b);
    } else {
      var a', b' := a[..|a| - 1], b[..|b| - 1];
      var x, y := a[|a| - 1], b[|b| - 1];
      assert forall d :: d in a' ==> Before(d, x) by {
        forall d | d in a' ensures Before(d, x) {
          var i :| 0 <= i < |a'| && a'[i] == d;
        }
      }
      assert forall d :: d in b' ==> Before(d, y) by {
        forall d | d in b' ensures Before(d, y) {
          var i :| 0 <= i < |b'| && b'[i] == d;
        }
      }
      if x == y {
        KeepIgnoresAbsent(a', a', b);
        KeepIgnoresAbsent(b', b', a);
        KeepSymmetric(a', b');
      } else if Before(x, y) {
        assert y !in a by {
          forall d | d in a ensures d == x || Before(d, x) {
            var i :| 0 <= i < |a| && a[i] == d;
            if i < |a| - 1 { assert a'[i] == d; }
          }
        }
        KeepIgnoresAbsent(a, a, b);
        KeepSymmetric(a, b');
      } else {
        assert x !in b by {
          forall d | d in b ensures d == y || Before(d, y) {
            var i :| 0 <= i < |b| && b[i] == d;
            if i < |b| - 1 { assert b'[i] == d; }
          }
        }
        KeepIgnoresAbsent(b, b, a);
        KeepSymmetric(a', b);
      }
    }
  }

  /** Each kept entry comes from the row of the same date. */
  lemma {:induction false} KeepSource<T>(index: seq<Date>, xs: seq<T>, other: seq<Date>, k: nat) returns (j: nat)
    requires |xs| == |index| && k < |Keep(index, xs, other)|
    ensures |Keep(index, index, other)| == |Keep(index, xs, other)|
    ensures j < |index| && index[j] in other
    ensures index[j] == Keep(index, index, other)[k] && xs[j] == Keep(index, xs, other)[k]
  {
    var p, q := index[..|index| - 1], xs[..|xs| - 1];
    KeepLength(p, q, other);
    if k < |Keep(p, q, other)| {
      j := KeepSource(p, q, other, k);
    } else {
      j := |index| - 1;
    }
  }

  lemma {:induction false} KeepLength<T>(index: seq<Date>, xs: seq<T>, other: seq<Date>)
    requires |xs| == |index|
    ensures |Keep(index, index, other)| == |Keep(index, xs, other)|
  {
    if index != [] {
      KeepLength(index[..|index| - 1], xs[..|xs| - 1], other);
    }
  }

  /** The inner join: the dates of a that b also has (in a's order), the
      columns of a then those of b, each cut down to the common dates. */
  function InnerJoin(a: Frame, b: Frame): (r: Frame)
    requires WellFormed(a) && WellFormed(b) && a.data.Keys !! b.data.Keys
    ensures WellFormed(r)
    ensures forall d :: d in r.index <==> d in a.index && d in b.index
    ensures r.data.Keys == a.data.Keys + b.data.Keys
  {
    var index := Keep(a.index, a.index, b.index);
    KeepDates(a.index, b.index);
    KeepSymmetric(a.index, b.index);
    var data := map c | c in a.data.Keys + b.data.Keys ::
      if c in a.data then Keep(a.index, a.data[c], b.index) else Keep(b.index, b.data[c], a.index);
    assert forall c :: c in data ==> |data[c]| == |index| by {
      forall c | c in data ensures |data[c]| == |index| {
        if c in a.data { KeepLength(a.index, a.data[c], b.index); }
        else { KeepLength(b.index, b.data[c], a.index); }
      }
    }
    assert Distinct(a.columns + b.columns) by {
      forall i, j | 0 <= i < j < |a.columns + b.columns|
        ensures (a.columns + b.columns)[i] != (a.columns + b.columns)[j]
      {
        if i < |a.columns| <= j {
          assert a.columns[i] in a.data && b.columns[j - |a.columns|] in b.data;
        }
      }
    }
    Frame(index, a.columns + b.columns, data)
  }

  /** Each row of the join carries, in every column, the value that column's
      own table holds for the same date. */
  lemma JoinRow(a: Frame, b: Frame, k: nat, c: string)
    requires WellFormed(a) && WellFormed(b) && a.data.Keys !! b.data.Keys
    requires k < |InnerJoin(a, b).index| && c in a.data.Keys + b.data.Keys
    ensures var r := InnerJoin(a, b);
      var src := if c in a.data then a else b;
      r.index[k] in src.index &&
      r.data[c][k] == src.data[c][Position(src.index, r.index[k])]
  {
    var r := InnerJoin(a, b);
    KeepSymmetric(a.index, b.index);
    if c in a.data {
      var j := KeepSource(a.index, a.data[c], b.index, k);
      PositionUnique(a.index, j);
    } else {
      var j := KeepSource(b.index, b.data[c], a.index, k);
      PositionUnique(b.index, j);
    }
  }

  /** Left fold of inner joins over a list of per-unit tables: the first one
      seeds the accumulator, every later one is joined onto it. */
  predicate PairwiseDisjoint(fs: seq<Frame>) {
    forall i, j :: 0 <= i < j < |fs| ==> fs[i].data.Keys !! fs[j].data.Keys
  }

  function AllKeys(fs: seq<Frame>): set<string> {
    if fs == [] then {} else AllKeys(fs[..|fs| - 1]) + fs[|fs| - 1].data.Keys
  }

  lemma {:induction false} AllKeysMember(fs: seq<Frame>, c: string)
    ensures c in AllKeys(fs) <==> exists i :: 0 <= i < |fs| && c in fs[i].data
  {
    if fs != [] {
      AllKeysMember(fs[..|fs| - 1], c);
      if exists i :: 0 <= i < |fs| - 1 && c in fs[i].data {
        var i :| 0 <= i < |fs| - 1 && c in fs[i].data;
        assert c in fs[..|fs| - 1][i].data;
      }
    }
  }

  function FoldJoin(fs: seq<Frame>): (r: Frame)
    requires |fs| >= 1 && PairwiseDisjoint(fs)
    requires forall i :: 0 <= i < |fs| ==> WellFormed(fs[i])
    ensures WellFormed(r) && r.data.Keys == AllKeys(fs)
  {
    if |fs| == 1 then
      assert fs[..0] == [];
      fs[0]
    else
      var acc := FoldJoin(fs[..|fs| - 1]);
      assert acc.data.Keys !! fs[|fs| - 1].data.Keys by {
        forall c | c in acc.data
          ensures c !in fs[|fs| - 1].data
        {
          AllKeysMember(fs[..|fs| - 1], c);
          var i :| 0 <= i < |fs| - 1 && c in fs[..|fs| - 1][i].data;
          assert fs[i].data.Keys !! fs[|fs| - 1].data.Keys;
        }
      }
      InnerJoin(acc, fs[|fs| - 1])
  }

  /** The unit joined last never shares a column with the fold before it. */
  lemma FoldJoinDisjointLast(fs: seq<Frame>)
    requires |fs| >= 2 && PairwiseDisjoint(fs)
    requires forall i :: 0 <= i < |fs| ==> WellFormed(fs[i])
    ensures PairwiseDisjoint(fs[..|fs| - 1])
    ensures FoldJoin(fs[..|fs| - 1]).data.Keys !! fs[|fs| - 1].data.Keys
  {
    var p := fs[..|fs| - 1];
    forall c | c in FoldJoin(p).data
      ensures c !in fs[|fs| - 1].data
    {
      AllKeysMember(p, c);
      var i :| 0 <= i < |p| && c in p[i].data;
      assert fs[i].data.Keys !! fs[|fs| - 1].data.Keys;
    }
  }

  /** Every cell of the folded table is the cell its own unit holds for the
      same date: a join only drops rows, it never moves or mixes values. */
  lemma {:induction false} FoldJoinCell(fs: seq<Frame>, j: nat, c: string, k: nat)
    requires |fs| >= 1 && PairwiseDisjoint(fs)
    requires forall i :: 0 <= i < |fs| ==> WellFormed(fs[i])
    requires j < |fs| && c in fs[j].data && k < |FoldJoin(fs).index|
    ensures var r := FoldJoin(fs);
      && r.index[k] in fs[j].index && c in r.data
      && r.data[c][k] == fs[j].data[c][Position(fs[j].index, r.index[k])]
    decreases |fs|, 1
  {
    if |fs| == 1 {
      PositionUnique(fs[0].index, k);
    } else {
      FoldJoinDisjointLast(fs);
      FoldJoinCellStep(fs, j, c, k);
    }
  }

  /** The inductive step of FoldJoinCell: the last join takes the cell from
      the unit itself, or from the fold so far. */
  lemma {:induction false} FoldJoinCellStep(fs: seq<Frame>, j: nat, c: string, k: nat)
    requires |fs| >= 2 && PairwiseDisjoint(fs) && PairwiseDisjoint(fs[..|fs| - 1])
    requires forall i :: 0 <= i < |fs| ==> WellFormed(fs[i])
    requires FoldJoin(fs[..|fs| - 1]).data.Keys !! fs[|fs| - 1].data.Keys
    requires j < |fs| && c in fs[j].data && k < |FoldJoin(fs).index|
    ensures var r := FoldJoin(fs);
      && r.index[k] in fs[j].index && c in r.data
      && r.data[c][k] == fs[j].data[c][Position(fs[j].index, r.index[k])]
    decreases |fs|, 0
  {
    var p := fs[..|fs| - 1];
    var acc := FoldJoin(p);
    FoldJoinUnfold(fs);
    if j == |fs| - 1 {
      JoinRow(acc, fs[|fs| - 1], k, c);
    } else {
      assert p[j] == fs[j];
      AllKeysMember(p, c);
      JoinRow(acc, fs[|fs| - 1], k, c);
      var k' := Position(acc.index, FoldJoin(fs).index[k]);
      FoldJoinCell(p, j, c, k');
    }
  }

  lemma FoldJoinUnfold(fs: seq<Frame>)
    requires |fs| >= 2 && PairwiseDisjoint(fs) && PairwiseDisjoint(fs[..|fs| - 1])
    requires forall i :: 0 <= i < |fs| ==> WellFormed(fs[i])
    requires FoldJoin(fs[..|fs| - 1]).data.Keys !! fs[|fs| - 1].data.Keys
    ensures FoldJoin(fs) == InnerJoin(FoldJoin(fs[..|fs| - 1]), fs[|fs| - 1])
  {
  }

  /** A list of units the fold accepts. */
  predicate Joinable(fs: seq<Frame>) {
    && |fs| >= 1 && PairwiseDisjoint(fs)
    && forall i :: 0 <= i < |fs| ==> WellFormed(fs[i])
  }

  /** The accumulator after the first n units have been folded in. */
  function FoldPrefix(fs: seq<Frame>, n: nat): (r: Frame)
    requires Joinable(fs) && 1 <= n <= |fs|
    ensures WellFormed(r)
  {
    assert Joinable(fs[..n]);
    FoldJoin(fs[..n])
  }

  /** The first unit seeds the accumulator. */
  lemma FoldPrefixFirst(fs: seq<Frame>)
    requires Joinable(fs)
    ensures FoldPrefix(fs, 1) == fs[0]
  {
    assert fs[..1] == [fs[0]];
  }

  /** Folding one more unit in is one more join. */
  lemma FoldPrefixStep(fs: seq<Frame>, n: nat)
    requires Joinable(fs) && 1 <= n < |fs|
    ensures FoldPrefix(fs, n).data.Keys !! fs[n].data.Keys
    ensures FoldPrefix(fs, n + 1) == InnerJoin(FoldPrefix(fs, n), fs[n])
  {
    var p := fs[..n + 1];
    assert |p| - 1 == n && p[..|p| - 1] == fs[..n] && p[|p| - 1] == fs[n];
    assert Joinable(p);
    FoldJoinDisjointLast(p);
    FoldJoinUnfold(p);
  }

  /** The join that takes the accumulator from n units to n + 1 is
      allowed, and gives the longer prefix's fold. */
  lemma FoldPrefixJoin(fs: seq<Frame>, n: nat, acc: Frame, u: Frame)
    requires Joinable(fs) && 1 <= n < |fs| && acc == FoldPrefix(fs, n) && u == fs[n]
    ensures WellFormed(acc) && WellFormed(u) && acc.data.Keys !! u.data.Keys
    ensures InnerJoin(acc, u) == FoldPrefix(fs, n + 1)
  {
    FoldPrefixStep(fs, n);
  }

  /** One step of the fold: `pd.merge(left=acc, right=u, on='data')` for
      the next unit u. */
  method JoinNext(ghost fs: seq<Frame>, ghost n: nat, acc: Frame, u: Frame) returns (r: Frame)
    requires Joinable(fs) && 1 <= n < |fs| && acc == FoldPrefix(fs, n) && u == fs[n]
    ensures r == FoldPrefix(fs, n + 1)
  {
    FoldPrefixJoin(fs, n, acc, u);
    r := InnerJoin(acc, u);
  }

  /** Once every unit is in, the accumulator is the whole fold. */
  lemma FoldPrefixAll(fs: seq<Frame>, n: nat, acc: Frame)
    requires Joinable(fs) && n == |fs| && acc == FoldPrefix(fs, n)
    ensures acc == FoldJoin(fs)
  {
    assert fs[..|fs|] == fs;
  }

  /** A date is in every unit exactly when it is in every unit but the
      last, and in the last. */
  lemma DateInAllSnoc(fs: seq<Frame>, p: seq<Frame>, d: Date)
    requires |fs| >= 1 && p == fs[..|fs| - 1]
    ensures (forall i :: 0 <= i < |fs| ==> d in fs[i].index) <==>
      (forall i :: 0 <= i < |p| ==> d in p[i].index) && d in fs[|fs| - 1].index
  {
    if (forall i :: 0 <= i < |p| ==> d in p[i].index) && d in fs[|fs| - 1].index {
      forall i | 0 <= i < |fs|
        ensures d in fs[i].index
      {
        if i < |fs| - 1 {
          assert fs[i] == p[i];
        }
      }
    }
  }

  /** The folded table's dates are those every unit has: the intersection of
      all the units' date sets, not their union. */
  lemma {:induction false} FoldJoinDates(fs: seq<Frame>, d: Date)
    requires |fs| >= 1 && PairwiseDisjoint(fs)
    requires forall i :: 0 <= i < |fs| ==> WellFormed(fs[i])
    ensures d in FoldJoin(fs).index <==> forall i :: 0 <= i < |fs| ==> d in fs[i].index
  {
    if |fs| > 1 {
      var p := fs[..|fs| - 1];
      FoldJoinDisjointLast(fs);
      FoldJoinUnfold(fs);
      FoldJoinDates(p, d);
      DateInAllSnoc(fs, p, d);
    }
  }

  /** A date is in every unit of a seed followed by the rest exactly when
      it is in the seed and in each of the rest. */
  lemma DateInAllCons(first: Frame, rest: seq<Frame>, d: Date)
    ensures (forall i :: 0 <= i < |[first] + rest| ==> d in ([first] + rest)[i].index) <==>
      d in first.index && forall k :: 0 <= k < |rest| ==> d in rest[k].index
  {
    var fs := [first] + rest;
    if forall i :: 0 <= i < |fs| ==> d in fs[i].index {
      assert d in fs[0].index;
      forall k | 0 <= k < |rest|
        ensures d in rest[k].index
      {
        assert fs[k + 1] == rest[k];
      }
    }
    if d in first.index && forall k :: 0 <= k < |rest| ==> d in rest[k].index {
      forall i | 0 <= i < |fs|
        ensures d in fs[i].index
      {
        if i > 0 {
          assert fs[i] == rest[i - 1];
        }
      }
    }
  }

  /** FoldJoinDates for a seed followed by the other units. */
  lemma FoldJoinConsDates(first: Frame, rest: seq<Frame>, d: Date)
    requires Joinable([first] + rest)
    ensures d in FoldJoin([first] + rest).index <==>
      d in first.index && forall k :: 0 <= k < |rest| ==> d in rest[k].index
  {
    FoldJoinDates([first] + rest, d);
    DateInAllCons(first, rest, d);
  }

  /** FoldJoinCell for the seed of the fold. */
  lemma FoldJoinSeedCell(first: Frame, rest: seq<Frame>, c: string, i: nat)
    requires Joinable([first] + rest) && WellFormed(first)
    requires c in first.data && i < |FoldJoin([first] + rest).index|
    ensures var r := FoldJoin([first] + rest);
      && r.index[i] in first.index && c in r.data
      && r.data[c][i] == first.data[c][Position(first.index, r.index[i])]
  {
    var fs := [first] + rest;
    assert fs[0] == first;
    FoldJoinCell(fs, 0, c, i);
  }

  /** FoldJoinCell for unit k of the units that follow the seed. */
  lemma FoldJoinRestCell(first: Frame, rest: seq<Frame>, k: nat, c: string, i: nat)
    requires Joinable([first] + rest) && k < |rest| && WellFormed(rest[k])
    requires c in rest[k].data && i < |FoldJoin([first] + rest).index|
    ensures var r := FoldJoin([first] + rest);
      && r.index[i] in rest[k].index && c in r.data
      && r.data[c][i] == rest[k].data[c][Position(rest[k].index, r.index[i])]
  {
    var fs := [first] + rest;
    assert fs[k + 1] == rest[k];
    FoldJoinCell(fs, k + 1, c, i);
  }

  // ---------------------------------------------------------------------------
  // The mutable table

  class DataFrame {
    var index: seq<Date>
    var columns: seq<string>
    var data: map<string, Column>

    function Value(): Frame
      reads this
    {
      Frame(index, columns, data)
    }

    predicate Valid()
      reads this
    {
      WellFormed(Value())
    }

    /** A fresh table holding the given value (`.copy()` of another table). */
    constructor (f: Frame)
      requires WellFormed(f)
      ensures Valid() && Value() == f
    {
      index, columns, data := f.index, f.columns, f.data;
    }

    /** `ds[name] = col`. */
    method Assign(name: string, col: Column)
      requires Valid() && |col| == |index|
      modifies this
      ensures Valid() && Value() == With(old(Value()), name, col)
    {
      WithWellFormed(Value(), name, col);
      if name !in data {
        columns := columns + [name];
      }
      data := data[name := col];
    }

    /** `ds.loc[d, field] = value` for a date in the index. */
    method SetCell(c: Correction)
      requires Valid() && c.date in index
      modifies this
      ensures Valid() && Value() == SetCellValue(old(Value()), c)
    {
      var k := Position(index, c.date);
      var col := if c.field in data then data[c.field] else Constant(|index|, None);
      Assign(c.field, col[k := Some(c.value)]);
    }

    /** `ds.rename(columns=m, inplace=True)`. */
    method Rename(m: map<string, string>)
      requires Valid() && InjectiveOn(m, data.Keys)
      modifies this
      ensures Valid() && Value() == Renamed(old(Value()), m)
    {
      RenamedProperties(Value(), m);
      var r := Renamed(Value(), m);
      columns, data := r.columns, r.data;
    }
  }
}
