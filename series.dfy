/** A pandas float column as the pipeline uses it: one cell per row of the
    table, NaN (and the ±inf of a zero division) modelled as `None`.
    Every operation here is one vectorised pandas call, so each is a pure
    function producing a new column of the same length. */
module Series {

  datatype Option<+T> = None | Some(value: T)

  type Cell = Option<real>
  type Column = seq<Cell>

  predicate AllDefined(s: Column) {
    forall i :: 0 <= i < |s| ==> s[i].Some?
  }

  // ---------------------------------------------------------------------------
  // Cell arithmetic: NaN in, NaN out; a zero denominator gives NaN/inf, i.e. None

  function Sub(a: Cell, b: Cell): Cell {
    if a.Some? && b.Some? then Some(a.value - b.value) else None
  }

  function Div(a: Cell, b: Cell): Cell {
    if a.Some? && b.Some? && b.value != 0.0 then Some(a.value / b.value) else None
  }

  // ---------------------------------------------------------------------------
  // Column operations

  /** `s.diff()`: row i holds s[i] - s[i-1]; row 0 has no previous row. */
  function Diff(s: Column): (r: Column)
    ensures |r| == |s|
  {
    seq(|s|, i requires 0 <= i < |s| => if i == 0 then None else Sub(s[i], s[i - 1]))
  }

  /** `s.shift(periods=k)`: values move k rows later; the first k rows are NaN. */
  function Shift(s: Column, k: nat): (r: Column)
    ensures |r| == |s|
  {
    seq(|s|, i requires 0 <= i < |s| => if i < k then None else s[i - k])
  }

  /** `a / b`, row by row. */
  function Ratio(a: Column, b: Column): (r: Column)
    requires |a| == |b|
    ensures |r| == |a|
  {
    seq(|a|, i requires 0 <= i < |a| => Div(a[i], b[i]))
  }

  /** `a - b`, row by row. */
  function Minus(a: Column, b: Column): (r: Column)
    requires |a| == |b|
    ensures |r| == |a|
  {
    seq(|a|, i requires 0 <= i < |a| => Sub(a[i], b[i]))
  }

  /** `s + c` for a scalar c. */
  function AddScalar(s: Column, c: real): (r: Column)
    ensures |r| == |s|
  {
    seq(|s|, i requires 0 <= i < |s| => if s[i].Some? then Some(s[i].value + c) else None)
  }

  /** `s.pct_change()`: s / s.shift(1) - 1 (the forward fill of interior NaN is
      not modelled). */
  function PctChange(s: Column): (r: Column)
    ensures |r| == |s|
  {
    AddScalar(Ratio(s, Shift(s, 1)), -1.0)
  }

  /** `s.fillna(v)`. */
  function FillNa(s: Column, v: real): (r: Column)
    ensures |r| == |s| && AllDefined(r)
  {
    seq(|s|, i requires 0 <= i < |s| => if s[i].Some? then s[i] else Some(v))
  }

  /** `s.loc[rows] = NaN` for a boolean row mask. */
  function Blank(s: Column, rows: seq<bool>): (r: Column)
    requires |rows| == |s|
    ensures |r| == |s|
  {
    seq(|s|, i requires 0 <= i < |s| => if rows[i] then None else s[i])
  }

  /** A scalar assigned to a column: broadcast to every row. */
  function Constant(n: nat, c: Cell): (r: Column)
    ensures |r| == n
  {
    seq(n, _ => c)
  }

  // ---------------------------------------------------------------------------
  // NaN-skipping aggregates (pandas' default skipna=True)

  function SumDefined(s: Column): real {
    if s == [] then 0.0
    else SumDefined(s[..|s| - 1]) + (if s[|s| - 1].Some? then s[|s| - 1].value else 0.0)
  }

  function CountDefined(s: Column): nat {
    if s == [] then 0
    else CountDefined(s[..|s| - 1]) + (if s[|s| - 1].Some? then 1 else 0)
  }

  /** `s.mean()`: the mean of the defined cells, NaN when there are none. */
  function MeanDefined(s: Column): Cell {
    if CountDefined(s) == 0 then None else Some(SumDefined(s) / CountDefined(s) as real)
  }

  /** `s.cumsum()`: running sum of the defined cells; NaN cells stay NaN. */
  function CumSum(s: Column): (r: Column)
    ensures |r| == |s|
  {
    seq(|s|, i requires 0 <= i < |s| => if s[i].Some? then Some(SumDefined(s[..i + 1])) else None)
  }

  // ---------------------------------------------------------------------------
  // Rolling means

  /** The rows lo..hi-1 of s that exist. */
  function Clip(s: Column, lo: int, hi: int): (w: Column)
    ensures |w| <= |s|
  {
    var a := if lo < 0 then 0 else if lo > |s| then |s| else lo;
    var b := if hi < a then a else if hi > |s| then |s| else hi;
    s[a..b]
  }

  /** The mean of the defined cells of a window, when at least `minPeriods`
      (and at least one) of them are defined. */
  function WindowMean(s: Column, lo: int, hi: int, minPeriods: nat): Cell {
    var w := Clip(s, lo, hi);
    if CountDefined(w) >= minPeriods && CountDefined(w) > 0
    then Some(SumDefined(w) / CountDefined(w) as real)
    else None
  }

  /** `s.rolling(window=w).mean()`: trailing window of w rows ending at the
      row, min_periods defaulting to w. */
  function RollingTrailing(s: Column, w: nat): (r: Column)
    ensures |r| == |s|
  {
    seq(|s|, i requires 0 <= i < |s| => WindowMean(s, i - w + 1, i + 1, w))
  }

  /** `s.rolling(window=w, center=True, min_periods=m).mean()`: pandas centres
      a window by moving it (w - 1) / 2 rows later, so for w = 7 row i averages
      rows i-3..i+3. */
  function RollingCentered(s: Column, w: nat, m: nat): (r: Column)
    ensures |r| == |s|
  {
    seq(|s|, i requires 0 <= i < |s| => WindowMean(s, i + (w - 1) / 2 - w + 1, i + (w - 1) / 2 + 1, m))
  }

  // ---------------------------------------------------------------------------
  // Lemmas about the aggregates

  /** Only defined cells are counted: the count reaches the length exactly when
      every cell is defined. */
  lemma {:induction false} CountDefinedBound(s: Column)
    ensures CountDefined(s) <= |s|
    ensures CountDefined(s) == |s| <==> AllDefined(s)
  {
    if s != [] {
      CountDefinedBound(s[..|s| - 1]);
      if !AllDefined(s[..|s| - 1]) {
        var i :| 0 <= i < |s| - 1 && !s[..|s| - 1][i].Some?;
        assert !s[i].Some?;
      }
    }
  }

  /** Sums and counts split over concatenation. */
  lemma {:induction false} AggregatesAppend(a: Column, b: Column)
    ensures SumDefined(a + b) == SumDefined(a) + SumDefined(b)
    ensures CountDefined(a + b) == CountDefined(a) + CountDefined(b)
  {
    if b == [] {
      assert a + b == a;
    } else {
      assert (a + b)[..|a + b| - 1] == a + b[..|b| - 1];
      assert (a + b)[|a + b| - 1] == b[|b| - 1];
      AggregatesAppend(a, b[..|b| - 1]);
    }
  }

  /** Cells that are NaN contribute nothing. */
  lemma {:induction false} AggregatesOfUndefined(n: nat)
    ensures SumDefined(Constant(n, None)) == 0.0 && CountDefined(Constant(n, None)) == 0
  {
    if n > 0 {
      assert Constant(n, None)[..n - 1] == Constant(n - 1, None);
      AggregatesOfUndefined(n - 1);
    }
  }

  /** Sums of non-negative cells are non-negative. */
  lemma {:induction false} SumDefinedNonNegative(s: Column)
    requires forall i :: 0 <= i < |s| && s[i].Some? ==> s[i].value >= 0.0
    ensures SumDefined(s) >= 0.0
  {
    if s != [] {
      SumDefinedNonNegative(s[..|s| - 1]);
    }
  }

  // ---------------------------------------------------------------------------
  // diff: telescoping

  /** Differences telescope: summing s.diff() over rows a+1..b gives s[b] - s[a],
      and every one of those differences is defined. */
  lemma {:induction false} DiffTelescopes(s: Column, a: nat, b: nat)
    requires a <= b < |s|
    requires forall i :: a <= i <= b ==> s[i].Some?
    ensures AllDefined(Diff(s)[a + 1..b + 1])
    ensures SumDefined(Diff(s)[a + 1..b + 1]) == s[b].value - s[a].value
  {
    var d := Diff(s);
    if a < b {
      DiffTelescopes(s, a, b - 1);
      var t, p := d[a + 1..b + 1], d[a + 1..b];
      assert t[..|t| - 1] == p;
      assert s[b].Some? && s[b - 1].Some?;
      assert t[|t| - 1] == d[b] == Some(s[b].value - s[b - 1].value);
      DefinedSnoc(t, p);
      assert SumDefined(t) == (s[b - 1].value - s[a].value) + (s[b].value - s[b - 1].value);
    } else {
      assert d[a + 1..b + 1] == [];
    }
  }

  /** Filling NaN changes nothing where every cell is defined, so the filled
      differences telescope the same way. */
  lemma FilledDiffTelescopes(s: Column, a: nat, b: nat)
    requires a <= b < |s|
    requires forall i :: a <= i <= b ==> s[i].Some?
    ensures SumDefined(FillNa(Diff(s), 0.0)[a + 1..b + 1]) == s[b].value - s[a].value
  {
    DiffTelescopes(s, a, b);
    var d := Diff(s)[a + 1..b + 1];
    var filled := FillNa(Diff(s), 0.0)[a + 1..b + 1];
    forall k | 0 <= k < |d|
      ensures filled[k] == d[k]
    {
      assert d[k].Some?;
    }
    assert filled == d;
  }

  /** Extending a defined prefix by a defined last cell. */
  lemma DefinedSnoc(t: Column, p: Column)
    requires t != [] && p == t[..|t| - 1] && AllDefined(p) && t[|t| - 1].Some?
    ensures AllDefined(t)
    ensures SumDefined(t) == SumDefined(p) + t[|t| - 1].value
  {
    forall i | 0 <= i < |t| ensures t[i].Some? {
      if i < |t| - 1 { assert t[i] == p[i]; }
    }
  }

  /** The difference of two differenced columns, as the negative-test count
      is built: defined exactly when both columns are known on the day and the
      day before; it is then the first column's increase minus the second's,
      and adding the second's (filled) increase back gives the first's. */
  lemma MinusOfDiffs(a: Column, b: Column, i: nat)
    requires 0 < i < |a| == |b|
    ensures Minus(Diff(a), Diff(b))[i].Some? <==>
              a[i].Some? && a[i - 1].Some? && b[i].Some? && b[i - 1].Some?
    ensures Minus(Diff(a), Diff(b))[i].Some? ==>
              && Minus(Diff(a), Diff(b))[i].value == (a[i].value - a[i - 1].value) - (b[i].value - b[i - 1].value)
              && FillNa(Diff(b), 0.0)[i].Some? && Diff(a)[i].Some?
              && Minus(Diff(a), Diff(b))[i].value + FillNa(Diff(b), 0.0)[i].value == Diff(a)[i].value
  {
  }

  /** A quotient of two differenced columns, row by row. */
  lemma RatioOfDiffs(a: Column, b: Column, i: nat)
    requires i < |a| == |b|
    ensures Ratio(Diff(a), Diff(b))[i] == if i == 0 then None else Div(Sub(a[i], a[i - 1]), Sub(b[i], b[i - 1]))
  {
  }

  // ---------------------------------------------------------------------------
  // cumsum

  /** The running sum starts at the first value and adds each defined value to
      the previous running total. */
  lemma CumSumStep(s: Column, i: nat)
    requires 0 < i < |s| && s[i].Some? && s[i - 1].Some?
    ensures CumSum(s)[i].Some? && CumSum(s)[i - 1].Some?
    ensures CumSum(s)[i].value == CumSum(s)[i - 1].value + s[i].value
  {
    var p := s[..i + 1];
    assert p[..i] == s[..i] && p[i] == s[i];
  }

  /** The running sum starts at the first value. */
  lemma CumSumFirst(s: Column)
    requires |s| > 0
    ensures CumSum(s)[0] == s[0]
  {
    var first := s[..1];
    assert first[..0] == [] && first[0] == s[0];
    if s[0].Some? {
      assert SumDefined(first) == SumDefined(first[..0]) + s[0].value;
    }
  }

  /** diff undoes cumsum on fully defined input: the two are inverses. */
  lemma DiffOfCumSum(s: Column, i: nat)
    requires 0 < i < |s| && s[i].Some? && s[i - 1].Some?
    ensures Diff(CumSum(s))[i] == s[i]
  {
    var c := CumSum(s);
    CumSumStep(s, i);
    assert c[i].value - c[i - 1].value == s[i].value;
    assert Diff(c)[i] == Sub(c[i], c[i - 1]);
  }

  /** With non-negative input the running sum never decreases. */
  lemma CumSumMonotone(s: Column, i: nat, j: nat)
    requires i <= j < |s| && s[i].Some? && s[j].Some?
    requires forall k :: 0 <= k < |s| && s[k].Some? ==> s[k].value >= 0.0
    ensures CumSum(s)[i].value <= CumSum(s)[j].value
  {
    assert s[..j + 1] == s[..i + 1] + s[i + 1..j + 1];
    AggregatesAppend(s[..i + 1], s[i + 1..j + 1]);
    SumDefinedNonNegative(s[i + 1..j + 1]);
  }

  // ---------------------------------------------------------------------------
  // pct_change

  /** `s.pct_change() + 1` is the day-over-day quotient s[i] / s[i-1], defined
      exactly where both are defined and the previous value is non-zero. */
  lemma GrowthFactorIsQuotient(s: Column, i: nat)
    requires i < |s|
    ensures AddScalar(PctChange(s), 1.0)[i] == (if i == 0 then None else Div(s[i], s[i - 1]))
  {
  }

  // ---------------------------------------------------------------------------
  // Rolling windows

  /** A trailing window of w rows ending at row i is defined exactly when all
      w rows exist and hold values; it is then their plain mean. */
  lemma TrailingDefinedIff(s: Column, w: nat, i: nat)
    requires 1 <= w && i < |s|
    ensures RollingTrailing(s, w)[i].Some? <==> w <= i + 1 && AllDefined(s[i + 1 - w..i + 1])
    ensures RollingTrailing(s, w)[i].Some? ==>
              RollingTrailing(s, w)[i].value == SumDefined(s[i + 1 - w..i + 1]) / w as real
  {
    var win := Clip(s, i - w + 1, i + 1);
    assert RollingTrailing(s, w)[i] == WindowMean(s, i - w + 1, i + 1, w);
    CountDefinedBound(win);
    if w <= i + 1 {
      assert win == s[i + 1 - w..i + 1];
    } else {
      assert |win| == i + 1;
    }
  }

  /** The trailing mean of s.diff() is the average daily increase:
      (s[i] - s[i-w]) / w, defined from row w on when s is fully defined;
      before row w the window reaches the undefined first difference or runs
      off the table. */
  lemma TrailingMeanOfDiff(s: Column, w: nat, i: nat)
    requires 1 <= w && i < |s| && AllDefined(s)
    ensures RollingTrailing(Diff(s), w)[i].Some? <==> w <= i
    ensures w <= i ==> RollingTrailing(Diff(s), w)[i] == Some((s[i].value - s[i - w].value) / w as real)
  {
    TrailingDefinedIff(Diff(s), w, i);
    if w <= i {
      DiffTelescopes(s, i - w, i);
    } else if w == i + 1 {
      assert !Diff(s)[i + 1 - w..i + 1][0].Some?;
    }
  }

  /** Same, after the first (undefined) difference is filled with 0: the
      window is then defined from row w-1 on. */
  lemma TrailingMeanOfFilledDiff(s: Column, w: nat, i: nat)
    requires 1 <= w && i < |s| && AllDefined(s)
    ensures RollingTrailing(FillNa(Diff(s), 0.0), w)[i].Some? <==> w <= i + 1
    ensures w <= i ==> RollingTrailing(FillNa(Diff(s), 0.0), w)[i] == Some((s[i].value - s[i - w].value) / w as real)
  {
    var f := FillNa(Diff(s), 0.0);
    TrailingDefinedIff(f, w, i);
    if w <= i {
      FilledDiffTelescopes(s, i - w, i);
      assert RollingTrailing(f, w)[i].value == (s[i].value - s[i - w].value) / w as real;
    }
  }

  /** The 5-row case: defined from row 4 on; from row 5 on it is the mean
      daily increase over the last five days. */
  lemma FiveRowMeanOfFilledDiff(s: Column, i: nat)
    requires i < |s| && AllDefined(s)
    ensures RollingTrailing(FillNa(Diff(s), 0.0), 5)[i].Some? <==> 4 <= i
    ensures 5 <= i ==> RollingTrailing(FillNa(Diff(s), 0.0), 5)[i] == Some((s[i].value - s[i - 5].value) / 5.0)
  {
    TrailingMeanOfFilledDiff(s, 5, i);
    if 5 <= i {
      var x := s[i].value - s[i - 5].value;
      assert x / (5 as real) == x / 5.0;
    }
  }

  /** A centred 7-row window with min_periods 4 is defined exactly when at
      least 4 cells among rows i-3..i+3 (clipped to the table) are defined,
      and is then the mean of those defined cells. */
  lemma CenteredSevenDefinedIff(s: Column, i: nat)
    requires i < |s|
    ensures RollingCentered(s, 7, 4)[i].Some? <==> CountDefined(Clip(s, i - 3, i + 4)) >= 4
    ensures RollingCentered(s, 7, 4)[i].Some? ==>
              RollingCentered(s, 7, 4)[i].value ==
              SumDefined(Clip(s, i - 3, i + 4)) / CountDefined(Clip(s, i - 3, i + 4)) as real
  {
    assert RollingCentered(s, 7, 4)[i] == WindowMean(s, i - 3, i + 4, 4);
  }

  /** On a fully defined column of at least 4 rows the centred 7-row mean is
      defined on every row, the first and last three included: near the ends
      the clipped window still holds 4 or more rows. */
  lemma CenteredSevenDefinedEverywhere(s: Column, i: nat)
    requires AllDefined(s) && 4 <= |s| && i < |s|
    ensures RollingCentered(s, 7, 4)[i].Some?
  {
    var win := Clip(s, i - 3, i + 4);
    var lo := if i < 3 then 0 else i - 3;
    var hi := if i + 4 > |s| then |s| else i + 4;
    assert win == s[lo..hi] && hi - lo >= 4;
    assert AllDefined(win);
    CountDefinedBound(win);
    CenteredSevenDefinedIff(s, i);
  }

  // ---------------------------------------------------------------------------
  // Blanking a prefix, then taking the mean

  /** Blanking the rows before k and taking the NaN-skipping mean gives the
      mean of rows k onwards. */
  lemma MeanAfterBlankingPrefix(s: Column, rows: seq<bool>, k: nat)
    requires |rows| == |s| && k <= |s|
    requires forall i :: 0 <= i < |s| ==> (rows[i] <==> i < k)
    ensures MeanDefined(Blank(s, rows)) == MeanDefined(s[k..])
  {
    var b := Blank(s, rows);
    assert b == Constant(k, None) + s[k..];
    AggregatesAppend(Constant(k, None), s[k..]);
    AggregatesOfUndefined(k);
  }
}
