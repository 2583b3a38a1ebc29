/** The province reshaping of the notebook src/italy.py: each province's
    case totals get their day-over-day difference, are renamed after the
    province, and are inner-joined side by side on the date. */
module Provinces {
  import opened Calendar
  import opened Series
  import opened Frames
  import opened Text
  import opened Places
  import Italy

  /** The single field kept from the provincial data (INTERESTING_FIELDS). */
  const ProvinceFields: seq<string> := ["totale_casi"]

  /** Province p's rows of the provincial data (those whose
      denominazione_provincia names it), holding the case totals. */
  predicate ProvinceData(raw: map<string, Frame>, p: string) {
    p in raw && WellFormed(raw[p]) && "totale_casi" in raw[p].data
  }

  predicate ProvincesData(raw: map<string, Frame>, provinces: seq<string>) {
    && PlainNames(provinces)
    && forall k :: 0 <= k < |provinces| ==> ProvinceData(raw, provinces[k])
  }

  /** `ds_prov.loc[...].loc[:, INTERESTING_FIELDS].copy()` for province p. */
  function ProvinceInput(raw: map<string, Frame>, p: string): (s: Frame)
    requires ProvinceData(raw, p)
    ensures WellFormed(s) && s.index == raw[p].index
    ensures s.data.Keys == {"totale_casi"} && s.data["totale_casi"] == raw[p].data["totale_casi"]
  {
    Select(raw[p], ProvinceFields)
  }

  /** The province's table after `totale_casi_DELTA = totale_casi.diff()`. */
  function WithCasesDelta(s: Frame): (r: Frame)
    requires WellFormed(s) && "totale_casi" in s.data
    ensures WellFormed(r) && r.index == s.index
    ensures r.data == s.data["totale_casi_DELTA" := Diff(s.data["totale_casi"])]
  {
    var delta := Diff(s.data["totale_casi"]);
    WithWellFormed(s, "totale_casi_DELTA", delta);
    With(s, "totale_casi_DELTA", delta)
  }

  /** Before the rename a province's table holds only the totals and their
      difference. */
  lemma DeltaTableKeys(raw: map<string, Frame>, p: string, c: string)
    requires ProvinceData(raw, p)
    ensures c in WithCasesDelta(ProvinceInput(raw, p)).data ==> c == "totale_casi" || c == "totale_casi_DELTA"
  {
  }

  /** Province p's table as it enters the join. */
  function ProvinceUnit(raw: map<string, Frame>, p: string): (u: Frame)
    requires ProvinceData(raw, p)
    ensures WellFormed(u) && u.index == raw[p].index
  {
    RenamedForUnit(WithCasesDelta(ProvinceInput(raw, p)), p)
  }

  /** A province's table holds exactly two columns: its case totals,
      renamed totale_casi_p, and their plain `diff()`, renamed
      totale_casi_DELTA_p, computed on the province's own rows with no
      correction and no fill of the first row. */
  lemma ProvinceUnitColumns(raw: map<string, Frame>, p: string, c: string)
    requires ProvinceData(raw, p)
    ensures var u, tc := ProvinceUnit(raw, p), raw[p].data["totale_casi"];
      && (c in u.data <==> c == Suffixed("totale_casi", p) || c == Suffixed("totale_casi_DELTA", p))
      && Suffixed("totale_casi", p) in u.data && u.data[Suffixed("totale_casi", p)] == tc
      && Suffixed("totale_casi_DELTA", p) in u.data && u.data[Suffixed("totale_casi_DELTA", p)] == Diff(tc)
  {
    var s := WithCasesDelta(ProvinceInput(raw, p));
    var tc := raw[p].data["totale_casi"];
    assert s.data["totale_casi"] == tc && s.data["totale_casi_DELTA"] == Diff(tc);
    var u := ProvinceUnit(raw, p);
    if c in u.data {
      var c0 :| c0 in s.data && c == Suffixed(c0, p);
      DeltaTableKeys(raw, p, c0);
    }
  }

  lemma ProvinceUnitTagged(raw: map<string, Frame>, p: string)
    requires ProvinceData(raw, p) && '_' !in p
    ensures TaggedWith(ProvinceUnit(raw, p), p)
  {
    RenamedTagged(WithCasesDelta(ProvinceInput(raw, p)), p);
  }

  /** The provinces' tables, in the order of `provinces`. */
  function ProvinceCopies(raw: map<string, Frame>, provinces: seq<string>): (cs: seq<Frame>)
    requires forall k :: 0 <= k < |provinces| ==> ProvinceData(raw, provinces[k])
    ensures |cs| == |provinces|
  {
    seq(|provinces|, k requires 0 <= k < |provinces| => ProvinceUnit(raw, provinces[k]))
  }

  /** Copy k is province k's prepared table. */
  lemma ProvinceCopiesAt(raw: map<string, Frame>, provinces: seq<string>)
    requires forall k :: 0 <= k < |provinces| ==> ProvinceData(raw, provinces[k])
    ensures forall k {:trigger ProvinceUnit(raw, provinces[k])} :: 0 <= k < |provinces| ==>
      ProvinceCopies(raw, provinces)[k] == ProvinceUnit(raw, provinces[k])
  {
  }

  /** No two provinces' tables share a column name, so they can be joined. */
  lemma ProvinceCopiesJoinable(raw: map<string, Frame>, provinces: seq<string>)
    requires ProvincesData(raw, provinces) && |provinces| >= 1
    ensures Joinable(ProvinceCopies(raw, provinces))
  {
    var cs := ProvinceCopies(raw, provinces);
    forall k | 0 <= k < |provinces|
      ensures WellFormed(cs[k]) && TaggedWith(cs[k], provinces[k])
    {
      ProvinceUnitTagged(raw, provinces[k]);
    }
    TaggedJoinable(cs, provinces);
  }

  /** `ds_province_sided` after the loop, when there is a province. */
  function ProvincesSided(raw: map<string, Frame>, provinces: seq<string>): (r: Frame)
    requires ProvincesData(raw, provinces) && |provinces| >= 1
    ensures WellFormed(r)
  {
    ProvinceCopiesJoinable(raw, provinces);
    FoldJoin(ProvinceCopies(raw, provinces))
  }

  /** One province's copy, in place: the difference column is added, then
      every column is renamed with `new_columns_mapping`. */
  method ProvinceCopy(raw: map<string, Frame>, p: string) returns (u: Frame)
    requires ProvinceData(raw, p)
    ensures u == ProvinceUnit(raw, p)
  {
    var ds := new DataFrame(Select(raw[p], ProvinceFields));
    ds.Assign("totale_casi_DELTA", Diff(ds.data["totale_casi"]));
    var m := Italy.NewColumnsMapping(ds, p);
    ds.Rename(m);
    u := ds.Value();
  }

  /** Province i's copy, as the loop builds it. */
  method NextProvince(raw: map<string, Frame>, provinces: seq<string>, ghost copies: seq<Frame>, i: nat)
    returns (u: Frame)
    requires i < |provinces| && |copies| == |provinces|
    requires forall k :: 0 <= k < |provinces| ==> ProvinceData(raw, provinces[k])
    requires forall k {:trigger ProvinceUnit(raw, provinces[k])} :: 0 <= k < |provinces| ==>
      copies[k] == ProvinceUnit(raw, provinces[k])
    ensures u == copies[i]
  {
    u := ProvinceCopy(raw, provinces[i]);
  }

  /** One pass of the loop body's merge: on the first iteration the
      province's table becomes the accumulator, later it is inner-joined
      onto it. */
  method MergeProvince(ghost copies: seq<Frame>, ghost i: nat, sided: Option<Frame>, first: bool, u: Frame)
    returns (next: Option<Frame>)
    requires Joinable(copies) && i < |copies| && u == copies[i]
    requires first <==> i == 0
    requires i >= 1 ==> sided == Some(FoldPrefix(copies, i))
    ensures next == Some(FoldPrefix(copies, i + 1))
  {
    if first {
      FoldPrefixFirst(copies);
      next := Some(u);
    } else {
      var joined := JoinNext(copies, i, sided.value, u);
      next := Some(joined);
    }
  }

  /** The loop over PROVINCE: the accumulator starts as None; the first
      province's table becomes it (first_iteration), and every later one is
      inner-joined onto it on the date. */
  method JoinProvinces(raw: map<string, Frame>, provinces: seq<string>, ghost copies: seq<Frame>)
    returns (sided: Option<Frame>)
    requires |copies| == |provinces| && (|copies| >= 1 ==> Joinable(copies))
    requires forall k :: 0 <= k < |provinces| ==> ProvinceData(raw, provinces[k])
    requires forall k {:trigger ProvinceUnit(raw, provinces[k])} :: 0 <= k < |provinces| ==>
      copies[k] == ProvinceUnit(raw, provinces[k])
    ensures |copies| == 0 ==> sided == None
    ensures |copies| >= 1 ==> sided == Some(FoldJoin(copies))
  {
    sided := None;
    var first := true;
    var i := 0;
    while i < |provinces|
      invariant 0 <= i <= |provinces|
      invariant first <==> i == 0
      invariant i == 0 ==> sided == None
      invariant i >= 1 ==> sided == Some(FoldPrefix(copies, i))
    {
      var ds := NextProvince(raw, provinces, copies, i);
      sided := MergeProvince(copies, i, sided, first, ds);
      first := false;
      i := i + 1;
    }
    if i >= 1 {
      FoldPrefixAll(copies, i, sided.value);
    }
  }

  /** The province reshaping: `ds_province_sided` is None when there is no
      province, and the join of the provinces' tables otherwise. */
  method ProvinceFold(raw: map<string, Frame>, provinces: seq<string>) returns (sided: Option<Frame>)
    requires ProvincesData(raw, provinces)
    ensures |provinces| == 0 ==> sided == None
    ensures |provinces| >= 1 ==> sided == Some(ProvincesSided(raw, provinces))
  {
    ProvinceCopiesAt(raw, provinces);
    if |provinces| >= 1 {
      ProvinceCopiesJoinable(raw, provinces);
    }
    sided := JoinProvinces(raw, provinces, ProvinceCopies(raw, provinces));
  }

  /** Copy k has the dates of province k's rows. */
  lemma ProvinceCopiesIndex(raw: map<string, Frame>, provinces: seq<string>)
    requires forall k :: 0 <= k < |provinces| ==> ProvinceData(raw, provinces[k])
    ensures forall k :: 0 <= k < |provinces| ==> ProvinceCopies(raw, provinces)[k].index == raw[provinces[k]].index
  {
  }

  /** The joined provincial table has a row for a date exactly when every
      province reports that date. */
  lemma ProvincesSidedDates(raw: map<string, Frame>, provinces: seq<string>, d: Date)
    requires ProvincesData(raw, provinces) && |provinces| >= 1
    ensures d in ProvincesSided(raw, provinces).index <==>
      forall k :: 0 <= k < |provinces| ==> d in raw[provinces[k]].index
  {
    ProvinceCopiesJoinable(raw, provinces);
    FoldJoinDates(ProvinceCopies(raw, provinces), d);
    ProvinceCopiesIndex(raw, provinces);
  }

  /** Its columns are exactly totale_casi_p and totale_casi_DELTA_p for the
      provinces p. */
  lemma ProvincesSidedColumns(raw: map<string, Frame>, provinces: seq<string>, c: string)
    requires ProvincesData(raw, provinces) && |provinces| >= 1
    ensures c in ProvincesSided(raw, provinces).data <==>
      exists k :: 0 <= k < |provinces| &&
        (c == Suffixed("totale_casi", provinces[k]) || c == Suffixed("totale_casi_DELTA", provinces[k]))
  {
    var cs := ProvinceCopies(raw, provinces);
    ProvinceCopiesJoinable(raw, provinces);
    AllKeysMember(cs, c);
    ProvinceCopiesAt(raw, provinces);
    if c in ProvincesSided(raw, provinces).data {
      var k :| 0 <= k < |cs| && c in cs[k].data;
      assert cs[k] == ProvinceUnit(raw, provinces[k]);
      ProvinceUnitColumns(raw, provinces[k], c);
    } else {
      forall k | 0 <= k < |provinces|
        ensures c != Suffixed("totale_casi", provinces[k]) && c != Suffixed("totale_casi_DELTA", provinces[k])
      {
        assert cs[k] == ProvinceUnit(raw, provinces[k]);
        ProvinceUnitColumns(raw, provinces[k], c);
      }
    }
  }

  /** On each row, province k's two columns hold the province's own case
      total for that date and the `diff()` of the province's own totals at
      that date (the change from the province's previous own row): the
      difference is taken before the join, so it is not recomputed over the
      joined rows. */
  lemma ProvincesSidedCells(raw: map<string, Frame>, provinces: seq<string>, k: nat, i: nat)
    requires ProvincesData(raw, provinces) && k < |provinces|
    requires i < |ProvincesSided(raw, provinces).index|
    ensures var s, pk := ProvincesSided(raw, provinces), raw[provinces[k]];
      var d, tc := s.index[i], pk.data["totale_casi"];
      && d in pk.index
      && var j := Position(pk.index, d);
      && Suffixed("totale_casi", provinces[k]) in s.data
      && s.data[Suffixed("totale_casi", provinces[k])][i] == tc[j]
      && Suffixed("totale_casi_DELTA", provinces[k]) in s.data
      && s.data[Suffixed("totale_casi_DELTA", provinces[k])][i] == Diff(tc)[j]
  {
    var cs := ProvinceCopies(raw, provinces);
    var p := provinces[k];
    var tc := raw[p].data["totale_casi"];
    ProvinceCopiesJoinable(raw, provinces);
    ProvinceCopiesAt(raw, provinces);
    assert cs[k] == ProvinceUnit(raw, p);
    ProvinceUnitColumns(raw, p, Suffixed("totale_casi", p));
    FoldJoinCell(cs, k, Suffixed("totale_casi", p), i);
    FoldJoinCell(cs, k, Suffixed("totale_casi_DELTA", p), i);
    var j := Position(raw[p].index, ProvincesSided(raw, provinces).index[i]);
    assert ProvincesSided(raw, provinces).data[Suffixed("totale_casi_DELTA", p)][i] == Diff(tc)[j];
  }
}
