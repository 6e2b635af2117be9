// stock_screeners_baostock.py, the pandas part: the finance and valuation rows,
// `calculate_growth_rates` (one row per code, one growth column per year after
// the first) and the screening cascade of `screen_high_quality_stocks`.

module BaostockScreen {
  import opened Py
  import opened Tables

  /** One row of a code's finance frame: one fiscal year. */
  datatype FinRow = FinRow(code: string, name: string, year: int, netProfit: Float, roe: Float,
                           gross: Float, debt: Float, current: Float, cash: Float)

  /** One row of the valuation frame. */
  datatype ValRow = ValRow(code: string, name: string, pe: Float, dividend: Float)

  /** `dict.get(code, f'股票{code}')` on the name dictionary. */
  function NameOr(names: map<string, string>, code: string): string
  {
    if code in names then names[code] else "股票" + code
  }

  // ---------------------------------------------------------------------------
  // Growth
  // ---------------------------------------------------------------------------

  predicate Increasing(s: seq<int>)
  {
    forall i, j :: 0 <= i < j < |s| ==> s[i] < s[j]
  }

  /** Adds a year to an ascending list of distinct years. */
  function InsertYear(y: int, s: seq<int>): (r: seq<int>)
    requires Increasing(s)
    ensures Increasing(r)
    ensures forall x :: x in r <==> x == y || x in s
    ensures |r| > 0 && (r[0] == y || (|s| > 0 && r[0] == s[0]))
  {
    if |s| == 0 then [y]
    else if y < s[0] then [y] + s
    else if y == s[0] then s
    else
      var t := InsertYear(y, s[1..]);
      assert forall x :: x in t ==> x > s[0];
      [s[0]] + t
  }

  /** `sorted(wide_df.columns)`: the years of the rows, ascending, each once. */
  function SortedYears(rows: seq<FinRow>): (r: seq<int>)
    ensures Increasing(r)
    ensures forall y :: y in r <==> y in YearSet(rows)
  {
    if |rows| == 0 then []
    else
      var t := SortedYears(rows[1..]);
      assert forall y :: y in YearSet(rows) <==> y == rows[0].year || y in YearSet(rows[1..]) by {
        assert forall i :: 1 <= i < |rows| ==> rows[i] == rows[1..][i - 1];
        assert forall i :: 0 <= i < |rows[1..]| ==> rows[1..][i] == rows[i + 1];
      }
      InsertYear(rows[0].year, t)
  }

  function YearSet(rows: seq<FinRow>): set<int>
  {
    set i | 0 <= i < |rows| :: rows[i].year
  }

  function CodeSet(rows: seq<FinRow>): set<string>
  {
    set i | 0 <= i < |rows| :: rows[i].code
  }

  /** Two rows for the same code and year, on which `pivot` raises. */
  predicate HasDuplicate(rows: seq<FinRow>)
  {
    exists i, j :: 0 <= i < j < |rows| && rows[i].code == rows[j].code && rows[i].year == rows[j].year
  }

  /** The pivot cell `wide_df.loc[code, year]`: the row's net profit, NaN where the code has no such year. */
  function ProfitAt(rows: seq<FinRow>, code: string, year: int): Float
  {
    if |rows| == 0 then NaN
    else if rows[0].code == code && rows[0].year == year then rows[0].netProfit
    else ProfitAt(rows[1..], code, year)
  }

  lemma {:induction false} ProfitAtFound(rows: seq<FinRow>, code: string, year: int)
    requires exists i :: 0 <= i < |rows| && rows[i].code == code && rows[i].year == year && rows[i].netProfit.Fin?
    requires !HasDuplicate(rows)
    ensures ProfitAt(rows, code, year).Fin?
  {
    var i :| 0 <= i < |rows| && rows[i].code == code && rows[i].year == year && rows[i].netProfit.Fin?;
    if i > 0 {
      assert !(rows[0].code == rows[i].code && rows[0].year == rows[i].year);
      assert rows[1..][i - 1] == rows[i];
      assert !HasDuplicate(rows[1..]) by {
        forall a, b | 0 <= a < b < |rows| - 1
          ensures !(rows[1..][a].code == rows[1..][b].code && rows[1..][a].year == rows[1..][b].year)
        {
          assert rows[1..][a] == rows[a + 1] && rows[1..][b] == rows[b + 1];
        }
      }
      ProfitAtFound(rows[1..], code, year);
    }
  }

  /**
   * One growth cell: `np.where(prev != 0, (curr - prev) / abs(prev) * 100, 0)`
   * followed by `max(x, 5)`. NaN is unequal to 0 and `max(NaN, 5)` keeps NaN,
   * so only a missing profit leaves the cell NaN; every number is at least 5.
   */
  function GrowthValue(prev: Float, curr: Float): (g: Float)
    ensures g.Fin? ==> g.r >= 5.0
    ensures g.NaN? <==> prev.NaN? || (curr.NaN? && prev != Fin(0.0))
    ensures prev == Fin(0.0) ==> g == Fin(5.0)
    ensures prev.Fin? && curr.Fin? && prev.r != 0.0 ==>
      g == Fin(if (curr.r - prev.r) / Abs(prev.r) * 100.0 < 5.0 then 5.0 else (curr.r - prev.r) / Abs(prev.r) * 100.0)
  {
    var raw := if prev != Fin(0.0) then
        (if prev.NaN? || curr.NaN? then NaN else Fin((curr.r - prev.r) / Abs(prev.r) * 100.0))
      else Fin(0.0);
    if raw.NaN? then NaN else if 5.0 > raw.r then Fin(5.0) else raw
  }

  function Abs(x: real): real
  {
    if x < 0.0 then -x else x
  }

  /**
   * The growth frame: the sorted years of the pivot and, per code, the growth
   * of each year after the first (`growth[c][i]` is the column of `years[i+1]`).
   */
  datatype GrowthTable = GrowthTable(years: seq<int>, growth: map<string, seq<Float>>)

  /** The number of `净利润增速(%)` columns. */
  function GrowthColumns(g: GrowthTable): nat
  {
    if |g.years| == 0 then 0 else |g.years| - 1
  }

  /** A code's growth row of the pivot. */
  function GrowthRow(rows: seq<FinRow>, code: string, ys: seq<int>): (r: seq<Float>)
    ensures |r| == (if |ys| == 0 then 0 else |ys| - 1)
  {
    if |ys| == 0 then []
    else seq(|ys| - 1, i requires 0 <= i < |ys| - 1 => GrowthValue(ProfitAt(rows, code, ys[i]), ProfitAt(rows, code, ys[i + 1])))
  }

  /**
   * `calculate_growth_rates`: an empty frame for empty input, None where
   * `pivot` raises on a repeated (code, year), else one row per code.
   */
  function GrowthRates(rows: seq<FinRow>): Option<GrowthTable>
  {
    if |rows| == 0 then Some(GrowthTable([], map[]))
    else if HasDuplicate(rows) then None
    else
      var ys := SortedYears(rows);
      Some(GrowthTable(ys, map c | c in CodeSet(rows) :: GrowthRow(rows, c, ys)))
  }

  /**
   * Every growth value is NaN or at least 5; the frame has a row for every
   * code of the input and a column for every year but the earliest; and a
   * code with a number for every year has a number in every column.
   */
  lemma GrowthRatesProps(rows: seq<FinRow>)
    ensures |rows| == 0 ==> GrowthRates(rows) == Some(GrowthTable([], map[]))
    ensures GrowthRates(rows).None? <==> HasDuplicate(rows)
    ensures GrowthRates(rows).Some? ==>
      var g := GrowthRates(rows).value;
      Increasing(g.years) && (forall y :: y in g.years <==> y in YearSet(rows)) &&
      g.growth.Keys == CodeSet(rows) &&
      (forall c :: c in g.growth ==> |g.growth[c]| == GrowthColumns(g)) &&
      (forall c, i :: c in g.growth && 0 <= i < |g.growth[c]| && g.growth[c][i].Fin? ==> g.growth[c][i].r >= 5.0)
    ensures GrowthRates(rows).Some? ==>
      var g := GrowthRates(rows).value;
      forall c :: c in g.growth && Complete(rows, c) ==> forall i :: 0 <= i < |g.growth[c]| ==> g.growth[c][i].Fin?
  {
    if GrowthRates(rows).Some? && |rows| > 0 {
      CompleteGrowthFinite(rows);
    }
  }

  /** The completeness half of `GrowthRatesProps`. */
  lemma CompleteGrowthFinite(rows: seq<FinRow>)
    requires GrowthRates(rows).Some? && |rows| > 0
    ensures var g := GrowthRates(rows).value;
      forall c :: c in g.growth && Complete(rows, c) ==> forall i :: 0 <= i < |g.growth[c]| ==> g.growth[c][i].Fin?
  {
    var g := GrowthRates(rows).value;
    forall c, i | c in g.growth && Complete(rows, c) && 0 <= i < |g.growth[c]|
      ensures g.growth[c][i].Fin?
    {
      var ys := g.years;
      assert ys[i] in YearSet(rows) && ys[i + 1] in YearSet(rows);
      ProfitAtFound(rows, c, ys[i]);
      ProfitAtFound(rows, c, ys[i + 1]);
    }
  }

  /** A code with a finite net profit for every year that occurs in the frame. */
  ghost predicate Complete(rows: seq<FinRow>, code: string)
  {
    forall y :: y in YearSet(rows) ==>
      exists i :: 0 <= i < |rows| && rows[i].code == code && rows[i].year == y && rows[i].netProfit.Fin?
  }

  // ---------------------------------------------------------------------------
  // Screening
  // ---------------------------------------------------------------------------

  /** A row of the merged frame: the finance row, its growth columns, and the valuation cells. */
  datatype Merged = Merged(fin: FinRow, growth: seq<Float>, pe: Float, dividend: Float)

  /** `x < k`, `x > k`, `x >= k` on a cell: false for NaN. */
  predicate Below(x: Float, k: real) { x.Fin? && x.r < k }
  predicate Above(x: Float, k: real) { x.Fin? && x.r > k }
  predicate AtLeast(x: Float, k: real) { x.Fin? && x.r >= k }

  /** `max(finance_df['年份'])` */
  function LatestYear(rows: seq<FinRow>): (y: int)
    requires |rows| > 0
    ensures exists i :: 0 <= i < |rows| && rows[i].year == y
    ensures forall i :: 0 <= i < |rows| ==> rows[i].year <= y
  {
    if |rows| == 1 then rows[0].year
    else
      var t := LatestYear(rows[1..]);
      assert forall i :: 1 <= i < |rows| ==> rows[i] == rows[1..][i - 1];
      if rows[0].year >= t then rows[0].year else t
  }

  /** The growth columns of a code after the left merge: NaN where the code has no growth row. */
  function GrowthOf(g: GrowthTable, code: string): (r: seq<Float>)
  {
    if code in g.growth then g.growth[code] else seq(GrowthColumns(g), _ => NaN)
  }

  /** The valuation rows a finance row joins on code and name. */
  function Matches(r: FinRow, vals: seq<ValRow>): seq<ValRow>
  {
    Filter(vals, (v: ValRow) => v.code == r.code && v.name == r.name)
  }

  /** The rows a left merge makes of one finance row: one per match, or one with NaN valuation cells. */
  function MergeRow(r: FinRow, g: GrowthTable, vals: seq<ValRow>): (out: seq<Merged>)
    ensures |out| > 0
    ensures forall m :: m in out ==> m.fin == r
  {
    var ms := Matches(r, vals);
    if |ms| == 0 then [Merged(r, GrowthOf(g, r.code), NaN, NaN)]
    else Map(ms, (v: ValRow) => Merged(r, GrowthOf(g, r.code), v.pe, v.dividend))
  }

  /** The two left merges, in the order of the finance rows. */
  function MergeAll(rows: seq<FinRow>, g: GrowthTable, vals: seq<ValRow>): (out: seq<Merged>)
    ensures |rows| > 0 ==> |out| > 0
    ensures forall m :: m in out ==> m.fin in rows
  {
    if |rows| == 0 then []
    else MergeRow(rows[0], g, vals) + MergeAll(rows[1..], g, vals)
  }

  /** The strict conditions. */
  predicate Strict(m: Merged)
  {
    Below(m.fin.debt, 85.0) && AtLeast(m.fin.cash, 0.0) && Above(m.pe, 0.0) && Below(m.pe, 80.0) &&
    Above(m.fin.roe, 10.0) && Above(m.fin.gross, 20.0) && Above(m.fin.current, 1.0) && Above(m.dividend, 1.5)
  }

  /** The growth condition on the two latest growth columns. */
  predicate GrowthOk(m: Merged)
  {
    |m.growth| >= 2 && Above(m.growth[|m.growth| - 1], 3.0) && Above(m.growth[|m.growth| - 2], 3.0)
  }

  /** The ultra-relaxed conditions: no dividend, no growth, lower bars. */
  predicate Ultra(m: Merged)
  {
    Below(m.fin.debt, 90.0) && AtLeast(m.fin.cash, 0.0) && Above(m.pe, 0.0) &&
    Above(m.fin.roe, 8.0) && Above(m.fin.gross, 15.0) && Above(m.fin.current, 0.8)
  }

  /** `sort_values('ROE(%)', ascending=False)`: larger ROE first, NaN last. */
  predicate RoeBefore(a: Merged, b: Merged)
  {
    b.fin.roe.NaN? || (a.fin.roe.Fin? && a.fin.roe.r >= b.fin.roe.r)
  }

  lemma RoeBeforeTotal()
    ensures TotalPreorder(RoeBefore)
  {
  }

  /** The strict stage, with the growth condition added when there are two growth columns and more than five rows. */
  function StrictStage(final: seq<Merged>, g: GrowthTable): seq<Merged>
  {
    var strict := Filter(final, Strict);
    if GrowthColumns(g) >= 2 && |strict| > 5 then Filter(final, (m: Merged) => Strict(m) && GrowthOk(m))
    else strict
  }

  /** The cascade: the strict stage, else the ultra-relaxed rows by ROE, else the top five by ROE. */
  function Cascade(final: seq<Merged>, g: GrowthTable): seq<Merged>
  {
    var hq := StrictStage(final, g);
    if |hq| > 0 then hq
    else
      var ultra := Filter(final, Ultra);
      if |ultra| > 0 then SortBy(ultra, RoeBefore)
      else Take(SortBy(final, RoeBefore), 5)
  }

  /** The merged frame of `screen_high_quality_stocks`: the latest year's rows, merged. */
  function FinalFrame(finance: seq<FinRow>, g: GrowthTable, vals: seq<ValRow>): seq<Merged>
    requires |finance| > 0
  {
    var ly := LatestYear(finance);
    MergeAll(Filter(finance, (r: FinRow) => r.year == ly), g, vals)
  }

  /** `screen_high_quality_stocks` */
  function Screen(finance: seq<FinRow>, g: GrowthTable, vals: seq<ValRow>): seq<Merged>
  {
    if |finance| == 0 || g.growth == map[] || |vals| == 0 then []
    else Cascade(FinalFrame(finance, g, vals), g)
  }

  lemma StrictImpliesUltra(m: Merged)
    ensures Strict(m) ==> Ultra(m)
  {
  }

  /** The strict stage keeps rows of the frame that meet the strict, and so the ultra-relaxed, conditions. */
  lemma StrictStageProps(final: seq<Merged>, g: GrowthTable)
    ensures forall m :: m in StrictStage(final, g) ==> m in final && Strict(m) && Ultra(m)
    ensures GrowthColumns(g) >= 2 && |Filter(final, Strict)| > 5 ==>
      forall m :: m in StrictStage(final, g) ==> GrowthOk(m)
  {
    forall m | m in StrictStage(final, g)
      ensures Ultra(m)
    {
      StrictImpliesUltra(m);
    }
  }

  /**
   * The cascade keeps rows of the merged frame only; a non-empty frame gives a
   * non-empty result; each stage's rows meet that stage's conditions, and a
   * later stage is reached only when the earlier ones kept nothing. The last
   * stage keeps min(5, |final|) rows, and no row left out has a higher ROE
   * than a kept one.
   */
  lemma CascadeProps(final: seq<Merged>, g: GrowthTable)
    ensures var r := Cascade(final, g);
      (forall m :: m in r ==> m in final) &&
      (|final| > 0 ==> |r| > 0) &&
      (|StrictStage(final, g)| > 0 ==> r == StrictStage(final, g) && forall m :: m in r ==> Strict(m)) &&
      (|StrictStage(final, g)| > 0 && GrowthColumns(g) >= 2 && |Filter(final, Strict)| > 5 ==>
        forall m :: m in r ==> GrowthOk(m)) &&
      ((forall m :: m in r ==> Ultra(m)) || (forall m :: m in final ==> !Ultra(m))) &&
      (|StrictStage(final, g)| == 0 && (exists m :: m in final && Ultra(m)) ==>
        SortedBy(r, RoeBefore) && forall m :: m in r <==> m in final && Ultra(m)) &&
      ((forall m :: m in final ==> !Ultra(m)) ==>
        |r| == Min(5, |final|) && SortedBy(r, RoeBefore) &&
        forall x, i :: x in final && x !in r && 0 <= i < |r| ==> RoeBefore(r[i], x))
  {
    RoeBeforeTotal();
    var hq := StrictStage(final, g);
    var ultra := Filter(final, Ultra);
    if |hq| == 0 {
      SortByMembers(ultra, RoeBefore);
      SortByCorrect(ultra, RoeBefore);
      SortByMembers(final, RoeBefore);
      SortByCorrect(final, RoeBefore);
      TopOfSorted(final, 5, RoeBefore);
      if |final| > 0 && |ultra| == 0 {
        assert final[0] in SortBy(final, RoeBefore);
      }
      if |ultra| > 0 {
        assert ultra[0] in SortBy(ultra, RoeBefore);
      }
      forall m | m in Take(SortBy(final, RoeBefore), 5)
        ensures m in final
      {
      }
    } else {
      StrictStageProps(final, g);
      assert hq[0] in hq;
    }
  }

  /**
   * Any empty input frame gives an empty result; otherwise the result is not
   * empty and holds only rows of the latest year.
   */
  lemma ScreenProps(finance: seq<FinRow>, g: GrowthTable, vals: seq<ValRow>)
    ensures |finance| == 0 || g.growth == map[] || |vals| == 0 ==> Screen(finance, g, vals) == []
    ensures |finance| > 0 && g.growth != map[] && |vals| > 0 ==>
      |Screen(finance, g, vals)| > 0 &&
      forall m :: m in Screen(finance, g, vals) ==> m.fin in finance && m.fin.year == LatestYear(finance)
  {
    if |finance| > 0 && g.growth != map[] && |vals| > 0 {
      var ly := LatestYear(finance);
      var latest := Filter(finance, (r: FinRow) => r.year == ly);
      var i :| 0 <= i < |finance| && finance[i].year == ly;
      assert finance[i] in latest;
      CascadeProps(FinalFrame(finance, g, vals), g);
    }
  }
}
