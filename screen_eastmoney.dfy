// stock_screeners/stock_screeners_eastmoney.py: the screener over the cached
// eastmoney fundamentals. `clean_data` strips the column names, coerces the
// numeric columns and drops ST stocks; `screen_stocks` removes PE/PB outliers
// by the IQR rule, keeps the stocks that pass the strict conditions (or the
// relaxed ones when fewer than 20 pass), scores them against the medians of
// the whole frame, clips the score to [0, 100], sorts by it and keeps at most
// 50; `save_to_json` lists each stock's zero-padded code and name.

module ScreenEastmoney {
  import opened Py
  import opened Strings
  import opened Tables
  import opened FinanceExtract

  // ---------------------------------------------------------------------------
  // clean_data
  // ---------------------------------------------------------------------------

  /** `numeric_columns` */
  const NumericColumns: seq<string> := ["每股收益", "每股净资产", "净资产收益率", "总资产收益率",
    "毛利率", "净利率", "营业利润率", "市盈率（静）", "市盈率（TTM）", "市净率", "市销率", "股息率",
    "营业收入增长率", "净利润增长率", "净资产增长率", "净利润增速", "资产负债率", "流动比率",
    "总资产周转率", "存货周转率", "应收账款周转率", "每股经营现金流", "现金流量比率"]

  const NameColumn := "股票名称"
  const CodeColumn := "股票代码"

  /** One cell of a column: coerced to a number in a numeric column, kept otherwise. */
  function CoerceCell(col: string, c: Cell): (r: Cell)
    ensures col in NumericColumns ==> r == CNum(CellToNumeric(c))
    ensures col !in NumericColumns ==> r == c
  {
    if col in NumericColumns then CNum(CellToNumeric(c)) else c
  }

  /** A row after the numeric columns are coerced. */
  function CoerceRow(cols: seq<string>, row: seq<Cell>): (r: seq<Cell>)
    ensures |r| == |row|
    ensures forall i :: 0 <= i < |row| ==> r[i] == if i < |cols| then CoerceCell(cols[i], row[i]) else row[i]
  {
    seq(|row|, i requires 0 <= i < |row| => if i < |cols| then CoerceCell(cols[i], row[i]) else row[i])
  }

  /** The coercion of every row under the given (stripped) columns, as a function value. */
  function Coercion(cols: seq<string>): seq<Cell> -> seq<Cell>
  {
    row => CoerceRow(cols, row)
  }

  /** `~df['股票名称'].str.contains('ST')` on a name that is text. */
  predicate NotST(k: nat, row: seq<Cell>)
  {
    CellAt(row, k).CStr? && !Contains(CellAt(row, k).s, "ST")
  }

  /**
   * `clean_data`: None where it raises, that is when there is no name column
   * or a name is not text (`.str.contains` gives NaN there and `~` raises);
   * otherwise the stripped columns and the coerced rows without ST names.
   */
  function CleanData(f: Frame): Option<Frame>
  {
    var cols := Map(f.columns, Strip);
    var rows := Map(f.rows, Coercion(cols));
    var k := ColumnIndex(cols, NameColumn);
    if NameColumn !in cols then None
    else if exists i :: 0 <= i < |rows| && !CellAt(rows[i], k).CStr? then None
    else Some(Frame(cols, Filter(rows, row => NotST(k, row))))
  }

  /**
   * `clean_data` raises exactly when there is no name column after stripping
   * or a name cell is not text. Otherwise the columns are the stripped names,
   * every kept row is a coerced input row whose name does not contain "ST",
   * every such row is kept, and each numeric column of a kept row holds a
   * number.
   */
  lemma CleanDataProps(f: Frame)
    ensures var cols := Map(f.columns, Strip);
      CleanData(f).None? <==>
        NameColumn !in cols || exists i :: 0 <= i < |f.rows| && !CellAt(f.rows[i], ColumnIndex(cols, NameColumn)).CStr?
    ensures CleanData(f).Some? ==>
      var cols := Map(f.columns, Strip);
      var k := ColumnIndex(cols, NameColumn);
      var g := CleanData(f).value;
      g.columns == cols && |g.rows| <= |f.rows| &&
      (forall row :: row in g.rows <==> exists i :: 0 <= i < |f.rows| && row == CoerceRow(cols, f.rows[i]) && NotST(k, row))
    ensures CleanData(f).Some? ==>
      var cols := Map(f.columns, Strip);
      forall row: seq<Cell>, j :: row in CleanData(f).value.rows && 0 <= j < |row| && j < |cols| && cols[j] in NumericColumns ==>
        row[j].CNum?
  {
    NameCellsKept(f);
    if CleanData(f).Some? {
      CleanDataRows(f);
    }
  }

  /** Coercion leaves the name cells as they were, since the name column is not numeric. */
  lemma NameCellsKept(f: Frame)
    ensures var cols := Map(f.columns, Strip);
      var rows := Map(f.rows, Coercion(cols));
      NameColumn in cols ==>
        forall i :: 0 <= i < |f.rows| ==>
          CellAt(rows[i], ColumnIndex(cols, NameColumn)) == CellAt(f.rows[i], ColumnIndex(cols, NameColumn))
  {
    var cols := Map(f.columns, Strip);
    var rows := Map(f.rows, Coercion(cols));
    var k := ColumnIndex(cols, NameColumn);
    if NameColumn in cols {
      assert NameColumn !in NumericColumns;
      forall i | 0 <= i < |f.rows|
        ensures CellAt(rows[i], k) == CellAt(f.rows[i], k)
      {
        assert rows[i] == CoerceRow(cols, f.rows[i]);
        if k < |f.rows[i]| {
          assert rows[i][k] == CoerceCell(cols[k], f.rows[i][k]);
        }
      }
    }
  }

  /** The kept rows are the coerced input rows without ST names. */
  lemma CleanDataRows(f: Frame)
    requires CleanData(f).Some?
    ensures var cols := Map(f.columns, Strip);
      var k := ColumnIndex(cols, NameColumn);
      forall row :: row in CleanData(f).value.rows <==>
        exists i :: 0 <= i < |f.rows| && row == CoerceRow(cols, f.rows[i]) && NotST(k, row)
  {
    var cols := Map(f.columns, Strip);
    var rows := Map(f.rows, Coercion(cols));
    assert forall i :: 0 <= i < |f.rows| ==> rows[i] == CoerceRow(cols, f.rows[i]);
  }

  // ---------------------------------------------------------------------------
  // Quantiles
  // ---------------------------------------------------------------------------

  predicate RealLe(a: real, b: real) { a <= b }

  lemma RealLeTotal()
    ensures TotalPreorder(RealLe)
  {
  }

  /** The values of a column that are not NaN, in order. */
  function Finite(xs: seq<Float>): (r: seq<real>)
    ensures |r| <= |xs|
    ensures forall v :: v in r <==> Fin(v) in xs
  {
    if |xs| == 0 then []
    else (if xs[0].Fin? then [xs[0].r] else []) + Finite(xs[1..])
  }

  lemma MulWithin(d: real, t: real)
    requires d >= 0.0 && 0.0 <= t <= 1.0
    ensures 0.0 <= d * t <= d
  {
    assert d * (1.0 - t) >= 0.0;
  }

  lemma AddWithin(a: real, e: real, d: real)
    requires 0.0 <= e <= d
    ensures a <= a + e <= a + d
  {
  }

  /** Linear interpolation between a and b stays between them. */
  lemma Between(a: real, b: real, t: real)
    requires a <= b && 0.0 <= t <= 1.0
    ensures a <= a + (b - a) * t <= b
  {
    var d := b - a;
    MulWithin(d, t);
    AddWithin(a, d * t, d);
  }

  /** The position `q * (n - 1)` of pandas' linear interpolation, and its integer part. */
  function Position(q: real, n: nat): (p: (real, nat))
    requires 0.0 <= q <= 1.0 && n > 0
    ensures 0.0 <= p.0 <= (n - 1) as real && p.1 < n
    ensures p.1 as real <= p.0 < p.1 as real + 1.0
  {
    var m := (n - 1) as real;
    MulWithin(m, q);
    var pos := q * m;
    (pos, pos.Floor)
  }

  /** Linear interpolation of sorted values at position q * (n - 1). */
  function Interpolate(v: seq<real>, q: real): real
    requires 0.0 <= q <= 1.0 && |v| > 0
  {
    var p := Position(q, |v|);
    var i := p.1;
    if i + 1 < |v| then v[i] + (v[i + 1] - v[i]) * (p.0 - i as real) else v[i]
  }

  /**
   * On sorted values the interpolation lies between the first and the last,
   * and is the first at q = 0 and the last at q = 1.
   */
  lemma InterpolateWithin(v: seq<real>, q: real)
    requires 0.0 <= q <= 1.0 && |v| > 0 && SortedBy(v, RealLe)
    ensures v[0] <= Interpolate(v, q) <= v[|v| - 1]
    ensures q == 0.0 ==> Interpolate(v, q) == v[0]
    ensures q == 1.0 ==> Interpolate(v, q) == v[|v| - 1]
  {
    var p := Position(q, |v|);
    var i := p.1;
    SortedEnds(v, i);
    if i + 1 < |v| {
      SortedEnds(v, i + 1);
      Between(v[i], v[i + 1], p.0 - i as real);
      assert RealLe(v[i], v[i + 1]);
    }
    if q == 0.0 {
      InterpolateAtZero(v);
    }
  }

  /** In sorted values every value lies between the first and the last. */
  lemma SortedEnds(v: seq<real>, i: nat)
    requires i < |v| && SortedBy(v, RealLe)
    ensures v[0] <= v[i] <= v[|v| - 1]
  {
    if 0 < i {
      assert RealLe(v[0], v[i]);
    }
    if i < |v| - 1 {
      assert RealLe(v[i], v[|v| - 1]);
    }
  }

  /** At q = 0 the position is 0 and the interpolation is the first value. */
  lemma InterpolateAtZero(v: seq<real>)
    requires |v| > 0
    ensures Interpolate(v, 0.0) == v[0]
  {
    var p := Position(0.0, |v|);
    assert p.0 == 0.0 && p.1 == 0;
    if 1 < |v| {
      assert (v[1] - v[0]) * 0.0 == 0.0;
    }
  }

  /**
   * `Series.quantile(q)`: NaN when no value is finite; otherwise the sorted
   * finite values interpolated linearly.
   */
  function Quantile(xs: seq<Float>, q: real): Float
    requires 0.0 <= q <= 1.0
  {
    var v := SortBy(Finite(xs), RealLe);
    if |v| == 0 then NaN else Fin(Interpolate(v, q))
  }

  /** The sorted finite values run from the smallest finite value to the largest. */
  lemma SortedFinite(xs: seq<Float>)
    ensures var v := SortBy(Finite(xs), RealLe);
      |v| == |Finite(xs)| && SortedBy(v, RealLe) &&
      (|v| > 0 ==>
        v[0] in Finite(xs) && v[|v| - 1] in Finite(xs) &&
        forall u :: u in Finite(xs) ==> v[0] <= u <= v[|v| - 1])
  {
    RealLeTotal();
    var fs := Finite(xs);
    var v := SortBy(fs, RealLe);
    SortByCorrect(fs, RealLe);
    SortByMembers(fs, RealLe);
    if |v| > 0 {
      assert v[0] in v && v[|v| - 1] in v;
      forall u | u in fs
        ensures v[0] <= u <= v[|v| - 1]
      {
        var j :| 0 <= j < |v| && v[j] == u;
        if 0 < j { assert RealLe(v[0], v[j]); }
        if j < |v| - 1 { assert RealLe(v[j], v[|v| - 1]); }
      }
    }
  }

  /**
   * A quantile is NaN exactly when the column has no finite value; otherwise
   * it lies between the smallest and the largest finite value, q = 0 gives
   * the smallest and q = 1 the largest.
   */
  lemma QuantileProps(xs: seq<Float>, q: real)
    requires 0.0 <= q <= 1.0
    ensures Quantile(xs, q).NaN? <==> |Finite(xs)| == 0
    ensures Quantile(xs, q).Fin? ==>
      (exists v :: v in Finite(xs) && v <= Quantile(xs, q).r) &&
      (exists v :: v in Finite(xs) && Quantile(xs, q).r <= v)
    ensures Quantile(xs, q).Fin? ==>
      ((q == 0.0 ==> Quantile(xs, q).r in Finite(xs) && forall v :: v in Finite(xs) ==> Quantile(xs, q).r <= v) &&
       (q == 1.0 ==> Quantile(xs, q).r in Finite(xs) && forall v :: v in Finite(xs) ==> v <= Quantile(xs, q).r))
  {
    SortedFinite(xs);
    var v := SortBy(Finite(xs), RealLe);
    if |v| > 0 {
      InterpolateWithin(v, q);
    }
  }

  // ---------------------------------------------------------------------------
  // screen_stocks
  // ---------------------------------------------------------------------------

  const PeColumn := "市盈率（TTM）"
  const PbColumn := "市净率"
  const RoeColumn := "净资产收益率"
  const GrossColumn := "毛利率"
  const NetColumn := "净利率"
  const DebtColumn := "资产负债率"
  const CurrentColumn := "流动比率"

  /** The columns `screen_stocks` reads; a missing one is a KeyError. */
  const ScreenColumns: seq<string> := [PeColumn, PbColumn, RoeColumn, GrossColumn, NetColumn, DebtColumn, CurrentColumn]

  /** A row of the cleaned frame with the seven figures the screen reads. */
  datatype Stock = Stock(row: seq<Cell>, pe: Float, pb: Float, roe: Float, gross: Float, net: Float, debt: Float, current: Float)

  /** The positions of the seven columns. */
  datatype Layout = Layout(pe: nat, pb: nat, roe: nat, gross: nat, net: nat, debt: nat, current: nat)

  function LayoutOf(cols: seq<string>): Layout
  {
    Layout(ColumnIndex(cols, PeColumn), ColumnIndex(cols, PbColumn), ColumnIndex(cols, RoeColumn),
      ColumnIndex(cols, GrossColumn), ColumnIndex(cols, NetColumn), ColumnIndex(cols, DebtColumn),
      ColumnIndex(cols, CurrentColumn))
  }

  /** A cell read as a float column value. */
  function NumAt(row: seq<Cell>, i: nat): Float
  {
    CellToNumeric(CellAt(row, i))
  }

  function ToStock(l: Layout, row: seq<Cell>): Stock
  {
    Stock(row, NumAt(row, l.pe), NumAt(row, l.pb), NumAt(row, l.roe), NumAt(row, l.gross),
      NumAt(row, l.net), NumAt(row, l.debt), NumAt(row, l.current))
  }

  function Stocks(f: Frame): seq<Stock>
  {
    var l := LayoutOf(f.columns);
    Map(f.rows, row => ToStock(l, row))
  }

  function Pes(s: seq<Stock>): seq<Float> { Map(s, (x: Stock) => x.pe) }
  function Pbs(s: seq<Stock>): seq<Float> { Map(s, (x: Stock) => x.pb) }
  function Roes(s: seq<Stock>): seq<Float> { Map(s, (x: Stock) => x.roe) }
  function Grosses(s: seq<Stock>): seq<Float> { Map(s, (x: Stock) => x.gross) }
  function Nets(s: seq<Stock>): seq<Float> { Map(s, (x: Stock) => x.net) }
  function Debts(s: seq<Stock>): seq<Float> { Map(s, (x: Stock) => x.debt) }
  function Currents(s: seq<Stock>): seq<Float> { Map(s, (x: Stock) => x.current) }

  /** `x - 1.5 * y` and `x + 1.5 * y` with NaN propagating. */
  function Fence(q1: Float, q3: Float): (r: (Float, Float))
    ensures r.0.Fin? <==> q1.Fin? && q3.Fin?
    ensures r.1.Fin? <==> q1.Fin? && q3.Fin?
    ensures q1.Fin? && q3.Fin? ==> r.0.r == q1.r - 1.5 * (q3.r - q1.r) && r.1.r == q3.r + 1.5 * (q3.r - q1.r)
  {
    if q1.NaN? || q3.NaN? then (NaN, NaN)
    else (Fin(q1.r - 1.5 * (q3.r - q1.r)), Fin(q3.r + 1.5 * (q3.r - q1.r)))
  }

  /** `Q1 - 1.5 IQR` and `Q3 + 1.5 IQR` of a column. */
  function IqrFence(xs: seq<Float>): (Float, Float)
  {
    Fence(Quantile(xs, 0.25), Quantile(xs, 0.75))
  }

  /** `(x >= lo) & (x <= hi)`; every comparison with NaN is false. */
  predicate Within(x: Float, fence: (Float, Float))
  {
    x.Fin? && fence.0.Fin? && fence.1.Fin? && fence.0.r <= x.r <= fence.1.r
  }

  /**
   * The outlier filter of `screen_stocks`: it keeps exactly the stocks whose
   * PE and PB lie within their columns' IQR fences.
   */
  function IqrFiltered(s: seq<Stock>): (r: seq<Stock>)
    ensures |r| <= |s|
    ensures forall x :: x in r <==> x in s && Within(x.pe, IqrFence(Pes(s))) && Within(x.pb, IqrFence(Pbs(s)))
  {
    var pe := IqrFence(Pes(s));
    var pb := IqrFence(Pbs(s));
    Filter(s, (x: Stock) => Within(x.pe, pe) && Within(x.pb, pb))
  }

  /** A column's quantile thresholds of the selection, computed on the filtered stocks. */
  datatype Thresholds = Thresholds(roe: Float, gross: Float, net: Float, debt: Float, current: Float)

  function StrictThresholds(f: seq<Stock>): Thresholds
  {
    Thresholds(Quantile(Roes(f), 0.6), Quantile(Grosses(f), 0.6), Quantile(Nets(f), 0.6),
      Quantile(Debts(f), 0.8), Quantile(Currents(f), 0.4))
  }

  function RelaxedThresholds(f: seq<Stock>): Thresholds
  {
    Thresholds(Quantile(Roes(f), 0.5), Quantile(Grosses(f), 0.5), Quantile(Nets(f), 0.5),
      Quantile(Debts(f), 0.9), NaN)
  }

  /** The strict conditions: positive PE and PB, one strong profitability figure, low debt, good liquidity. */
  predicate StrictOk(x: Stock, t: Thresholds)
  {
    Gt(x.pe, Fin(0.0)) && Gt(x.pb, Fin(0.0)) &&
    (Gt(x.roe, t.roe) || Gt(x.gross, t.gross) || Gt(x.net, t.net)) &&
    Gt(t.debt, x.debt) && Gt(x.current, t.current)
  }

  /** The relaxed conditions: as the strict ones at lower quantiles, without the liquidity test. */
  predicate RelaxedOk(x: Stock, t: Thresholds)
  {
    Gt(x.pe, Fin(0.0)) && Gt(x.pb, Fin(0.0)) &&
    (Gt(x.roe, t.roe) || Gt(x.gross, t.gross) || Gt(x.net, t.net)) &&
    Gt(t.debt, x.debt)
  }

  /**
   * The stocks selected from the filtered ones: the strict set, or the
   * relaxed set when it has fewer than 20. Every selected stock is one of the
   * filtered ones and passes the strict or the relaxed conditions; with 20 or
   * more strict passes, the selection is exactly those, and otherwise it is
   * exactly the relaxed passes.
   */
  function Selected(f: seq<Stock>): (r: seq<Stock>)
    ensures forall x :: x in r ==> x in f && (StrictOk(x, StrictThresholds(f)) || RelaxedOk(x, RelaxedThresholds(f)))
    ensures |Filter(f, x => StrictOk(x, StrictThresholds(f)))| >= 20 ==> r == Filter(f, x => StrictOk(x, StrictThresholds(f)))
    ensures |Filter(f, x => StrictOk(x, StrictThresholds(f)))| < 20 ==> r == Filter(f, x => RelaxedOk(x, RelaxedThresholds(f)))
  {
    var st := StrictThresholds(f);
    var strict := Filter(f, x => StrictOk(x, st));
    if |strict| < 20 then
      var rt := RelaxedThresholds(f);
      Filter(f, x => RelaxedOk(x, rt))
    else strict
  }

  /** Multiplication by a positive weight. */
  function Times(x: Extended, w: real): Extended
    requires w > 0.0
  {
    match x
    case ENaN => ENaN
    case Inf(p) => Inf(p)
    case Num(r) => Num(r * w)
  }

  /** Float addition: inf + -inf is NaN. */
  function Plus(x: Extended, y: Extended): Extended
  {
    match (x, y)
    case (ENaN, _) => ENaN
    case (_, ENaN) => ENaN
    case (Inf(p), Inf(q)) => if p == q then Inf(p) else ENaN
    case (Inf(p), Num(_)) => Inf(p)
    case (Num(_), Inf(q)) => Inf(q)
    case (Num(a), Num(b)) => Num(a + b)
  }

  /** `x + 1` on a float column. */
  function Inc(x: Float): Float
  {
    if x.NaN? then NaN else Fin(x.r + 1.0)
  }

  /**
   * `clip(0, 100)`: NaN stays NaN, +inf becomes 100 and -inf 0, and a value
   * within [0, 100] is kept.
   */
  function Clip(x: Extended): (r: Float)
    ensures r.NaN? <==> x.ENaN?
    ensures r.Fin? ==> 0.0 <= r.r <= 100.0
    ensures x.Num? && 0.0 <= x.r <= 100.0 ==> r == Fin(x.r)
    ensures x.Inf? ==> r == Fin(if x.positive then 100.0 else 0.0)
  {
    match x
    case ENaN => NaN
    case Inf(p) => Fin(if p then 100.0 else 0.0)
    case Num(v) => Fin(if v < 0.0 then 0.0 else if v > 100.0 then 100.0 else v)
  }

  /** The medians of the whole cleaned frame that the score compares against. */
  datatype Medians = Medians(pe: Float, pb: Float, roe: Float, gross: Float, net: Float, debt: Float)

  function MediansOf(s: seq<Stock>): Medians
  {
    Medians(Quantile(Pes(s), 0.5), Quantile(Pbs(s), 0.5), Quantile(Roes(s), 0.5),
      Quantile(Grosses(s), 0.5), Quantile(Nets(s), 0.5), Quantile(Debts(s), 0.5))
  }

  /** `综合评分` before clipping. */
  function RawScore(x: Stock, m: Medians): Extended
  {
    Plus(Plus(Plus(Plus(Plus(
      Times(FloatDiv(m.pe, Inc(x.pe)), 20.0),
      Times(FloatDiv(m.pb, Inc(x.pb)), 20.0)),
      Times(FloatDiv(x.roe, Inc(m.roe)), 20.0)),
      Times(FloatDiv(x.gross, Inc(m.gross)), 15.0)),
      Times(FloatDiv(x.net, Inc(m.net)), 15.0)),
      Times(FloatDiv(Inc(m.debt), Inc(x.debt)), 10.0))
  }

  /** A selected stock with its clipped score. */
  datatype Scored = Scored(stock: Stock, score: Float)

  function ScoreAll(s: seq<Stock>, m: Medians): (r: seq<Scored>)
    ensures |r| == |s|
    ensures forall i :: 0 <= i < |s| ==> r[i] == Scored(s[i], Clip(RawScore(s[i], m)))
  {
    Map(s, x => Scored(x, Clip(RawScore(x, m))))
  }

  /** `sort_values('综合评分', ascending=False)`: higher scores first, NaN last. */
  predicate ScoreBefore(a: Scored, b: Scored)
  {
    b.score.NaN? || (a.score.Fin? && a.score.r >= b.score.r)
  }

  lemma ScoreBeforeTotal()
    ensures TotalPreorder(ScoreBefore)
  {
  }

  /** What `screen_stocks` gives: None (no frame or an empty one), a KeyError, or the selection. */
  datatype ScreenOutcome = NoResult | MissingColumn | Screened(rows: seq<Scored>)

  /** `screen_stocks` */
  function ScreenStocks(df: Option<Frame>): ScreenOutcome
  {
    if df.None? || Empty(df.value) then NoResult
    else if exists c :: c in ScreenColumns && c !in df.value.columns then MissingColumn
    else
      var all := Stocks(df.value);
      Screened(ScreenRows(IqrFiltered(all), MediansOf(all)))
  }

  /** The rows a screen returns from the filtered stocks: none selected gives none. */
  function ScreenRows(f: seq<Stock>, m: Medians): seq<Scored>
  {
    var selected := Selected(f);
    if |selected| == 0 then [] else Ranked(selected, m)
  }

  /** The scored stocks sorted by score and cut to 50. */
  function Ranked(s: seq<Stock>, m: Medians): seq<Scored>
  {
    Take(SortBy(ScoreAll(s, m), ScoreBefore), 50)
  }

  /**
   * min(50, |s|) stocks come back, sorted by score with NaN last, each score NaN
   * or within [0, 100], each one of the stocks that were scored, and no scored
   * stock left out ranks before one that was kept.
   */
  lemma RankedProps(s: seq<Stock>, m: Medians)
    ensures |Ranked(s, m)| == Min(50, |s|) && SortedBy(Ranked(s, m), ScoreBefore)
    ensures forall x :: x in Ranked(s, m) ==> x.score.NaN? || 0.0 <= x.score.r <= 100.0
    ensures forall x :: x in Ranked(s, m) ==> x.stock in s
    ensures forall x, i :: x in ScoreAll(s, m) && x !in Ranked(s, m) && 0 <= i < |Ranked(s, m)| ==> ScoreBefore(Ranked(s, m)[i], x)
  {
    var scored := ScoreAll(s, m);
    ScoreBeforeTotal();
    SortByCorrect(scored, ScoreBefore);
    TopOfSorted(scored, 50, ScoreBefore);
    var r := Take(SortBy(scored, ScoreBefore), 50);
    forall x | x in scored
      ensures x.stock in s && (x.score.NaN? || 0.0 <= x.score.r <= 100.0)
    {
      var i :| 0 <= i < |scored| && scored[i] == x;
    }
  }

  /**
   * A missing or empty frame gives None and a missing column a KeyError.
   * Otherwise min(50, selected) stocks come back, sorted by score (higher
   * first, NaN last), each score NaN or within [0, 100], each stock one of the
   * frame's that passed the outlier filter and the strict or relaxed
   * conditions; when 20 or more pass the strict conditions, every one returned
   * passes them; and no selected stock left out ranks before one returned.
   */
  lemma ScreenProps(df: Option<Frame>)
    ensures df.None? || Empty(df.value) ==> ScreenStocks(df) == NoResult
    ensures df.Some? && !Empty(df.value) ==>
      (ScreenStocks(df) == MissingColumn <==> exists c :: c in ScreenColumns && c !in df.value.columns)
    ensures ScreenStocks(df).Screened? ==>
      var r := ScreenStocks(df).rows;
      var f := IqrFiltered(Stocks(df.value));
      |r| <= 50 && SortedBy(r, ScoreBefore) &&
      (forall x :: x in r ==> x.score.NaN? || 0.0 <= x.score.r <= 100.0) &&
      (forall x :: x in r ==> x.stock in f && (StrictOk(x.stock, StrictThresholds(f)) || RelaxedOk(x.stock, RelaxedThresholds(f)))) &&
      (|Filter(f, x => StrictOk(x, StrictThresholds(f)))| >= 20 ==> forall x :: x in r ==> StrictOk(x.stock, StrictThresholds(f))) &&
      |r| == Min(50, |Selected(f)|) &&
      forall x, i :: 0 <= i < |r| && x in ScoreAll(Selected(f), MediansOf(Stocks(df.value))) && x !in r ==> ScoreBefore(r[i], x)
  {
    if ScreenStocks(df).Screened? {
      var all := Stocks(df.value);
      ScreenRowsProps(IqrFiltered(all), MediansOf(all));
    }
  }

  /** The screen's rows from the filtered stocks f, as `ScreenProps` states them. */
  lemma ScreenRowsProps(f: seq<Stock>, m: Medians)
    ensures var r := ScreenRows(f, m);
      |r| <= 50 && SortedBy(r, ScoreBefore) &&
      (forall x :: x in r ==> x.score.NaN? || 0.0 <= x.score.r <= 100.0) &&
      (forall x :: x in r ==> x.stock in f && (StrictOk(x.stock, StrictThresholds(f)) || RelaxedOk(x.stock, RelaxedThresholds(f)))) &&
      (|Filter(f, x => StrictOk(x, StrictThresholds(f)))| >= 20 ==> forall x :: x in r ==> StrictOk(x.stock, StrictThresholds(f))) &&
      |r| == Min(50, |Selected(f)|) &&
      forall x, i :: x in ScoreAll(Selected(f), m) && x !in r && 0 <= i < |r| ==> ScoreBefore(r[i], x)
  {
    var selected := Selected(f);
    if |selected| > 0 {
      RankedProps(selected, m);
    }
  }

  // ---------------------------------------------------------------------------
  // save_to_json
  // ---------------------------------------------------------------------------

  /**
   * Python `str` of a code cell as read from the cache: the text itself, or
   * the decimals of a whole number; "nan" and "None" for missing values.
   */
  function CodeText(c: Cell): string
  {
    match c
    case CStr(s) => s
    case CNone => "None"
    case CNum(f) =>
      if f.NaN? then "nan"
      else if f.r.Floor as real == f.r && f.r >= 0.0 then NatToString(f.r.Floor as nat)
      else ""
  }

  /** One entry of `stocks`: the code padded to six characters, and the name cell. */
  datatype Entry = Entry(code: string, name: Cell)

  /** The JSON document without its generation time. */
  datatype Document = Document(total: nat, stocks: seq<Entry>)

  /** `row.get(col, '')` */
  function RowGet(cols: seq<string>, row: seq<Cell>, col: string): Cell
  {
    if col in cols then CellAt(row, ColumnIndex(cols, col)) else CStr("")
  }

  function EntryOf(cols: seq<string>, row: seq<Cell>): Entry
  {
    Entry(ZFill(CodeText(RowGet(cols, row, CodeColumn)), 6), RowGet(cols, row, NameColumn))
  }

  /** The entries of `save_to_json`'s loop, one per row in order, as a function value. */
  function EntryFn(cols: seq<string>): seq<Cell> -> Entry
  {
    row => EntryOf(cols, row)
  }

  /**
   * A whole-number code comes out as its decimals padded with zeros to six
   * characters; a code of six digits or more is kept as it is.
   */
  lemma EntryCode(cols: seq<string>, row: seq<Cell>, n: nat)
    requires RowGet(cols, row, CodeColumn) == CNum(Fin(n as real))
    ensures var code := EntryOf(cols, row).code;
      |code| >= 6 && AllDigits(code) && code[|code| - |NatToString(n)|..] == NatToString(n) &&
      (forall i :: 0 <= i < |code| - |NatToString(n)| ==> code[i] == '0')
  {
    assert (n as real).Floor == n;
    NatToStringDigits(n);
    var s := NatToString(n);
    assert |s| == 0 || (s[0] != '-' && s[0] != '+');
    ZFillUnsigned(s, 6);
    ZFillDigits(s, 6);
  }

  /** `save_to_json`: the loop builds `stock_list`; `total_stocks` is its length. */
  method SaveToJson(f: Frame) returns (doc: Document)
    ensures doc.stocks == Map(f.rows, EntryFn(f.columns))
    ensures doc.total == |doc.stocks| == |f.rows|
  {
    var list: seq<Entry> := [];
    var i := 0;
    while i < |f.rows|
      invariant 0 <= i <= |f.rows|
      invariant list == Map(f.rows[..i], EntryFn(f.columns))
    {
      MapSnoc(f.rows, i, EntryFn(f.columns));
      list := list + [EntryOf(f.columns, f.rows[i])];
      i := i + 1;
    }
    assert f.rows[..i] == f.rows;
    doc := Document(|list|, list);
  }
}
