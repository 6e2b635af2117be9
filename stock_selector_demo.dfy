// The strategy selector demo on simulated data: a table of 50 stocks whose
// metrics are normal draws clipped to fixed ranges, then overwritten for six
// well-known stocks; five strategy filters that each keep the best eight; a
// dividend strategy that writes a simulated yield column into the shared table;
// and the merge of all picks into at most thirty rows with distinct codes.
// The random draws are a parameter (`Sampler`).

module StockSelectorDemo {
  import opened Py
  import opened Strings
  import opened Tables

  /** One row of the demo table; `dividendYield` is absent until the dividend strategy writes it. */
  datatype DemoRow = DemoRow(code: string, name: string, price: real, marketCap: real,
                             pe: real, pb: real, roe: real, debtRatio: real,
                             revenueGrowth: real, profitGrowth: real, currentRatio: real,
                             dividendYield: Option<real>)

  /** The columns the overrides write. */
  datatype Metric = Pe | Pb | Roe | DebtRatio | RevenueGrowth | ProfitGrowth | DividendYield

  /** `df.loc[row, key] = value` on one row. */
  function Set(r: DemoRow, m: Metric, v: real): (s: DemoRow)
    ensures s.code == r.code
  {
    match m
    case Pe => r.(pe := v)
    case Pb => r.(pb := v)
    case Roe => r.(roe := v)
    case DebtRatio => r.(debtRatio := v)
    case RevenueGrowth => r.(revenueGrowth := v)
    case ProfitGrowth => r.(profitGrowth := v)
    case DividendYield => r.(dividendYield := Some(v))
  }

  function Get(r: DemoRow, m: Metric): Option<real>
  {
    match m
    case Pe => Some(r.pe)
    case Pb => Some(r.pb)
    case Roe => Some(r.roe)
    case DebtRatio => Some(r.debtRatio)
    case RevenueGrowth => Some(r.revenueGrowth)
    case ProfitGrowth => Some(r.profitGrowth)
    case DividendYield => r.dividendYield
  }

  /** Reading back a written column gives the value written; the other columns keep theirs. */
  lemma SetGet(r: DemoRow, m: Metric, v: real, n: Metric)
    ensures Get(Set(r, m, v), n) == if n == m then Some(v) else Get(r, n)
  {
  }

  // ---- create_demo_data ----

  /** The i-th random draw made for a column. */
  type Sampler = (string, nat) -> real

  datatype BaseStock = BaseStock(code: string, name: string, price: real, marketCap: real)

  const BaseStocks: seq<BaseStock> := [
    BaseStock("600519", "贵州茅台", 1800.0, 22000.0),
    BaseStock("000858", "五粮液", 180.5, 7000.0),
    BaseStock("000002", "万科A", 15.8, 1800.0),
    BaseStock("600036", "招商银行", 35.2, 8800.0),
    BaseStock("300750", "宁德时代", 240.8, 10500.0),
    BaseStock("002594", "比亚迪", 280.5, 8100.0),
    BaseStock("300124", "汇川技术", 68.9, 1800.0),
    BaseStock("002371", "北方华创", 320.6, 1650.0),
    BaseStock("600900", "长江电力", 22.8, 5500.0),
    BaseStock("600028", "中国石化", 5.2, 6200.0),
    BaseStock("600019", "宝钢股份", 7.1, 1600.0),
    BaseStock("601088", "中国神华", 35.6, 7100.0)
  ]

  /** The k-th random stock: code "600" followed by the three digits of 101 + k. */
  function RandomStock(k: nat, sample: Sampler): BaseStock
  {
    BaseStock("600" + NatToString(101 + k), "股票" + NatToString(101 + k),
              sample("price", k), sample("market_cap", k))
  }

  /** The twelve listed stocks followed by the 38 random ones. */
  function Stocks(sample: Sampler): (s: seq<BaseStock>)
    ensures |s| == 50
  {
    BaseStocks + seq(38, k requires 0 <= k => RandomStock(k, sample))
  }

  /**
   * The twelve listed stocks come first; stock k after them has code
   * "600" + str(89 + k), and its draws are the (k - 12)-th of their columns.
   */
  lemma StocksLayout(sample: Sampler)
    ensures Stocks(sample)[..12] == BaseStocks
    ensures forall k :: 12 <= k < 50 ==>
      (Stocks(sample)[k].code == "600" + NatToString(89 + k) &&
       Stocks(sample)[k].price == sample("price", k - 12) && Stocks(sample)[k].marketCap == sample("market_cap", k - 12))
  {
    var s := Stocks(sample);
    assert |BaseStocks| == 12;
    assert s[..12] == BaseStocks;
    forall k | 12 <= k < 50
      ensures s[k].code == "600" + NatToString(89 + k) && s[k].price == sample("price", k - 12) &&
        s[k].marketCap == sample("market_cap", k - 12)
    {
      assert s[k] == RandomStock(k - 12, sample);
      assert 101 + (k - 12) == 89 + k;
    }
  }

  /** `np.clip(x, lo, hi)` */
  function Clip(x: real, lo: real, hi: real): (r: real)
    requires lo <= hi
    ensures lo <= r <= hi
    ensures lo <= x <= hi ==> r == x
  {
    if x < lo then lo else if x > hi then hi else x
  }

  /** The row for the i-th stock: its metrics are the i-th draws of their columns, clipped. */
  function ClippedRow(s: BaseStock, i: nat, sample: Sampler): DemoRow
  {
    DemoRow(s.code, s.name, s.price, s.marketCap,
            Clip(sample("pe", i), 5.0, 100.0), Clip(sample("pb", i), 0.5, 10.0),
            Clip(sample("roe", i), 2.0, 40.0), Clip(sample("debt_ratio", i), 10.0, 85.0),
            Clip(sample("revenue_growth", i), -20.0, 100.0), Clip(sample("profit_growth", i), -25.0, 120.0),
            Clip(sample("current_ratio", i), 0.8, 5.0), None)
  }

  function ClippedTable(sample: Sampler): seq<DemoRow>
  {
    var stocks := Stocks(sample);
    seq(|stocks|, i requires 0 <= i < |stocks| => ClippedRow(stocks[i], i, sample))
  }

  predicate InClipRanges(r: DemoRow)
  {
    5.0 <= r.pe <= 100.0 && 0.5 <= r.pb <= 10.0 && 2.0 <= r.roe <= 40.0 &&
    10.0 <= r.debtRatio <= 85.0 && -20.0 <= r.revenueGrowth <= 100.0 &&
    -25.0 <= r.profitGrowth <= 120.0 && 0.8 <= r.currentRatio <= 5.0
  }

  /** Before the overrides: 50 rows in stock order, each metric inside its clip range. */
  lemma ClippedTableProps(sample: Sampler)
    ensures |ClippedTable(sample)| == 50
    ensures forall i :: 0 <= i < 50 ==>
      ClippedTable(sample)[i].code == Stocks(sample)[i].code && InClipRanges(ClippedTable(sample)[i]) &&
      ClippedTable(sample)[i].dividendYield.None?
  {
  }

  // ---- overrides ----

  /** Per code, the columns to overwrite, in the order they are written. */
  type Overrides = seq<(string, seq<(Metric, real)>)>

  const Famous: Overrides := [
    ("600519", [(Pe, 35.0), (Pb, 12.0), (Roe, 28.0), (DebtRatio, 15.0), (RevenueGrowth, 18.0), (ProfitGrowth, 20.0)]),
    ("000858", [(Pe, 25.0), (Pb, 8.0), (Roe, 22.0), (DebtRatio, 25.0), (RevenueGrowth, 15.0), (ProfitGrowth, 18.0)]),
    ("300750", [(Pe, 45.0), (Pb, 6.0), (Roe, 18.0), (DebtRatio, 45.0), (RevenueGrowth, 45.0), (ProfitGrowth, 55.0)]),
    ("002594", [(Pe, 55.0), (Pb, 8.0), (Roe, 15.0), (DebtRatio, 65.0), (RevenueGrowth, 35.0), (ProfitGrowth, 40.0)]),
    ("600036", [(Pe, 8.0), (Pb, 1.2), (Roe, 16.0), (DebtRatio, 92.0), (RevenueGrowth, 8.0), (ProfitGrowth, 12.0)]),
    ("600900", [(Pe, 18.0), (Pb, 2.8), (Roe, 12.0), (DebtRatio, 55.0), (RevenueGrowth, 5.0), (ProfitGrowth, 8.0)])
  ]

  /** `df.loc[df['code'] == code, m] = v` */
  function SetWhere(rows: seq<DemoRow>, code: string, m: Metric, v: real): (r: seq<DemoRow>)
    ensures |r| == |rows|
    ensures forall i :: 0 <= i < |rows| ==> r[i] == if rows[i].code == code then Set(rows[i], m, v) else rows[i]
  {
    if |rows| == 0 then [] else [if rows[0].code == code then Set(rows[0], m, v) else rows[0]] + SetWhere(rows[1..], code, m, v)
  }

  /** The inner loop over one code's columns. */
  function ApplyMetrics(rows: seq<DemoRow>, code: string, ms: seq<(Metric, real)>): seq<DemoRow>
  {
    if |ms| == 0 then rows
    else SetWhere(ApplyMetrics(rows, code, ms[..|ms| - 1]), code, ms[|ms| - 1].0, ms[|ms| - 1].1)
  }

  /** The outer loop over the codes. */
  function Overridden(rows: seq<DemoRow>, fam: Overrides): seq<DemoRow>
  {
    if |fam| == 0 then rows
    else ApplyMetrics(Overridden(rows, fam[..|fam| - 1]), fam[|fam| - 1].0, fam[|fam| - 1].1)
  }

  /** One row after its columns are written in order. */
  function SetAll(r: DemoRow, ms: seq<(Metric, real)>): (s: DemoRow)
    ensures s.code == r.code
  {
    if |ms| == 0 then r else Set(SetAll(r, ms[..|ms| - 1]), ms[|ms| - 1].0, ms[|ms| - 1].1)
  }

  /** One row after every override entry is applied to it in order. */
  function RowOverride(r: DemoRow, fam: Overrides): (s: DemoRow)
    ensures s.code == r.code
  {
    if |fam| == 0 then r
    else
      var t := RowOverride(r, fam[..|fam| - 1]);
      if t.code == fam[|fam| - 1].0 then SetAll(t, fam[|fam| - 1].1) else t
  }

  lemma {:induction false} ApplyMetricsAt(rows: seq<DemoRow>, code: string, ms: seq<(Metric, real)>)
    ensures |ApplyMetrics(rows, code, ms)| == |rows|
    ensures forall i :: 0 <= i < |rows| ==>
      ApplyMetrics(rows, code, ms)[i] == if rows[i].code == code then SetAll(rows[i], ms) else rows[i]
  {
    if |ms| > 0 {
      ApplyMetricsAt(rows, code, ms[..|ms| - 1]);
    }
  }

  /** The table seen row by row: the two loops apply every entry to the rows with its code. */
  lemma {:induction false} OverriddenAt(rows: seq<DemoRow>, fam: Overrides)
    ensures |Overridden(rows, fam)| == |rows|
    ensures forall i :: 0 <= i < |rows| ==> Overridden(rows, fam)[i] == RowOverride(rows[i], fam)
  {
    if |fam| > 0 {
      var prefix := fam[..|fam| - 1];
      OverriddenAt(rows, prefix);
      ApplyMetricsAt(Overridden(rows, prefix), fam[|fam| - 1].0, fam[|fam| - 1].1);
    }
  }

  predicate DistinctCodes(fam: Overrides)
  {
    forall j, k :: 0 <= j < k < |fam| ==> fam[j].0 != fam[k].0
  }

  /** A row no entry names is left as it is. */
  lemma {:induction false} RowOverrideNone(r: DemoRow, fam: Overrides)
    requires forall j :: 0 <= j < |fam| ==> fam[j].0 != r.code
    ensures RowOverride(r, fam) == r
  {
    if |fam| > 0 {
      RowOverrideNone(r, fam[..|fam| - 1]);
    }
  }

  /** With distinct codes, a named row receives exactly its own entry's columns. */
  lemma {:induction false} RowOverrideMatch(r: DemoRow, fam: Overrides, k: nat)
    requires DistinctCodes(fam) && k < |fam| && r.code == fam[k].0
    ensures RowOverride(r, fam) == SetAll(r, fam[k].1)
  {
    var prefix := fam[..|fam| - 1];
    if k == |fam| - 1 {
      RowOverrideNone(r, prefix);
    } else {
      RowOverrideMatch(r, prefix, k);
    }
  }

  /** A column written once in the list ends with that value. */
  lemma {:induction false} SetAllOnce(r: DemoRow, ms: seq<(Metric, real)>, k: nat)
    requires k < |ms| && forall j :: 0 <= j < |ms| && j != k ==> ms[j].0 != ms[k].0
    ensures Get(SetAll(r, ms), ms[k].0) == Some(ms[k].1)
  {
    var n := |ms| - 1;
    if k == n {
      SetGet(SetAll(r, ms[..n]), ms[n].0, ms[n].1, ms[k].0);
    } else {
      SetAllOnce(r, ms[..n], k);
      SetGet(SetAll(r, ms[..n]), ms[n].0, ms[n].1, ms[k].0);
    }
  }

  /** A column never written keeps its value. */
  lemma {:induction false} SetAllUntouched(r: DemoRow, ms: seq<(Metric, real)>, m: Metric)
    requires forall j :: 0 <= j < |ms| ==> ms[j].0 != m
    ensures Get(SetAll(r, ms), m) == Get(r, m)
  {
    if |ms| > 0 {
      var n := |ms| - 1;
      SetAllUntouched(r, ms[..n], m);
      SetGet(SetAll(r, ms[..n]), ms[n].0, ms[n].1, m);
    }
  }

  /** `create_demo_data` as a value: the clipped table with the famous rows overwritten. */
  function DemoTable(sample: Sampler): seq<DemoRow>
  {
    Overridden(ClippedTable(sample), Famous)
  }

  lemma FamousDistinct()
    ensures DistinctCodes(Famous)
  {
  }

  /** The rows of stocks without an override keep their clip ranges. */
  lemma DemoTableRanges(sample: Sampler)
    ensures |DemoTable(sample)| == 50
    ensures forall i :: 0 <= i < 50 && (forall j :: 0 <= j < |Famous| ==> Famous[j].0 != Stocks(sample)[i].code) ==>
      DemoTable(sample)[i] == ClippedTable(sample)[i] && InClipRanges(DemoTable(sample)[i])
  {
    var rows := ClippedTable(sample);
    ClippedTableProps(sample);
    OverriddenAt(rows, Famous);
    forall i | 0 <= i < 50 && (forall j :: 0 <= j < |Famous| ==> Famous[j].0 != Stocks(sample)[i].code)
      ensures DemoTable(sample)[i] == rows[i]
    {
      RowOverrideNone(rows[i], Famous);
    }
  }

  /** With distinct codes, a row named by entry k ends with exactly that entry's columns written. */
  lemma OverriddenEntry(rows: seq<DemoRow>, fam: Overrides, i: nat, k: nat)
    requires DistinctCodes(fam) && i < |rows| && k < |fam| && rows[i].code == fam[k].0
    ensures |Overridden(rows, fam)| == |rows| && Overridden(rows, fam)[i] == SetAll(rows[i], fam[k].1)
  {
    OverriddenAt(rows, fam);
    RowOverrideMatch(rows[i], fam, k);
  }

  /** The overrides leave the clip ranges: Moutai's pb becomes 12. */
  lemma MoutaiLeavesRange(sample: Sampler)
    ensures |DemoTable(sample)| == 50
    ensures DemoTable(sample)[0].code == "600519" && DemoTable(sample)[0].pb == 12.0
    ensures !InClipRanges(DemoTable(sample)[0])
  {
    var rows := ClippedTable(sample);
    assert rows[0].code == Famous[0].0;
    FamousDistinct();
    OverriddenEntry(rows, Famous, 0, 0);
    MoutaiEntry();
    SetAllOnce(rows[0], Famous[0].1, 1);
  }

  /** Moutai's entry writes pb once, as 12. */
  lemma MoutaiEntry()
    ensures Famous[0].0 == "600519" && |Famous[0].1| == 6 && Famous[0].1[1] == (Pb, 12.0)
    ensures forall j :: 0 <= j < 6 && j != 1 ==> Famous[0].1[j].0 != Pb
  {
  }

  /** China Merchants Bank's debt ratio becomes 92. */
  lemma BankLeavesRange(sample: Sampler)
    ensures |DemoTable(sample)| == 50
    ensures DemoTable(sample)[3].code == "600036" && DemoTable(sample)[3].debtRatio == 92.0
    ensures !InClipRanges(DemoTable(sample)[3])
  {
    var rows := ClippedTable(sample);
    assert rows[3].code == Famous[4].0;
    FamousDistinct();
    OverriddenEntry(rows, Famous, 3, 4);
    BankEntry();
    SetAllOnce(rows[3], Famous[4].1, 3);
  }

  /** The bank's entry writes the debt ratio once, as 92. */
  lemma BankEntry()
    ensures Famous[4].0 == "600036" && |Famous[4].1| == 6 && Famous[4].1[3] == (DebtRatio, 92.0)
    ensures forall j :: 0 <= j < 6 && j != 3 ==> Famous[4].1[j].0 != DebtRatio
  {
  }

  // ---- strategies ----

  datatype DemoPick = DemoPick(row: DemoRow, strategy: string, reason: string, score: real)

  function ByScore(a: DemoPick, b: DemoPick): bool { a.score >= b.score }

  lemma ByScoreTotal()
    ensures TotalPreorder(ByScore)
  {
  }

  function PickCode(p: DemoPick): string { p.row.code }

  /** The rows meeting `cond`, scored, sorted by score descending, the first eight. */
  function Screen(df: seq<DemoRow>, cond: DemoRow -> bool, score: DemoRow -> real, strategy: string,
                  reason: string): seq<DemoPick>
  {
    Take(SortBy(Map(Filter(df, cond), (r: DemoRow) => DemoPick(r, strategy, reason, score(r))), ByScore), 8)
  }

  /**
   * min(8, matches) picks, sorted by score, each a matching input row with its
   * own score and labels, and no matching row left out scores above a kept pick.
   */
  lemma ScreenProps(df: seq<DemoRow>, cond: DemoRow -> bool, score: DemoRow -> real, strategy: string, reason: string)
    ensures var r := Screen(df, cond, score, strategy, reason);
      |r| == Min(8, |Filter(df, cond)|) && SortedBy(r, ByScore) &&
      (forall p :: p in r ==>
        (p.row in df && cond(p.row) && p.score == score(p.row) && p.strategy == strategy && p.reason == reason)) &&
      forall y, i :: y in df && cond(y) && y !in PickRows(r) && 0 <= i < |r| ==> r[i].score >= score(y)
  {
    var picks := Map(Filter(df, cond), (r: DemoRow) => DemoPick(r, strategy, reason, score(r)));
    ByScoreTotal();
    SortByCorrect(picks, ByScore);
    TopOfSorted(picks, 8, ByScore);
    var r := Take(SortBy(picks, ByScore), 8);
    forall p | p in r
      ensures p.row in df && cond(p.row) && p.score == score(p.row) && p.strategy == strategy && p.reason == reason
    {
      var i :| 0 <= i < |picks| && picks[i] == p;
      assert Filter(df, cond)[i] in Filter(df, cond);
    }
    forall y | y in df && cond(y) && y !in PickRows(r)
      ensures DemoPick(y, strategy, reason, score(y)) in picks && DemoPick(y, strategy, reason, score(y)) !in r
    {
      var i :| 0 <= i < |Filter(df, cond)| && Filter(df, cond)[i] == y;
      assert picks[i] == DemoPick(y, strategy, reason, score(y));
    }
  }

  /** The rows of a list of picks. */
  function PickRows(ps: seq<DemoPick>): seq<DemoRow>
  {
    Map(ps, (p: DemoPick) => p.row)
  }

  const ValueName := "价值投资"
  const GrowthName := "成长投资"
  const QualityName := "质量投资"
  const DividendName := "股息投资"
  const SmallCapName := "小盘成长"

  predicate ValueCond(r: DemoRow)
  {
    r.pe < 15.0 && r.pe > 0.0 && r.pb < 2.0 && r.pb > 0.0 && r.roe > 12.0 && r.debtRatio < 50.0 &&
    r.marketCap > 500.0
  }

  /** Only read for rows that passed `ValueCond`, whose pe and pb are positive. */
  function ValueScore(r: DemoRow): real
  {
    if r.pe > 0.0 && r.pb > 0.0 then (100.0 / r.pe) * 0.3 + (100.0 / r.pb) * 0.2 + r.roe * 0.5 else 0.0
  }

  predicate GrowthCond(r: DemoRow)
  {
    r.revenueGrowth > 25.0 && r.profitGrowth > 25.0 && r.roe > 15.0 && r.pe < 50.0 && r.pe > 0.0 &&
    r.debtRatio < 60.0
  }

  function GrowthScore(r: DemoRow): real
  {
    r.revenueGrowth * 0.25 + r.profitGrowth * 0.25 + r.roe * 0.5
  }

  predicate QualityCond(r: DemoRow)
  {
    r.roe > 18.0 && r.debtRatio < 40.0 && r.currentRatio > 1.5 && r.profitGrowth > 10.0 && r.marketCap > 1000.0
  }

  function QualityScore(r: DemoRow): real
  {
    r.roe * 0.6 + (100.0 - r.debtRatio) * 0.2 + r.currentRatio * 0.2
  }

  predicate DividendCond(r: DemoRow)
  {
    r.dividendYield.Some? && r.dividendYield.value > 3.0 && r.roe > 10.0 && r.debtRatio < 55.0 &&
    r.profitGrowth > 0.0
  }

  function DividendScore(r: DemoRow): real
  {
    (if r.dividendYield.Some? then r.dividendYield.value else 0.0) * 0.4 + r.roe * 0.4 + (100.0 - r.debtRatio) * 0.2
  }

  predicate SmallCapCond(r: DemoRow)
  {
    r.marketCap < 500.0 && r.marketCap > 50.0 && r.revenueGrowth > 30.0 && r.profitGrowth > 30.0 &&
    r.roe > 15.0 && r.debtRatio < 45.0
  }

  function SmallCapScore(r: DemoRow): real
  {
    r.profitGrowth * 0.4 + r.revenueGrowth * 0.3 + r.roe * 0.3
  }

  function ValueStrategy(df: seq<DemoRow>): seq<DemoPick>
  {
    Screen(df, ValueCond, ValueScore, ValueName, "低估值+高ROE+稳健财务")
  }

  function GrowthStrategy(df: seq<DemoRow>): seq<DemoPick>
  {
    Screen(df, GrowthCond, GrowthScore, GrowthName, "高增长+合理估值+行业前景")
  }

  function QualityStrategy(df: seq<DemoRow>): seq<DemoPick>
  {
    Screen(df, QualityCond, QualityScore, QualityName, "高ROE+低负债+现金流好")
  }

  /** The screening half of `dividend_strategy`, on the table after its yield column is written. */
  function DividendScreen(df: seq<DemoRow>): seq<DemoPick>
  {
    Screen(df, DividendCond, DividendScore, DividendName, "高分红+稳定盈利+现金流好")
  }

  function SmallCapStrategy(df: seq<DemoRow>): seq<DemoPick>
  {
    Screen(df, SmallCapCond, SmallCapScore, SmallCapName, "小市值+高成长+低负债")
  }

  // ---- the dividend column ----

  const DividendStocks: Overrides := [
    ("600519", [(DividendYield, 1.2)]), ("000858", [(DividendYield, 2.1)]), ("600036", [(DividendYield, 4.8)]),
    ("600900", [(DividendYield, 3.2)]), ("600028", [(DividendYield, 6.5)]), ("601088", [(DividendYield, 7.2)]),
    ("600019", [(DividendYield, 4.1)])
  ]

  /** `df['dividend_yield'] = np.clip(draws, 0, 8)` */
  function WithYields(rows: seq<DemoRow>, draws: nat -> real): (r: seq<DemoRow>)
    ensures |r| == |rows|
    ensures forall i :: 0 <= i < |rows| ==> r[i] == rows[i].(dividendYield := Some(Clip(draws(i), 0.0, 8.0)))
  {
    seq(|rows|, i requires 0 <= i < |rows| => rows[i].(dividendYield := Some(Clip(draws(i), 0.0, 8.0))))
  }

  /** The table `dividend_strategy` leaves behind in its argument. */
  function DividendWritten(rows: seq<DemoRow>, draws: nat -> real): seq<DemoRow>
  {
    Overridden(WithYields(rows, draws), DividendStocks)
  }

  lemma DividendStocksDistinct()
    ensures DistinctCodes(DividendStocks)
  {
  }

  /** Writing only the yield leaves every other column of a row as it was. */
  lemma {:induction false} SetAllYieldOnly(r: DemoRow, ms: seq<(Metric, real)>)
    requires forall j :: 0 <= j < |ms| ==> ms[j].0 == DividendYield
    ensures SetAll(r, ms).(dividendYield := r.dividendYield) == r
  {
    if |ms| > 0 {
      SetAllYieldOnly(r, ms[..|ms| - 1]);
    }
  }

  /** One row of the written table: for a listed stock its listed rate, otherwise the clipped draw. */
  lemma DividendWrittenAt(rows: seq<DemoRow>, draws: nat -> real, i: nat)
    requires i < |rows|
    ensures |DividendWritten(rows, draws)| == |rows|
    ensures var r := DividendWritten(rows, draws)[i];
      r.dividendYield.Some? && r.(dividendYield := rows[i].dividendYield) == rows[i] &&
      ((forall k :: 0 <= k < |DividendStocks| ==> DividendStocks[k].0 != rows[i].code) ==>
         0.0 <= r.dividendYield.value <= 8.0) &&
      (forall k :: 0 <= k < |DividendStocks| && rows[i].code == DividendStocks[k].0 ==>
         r.dividendYield == Some(DividendStocks[k].1[0].1))
  {
    var w := WithYields(rows, draws);
    OverriddenAt(w, DividendStocks);
    DividendStocksYieldOnly();
    YieldOverrideAt(w[i], DividendStocks);
  }

  /** Entries with distinct codes that each write one yield. */
  predicate YieldOnly(fam: Overrides)
  {
    DistinctCodes(fam) && forall k :: 0 <= k < |fam| ==> |fam[k].1| == 1 && fam[k].1[0].0 == DividendYield
  }

  lemma DividendStocksYieldOnly()
    ensures YieldOnly(DividendStocks)
  {
    DividendStocksDistinct();
  }

  /** Yield-only entries change a row's yield and nothing else: to its entry's rate, or not at all. */
  lemma YieldOverrideAt(r: DemoRow, fam: Overrides)
    requires YieldOnly(fam)
    ensures var s := RowOverride(r, fam);
      s.(dividendYield := r.dividendYield) == r &&
      ((forall k :: 0 <= k < |fam| ==> fam[k].0 != r.code) ==> s == r) &&
      (forall k :: 0 <= k < |fam| && r.code == fam[k].0 ==> s.dividendYield == Some(fam[k].1[0].1))
  {
    if k :| 0 <= k < |fam| && r.code == fam[k].0 {
      RowOverrideMatch(r, fam, k);
      SetAllYieldOnly(r, fam[k].1);
      SetAllOnce(r, fam[k].1, 0);
    } else {
      RowOverrideNone(r, fam);
    }
  }

  /**
   * `dividend_strategy` changes only the yield column of the shared table: every row
   * gets a yield, in [0, 8] for an unlisted stock and the listed rate for a listed one.
   */
  lemma DividendWrittenProps(rows: seq<DemoRow>, draws: nat -> real)
    ensures |DividendWritten(rows, draws)| == |rows|
    ensures forall i :: 0 <= i < |rows| ==>
      var r := DividendWritten(rows, draws)[i];
      r.dividendYield.Some? && r.(dividendYield := rows[i].dividendYield) == rows[i]
    ensures forall i :: 0 <= i < |rows| && (forall k :: 0 <= k < |DividendStocks| ==> DividendStocks[k].0 != rows[i].code) ==>
      0.0 <= DividendWritten(rows, draws)[i].dividendYield.value <= 8.0
    ensures forall i, k :: 0 <= i < |rows| && 0 <= k < |DividendStocks| && rows[i].code == DividendStocks[k].0 ==>
      DividendWritten(rows, draws)[i].dividendYield == Some(DividendStocks[k].1[0].1)
  {
    OverriddenAt(WithYields(rows, draws), DividendStocks);
    forall i | 0 <= i < |rows| {
      DividendWrittenAt(rows, draws, i);
    }
  }

  // ---- run_all_strategies ----

  /** The strategy at position k of the run, applied to table df; the dividend one writes its column first. */
  function Output(k: nat, df: seq<DemoRow>, draws: nat -> real): seq<DemoPick>
  {
    if k == 0 then ValueStrategy(df)
    else if k == 1 then GrowthStrategy(df)
    else if k == 2 then QualityStrategy(df)
    else if k == 3 then DividendScreen(DividendWritten(df, draws))
    else SmallCapStrategy(df)
  }

  /** The table after the strategy at position k has run on df. */
  function FrameAfter(k: nat, df: seq<DemoRow>, draws: nat -> real): seq<DemoRow>
  {
    if k == 3 then DividendWritten(df, draws) else df
  }

  /** The table after the first k strategies. */
  function RunFrom(df: seq<DemoRow>, draws: nat -> real, k: nat): seq<DemoRow>
  {
    if k == 0 then df else FrameAfter(k - 1, RunFrom(df, draws, k - 1), draws)
  }

  /** The picks the first k strategies contribute, in order. */
  function Collected(df: seq<DemoRow>, draws: nat -> real, k: nat): seq<DemoPick>
  {
    if k == 0 then [] else Collected(df, draws, k - 1) + Output(k - 1, RunFrom(df, draws, k - 1), draws)
  }

  /** A pick is the output of the strategy it names: it passes that strategy's filter, with its score. */
  predicate Justified(p: DemoPick)
  {
    (p.strategy == ValueName && ValueCond(p.row) && p.score == ValueScore(p.row)) ||
    (p.strategy == GrowthName && GrowthCond(p.row) && p.score == GrowthScore(p.row)) ||
    (p.strategy == QualityName && QualityCond(p.row) && p.score == QualityScore(p.row)) ||
    (p.strategy == DividendName && DividendCond(p.row) && p.score == DividendScore(p.row)) ||
    (p.strategy == SmallCapName && SmallCapCond(p.row) && p.score == SmallCapScore(p.row))
  }

  /** The condition of the strategy at position k. */
  function CondOf(k: nat): DemoRow -> bool
  {
    if k == 0 then ValueCond
    else if k == 1 then GrowthCond
    else if k == 2 then QualityCond
    else if k == 3 then DividendCond
    else SmallCapCond
  }

  /** The score of the strategy at position k. */
  function ScoreOf(k: nat): DemoRow -> real
  {
    if k == 0 then ValueScore
    else if k == 1 then GrowthScore
    else if k == 2 then QualityScore
    else if k == 3 then DividendScore
    else SmallCapScore
  }

  /**
   * Every strategy returns min(8, matches) picks of the table it screens, each
   * justified, and no matching row left out scores above a kept pick.
   */
  lemma OutputProps(k: nat, df: seq<DemoRow>, draws: nat -> real)
    ensures var out := Output(k, df, draws);
      var t := FrameAfter(k, df, draws);
      |out| == Min(8, |Filter(t, CondOf(k))|) &&
      (forall p :: p in out ==> Justified(p)) &&
      forall y, i :: y in t && CondOf(k)(y) && y !in PickRows(out) && 0 <= i < |out| ==> out[i].score >= ScoreOf(k)(y)
  {
    if k == 0 {
      ScreenProps(df, ValueCond, ValueScore, ValueName, "低估值+高ROE+稳健财务");
    } else if k == 1 {
      ScreenProps(df, GrowthCond, GrowthScore, GrowthName, "高增长+合理估值+行业前景");
    } else if k == 2 {
      ScreenProps(df, QualityCond, QualityScore, QualityName, "高ROE+低负债+现金流好");
    } else if k == 3 {
      ScreenProps(DividendWritten(df, draws), DividendCond, DividendScore, DividendName, "高分红+稳定盈利+现金流好");
    } else {
      ScreenProps(df, SmallCapCond, SmallCapScore, SmallCapName, "小市值+高成长+低负债");
    }
  }

  lemma {:induction false} CollectedProps(df: seq<DemoRow>, draws: nat -> real, k: nat)
    ensures |Collected(df, draws, k)| <= 8 * k
    ensures forall p :: p in Collected(df, draws, k) ==> Justified(p)
  {
    if k > 0 {
      CollectedProps(df, draws, k - 1);
      OutputProps(k - 1, RunFrom(df, draws, k - 1), draws);
    }
  }

  /** The merge: sorted by score descending, first row per code, at most thirty. */
  function Merged(all: seq<DemoPick>): seq<DemoPick>
  {
    if |all| == 0 then [] else TopUnique(all, PickCode, ByScore, 30)
  }

  /**
   * min(30, collected codes) picks with distinct codes, sorted by score
   * descending, each justified by its strategy, none outscored by another pick
   * with its code, and none outscored by a pick whose code was left out.
   */
  lemma MergedProps(df: seq<DemoRow>, draws: nat -> real)
    ensures var all := Collected(df, draws, 5);
      var r := Merged(all);
      |r| == Min(30, |Keys(all, PickCode)|) && UniqueKeys(r, PickCode) && SortedBy(r, ByScore) &&
      (forall p :: p in r ==> p in all && Justified(p)) &&
      (forall p, q :: p in r && q in all && q.row.code == p.row.code ==> q.score <= p.score) &&
      (forall p, q :: p in r && q in all && q.row.code !in Keys(r, PickCode) ==> q.score <= p.score)
  {
    var all := Collected(df, draws, 5);
    CollectedProps(df, draws, 5);
    if |all| > 0 {
      ByScoreTotal();
      TopUniqueProps(all, PickCode, ByScore, 30);
      var r := Merged(all);
      forall p, q | p in r && q in all && q.row.code == p.row.code ensures q.score <= p.score {
        assert PickCode(q) == PickCode(p);
        assert ByScore(p, q);
      }
      forall p, q | p in r && q in all && q.row.code !in Keys(r, PickCode) ensures q.score <= p.score {
        assert PickCode(q) !in Keys(r, PickCode);
        assert ByScore(p, q);
      }
    } else {
      assert Keys(all, PickCode) == {};
    }
  }

  class Selector {
    /** `self.stock_data` */
    var stockData: seq<DemoRow>

    /** `__init__` builds the demo table. */
    constructor (sample: Sampler)
      ensures stockData == DemoTable(sample)
    {
      stockData := [];
      new;
      CreateDemoData(sample);
    }

    /** `create_demo_data` */
    method CreateDemoData(sample: Sampler)
      modifies this
      ensures stockData == DemoTable(sample)
    {
      stockData := ClippedTable(sample);
      ApplyOverrides(Famous);
    }

    /** The `df.loc[mask, key] = value` loops: for each code, for each column. */
    method ApplyOverrides(fam: Overrides)
      modifies this
      ensures stockData == Overridden(old(stockData), fam)
    {
      var start := stockData;
      var i := 0;
      while i < |fam|
        invariant 0 <= i <= |fam|
        invariant stockData == Overridden(start, fam[..i])
      {
        var code := fam[i].0;
        var ms := fam[i].1;
        var before := stockData;
        var j := 0;
        while j < |ms|
          invariant 0 <= j <= |ms|
          invariant stockData == ApplyMetrics(before, code, ms[..j])
        {
          stockData := SetWhere(stockData, code, ms[j].0, ms[j].1);
          assert ms[..j + 1][..j] == ms[..j];
          j := j + 1;
        }
        assert ms[..j] == ms;
        assert fam[..i + 1][..i] == fam[..i];
        i := i + 1;
      }
      assert fam[..i] == fam;
    }

    /** `dividend_strategy(self.stock_data)`: writes the yield column into the table, then screens it. */
    method DividendStrategy(draws: nat -> real) returns (picks: seq<DemoPick>)
      modifies this
      ensures stockData == DividendWritten(old(stockData), draws)
      ensures picks == DividendScreen(stockData)
    {
      stockData := WithYields(stockData, draws);
      ApplyOverrides(DividendStocks);
      picks := DividendScreen(stockData);
    }

    /** The strategy at position k, run on the table. */
    method RunStrategy(k: nat, draws: nat -> real) returns (picks: seq<DemoPick>)
      requires k < 5
      modifies this
      ensures picks == Output(k, old(stockData), draws)
      ensures stockData == FrameAfter(k, old(stockData), draws)
    {
      if k == 0 {
        picks := ValueStrategy(stockData);
      } else if k == 1 {
        picks := GrowthStrategy(stockData);
      } else if k == 2 {
        picks := QualityStrategy(stockData);
      } else if k == 3 {
        picks := DividendStrategy(draws);
      } else {
        picks := SmallCapStrategy(stockData);
      }
    }

    /** `run_all_strategies`: the five strategies in order, non-empty results collected, then merged. */
    method RunAllStrategies(draws: nat -> real) returns (result: seq<DemoPick>)
      modifies this
      ensures result == Merged(Collected(old(stockData), draws, 5))
      ensures stockData == RunFrom(old(stockData), draws, 5)
    {
      var start := stockData;
      var all: seq<DemoPick> := [];
      var k := 0;
      while k < 5
        invariant 0 <= k <= 5
        invariant stockData == RunFrom(start, draws, k)
        invariant all == Collected(start, draws, k)
      {
        var picks := RunStrategy(k, draws);
        if |picks| > 0 {
          all := all + picks;
        }
        k := k + 1;
      }
      result := Merged(all);
    }
  }
}
