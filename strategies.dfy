// The strategy screens shared by stock_screeners/stock_selector.py,
// stock_screeners/stock_screeners.py and quantitative_trading/stock_selector.py:
// filter, score, sort by score descending, keep the top ten; and
// `run_all_strategies`, which cleans the table, runs the five strategies and
// merges their picks into at most twenty rows with distinct codes.

module Strategies {
  import opened Py
  import opened Tables

  /** One row of the fundamentals table the strategies read. */
  datatype StockRow = StockRow(code: string, name: string, price: Float, marketCap: Float, pe: Float, pb: Float,
                               roe: Float, debtRatio: Float, revenueGrowth: Float, profitGrowth: Float,
                               currentRatio: Float)

  /** A selected row with its strategy, reason and score columns. */
  datatype Pick = Pick(row: StockRow, strategy: string, reason: string, score: real)

  /** `x < c` and `x > c` on a pandas column: NaN compares false. */
  predicate Below(x: Float, c: real) { x.Fin? && x.r < c }
  predicate Above(x: Float, c: real) { x.Fin? && x.r > c }

  /** The numeric value of a cell the filter has already required to be a number. */
  function Val(x: Float): real { if x.Fin? then x.r else 0.0 }

  /** `sort_values('score', ascending=False)` */
  function ByScoreDesc(a: Pick, b: Pick): bool { a.score >= b.score }

  lemma ByScoreDescTotal()
    ensures TotalPreorder(ByScoreDesc)
  {
  }

  function PickCode(p: Pick): string { p.row.code }

  /** One screen: the rows meeting `cond`, scored, sorted by score descending, the first n. */
  function Screen(df: seq<StockRow>, cond: StockRow -> bool, score: StockRow -> real, strategy: string, reason: string,
                  n: nat): seq<Pick>
  {
    Take(SortBy(Map(Filter(df, cond), (r: StockRow) => Pick(r, strategy, reason, score(r))), ByScoreDesc), n)
  }

  /** The rows of a list of picks. */
  function PickRows(ps: seq<Pick>): seq<StockRow>
  {
    Map(ps, (p: Pick) => p.row)
  }

  /**
   * A screen yields min(n, number of matching rows) picks, sorted by score
   * descending, each a matching input row with its own score, and no matching
   * row left out scores above a kept pick.
   */
  lemma ScreenProps(df: seq<StockRow>, cond: StockRow -> bool, score: StockRow -> real, strategy: string, reason: string,
                    n: nat)
    ensures var r := Screen(df, cond, score, strategy, reason, n);
      |r| == Min(n, |Filter(df, cond)|) && SortedBy(r, ByScoreDesc) &&
      (forall p :: p in r ==> (p.row in df && cond(p.row) && p.score == score(p.row) && p.strategy == strategy &&
        p.reason == reason)) &&
      forall y, i :: y in df && cond(y) && y !in PickRows(r) && 0 <= i < |r| ==> r[i].score >= score(y)
  {
    var picks := Map(Filter(df, cond), (r: StockRow) => Pick(r, strategy, reason, score(r)));
    ByScoreDescTotal();
    SortByCorrect(picks, ByScoreDesc);
    TopOfSorted(picks, n, ByScoreDesc);
    var r := Take(SortBy(picks, ByScoreDesc), n);
    forall p | p in r
      ensures p.row in df && cond(p.row) && p.score == score(p.row) && p.strategy == strategy && p.reason == reason
    {
      var i :| 0 <= i < |picks| && picks[i] == p;
      assert Filter(df, cond)[i] in Filter(df, cond);
    }
    forall y | y in df && cond(y) && y !in PickRows(r)
      ensures Pick(y, strategy, reason, score(y)) in picks && Pick(y, strategy, reason, score(y)) !in r
    {
      var i :| 0 <= i < |Filter(df, cond)| && Filter(df, cond)[i] == y;
      assert picks[i] == Pick(y, strategy, reason, score(y));
    }
  }

  const ValueName := "价值投资"
  const GrowthName := "成长投资"
  const QualityName := "质量投资"
  const MomentumName := "动量投资"
  const DefensiveName := "防御投资"

  predicate ValueCond(r: StockRow)
  {
    Below(r.pe, 15.0) && Above(r.pe, 0.0) && Below(r.pb, 2.0) && Above(r.pb, 0.0) && Above(r.roe, 10.0) &&
    Below(r.debtRatio, 60.0) && Above(r.marketCap, 50.0)
  }

  function ValueScore(r: StockRow): real
  {
    if Val(r.pe) != 0.0 && Val(r.pb) != 0.0 then (100.0 / Val(r.pe)) * 0.3 + (100.0 / Val(r.pb)) * 0.3 + Val(r.roe) * 0.4
    else 0.0
  }

  predicate GrowthCond(r: StockRow)
  {
    Above(r.revenueGrowth, 20.0) && Above(r.profitGrowth, 20.0) && Below(r.pe, 40.0) && Above(r.pe, 0.0) &&
    Above(r.roe, 15.0) && Below(r.debtRatio, 50.0)
  }

  function GrowthScore(r: StockRow): real
  {
    Val(r.revenueGrowth) * 0.3 + Val(r.profitGrowth) * 0.3 + Val(r.roe) * 0.4
  }

  /**
   * The two quality screens: the selectors' requires a current ratio above 1.5
   * and scores it; the cached screener's has no current-ratio condition and
   * scores the profit growth with NaN as 0.
   */
  datatype Variant = Selector | Cached

  predicate QualityCond(v: Variant, r: StockRow)
  {
    Above(r.roe, 20.0) && Below(r.debtRatio, 40.0) && (v.Cached? || Above(r.currentRatio, 1.5)) &&
    Above(r.profitGrowth, 0.0) && Above(r.pe, 0.0)
  }

  function QualityScore(v: Variant, r: StockRow): real
  {
    Val(r.roe) * 0.5 + (100.0 - Val(r.debtRatio)) * 0.3 +
    (if v.Selector? then Val(r.currentRatio) * 0.2 else Val(r.profitGrowth) * 0.2)
  }

  predicate DefensiveCond(r: StockRow)
  {
    Below(r.pe, 20.0) && Above(r.pe, 5.0) && Below(r.pb, 3.0) && Above(r.pb, 0.5) && Above(r.roe, 8.0) &&
    Below(r.debtRatio, 50.0) && Above(r.marketCap, 100.0)
  }

  function DefensiveScore(r: StockRow): real
  {
    (20.0 - Val(r.pe)) * 0.3 + (3.0 - Val(r.pb)) * 0.3 + Val(r.roe) * 0.4
  }

  /**
   * The 20-day return of a code's daily history, None when the history is
   * missing, shorter than 20 days or the fetch raises.
   */
  type Returns = string -> Option<real>

  predicate MomentumCond(ret: Returns, r: StockRow)
  {
    ret(r.code).Some? && ret(r.code).value > 5.0
  }

  function MomentumScore(ret: Returns, r: StockRow): real
  {
    if ret(r.code).Some? then ret(r.code).value else 0.0
  }

  function ValueStrategy(df: seq<StockRow>): seq<Pick>
  {
    Screen(df, ValueCond, ValueScore, ValueName, "低估值+高分红+稳定盈利", 10)
  }

  function GrowthStrategy(df: seq<StockRow>): seq<Pick>
  {
    Screen(df, GrowthCond, GrowthScore, GrowthName, "高增长+合理估值+优质赛道", 10)
  }

  function QualityStrategy(v: Variant, df: seq<StockRow>): seq<Pick>
  {
    Screen(df, r => QualityCond(v, r), r => QualityScore(v, r), QualityName,
           if v.Selector? then "高ROE+低负债+现金流好" else "高ROE+低负债+稳定增长", 10)
  }

  function MomentumStrategy(ret: Returns, df: seq<StockRow>): seq<Pick>
  {
    Screen(df, r => MomentumCond(ret, r), r => MomentumScore(ret, r), MomentumName, "趋势向上+量价配合", 10)
  }

  function DefensiveStrategy(df: seq<StockRow>): seq<Pick>
  {
    Screen(df, DefensiveCond, DefensiveScore, DefensiveName, "低波动+稳定分红+抗周期", 10)
  }

  /** The cleaning step: pe, pb and roe present and positive. */
  predicate Clean(r: StockRow)
  {
    Above(r.pe, 0.0) && Above(r.pb, 0.0) && Above(r.roe, 0.0)
  }

  /** A pick is justified by the strategy it names: it meets that filter and carries that score. */
  predicate Justified(v: Variant, ret: Returns, p: Pick)
  {
    (p.strategy == ValueName && ValueCond(p.row) && p.score == ValueScore(p.row)) ||
    (p.strategy == GrowthName && GrowthCond(p.row) && p.score == GrowthScore(p.row)) ||
    (p.strategy == QualityName && QualityCond(v, p.row) && p.score == QualityScore(v, p.row)) ||
    (p.strategy == DefensiveName && DefensiveCond(p.row) && p.score == DefensiveScore(p.row)) ||
    (p.strategy == MomentumName && MomentumCond(ret, p.row) && p.score == MomentumScore(ret, p.row))
  }

  /** The four table strategies, then momentum, concatenated. */
  function AllPicks(v: Variant, ret: Returns, df: seq<StockRow>): seq<Pick>
  {
    ValueStrategy(df) + GrowthStrategy(df) + QualityStrategy(v, df) + DefensiveStrategy(df) + MomentumStrategy(ret, df)
  }

  /**
   * `run_all_strategies` on the fundamentals table: None when the table, its
   * cleaned rows or every strategy's picks are empty; otherwise the merged picks.
   */
  function RunAllStrategies(v: Variant, ret: Returns, fundamentals: seq<StockRow>): Option<seq<Pick>>
  {
    var cleaned := Filter(fundamentals, Clean);
    if |fundamentals| == 0 || |cleaned| == 0 then None
    else
      var all := AllPicks(v, ret, cleaned);
      if |all| == 0 then None else Some(TopUnique(all, PickCode, ByScoreDesc, 20))
  }

  /** Every pick is a cleaned input row justified by its strategy, and each strategy gives at most ten. */
  lemma AllPicksJustified(v: Variant, ret: Returns, df: seq<StockRow>)
    ensures forall p :: p in AllPicks(v, ret, df) ==> p.row in df && Justified(v, ret, p)
    ensures |ValueStrategy(df)| <= 10 && |GrowthStrategy(df)| <= 10 && |QualityStrategy(v, df)| <= 10 &&
      |DefensiveStrategy(df)| <= 10 && |MomentumStrategy(ret, df)| <= 10
  {
    ScreenProps(df, ValueCond, ValueScore, ValueName, "低估值+高分红+稳定盈利", 10);
    ScreenProps(df, GrowthCond, GrowthScore, GrowthName, "高增长+合理估值+优质赛道", 10);
    ScreenProps(df, r => QualityCond(v, r), r => QualityScore(v, r), QualityName,
                if v.Selector? then "高ROE+低负债+现金流好" else "高ROE+低负债+稳定增长", 10);
    ScreenProps(df, DefensiveCond, DefensiveScore, DefensiveName, "低波动+稳定分红+抗周期", 10);
    ScreenProps(df, r => MomentumCond(ret, r), r => MomentumScore(ret, r), MomentumName, "趋势向上+量价配合", 10);
  }

  /**
   * The merged result has min(20, picked codes) picks with distinct codes,
   * sorted by score descending; each is a cleaned row justified by its
   * strategy, no pick with the same code scores higher than the one kept, and
   * no pick whose code was left out scores higher than a kept one.
   */
  lemma RunAllStrategiesProps(v: Variant, ret: Returns, fundamentals: seq<StockRow>)
    ensures var r := RunAllStrategies(v, ret, fundamentals);
      var all := AllPicks(v, ret, Filter(fundamentals, Clean));
      r.Some? ==> (
        |r.value| == Min(20, |Keys(all, PickCode)|) && UniqueKeys(r.value, PickCode) && SortedBy(r.value, ByScoreDesc) &&
        (forall p :: p in r.value ==> p.row in fundamentals && Clean(p.row) && Justified(v, ret, p)) &&
        (forall p, q :: p in r.value && q in all && q.row.code == p.row.code ==> q.score <= p.score) &&
        (forall p, q :: p in r.value && q in all && q.row.code !in Keys(r.value, PickCode) ==> q.score <= p.score))
    ensures |fundamentals| == 0 ==> RunAllStrategies(v, ret, fundamentals).None?
  {
    var cleaned := Filter(fundamentals, Clean);
    if |fundamentals| > 0 && |cleaned| > 0 {
      var all := AllPicks(v, ret, cleaned);
      AllPicksJustified(v, ret, cleaned);
      ByScoreDescTotal();
      TopUniqueProps(all, PickCode, ByScoreDesc, 20);
      var r := TopUnique(all, PickCode, ByScoreDesc, 20);
      forall p | p in r ensures p.row in fundamentals && Clean(p.row) && Justified(v, ret, p) {
        assert p in all;
        assert p.row in cleaned;
      }
      forall p, q | p in r && q in all && q.row.code == p.row.code ensures q.score <= p.score {
        assert PickCode(q) == PickCode(p);
        assert ByScoreDesc(p, q);
      }
      forall p, q | p in r && q in all && q.row.code !in Keys(r, PickCode) ensures q.score <= p.score {
        assert PickCode(q) !in Keys(r, PickCode);
        assert ByScoreDesc(p, q);
      }
    }
  }
}
