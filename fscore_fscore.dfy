// get_stock_Fscore.py: the truthiness-based F-Score, the effective (second)
// `get_stock_fundamental_data` over two annual reports, and `analyze_stock`.

module StockFscore {
  import opened Py
  import opened Scoring

  /** The fundamental-data dictionary; a None flag is a key the builder never writes. */
  datatype FscoreData = FscoreData(
    code: string, name: string, industry: string,
    currentRoa: Option<Float>, currentCashFlow: Option<Float>, currentNetProfit: Option<Float>,
    currentLeverage: Option<Float>, currentRatio: Option<Float>, currentGrossMargin: Option<Float>,
    currentTurnover: Option<Float>, previousRoa: Option<Float>, previousLeverage: Option<Float>, previousRatio: Option<Float>,
    previousGrossMargin: Option<Float>, previousTurnover: Option<Float>,
    hasNewEquity: Option<bool>,
    leverageImproved: Option<bool>, ratioImproved: Option<bool>,
    marginImproved: Option<bool>, turnoverImproved: Option<bool>)

  /** `d.get(k) and d[k] > 0` */
  predicate TruthyPositive(x: Option<Float>)
  {
    Truthy(x) && Gt(x.value, Fin(0.0))
  }

  /** `d.get(a) and d.get(b) and d[a] > d[b]` */
  predicate TruthyGreater(a: Option<Float>, b: Option<Float>)
  {
    Truthy(a) && Truthy(b) && Gt(a.value, b.value)
  }

  /** `d.get(flag, False)` */
  predicate Flag(x: Option<bool>)
  {
    x == Some(true)
  }

  /** The scorer's result dictionary. */
  datatype FscoreResult = FscoreResult(code: string, name: string, industry: string, score: Scored)

  /**
   * `calculate_f_score`: None for a missing (or empty) dictionary; otherwise the
   * nine tests, the first four on truthiness, 5, 6, 8 and 9 on precomputed flags
   * and 7 on the absence of `has_new_equity`.
   */
  function CalculateFScore(data: Option<FscoreData>): (r: Option<FscoreResult>)
    ensures r.None? <==> data.None?
    ensures r.Some? ==> (|r.value.score.details| == 9 &&
      r.value.score.fScore == Count(r.value.score.details) && r.value.score.fScore <= 9 &&
      (r.value.score.details[6] <==> data.value.hasNewEquity != Some(true)))
  {
    if data.None? then None
    else
      var d := data.value;
      var b0, b1 := TruthyPositive(d.currentRoa), TruthyPositive(d.currentCashFlow);
      var b2, b3 := TruthyGreater(d.currentRoa, d.previousRoa), TruthyGreater(d.currentCashFlow, d.currentNetProfit);
      var b4, b5, b6 := Flag(d.leverageImproved), Flag(d.ratioImproved), !Flag(d.hasNewEquity);
      var b7, b8 := Flag(d.marginImproved), Flag(d.turnoverImproved);
      CountNine(b0, b1, b2, b3, b4, b5, b6, b7, b8);
      Some(FscoreResult(d.code, d.name, d.industry,
        Scored(Point(b0) + Point(b1) + Point(b2) + Point(b3) + Point(b4) +
               Point(b5) + Point(b6) + Point(b7) + Point(b8), [b0, b1, b2, b3, b4, b5, b6, b7, b8])))
  }

  /**
   * Truthiness makes test 3 fail at a prior ROA of exactly 0 and test 4 at a net
   * profit of exactly 0, whatever the other operand; the `is not None` guards
   * would pass both whenever the other operand is positive.
   */
  lemma ZeroOperandFails(d: FscoreData)
    ensures var r := CalculateFScore(Some(d)).value.score;
      (d.previousRoa == Some(Fin(0.0)) ==> !r.details[2]) &&
      (d.currentNetProfit == Some(Fin(0.0)) ==> !r.details[3]) &&
      (d.previousRoa == Some(Fin(0.0)) && d.currentRoa.Some? && Gt(d.currentRoa.value, Fin(0.0)) ==>
        Increased(d.currentRoa, d.previousRoa)) &&
      (d.currentNetProfit == Some(Fin(0.0)) && d.currentCashFlow.Some? && Gt(d.currentCashFlow.value, Fin(0.0)) ==>
        Increased(d.currentCashFlow, d.currentNetProfit))
  {
  }

  /** The statements queried for one year's fourth quarter. */
  datatype Sheet = ProfitSheet | BalanceSheet | CashSheet

  /** The first row of a query, None when the query failed or returned no rows. */
  type Query = (Sheet, int) -> Option<seq<string>>

  /** `float(data[i]) if data[i] else None` under `len(data) > i`; the outer None is a raise. */
  function Column(row: seq<string>, i: nat): Option<Option<Float>>
  {
    if |row| > i then FloatIfNonEmpty(row[i]) else Some(None)
  }

  /** The dictionary before the year loop. */
  function Initial(code: string, basic: Option<seq<string>>): FscoreData
  {
    var name := if basic.Some? && |basic.value| > 1 then basic.value[1] else "";
    var industry := if basic.Some? && |basic.value| > 7 then basic.value[7] else "";
    FscoreData(code, name, industry, None, None, None, None, None, None, None, None, None, None, None, None,
      Some(false), None, None, None, None)
  }

  /** The profit row of one year: ROA, net profit and gross margin (offset 0), or prior ROA and margin. */
  function ApplyProfit(d: FscoreData, row: Option<seq<string>>, current: bool): Option<FscoreData>
  {
    if row.None? then Some(d)
    else
      var r := row.value;
      if current then
        if Column(r, 4).None? || Column(r, 5).None? || Column(r, 7).None? then None
        else Some(d.(currentRoa := if |r| > 4 then Column(r, 4).value else d.currentRoa,
                     currentNetProfit := if |r| > 5 then Column(r, 5).value else d.currentNetProfit,
                     currentGrossMargin := if |r| > 7 then Column(r, 7).value else d.currentGrossMargin))
      else
        if Column(r, 4).None? || Column(r, 7).None? then None
        else Some(d.(previousRoa := if |r| > 4 then Column(r, 4).value else d.previousRoa,
                     previousGrossMargin := if |r| > 7 then Column(r, 7).value else d.previousGrossMargin))
  }

  /** The balance row: leverage (column 13) and current ratio (column 14). */
  function ApplyBalance(d: FscoreData, row: Option<seq<string>>, current: bool): Option<FscoreData>
  {
    if row.None? then Some(d)
    else
      var r := row.value;
      if Column(r, 13).None? || Column(r, 14).None? then None
      else if current then
        Some(d.(currentLeverage := if |r| > 13 then Column(r, 13).value else d.currentLeverage,
                currentRatio := if |r| > 14 then Column(r, 14).value else d.currentRatio))
      else
        Some(d.(previousLeverage := if |r| > 13 then Column(r, 13).value else d.previousLeverage,
                previousRatio := if |r| > 14 then Column(r, 14).value else d.previousRatio))
  }

  /** The cash-flow row is read for the current year only: column 24. */
  function ApplyCash(d: FscoreData, row: Option<seq<string>>, current: bool): Option<FscoreData>
  {
    if row.None? || !current then Some(d)
    else if Column(row.value, 24).None? then None
    else Some(d.(currentCashFlow := if |row.value| > 24 then Column(row.value, 24).value else d.currentCashFlow))
  }

  /** One pass of the year loop: the three statements in order; a failed conversion is None. */
  function ApplyYear(d: FscoreData, query: Query, year: int, current: bool): Option<FscoreData>
  {
    match ApplyProfit(d, query(ProfitSheet, year), current)
    case None => None
    case Some(d1) =>
      match ApplyBalance(d1, query(BalanceSheet, year), current)
      case None => None
      case Some(d2) => ApplyCash(d2, query(CashSheet, year), current)
  }

  /** The year loop from `offset` on: it stops before a year earlier than 2007. */
  function Years(d: FscoreData, query: Query, currentYear: int, offset: nat): Option<FscoreData>
    decreases 2 - offset
  {
    if offset >= 2 || currentYear - offset < 2007 then Some(d)
    else match ApplyYear(d, query, currentYear - offset, offset == 0)
      case None => None
      case Some(d') => Years(d', query, currentYear, offset + 1)
  }

  /** The effective `get_stock_fundamental_data`: None on a failed login or any failed conversion. */
  function EffectiveSnapshot(code: string, loginOk: bool, basic: Option<seq<string>>, query: Query,
                             currentYear: int): Option<FscoreData>
  {
    if !loginOk then None else Years(Initial(code, basic), query, currentYear, 0)
  }

  /** The builder as the source writes it: a loop over year offsets 0 and 1 with its `break`. */
  method GetStockFundamentalData(code: string, loginOk: bool, basic: Option<seq<string>>, query: Query,
                                 currentYear: int) returns (r: Option<FscoreData>)
    ensures r == EffectiveSnapshot(code, loginOk, basic, query, currentYear)
  {
    if !loginOk {
      return None;
    }
    var d := Initial(code, basic);
    var offset: nat := 0;
    while offset < 2
      invariant offset <= 2
      invariant Years(d, query, currentYear, offset) == EffectiveSnapshot(code, loginOk, basic, query, currentYear)
      decreases 2 - offset
    {
      var year := currentYear - offset;
      if year < 2007 {
        break;
      }
      var next := ApplyYear(d, query, year, offset == 0);
      if next.None? {
        return None;
      }
      d := next.value;
      offset := offset + 1;
    }
    r := Some(d);
  }

  /** What the builder never writes: the four improvement flags, both turnovers; equity is False. */
  predicate Untouched(d: FscoreData)
  {
    d.hasNewEquity == Some(false) && d.leverageImproved.None? && d.ratioImproved.None? &&
    d.marginImproved.None? && d.turnoverImproved.None? && d.currentTurnover.None? && d.previousTurnover.None?
  }

  lemma {:induction false} YearsUntouched(d: FscoreData, query: Query, currentYear: int, offset: nat)
    requires Untouched(d)
    ensures Years(d, query, currentYear, offset).Some? ==> Untouched(Years(d, query, currentYear, offset).value)
    decreases 2 - offset
  {
    if !(offset >= 2 || currentYear - offset < 2007) {
      var n := ApplyYear(d, query, currentYear - offset, offset == 0);
      if n.Some? {
        YearsUntouched(n.value, query, currentYear, offset + 1);
      }
    }
  }

  /**
   * Every returned snapshot scores in [1, 5]: tests 5, 6, 8 and 9 read flags no
   * one sets and test 7 always passes.
   */
  lemma ScoreBounds(code: string, loginOk: bool, basic: Option<seq<string>>, query: Query, currentYear: int)
    ensures var s := EffectiveSnapshot(code, loginOk, basic, query, currentYear);
      s.Some? ==>
        var r := CalculateFScore(s).value.score;
        1 <= r.fScore <= 5 && !r.details[4] && !r.details[5] && !r.details[7] && !r.details[8] && r.details[6]
  {
    if loginOk {
      YearsUntouched(Initial(code, basic), query, currentYear, 0);
    }
  }

  /** Before 2007 no report is read: the snapshot holds only the basic record and scores exactly 1. */
  lemma BeforeBaostockData(code: string, basic: Option<seq<string>>, query: Query, currentYear: int)
    requires currentYear < 2007
    ensures EffectiveSnapshot(code, true, basic, query, currentYear) == Some(Initial(code, basic))
    ensures CalculateFScore(Some(Initial(code, basic))).value.score.fScore == 1
  {
  }

  /** In 2007 the prior year is skipped: no prior field is set, so test 3 fails. */
  lemma FirstDataYear(code: string, basic: Option<seq<string>>, query: Query)
    ensures var s := EffectiveSnapshot(code, true, basic, query, 2007);
      s.Some? ==> s.value.previousRoa.None? && !CalculateFScore(s).value.score.details[2]
  {
    var d := Initial(code, basic);
    assert Years(d, query, 2007, 0) ==
      (match ApplyYear(d, query, 2007, true) case None => None case Some(d') => Years(d', query, 2007, 1));
  }

  /** The eleven snapshot figures `analyze_stock` adds to the scorer's result; a key never written is None. */
  datatype RawFigures = RawFigures(
    currentRoa: Option<Float>, currentCashFlow: Option<Float>, currentLeverage: Option<Float>,
    currentRatio: Option<Float>, currentGrossMargin: Option<Float>, currentTurnover: Option<Float>,
    previousRoa: Option<Float>, previousLeverage: Option<Float>, previousRatio: Option<Float>,
    previousGrossMargin: Option<Float>, previousTurnover: Option<Float>)

  /** The result of `analyze_stock`: the scorer's dictionary updated with the raw figures. */
  datatype Analysis = Analysis(result: FscoreResult, raw: RawFigures)

  /**
   * `analyze_stock`: None when the snapshot is missing; otherwise the scorer's
   * result, with the snapshot's industry, carrying each of the snapshot's
   * eleven raw figures.
   */
  function AnalyzeStock(data: Option<FscoreData>): (r: Option<Analysis>)
    ensures r.Some? <==> data.Some?
    ensures r.Some? ==> (r.value.result.industry == data.value.industry &&
      r.value.result == CalculateFScore(data).value)
    ensures r.Some? ==> var d, x := data.value, r.value.raw;
      x.currentRoa == d.currentRoa && x.currentCashFlow == d.currentCashFlow &&
      x.currentLeverage == d.currentLeverage && x.currentRatio == d.currentRatio &&
      x.currentGrossMargin == d.currentGrossMargin && x.currentTurnover == d.currentTurnover &&
      x.previousRoa == d.previousRoa && x.previousLeverage == d.previousLeverage &&
      x.previousRatio == d.previousRatio && x.previousGrossMargin == d.previousGrossMargin &&
      x.previousTurnover == d.previousTurnover
  {
    match CalculateFScore(data)
    case None => None
    case Some(res) =>
      var d := data.value;
      Some(Analysis(res, RawFigures(d.currentRoa, d.currentCashFlow, d.currentLeverage, d.currentRatio,
        d.currentGrossMargin, d.currentTurnover, d.previousRoa, d.previousLeverage, d.previousRatio,
        d.previousGrossMargin, d.previousTurnover)))
  }

  /**
   * For a snapshot the builder returns, the analysis scores in [1, 5] and both
   * asset turnovers come back None, since no one writes them.
   */
  lemma AnalysisOfSnapshot(code: string, loginOk: bool, basic: Option<seq<string>>, query: Query, currentYear: int)
    ensures var s := EffectiveSnapshot(code, loginOk, basic, query, currentYear);
      s.Some? ==>
        var a := AnalyzeStock(s).value;
        1 <= a.result.score.fScore <= 5 && a.raw.currentTurnover.None? && a.raw.previousTurnover.None?
  {
    ScoreBounds(code, loginOk, basic, query, currentYear);
    if loginOk {
      YearsUntouched(Initial(code, basic), query, currentYear, 0);
    }
  }
}
