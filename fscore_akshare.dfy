// The F-Score of get_stock_fscore_akshare.py (its `calculate_f_score` is shared
// word for word by get_stock_fscore_eastmoney.py) and the akshare snapshot builder.

module GuardedFScore {
  import opened Py
  import opened Scoring

  /** The fundamental-data dictionary the scorer reads; None is a missing value. */
  datatype Snapshot = Snapshot(
    currentRoa: Option<Float>, previousRoa: Option<Float>,
    operatingCashFlow: Option<Float>, netProfit: Option<Float>,
    currentLeverage: Option<Float>, previousLeverage: Option<Float>,
    currentRatio: Option<Float>, previousRatio: Option<Float>,
    equityIncreased: Option<bool>,
    currentGrossMargin: Option<Float>, previousGrossMargin: Option<Float>,
    currentTurnover: Option<Float>, previousTurnover: Option<Float>)

  predicate RoaPositive(d: Snapshot) { Positive(d.currentRoa) }
  predicate CashFlowPositive(d: Snapshot) { Positive(d.operatingCashFlow) }
  predicate RoaIncreased(d: Snapshot) { Increased(d.currentRoa, d.previousRoa) }
  predicate CashFlowAboveProfit(d: Snapshot) { Increased(d.operatingCashFlow, d.netProfit) }
  predicate LeverageImproved(d: Snapshot) { Decreased(d.currentLeverage, d.previousLeverage) }
  predicate RatioIncreased(d: Snapshot) { Increased(d.currentRatio, d.previousRatio) }
  /** `is_equity_increased is not None and not is_equity_increased` */
  predicate NoEquityIssue(d: Snapshot) { d.equityIncreased == Some(false) }
  predicate MarginIncreased(d: Snapshot) { Increased(d.currentGrossMargin, d.previousGrossMargin) }
  predicate TurnoverIncreased(d: Snapshot) { Increased(d.currentTurnover, d.previousTurnover) }

  /**
   * `calculate_f_score`: nine guarded tests, each adding one point and setting its
   * detail; the details are listed in the dictionary's key order.
   */
  function CalculateFScore(d: Snapshot): (r: Scored)
    ensures |r.details| == 9 && r.fScore == Count(r.details) && r.fScore <= 9
  {
    CountNine(RoaPositive(d), CashFlowPositive(d), RoaIncreased(d), CashFlowAboveProfit(d),
      LeverageImproved(d), RatioIncreased(d), NoEquityIssue(d), MarginIncreased(d), TurnoverIncreased(d));
    var score := Point(RoaPositive(d)) + Point(CashFlowPositive(d)) + Point(RoaIncreased(d)) +
      Point(CashFlowAboveProfit(d)) + Point(LeverageImproved(d)) + Point(RatioIncreased(d)) +
      Point(NoEquityIssue(d)) + Point(MarginIncreased(d)) + Point(TurnoverIncreased(d));
    Scored(score, [RoaPositive(d), CashFlowPositive(d), RoaIncreased(d), CashFlowAboveProfit(d),
      LeverageImproved(d), RatioIncreased(d), NoEquityIssue(d), MarginIncreased(d), TurnoverIncreased(d)])
  }

  /** A missing operand fails every test that reads it; only an explicit False earns test 7. */
  lemma MissingOperandFails(d: Snapshot)
    ensures d.currentRoa.None? ==> !CalculateFScore(d).details[0] && !CalculateFScore(d).details[2]
    ensures d.previousRoa.None? ==> !CalculateFScore(d).details[2]
    ensures d.operatingCashFlow.None? ==> !CalculateFScore(d).details[1] && !CalculateFScore(d).details[3]
    ensures d.netProfit.None? ==> !CalculateFScore(d).details[3]
    ensures d.currentLeverage.None? || d.previousLeverage.None? ==> !CalculateFScore(d).details[4]
    ensures d.currentRatio.None? || d.previousRatio.None? ==> !CalculateFScore(d).details[5]
    ensures CalculateFScore(d).details[6] <==> d.equityIncreased == Some(false)
    ensures d.currentGrossMargin.None? || d.previousGrossMargin.None? ==> !CalculateFScore(d).details[7]
    ensures d.currentTurnover.None? || d.previousTurnover.None? ==> !CalculateFScore(d).details[8]
  {
    DetailsOf(d);
    NineAt(RoaPositive(d), CashFlowPositive(d), RoaIncreased(d), CashFlowAboveProfit(d),
      LeverageImproved(d), RatioIncreased(d), NoEquityIssue(d), MarginIncreased(d), TurnoverIncreased(d));
  }

  /** The details list holds the nine tests in order. */
  lemma DetailsOf(d: Snapshot)
    ensures CalculateFScore(d).details == [RoaPositive(d), CashFlowPositive(d), RoaIncreased(d), CashFlowAboveProfit(d),
      LeverageImproved(d), RatioIncreased(d), NoEquityIssue(d), MarginIncreased(d), TurnoverIncreased(d)]
  {
  }
}

module AkshareFScore {
  import opened Py
  import opened Scoring
  import opened GuardedFScore

  /** The current-period fields the two provider frames fill. */
  datatype Field = Roa | NetProfit | Leverage | CurrentRatio | GrossMargin | Turnover | CashFlow

  /** A candidate column and the factor its value is multiplied by. */
  datatype Alt = Alt(column: string, factor: real)

  /** One assignment: the first present column among `alts` sets `field`. */
  datatype Rule = Rule(field: Field, alts: seq<Alt>)

  /** The first row of a non-empty frame, None for a missing or empty frame. */
  type Row = map<string, Cell>

  /** What a rule does on a row: nothing, a failed `float(...)`, or a value. */
  datatype Effect = NoColumn | Fails | Sets(v: Float)

  function RuleEffect(alts: seq<Alt>, row: Row): (e: Effect)
    ensures e.NoColumn? <==> forall i :: 0 <= i < |alts| ==> alts[i].column !in row
  {
    if |alts| == 0 then NoColumn
    else if alts[0].column in row then
      match ToFloat(row[alts[0].column])
      case None => Fails
      case Some(f) => Sets(Scale(f, alts[0].factor))
    else RuleEffect(alts[1..], row)
  }

  /**
   * A `try` block of assignments: a failed conversion abandons the rest of the
   * block, and the assignments before it stay.
   */
  function ApplyBlock(m: map<Field, Float>, rules: seq<Rule>, row: Row): map<Field, Float>
    decreases |rules|
  {
    if |rules| == 0 then m
    else match RuleEffect(rules[0].alts, row)
      case NoColumn => ApplyBlock(m, rules[1..], row)
      case Fails => m
      case Sets(v) => ApplyBlock(m[rules[0].field := v], rules[1..], row)
  }

  const RoaRule := Rule(Roa, [Alt("总资产收益率(%)", 1.0), Alt("总资产收益率", 1.0)])
  const LeverageRule := Rule(Leverage, [Alt("资产负债率(%)", 1.0), Alt("资产负债率", 100.0)])
  const RatioRule := Rule(CurrentRatio, [Alt("流动比率", 1.0)])
  const MarginRule := Rule(GrossMargin, [Alt("毛利率(%)", 1.0), Alt("毛利率", 100.0)])
  const TurnoverRule := Rule(Turnover, [Alt("总资产周转率", 1.0)])

  /** The financial-abstract block, in source order. */
  const AbstractRules: seq<Rule> := [RoaRule, Rule(NetProfit, [Alt("净利润", 1.0)]), LeverageRule, RatioRule,
    MarginRule, TurnoverRule, Rule(CashFlow, [Alt("每股经营现金流", 1.0)])]

  /** The analysis-indicator block, in source order. */
  const IndicatorRules: seq<Rule> := [RoaRule, LeverageRule, RatioRule, MarginRule, TurnoverRule]

  function Get(m: map<Field, Float>, f: Field): Option<Float>
  {
    if f in m then Some(m[f]) else None
  }

  /** `x * k if x is not None else None` */
  function ScaleOpt(x: Option<Float>, k: real): Option<Float>
  {
    if x.Some? then Some(Scale(x.value, k)) else None
  }

  /** The current-period values after both blocks: the abstract first, the indicator over it. */
  function CurrentValues(abstractRow: Option<Row>, indicatorRow: Option<Row>): map<Field, Float>
  {
    var m1 := if abstractRow.Some? then ApplyBlock(map[], AbstractRules, abstractRow.value) else map[];
    if indicatorRow.Some? then ApplyBlock(m1, IndicatorRules, indicatorRow.value) else m1
  }

  /**
   * `get_stock_fundamental_data`: prior ROA is 0.95 times the current ROA, the
   * other prior fields copy their current values, and `is_equity_increased` is False.
   */
  function BuildSnapshot(abstractRow: Option<Row>, indicatorRow: Option<Row>): Snapshot
  {
    var m := CurrentValues(abstractRow, indicatorRow);
    Snapshot(Get(m, Roa), ScaleOpt(Get(m, Roa), 0.95), Get(m, CashFlow), Get(m, NetProfit),
      Get(m, Leverage), Get(m, Leverage), Get(m, CurrentRatio), Get(m, CurrentRatio),
      Some(false), Get(m, GrossMargin), Get(m, GrossMargin), Get(m, Turnover), Get(m, Turnover))
  }

  predicate NoFailure(rules: seq<Rule>, row: Row)
  {
    forall i :: 0 <= i < |rules| ==> !RuleEffect(rules[i].alts, row).Fails?
  }

  predicate DistinctFields(rules: seq<Rule>)
  {
    forall i, j :: 0 <= i < j < |rules| ==> rules[i].field != rules[j].field
  }

  /**
   * A block without a failed conversion sets each ruled field whose column is
   * present to that column's value and leaves every other field alone.
   */
  lemma {:induction false} ApplyBlockSets(m: map<Field, Float>, rules: seq<Rule>, row: Row)
    requires NoFailure(rules, row) && DistinctFields(rules)
    ensures forall i :: 0 <= i < |rules| && RuleEffect(rules[i].alts, row).Sets? ==>
      Get(ApplyBlock(m, rules, row), rules[i].field) == Some(RuleEffect(rules[i].alts, row).v)
    ensures forall f :: (forall i :: 0 <= i < |rules| && rules[i].field == f ==> RuleEffect(rules[i].alts, row).NoColumn?) ==>
      Get(ApplyBlock(m, rules, row), f) == Get(m, f)
    decreases |rules|
  {
    if |rules| > 0 {
      var e := RuleEffect(rules[0].alts, row);
      var m' := if e.Sets? then m[rules[0].field := e.v] else m;
      assert NoFailure(rules[1..], row) by {
        forall i | 0 <= i < |rules[1..]| ensures !RuleEffect(rules[1..][i].alts, row).Fails? {
          assert rules[1..][i] == rules[i + 1];
        }
      }
      assert DistinctFields(rules[1..]) by {
        forall i, j | 0 <= i < j < |rules[1..]| ensures rules[1..][i].field != rules[1..][j].field {
          assert rules[1..][i] == rules[i + 1] && rules[1..][j] == rules[j + 1];
        }
      }
      ApplyBlockSets(m', rules[1..], row);
      assert ApplyBlock(m, rules, row) == ApplyBlock(m', rules[1..], row);
      forall i | 0 <= i < |rules| && RuleEffect(rules[i].alts, row).Sets?
        ensures Get(ApplyBlock(m, rules, row), rules[i].field) == Some(RuleEffect(rules[i].alts, row).v)
      {
        if i > 0 {
          assert rules[1..][i - 1] == rules[i];
        } else {
          forall j | 0 <= j < |rules[1..]| ensures rules[1..][j].field != rules[0].field {
            assert rules[1..][j] == rules[j + 1];
          }
        }
      }
      forall f | forall i :: 0 <= i < |rules| && rules[i].field == f ==> RuleEffect(rules[i].alts, row).NoColumn?
        ensures Get(ApplyBlock(m, rules, row), f) == Get(m, f)
      {
        forall j | 0 <= j < |rules[1..]| && rules[1..][j].field == f
          ensures RuleEffect(rules[1..][j].alts, row).NoColumn?
        {
          assert rules[1..][j] == rules[j + 1];
        }
      }
    }
  }

  /**
   * The indicator frame wins: when its block has no failed conversion, every one
   * of ROA, leverage, current ratio, gross margin and turnover it provides is the
   * final current value, whatever the abstract said.
   */
  lemma IndicatorOverrides(abstractRow: Option<Row>, row: Row)
    requires NoFailure(IndicatorRules, row)
    ensures forall i :: 0 <= i < |IndicatorRules| && RuleEffect(IndicatorRules[i].alts, row).Sets? ==>
      Get(CurrentValues(abstractRow, Some(row)), IndicatorRules[i].field) == Some(RuleEffect(IndicatorRules[i].alts, row).v)
  {
    var m1 := if abstractRow.Some? then ApplyBlock(map[], AbstractRules, abstractRow.value) else map[];
    ApplyBlockSets(m1, IndicatorRules, row);
  }

  /** The "(%)" column wins when both are present; the bare column is scaled by 100. */
  lemma PercentColumnWins(row: Row)
    ensures "资产负债率(%)" in row ==>
      RuleEffect(LeverageRule.alts, row) ==
        (match ToFloat(row["资产负债率(%)"]) case None => Fails case Some(f) => Sets(f))
    ensures "资产负债率(%)" !in row && "资产负债率" in row ==>
      RuleEffect(LeverageRule.alts, row) ==
        (match ToFloat(row["资产负债率"]) case None => Fails case Some(f) => Sets(Scale(f, 100.0)))
    ensures "毛利率(%)" in row ==>
      RuleEffect(MarginRule.alts, row) ==
        (match ToFloat(row["毛利率(%)"]) case None => Fails case Some(f) => Sets(f))
    ensures "毛利率(%)" !in row && "毛利率" in row ==>
      RuleEffect(MarginRule.alts, row) ==
        (match ToFloat(row["毛利率"]) case None => Fails case Some(f) => Sets(Scale(f, 100.0)))
  {
    assert LeverageRule.alts[1..] == [Alt("资产负债率", 100.0)];
    assert MarginRule.alts[1..] == [Alt("毛利率", 100.0)];
  }

  /**
   * Composed with the builder, tests 5, 6, 8 and 9 compare a value with itself and
   * fail, test 3 passes exactly when test 1 does (x > 0.95x iff x > 0), and test 7
   * always passes: every score lies in [1, 5].
   */
  lemma ScoreBounds(abstractRow: Option<Row>, indicatorRow: Option<Row>)
    ensures var r := CalculateFScore(BuildSnapshot(abstractRow, indicatorRow));
      1 <= r.fScore <= 5 &&
      !r.details[4] && !r.details[5] && !r.details[7] && !r.details[8] &&
      r.details[6] && (r.details[2] <==> r.details[0])
  {
    var d := BuildSnapshot(abstractRow, indicatorRow);
    assert Copied(d);
    CopiedScore(d);
  }

  /** The builder's shape: prior ROA scaled by 0.95, every other prior copied, no equity issue. */
  predicate Copied(d: Snapshot)
  {
    d.previousRoa == ScaleOpt(d.currentRoa, 0.95) && d.previousLeverage == d.currentLeverage &&
    d.previousRatio == d.currentRatio && d.previousGrossMargin == d.currentGrossMargin &&
    d.previousTurnover == d.currentTurnover && d.equityIncreased == Some(false)
  }

  lemma CopiedScore(d: Snapshot)
    requires Copied(d)
    ensures var r := CalculateFScore(d);
      1 <= r.fScore <= 5 &&
      !r.details[4] && !r.details[5] && !r.details[7] && !r.details[8] &&
      r.details[6] && (r.details[2] <==> r.details[0])
  {
    NoChangeNoPoint(d.currentLeverage);
    NoChangeNoPoint(d.currentRatio);
    NoChangeNoPoint(d.currentGrossMargin);
    NoChangeNoPoint(d.currentTurnover);
  }
}
