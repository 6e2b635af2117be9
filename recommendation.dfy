// stock_recommendation/stock_recommendation.py: the buy/sell advice for one
// stock. `StockRecommendation` keeps the stock's name, price and the analysis
// it gathers; `create_strategy` scores seven technical and fundamental rules,
// maps the score to one of five bands with a confidence, a position size and
// price levels. `main` normalises the code given on the command line.

module Recommendation {
  import opened Py
  import opened Strings
  import opened FinanceExtract
  import Tables

  // ---------------------------------------------------------------------------
  // Code normalisation in `main`
  // ---------------------------------------------------------------------------

  /**
   * `main`'s code normalisation: six characters are kept, five starting with
   * '6' or '0' get that digit in front, anything else is refused (None).
   */
  function NormalizeCode(arg: string): Option<string>
  {
    if |arg| == 6 then Some(arg)
    else if |arg| == 5 && arg[0] == '6' then Some("6" + arg)
    else if |arg| == 5 && arg[0] == '0' then Some("0" + arg)
    else None
  }

  /**
   * A code is accepted exactly when it has six characters, or five starting
   * with '6' or '0'; an accepted code has six characters, ends with the
   * argument and starts with the argument's first character.
   */
  lemma NormalizeCodeProps(arg: string)
    ensures NormalizeCode(arg).Some? <==> |arg| == 6 || (|arg| == 5 && (arg[0] == '6' || arg[0] == '0'))
    ensures NormalizeCode(arg).Some? ==>
      var c := NormalizeCode(arg).value;
      |c| == 6 && c[6 - |arg|..] == arg && c[0] == arg[0]
    ensures |arg| == 6 ==> NormalizeCode(arg) == Some(arg)
  {
    if |arg| == 5 && (arg[0] == '6' || arg[0] == '0') {
      var c := NormalizeCode(arg).value;
      assert c == [arg[0]] + arg;
      assert c[1..] == arg;
    }
  }

  // ---------------------------------------------------------------------------
  // get_stock_name_by_code
  // ---------------------------------------------------------------------------

  const KnownNames: map<string, string> := map[
    "000001" := "平安银行", "000002" := "万科A", "000858" := "五粮液", "002594" := "比亚迪",
    "300750" := "宁德时代", "600519" := "贵州茅台", "600036" := "招商银行", "601318" := "中国平安",
    "601398" := "工商银行", "000333" := "美的集团"]

  /** `stock_names.get(code, f"股票{code}")` */
  function NameByCode(code: string): string
  {
    if code in KnownNames then KnownNames[code] else "股票" + code
  }

  /**
   * A code of the table gets its name; any other code gets "股票" followed by
   * the code, which therefore ends with the code and is never a table name.
   */
  lemma NameByCodeProps(code: string)
    ensures code in KnownNames ==> NameByCode(code) == KnownNames[code]
    ensures code !in KnownNames ==>
      |NameByCode(code)| == |code| + 2 && NameByCode(code)[2..] == code && NameByCode(code)[..2] == "股票"
    ensures code !in KnownNames ==> NameByCode(code) !in KnownNames.Values
  {
    if code !in KnownNames {
      var n := NameByCode(code);
      assert n[..2] == "股票";
      assert n[0] == '股';
      assert forall v :: v in KnownNames.Values ==> v[0] != '股';
    }
  }

  // ---------------------------------------------------------------------------
  // get_fundamental_analysis
  // ---------------------------------------------------------------------------

  /** `column_mapping`: the row label and the key it is stored under. */
  const Labels: seq<(string, string)> := [
    ("市盈率", "pe"), ("市净率", "pb"), ("净资产收益率", "roe"), ("资产负债率", "debt_ratio"),
    ("营业总收入同比增长率", "revenue_growth"), ("净利润增长率", "profit_growth")]

  const FundamentalKeys: set<string> := {"pe", "pb", "roe", "debt_ratio", "revenue_growth", "profit_growth"}

  /**
   * One present label's value: NA gives 0; otherwise `float(str(value)
   * .replace('%', ''))`, and 0 when that raises. A number's `str` reads back
   * as the same number.
   */
  function LabelValue(c: Cell): Float
  {
    match c
    case CNone => Fin(0.0)
    case CNum(x) => if x.NaN? then Fin(0.0) else x
    case CStr(s) =>
      match ParseFloat(RemoveChar(s, '%'))
      case None => Fin(0.0)
      case Some(x) => x
  }

  /** The value stored for one label of the latest row: 0 when the label is absent. */
  function ValueFor(f: Frame, lab: string): Float
  {
    if lab in f.columns && |f.rows| > 0 then LabelValue(Col(f.columns, f.rows[0], lab)) else Fin(0.0)
  }

  /** The dictionary after the first n labels of the loop. */
  function Assigned(f: Frame, n: nat): map<string, Float>
    requires n <= |Labels|
  {
    if n == 0 then map[] else Assigned(f, n - 1)[Labels[n - 1].1 := ValueFor(f, Labels[n - 1].0)]
  }

  lemma {:induction false} AssignedKeys(f: Frame, n: nat)
    requires n <= |Labels|
    ensures Assigned(f, n).Keys == set k | 0 <= k < n :: Labels[k].1
  {
    if n > 0 {
      AssignedKeys(f, n - 1);
    }
  }

  /** Every label of the first n is stored under its key, since the keys are distinct. */
  lemma {:induction false} AssignedValues(f: Frame, n: nat)
    requires n <= |Labels|
    ensures forall k :: 0 <= k < n ==> Labels[k].1 in Assigned(f, n) && Assigned(f, n)[Labels[k].1] == ValueFor(f, Labels[k].0)
  {
    if n > 0 {
      AssignedValues(f, n - 1);
      forall k | 0 <= k < n - 1
        ensures Labels[k].1 != Labels[n - 1].1
      {
      }
    }
  }

  /** The `fundamentals` dictionary read from a non-empty summary frame. */
  function Fundamentals(f: Frame): map<string, Float>
  {
    Assigned(f, |Labels|)
  }

  /**
   * The dictionary has exactly the six keys and each holds its label's value
   * from the latest row, 0 when the label is missing.
   */
  lemma FundamentalsProps(f: Frame)
    ensures Fundamentals(f).Keys == FundamentalKeys
    ensures forall k :: 0 <= k < |Labels| ==> Fundamentals(f)[Labels[k].1] == ValueFor(f, Labels[k].0)
  {
    AssignedKeys(f, |Labels|);
    AssignedValues(f, |Labels|);
    LabelKeys();
  }

  /** The labels' keys are the six fundamental keys. */
  lemma LabelKeys()
    ensures (set k | 0 <= k < |Labels| :: Labels[k].1) == FundamentalKeys
  {
    var ks := set k | 0 <= k < |Labels| :: Labels[k].1;
    assert Labels[0].1 in ks && Labels[1].1 in ks && Labels[2].1 in ks;
    assert Labels[3].1 in ks && Labels[4].1 in ks && Labels[5].1 in ks;
  }

  /**
   * A missing value, an NA value and a text that does not parse all read as
   * 0; a percent sign is ignored, so "n%" reads as n.
   */
  lemma LabelValueProps(f: Frame, lab: string, n: nat)
    ensures lab !in f.columns ==> ValueFor(f, lab) == Fin(0.0)
    ensures LabelValue(CNone) == Fin(0.0) && LabelValue(CNum(NaN)) == Fin(0.0)
    ensures forall s :: ParseFloat(RemoveChar(s, '%')).None? ==> LabelValue(CStr(s)) == Fin(0.0)
    ensures LabelValue(CStr(NatToString(n) + "%")) == Fin(n as real)
  {
    NatToStringDigits(n);
    RemoveDigitsPercent(NatToString(n));
    ParseFloatOfNat(n);
  }

  lemma {:induction false} RemoveDigitsPercent(s: string)
    requires AllDigits(s)
    ensures RemoveChar(s + "%", '%') == s
  {
    if |s| > 0 {
      assert (s + "%")[1..] == s[1..] + "%";
      RemoveDigitsPercent(s[1..]);
    } else {
      assert s + "%" == "%";
    }
  }

  /** What the financial summary call gave: it raised, or a frame. */
  datatype SummaryReply = SummaryRaised | Summary(frame: Frame)

  /** `np.random.uniform(lo, hi)` for the estimate of one key. */
  type Draws = (string, real, real) -> real

  ghost predicate UniformDraws(draws: Draws)
  {
    forall k, lo, hi :: lo < hi ==> lo <= draws(k, lo, hi) < hi
  }

  /** The ranges of the estimates used when the call raises. */
  const EstimateRanges: seq<(string, real, real)> := [
    ("pe", 10.0, 30.0), ("pb", 1.0, 5.0), ("roe", 5.0, 25.0), ("debt_ratio", 30.0, 70.0),
    ("revenue_growth", -10.0, 30.0), ("profit_growth", -20.0, 40.0)]

  function Estimates(draws: Draws): map<string, Float>
  {
    map["pe" := Fin(draws("pe", 10.0, 30.0)), "pb" := Fin(draws("pb", 1.0, 5.0)),
        "roe" := Fin(draws("roe", 5.0, 25.0)), "debt_ratio" := Fin(draws("debt_ratio", 30.0, 70.0)),
        "revenue_growth" := Fin(draws("revenue_growth", -10.0, 30.0)),
        "profit_growth" := Fin(draws("profit_growth", -20.0, 40.0))]
  }

  /** `get_fundamental_analysis`: None for an empty frame, estimates when the call raised. */
  function FundamentalAnalysis(reply: SummaryReply, draws: Draws): Option<map<string, Float>>
  {
    match reply
    case SummaryRaised => Some(Estimates(draws))
    case Summary(f) => if Empty(f) then None else Some(Fundamentals(f))
  }

  /**
   * The analysis is None exactly for an empty frame; otherwise it has the six
   * keys, and the estimates lie within their ranges.
   */
  lemma FundamentalAnalysisProps(reply: SummaryReply, draws: Draws)
    ensures FundamentalAnalysis(reply, draws).None? <==> reply.Summary? && Empty(reply.frame)
    ensures FundamentalAnalysis(reply, draws).Some? ==> FundamentalAnalysis(reply, draws).value.Keys == FundamentalKeys
    ensures reply.SummaryRaised? && UniformDraws(draws) ==>
      var d := FundamentalAnalysis(reply, draws).value;
      forall k :: 0 <= k < |EstimateRanges| ==>
        d[EstimateRanges[k].0].Fin? && EstimateRanges[k].1 <= d[EstimateRanges[k].0].r < EstimateRanges[k].2
  {
    if reply.Summary? && !Empty(reply.frame) {
      FundamentalsProps(reply.frame);
    }
    if reply.SummaryRaised? {
      EstimatesProps(draws);
    }
  }

  /** The estimates have the six keys and, for uniform draws, each lies within its range. */
  lemma EstimatesProps(draws: Draws)
    ensures Estimates(draws).Keys == FundamentalKeys
    ensures UniformDraws(draws) ==>
      forall k :: 0 <= k < |EstimateRanges| ==>
        Estimates(draws)[EstimateRanges[k].0].Fin? &&
        EstimateRanges[k].1 <= Estimates(draws)[EstimateRanges[k].0].r < EstimateRanges[k].2
  {
    forall k | 0 <= k < |EstimateRanges|
      ensures Estimates(draws)[EstimateRanges[k].0] == Fin(draws(EstimateRanges[k].0, EstimateRanges[k].1, EstimateRanges[k].2))
    {
    }
  }

  /** `get_fundamental_analysis` with its label loop. */
  method GetFundamentalAnalysis(reply: SummaryReply, draws: Draws) returns (r: Option<map<string, Float>>)
    ensures r == FundamentalAnalysis(reply, draws)
  {
    if reply.SummaryRaised? {
      return Some(Estimates(draws));
    }
    var f := reply.frame;
    if Empty(f) {
      return None;
    }
    var d: map<string, Float> := map[];
    var i := 0;
    while i < |Labels|
      invariant 0 <= i <= |Labels|
      invariant d == Assigned(f, i)
    {
      var (lab, key) := Labels[i];
      var value := ValueFor(f, lab);
      d := d[key := value];
      i := i + 1;
    }
    r := Some(d);
  }

  // ---------------------------------------------------------------------------
  // create_strategy
  // ---------------------------------------------------------------------------

  /** The technical indicators: the latest row computed, or the `{}` used when there is none. */
  datatype Tech = NoIndicators | Indicators(values: map<string, Float>)

  /** `tech.get(key, default)`, also `fund.get(key, default)` */
  function GetOr(d: map<string, Float>, key: string, default: real): Float
  {
    if key in d then d[key] else Fin(default)
  }

  /** `x < c` on a numpy result; -inf is below everything, NaN below nothing. */
  predicate Below(x: Extended, c: real)
  {
    (x.Num? && x.r < c) || (x.Inf? && !x.positive)
  }

  predicate Above(x: Extended, c: real)
  {
    (x.Num? && x.r > c) || (x.Inf? && x.positive)
  }

  /** Each rule's weight: trend 30, RSI 20, MACD 15, Bollinger 15, PE 20, ROE 15, debt 10. */
  const Weights: seq<nat> := [30, 20, 15, 15, 20, 15, 10]

  const ReasonTexts: seq<string> := ["多头排列，趋势向上", "RSI超卖，可能反弹", "MACD金叉，动能增强",
    "布林带下轨附近，支撑较强", "估值较低，安全边际高", "盈利能力强，ROE优秀", "负债率低，财务稳健"]

  const RiskTexts: seq<string> := ["空头排列，趋势向下", "RSI超买，可能回调", "MACD死叉，动能减弱",
    "布林带上轨附近，压力较大", "估值过高，存在泡沫风险", "盈利能力弱，ROE偏低", "负债率高，财务风险大"]

  /** The score and the `reasons` and `risks` lists as the rules build them. */
  datatype Tally = Tally(score: int, reasons: seq<string>, risks: seq<string>)

  const NoTally := Tally(0, [], [])

  /** Rule k: its weight and reason when it holds, minus its weight and its risk when its opposite holds. */
  function Step(t: Tally, k: nat, up: bool, down: bool): Tally
    requires k < |Weights|
  {
    if up then Tally(t.score + Weights[k], t.reasons + [ReasonTexts[k]], t.risks)
    else if down then Tally(t.score - Weights[k], t.reasons, t.risks + [RiskTexts[k]])
    else t
  }

  /** Where the price sits in the Bollinger band, `(p - lower) / (upper - lower)`. */
  function BandPosition(p: Float, upper: Float, lower: Float): Extended
    requires upper.Fin? && lower.Fin?
  {
    FloatDiv(if p.NaN? then NaN else Fin(p.r - lower.r), Fin(upper.r - lower.r))
  }

  /** `p > MA5 > MA10 > MA20`: the moving averages line up upwards. */
  predicate TrendUp(p: Float, v: map<string, Float>)
  {
    Gt(p, GetOr(v, "MA5", 0.0)) && Gt(GetOr(v, "MA5", 0.0), GetOr(v, "MA10", 0.0)) && Gt(GetOr(v, "MA10", 0.0), GetOr(v, "MA20", 0.0))
  }

  /** `p < MA5 < MA10 < MA20` */
  predicate TrendDown(p: Float, v: map<string, Float>)
  {
    Gt(GetOr(v, "MA5", 0.0), p) && Gt(GetOr(v, "MA10", 0.0), GetOr(v, "MA5", 0.0)) && Gt(GetOr(v, "MA20", 0.0), GetOr(v, "MA10", 0.0))
  }

  /** `rsi < 30`, with 50 for a missing RSI */
  predicate RsiLow(v: map<string, Float>) { Gt(Fin(30.0), GetOr(v, "RSI", 50.0)) }

  predicate RsiHigh(v: map<string, Float>) { Gt(GetOr(v, "RSI", 50.0), Fin(70.0)) }

  /** `macd > macd_signal and macd > 0` */
  predicate MacdUp(v: map<string, Float>)
  {
    Gt(GetOr(v, "MACD", 0.0), GetOr(v, "MACD_signal", 0.0)) && Gt(GetOr(v, "MACD", 0.0), Fin(0.0))
  }

  /** `macd < macd_signal and macd < 0` */
  predicate MacdDown(v: map<string, Float>)
  {
    Gt(GetOr(v, "MACD_signal", 0.0), GetOr(v, "MACD", 0.0)) && Gt(Fin(0.0), GetOr(v, "MACD", 0.0))
  }

  /** `bb_upper > 0 and bb_lower > 0` */
  predicate BandPositive(v: map<string, Float>)
  {
    Gt(GetOr(v, "BB_upper", 0.0), Fin(0.0)) && Gt(GetOr(v, "BB_lower", 0.0), Fin(0.0))
  }

  /** The price in the lowest fifth of a positive band, `bb_position < 0.2`. */
  predicate BollLow(p: Float, v: map<string, Float>)
  {
    BandPositive(v) && Below(BandPosition(p, GetOr(v, "BB_upper", 0.0), GetOr(v, "BB_lower", 0.0)), 0.2)
  }

  predicate BollHigh(p: Float, v: map<string, Float>)
  {
    BandPositive(v) && Above(BandPosition(p, GetOr(v, "BB_upper", 0.0), GetOr(v, "BB_lower", 0.0)), 0.8)
  }

  /** `0 < pe < 15` */
  predicate PeLow(fund: map<string, Float>) { Gt(GetOr(fund, "pe", 0.0), Fin(0.0)) && Gt(Fin(15.0), GetOr(fund, "pe", 0.0)) }

  predicate PeHigh(fund: map<string, Float>) { Gt(GetOr(fund, "pe", 0.0), Fin(50.0)) }

  predicate RoeHigh(fund: map<string, Float>) { Gt(GetOr(fund, "roe", 0.0), Fin(15.0)) }

  predicate RoeLow(fund: map<string, Float>) { Gt(Fin(5.0), GetOr(fund, "roe", 0.0)) }

  predicate DebtLow(fund: map<string, Float>) { Gt(Fin(50.0), GetOr(fund, "debt_ratio", 0.0)) }

  predicate DebtHigh(fund: map<string, Float>) { Gt(GetOr(fund, "debt_ratio", 0.0), Fin(80.0)) }

  /** The four technical rules: trend, RSI, MACD and, for a positive band, Bollinger. */
  function Technical(p: Float, v: map<string, Float>, t: Tally): Tally
  {
    var t3 := FirstThree(p, v, t);
    if BandPositive(v) then Step(t3, 3, BollLow(p, v), BollHigh(p, v)) else t3
  }

  /** The trend, RSI and MACD rules, which always run together. */
  function FirstThree(p: Float, v: map<string, Float>, t: Tally): Tally
  {
    Step(Step(Step(t, 0, TrendUp(p, v), TrendDown(p, v)), 1, RsiLow(v), RsiHigh(v)), 2, MacdUp(v), MacdDown(v))
  }

  /** The three fundamental rules: valuation, profitability and debt. */
  function Fundamental(fund: map<string, Float>, t: Tally): Tally
  {
    Step(Step(Step(t, 4, PeLow(fund), PeHigh(fund)), 5, RoeHigh(fund), RoeLow(fund)), 6, DebtLow(fund), DebtHigh(fund))
  }

  /** All seven rules; the technical ones only with indicators, the fundamental ones only for a non-empty dictionary. */
  function TallyFor(p: Float, tech: Tech, fund: map<string, Float>): Tally
  {
    var t := if tech.Indicators? then Technical(p, tech.values, NoTally) else NoTally;
    if |fund| > 0 then Fundamental(fund, t) else t
  }

  /**
   * What the rules applied so far guarantee: the score is within the sum b
   * of their weights, at most n texts were added, each to the right list,
   * and a positive score has a reason and a negative one a risk.
   */
  predicate Bounded(t: Tally, b: int, n: nat)
  {
    -b <= t.score <= b && |t.reasons| + |t.risks| <= n &&
    (forall r :: r in t.reasons ==> r in ReasonTexts) && (forall r :: r in t.risks ==> r in RiskTexts) &&
    (t.score > 0 ==> |t.reasons| > 0) && (t.score < 0 ==> |t.risks| > 0)
  }

  /** One rule keeps the guarantee, with its weight and one more text. */
  lemma StepBounded(t: Tally, b: int, n: nat, k: nat, up: bool, down: bool)
    requires k < |Weights| && Bounded(t, b, n)
    ensures Bounded(Step(t, k, up, down), b + Weights[k], n + 1)
  {
    var s := Step(t, k, up, down);
    if up {
      assert s.reasons == t.reasons + [ReasonTexts[k]];
      assert forall r :: r in s.reasons ==> r in t.reasons || r == ReasonTexts[k];
    } else if down {
      assert s.risks == t.risks + [RiskTexts[k]];
      assert forall r :: r in s.risks ==> r in t.risks || r == RiskTexts[k];
    }
  }

  lemma TechnicalBounded(p: Float, v: map<string, Float>, t: Tally, b: int, n: nat)
    requires Bounded(t, b, n)
    ensures Bounded(Technical(p, v, t), b + 80, n + 4)
  {
    FirstThreeBounded(p, v, t, b, n);
    StepBounded(FirstThree(p, v, t), b + 65, n + 3, 3, BollLow(p, v), BollHigh(p, v));
  }

  /** The seven weights, one by one. */
  lemma WeightValues()
    ensures Weights[0] == 30 && Weights[1] == 20 && Weights[2] == 15 && Weights[3] == 15
    ensures Weights[4] == 20 && Weights[5] == 15 && Weights[6] == 10
  {
  }

  lemma FirstThreeBounded(p: Float, v: map<string, Float>, t: Tally, b: int, n: nat)
    requires Bounded(t, b, n)
    ensures Bounded(FirstThree(p, v, t), b + 65, n + 3)
  {
    WeightValues();
    ThreeStepsBounded(t, b, n, 0, TrendUp(p, v), TrendDown(p, v), RsiLow(v), RsiHigh(v), MacdUp(v), MacdDown(v), b + 65);
    assert FirstThree(p, v, t) == Step(Step(Step(t, 0, TrendUp(p, v), TrendDown(p, v)), 1, RsiLow(v), RsiHigh(v)), 2, MacdUp(v), MacdDown(v));
  }

  lemma FundamentalBounded(fund: map<string, Float>, t: Tally, b: int, n: nat)
    requires Bounded(t, b, n)
    ensures Bounded(Fundamental(fund, t), b + 45, n + 3)
  {
    WeightValues();
    ThreeStepsBounded(t, b, n, 4, PeLow(fund), PeHigh(fund), RoeHigh(fund), RoeLow(fund), DebtLow(fund), DebtHigh(fund), b + 45);
  }

  /** Three consecutive rules add at most their three weights and three texts. */
  lemma ThreeStepsBounded(t: Tally, b: int, n: nat, k: nat, u0: bool, d0: bool, u1: bool, d1: bool, u2: bool, d2: bool, b3: int)
    requires k + 2 < |Weights| && Bounded(t, b, n) && b3 == b + Weights[k] + Weights[k + 1] + Weights[k + 2]
    ensures Bounded(Step(Step(Step(t, k, u0, d0), k + 1, u1, d1), k + 2, u2, d2), b3, n + 3)
  {
    var t1 := Step(t, k, u0, d0);
    StepBounded(t, b, n, k, u0, d0);
    var t2 := Step(t1, k + 1, u1, d1);
    StepBounded(t1, b + Weights[k], n + 1, k + 1, u1, d1);
    StepBounded(t2, b + Weights[k] + Weights[k + 1], n + 2, k + 2, u2, d2);
  }

  /**
   * The score of the seven rules lies in [-125, 125]; at most seven texts
   * are listed, each reason and risk is one of the rules' own, a positive
   * score comes with a reason and a negative one with a risk. Without
   * indicators or fundamentals the score is 0 and both lists are empty.
   */
  lemma ScoreBounds(p: Float, tech: Tech, fund: map<string, Float>)
    ensures Bounded(TallyFor(p, tech, fund), 125, 7)
    ensures tech.NoIndicators? && |fund| == 0 ==> TallyFor(p, tech, fund) == NoTally
  {
    var t := if tech.Indicators? then Technical(p, tech.values, NoTally) else NoTally;
    assert Bounded(NoTally, 0, 0);
    if tech.Indicators? {
      TechnicalBounded(p, tech.values, NoTally, 0, 0);
    }
    assert Bounded(t, 80, 4);
    if |fund| > 0 {
      FundamentalBounded(fund, t, 80, 4);
    }
  }

  /** The five recommendations. */
  datatype Band = StrongBuy | Buy | Watch | Sell | StrongSell

  function BandOf(score: int): Band
  {
    if score >= 60 then StrongBuy
    else if score >= 30 then Buy
    else if score >= -30 then Watch
    else if score >= -60 then Sell
    else StrongSell
  }

  function ConfidenceOf(score: int): int
  {
    if score >= 60 then Tables.Min(95, 50 + score)
    else if score >= 30 then Tables.Min(80, 30 + score)
    else if score >= -30 then (if score < 0 then -score else score)
    else if score >= -60 then Tables.Min(80, 30 - score)
    else Tables.Min(95, 50 - score)
  }

  /**
   * Each score falls in exactly one band: strong buy from 60, buy from 30,
   * watch from -30, sell from -60, strong sell below. The confidence lies in
   * [0, 95]: 95 for the strong bands, [60, 80] for buy, [61, 80] for sell and
   * the score's magnitude, at most 30, for watch.
   */
  lemma BandProps(score: int)
    ensures BandOf(score) == StrongBuy <==> score >= 60
    ensures BandOf(score) == Buy <==> 30 <= score < 60
    ensures BandOf(score) == Watch <==> -30 <= score < 30
    ensures BandOf(score) == Sell <==> -60 <= score < -30
    ensures BandOf(score) == StrongSell <==> score < -60
    ensures 0 <= ConfidenceOf(score) <= 95
    ensures BandOf(score) in {StrongBuy, StrongSell} ==> ConfidenceOf(score) == 95
    ensures BandOf(score) == Buy ==> 60 <= ConfidenceOf(score) <= 80
    ensures BandOf(score) == Sell ==> 61 <= ConfidenceOf(score) <= 80
    ensures BandOf(score) == Watch ==> ConfidenceOf(score) <= 30 && (ConfidenceOf(score) == score || ConfidenceOf(score) == -score)
  {
  }

  /** The position size for a confidence. */
  function PositionOf(confidence: int): real
  {
    if confidence > 80 then 0.3 else if confidence > 60 then 0.2 else 0.1
  }

  /** Only the strong bands get a 30% position, and watch always gets 10%. */
  lemma PositionProps(score: int)
    ensures PositionOf(ConfidenceOf(score)) == 0.3 <==> BandOf(score) in {StrongBuy, StrongSell}
    ensures BandOf(score) == Watch ==> PositionOf(ConfidenceOf(score)) == 0.1
    ensures PositionOf(ConfidenceOf(score)) in {0.1, 0.2, 0.3}
  {
    BandProps(score);
  }

  /** Entry price, stop loss and take profit, before rounding to two decimals. */
  datatype Levels = Levels(entry: Float, stopLoss: Float, takeProfit: Float)

  /** `p * (1 + k * v)` with NaN propagating. */
  function Offset(p: Float, k: real, v: Float): Float
  {
    if p.NaN? || v.NaN? then NaN else Fin(p.r * (1.0 + k * v.r))
  }

  function LevelsOf(band: Band, p: Float, vol: Float): Levels
  {
    if band in {StrongBuy, Buy} then Levels(Scale(p, 0.98), Offset(p, -2.0, vol), Offset(p, 3.0, vol))
    else if band in {Sell, StrongSell} then Levels(Scale(p, 1.02), Offset(p, 2.0, vol), Offset(p, -3.0, vol))
    else Levels(p, Scale(p, 0.95), Scale(p, 1.05))
  }

  lemma MulNonneg(a: real, b: real)
    requires a >= 0.0 && b >= 0.0
    ensures a * b >= 0.0
  {
  }

  /**
   * For a positive price and a non-negative volatility: buying enters 2%
   * below the price with the stop below and the target above it; selling
   * mirrors this; watching enters at the price with a 5% band either side.
   */
  lemma LevelsProps(band: Band, p: real, v: real)
    requires p > 0.0 && v >= 0.0
    ensures var l := LevelsOf(band, Fin(p), Fin(v));
      l.entry.Fin? && l.stopLoss.Fin? && l.takeProfit.Fin? &&
      (band in {StrongBuy, Buy} ==> l.entry.r == 0.98 * p && l.stopLoss.r <= p <= l.takeProfit.r) &&
      (band in {Sell, StrongSell} ==> l.entry.r == 1.02 * p && l.takeProfit.r <= p <= l.stopLoss.r) &&
      (band == Watch ==> l.entry.r == p && l.stopLoss.r == 0.95 * p && l.takeProfit.r == 1.05 * p)
  {
    MulNonneg(p, v);
    assert p * (1.0 + 3.0 * v) == p + 3.0 * (p * v);
    assert p * (1.0 + -3.0 * v) == p - 3.0 * (p * v);
    assert p * (1.0 + 2.0 * v) == p + 2.0 * (p * v);
    assert p * (1.0 + -2.0 * v) == p - 2.0 * (p * v);
  }

  /** The strategy dictionary. */
  datatype Strategy = Strategy(recommendation: Band, levels: Levels, positionSize: real, confidence: int,
                               reasons: seq<string>, risks: seq<string>)

  /** `create_strategy` as a function of the price and the analysis. */
  function StrategyFor(p: Float, tech: Tech, fund: map<string, Float>): Strategy
  {
    var t := TallyFor(p, tech, fund);
    var score := t.score;
    var band := BandOf(score);
    var confidence := ConfidenceOf(score);
    var vol := if tech.Indicators? then GetOr(tech.values, "volatility", 0.2) else Fin(0.2);
    Strategy(band, LevelsOf(band, p, vol), PositionOf(confidence), confidence,
      t.reasons, t.risks)
  }

  /** `analysis_data` once `generate_recommendation` has filled it. */
  datatype Analysis = Analysis(code: string, name: string, price: Float, technical: Tech, fundamental: map<string, Float>)

  /** A row of a real-time quote listing for the code: its name and its price cell. */
  datatype SpotReply = SpotUnavailable | SpotRow(name: string, price: Cell)

  /** The last close of the daily history, or none when the call raised or gave no rows. */
  datatype HistoryReply = HistoryUnavailable | LastClose(close: Cell)

  /** What `generate_recommendation` returns. */
  datatype Outcome = NoStockInfo | Advice(strategy: Strategy)

  class StockRecommendation {
    var stockCode: string
    var stockName: string
    var currentPrice: Float
    /** None before `generate_recommendation` fills `analysis_data`. */
    var analysis: Option<Analysis>

    constructor (code: string)
      ensures stockCode == code && stockName == "" && currentPrice == Fin(0.0) && analysis == None
    {
      stockCode := code;
      stockName := "";
      currentPrice := Fin(0.0);
      analysis := None;
    }

    /** `get_stock_name_by_code` */
    function StockNameByCode(): string
      reads this
    {
      NameByCode(stockCode)
    }

    /**
     * `get_stock_basic_info`: the eastmoney listing, then the sina listing,
     * then the last close of the history. A listing row sets the name before
     * its price is converted, so a price that does not convert leaves the
     * name changed and moves on. Every failure is caught inside the first
     * attempt, which therefore always returns.
     */
    method GetStockBasicInfo(em: SpotReply, sina: SpotReply, hist: HistoryReply) returns (ok: bool)
      modifies this
      ensures stockCode == old(stockCode) && analysis == old(analysis)
      ensures em.SpotRow? && ToFloat(em.price).Some? ==>
        ok && stockName == em.name && currentPrice == ToFloat(em.price).value
      ensures !(em.SpotRow? && ToFloat(em.price).Some?) && sina.SpotRow? && ToFloat(sina.price).Some? ==>
        ok && stockName == sina.name && currentPrice == ToFloat(sina.price).value
      ensures !(em.SpotRow? && ToFloat(em.price).Some?) && !(sina.SpotRow? && ToFloat(sina.price).Some?) ==>
        if hist.LastClose? && ToFloat(hist.close).Some? then
          ok && currentPrice == ToFloat(hist.close).value && stockName == NameByCode(stockCode)
        else
          !ok && currentPrice == old(currentPrice) &&
          stockName == (if sina.SpotRow? then sina.name else if em.SpotRow? then em.name else old(stockName))
    {
      if em.SpotRow? {
        stockName := em.name;
        var price := ToFloat(em.price);
        if price.Some? {
          currentPrice := price.value;
          return true;
        }
      }
      if sina.SpotRow? {
        stockName := sina.name;
        var price := ToFloat(sina.price);
        if price.Some? {
          currentPrice := price.value;
          return true;
        }
      }
      if hist.LastClose? {
        var price := ToFloat(hist.close);
        if price.Some? {
          currentPrice := price.value;
          stockName := StockNameByCode();
          return true;
        }
      }
      return false;
    }

    /**
     * One rule of `create_strategy`: `score += w` and a reason when it holds,
     * `score -= w` and a risk when its opposite holds.
     */
    static method Apply(k: nat, up: bool, down: bool, score: int, reasons: seq<string>, risks: seq<string>)
      returns (score': int, reasons': seq<string>, risks': seq<string>)
      requires k < |Weights|
      ensures Tally(score', reasons', risks') == Step(Tally(score, reasons, risks), k, up, down)
    {
      score', reasons', risks' := score, reasons, risks;
      if up {
        score' := score + Weights[k];
        reasons' := reasons + [ReasonTexts[k]];
      } else if down {
        score' := score - Weights[k];
        risks' := risks + [RiskTexts[k]];
      }
    }

    /** The technical block of `create_strategy`, run when there are indicators. */
    static method TechnicalRules(price: Float, v: map<string, Float>, score: int, reasons: seq<string>, risks: seq<string>)
      returns (score': int, reasons': seq<string>, risks': seq<string>)
      ensures Tally(score', reasons', risks') == Technical(price, v, Tally(score, reasons, risks))
    {
      score', reasons', risks' := Apply(0, TrendUp(price, v), TrendDown(price, v), score, reasons, risks);
      score', reasons', risks' := Apply(1, RsiLow(v), RsiHigh(v), score', reasons', risks');
      score', reasons', risks' := Apply(2, MacdUp(v), MacdDown(v), score', reasons', risks');
      if BandPositive(v) {
        score', reasons', risks' := Apply(3, BollLow(price, v), BollHigh(price, v), score', reasons', risks');
      }
    }

    /** The fundamental block of `create_strategy`, run for a non-empty dictionary. */
    static method FundamentalRules(fund: map<string, Float>, score: int, reasons: seq<string>, risks: seq<string>)
      returns (score': int, reasons': seq<string>, risks': seq<string>)
      ensures Tally(score', reasons', risks') == Fundamental(fund, Tally(score, reasons, risks))
    {
      score', reasons', risks' := Apply(4, PeLow(fund), PeHigh(fund), score, reasons, risks);
      score', reasons', risks' := Apply(5, RoeHigh(fund), RoeLow(fund), score', reasons', risks');
      score', reasons', risks' := Apply(6, DebtLow(fund), DebtHigh(fund), score', reasons', risks');
    }

    /** The scoring half of `create_strategy`: both blocks, each when it applies. */
    static method RuleScore(price: Float, tech: Tech, fund: map<string, Float>)
      returns (score: int, reasons: seq<string>, risks: seq<string>)
      ensures Tally(score, reasons, risks) == TallyFor(price, tech, fund)
    {
      score, reasons, risks := 0, [], [];
      if tech.Indicators? {
        score, reasons, risks := TechnicalRules(price, tech.values, score, reasons, risks);
      }
      if |fund| > 0 {
        score, reasons, risks := FundamentalRules(fund, score, reasons, risks);
      }
    }

    /**
     * `create_strategy`: the rules' score gives the band and the confidence,
     * the band the price levels, the confidence the position size.
     */
    method CreateStrategy() returns (s: Strategy)
      requires analysis.Some?
      ensures s == StrategyFor(currentPrice, analysis.value.technical, analysis.value.fundamental)
    {
      var price := currentPrice;
      var tech := analysis.value.technical;
      var fund := analysis.value.fundamental;
      var score, reasons, risks := RuleScore(price, tech, fund);
      var band: Band;
      var confidence: int;
      if score >= 60 {
        band, confidence := StrongBuy, Tables.Min(95, 50 + score);
      } else if score >= 30 {
        band, confidence := Buy, Tables.Min(80, 30 + score);
      } else if score >= -30 {
        band, confidence := Watch, if score < 0 then -score else score;
      } else if score >= -60 {
        band, confidence := Sell, Tables.Min(80, 30 - score);
      } else {
        band, confidence := StrongSell, Tables.Min(95, 50 - score);
      }
      assert band == BandOf(score) && confidence == ConfidenceOf(score);
      var vol := if tech.Indicators? then GetOr(tech.values, "volatility", 0.2) else Fin(0.2);
      var levels: Levels;
      if band == StrongBuy || band == Buy {
        levels := Levels(Scale(price, 0.98), Offset(price, -2.0, vol), Offset(price, 3.0, vol));
      } else if band == Sell || band == StrongSell {
        levels := Levels(Scale(price, 1.02), Offset(price, 2.0, vol), Offset(price, -3.0, vol));
      } else {
        levels := Levels(price, Scale(price, 0.95), Scale(price, 1.05));
      }
      assert levels == LevelsOf(band, price, vol);
      var position: real;
      if confidence > 80 {
        position := 0.3;
      } else if confidence > 60 {
        position := 0.2;
      } else {
        position := 0.1;
      }
      assert position == PositionOf(confidence);
      s := Strategy(band, levels, position, confidence, reasons, risks);
    }

    /**
     * `generate_recommendation`: without basic information it gives up;
     * otherwise it stores the analysis (no indicators become `{}`, no
     * fundamentals an empty dictionary) and returns the strategy.
     */
    method GenerateRecommendation(em: SpotReply, sina: SpotReply, hist: HistoryReply,
                                  indicators: Option<map<string, Float>>, summary: SummaryReply, draws: Draws)
      returns (r: Outcome)
      modifies this
      ensures stockCode == old(stockCode)
      ensures r.NoStockInfo? ==> analysis == old(analysis)
      ensures r.Advice? ==>
        var tech := if indicators.Some? then Indicators(indicators.value) else NoIndicators;
        var fa := FundamentalAnalysis(summary, draws);
        var fund := if fa.Some? then fa.value else map[];
        analysis == Some(Analysis(stockCode, stockName, currentPrice, tech, fund)) &&
        r.strategy == StrategyFor(currentPrice, tech, fund)
    {
      var ok := GetStockBasicInfo(em, sina, hist);
      if !ok {
        return NoStockInfo;
      }
      var s := AnalyzeAndAdvise(indicators, summary, draws);
      r := Advice(s);
    }

    /** The part of `generate_recommendation` after the basic information: store the analysis, then advise. */
    method AnalyzeAndAdvise(indicators: Option<map<string, Float>>, summary: SummaryReply, draws: Draws)
      returns (s: Strategy)
      modifies this
      ensures stockCode == old(stockCode) && stockName == old(stockName) && currentPrice == old(currentPrice)
      ensures var tech := if indicators.Some? then Indicators(indicators.value) else NoIndicators;
        var fa := FundamentalAnalysis(summary, draws);
        var fund := if fa.Some? then fa.value else map[];
        analysis == Some(Analysis(stockCode, stockName, currentPrice, tech, fund)) &&
        s == StrategyFor(currentPrice, tech, fund)
    {
      var tech := if indicators.Some? then Indicators(indicators.value) else NoIndicators;
      var fa := GetFundamentalAnalysis(summary, draws);
      var fund := if fa.Some? then fa.value else map[];
      analysis := Some(Analysis(stockCode, stockName, currentPrice, tech, fund));
      s := CreateStrategy();
    }
  }
}
