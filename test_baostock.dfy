// demos/test_baostock.py: `_get_value`, the ratio-based F-Score and the
// ten-test FFScore over the first rows of the baostock statement frames.

module TestBaostock {
  import opened Py
  import opened Scoring

  /** The first row of a frame; None for a missing or empty frame. */
  type Frame = Option<map<string, Cell>>

  /**
   * `_get_value`: None for a missing or empty frame or an absent column; a string
   * is parsed (None when it does not parse); any other value is returned as is.
   */
  function GetValue(df: Frame, column: string): (r: Option<Float>)
    ensures df.None? || column !in df.value ==> r.None?
    ensures df.Some? && column in df.value && df.value[column].CNum? ==> r == Some(df.value[column].f)
    ensures df.Some? && column in df.value && df.value[column].CStr? ==> r == ParseFloat(df.value[column].s)
  {
    if df.None? || column !in df.value then None else ToFloat(df.value[column])
  }

  /** Float division by a truthy (non-zero) divisor; NaN propagates. */
  function Div(a: Float, b: Float): Float
    requires b.NaN? || b.r != 0.0
  {
    if a.NaN? || b.NaN? then NaN else Fin(a.r / b.r)
  }

  /**
   * `num / den if den else None`: None (a ratio that is not computed) for a falsy
   * divisor; a missing numerator divided raises a TypeError, the outer None.
   */
  function Ratio(num: Option<Float>, den: Option<Float>): Option<Option<Float>>
  {
    if !Truthy(den) then Some(None)
    else if num.None? then None
    else Some(Some(Div(num.value, den.value)))
  }

  /** `x is not None and x > c` */
  predicate Above(x: Option<Float>, c: real) { x.Some? && Gt(x.value, Fin(c)) }

  /** `x is not None and x < c` */
  predicate Below(x: Option<Float>, c: real) { x.Some? && Gt(Fin(c), x.value) }

  /** The five frames the scorers require; the prior cash-flow frame is not among them. */
  predicate Complete(cp: Frame, cb: Frame, cc: Frame, pp: Frame, pb: Frame)
  {
    cp.Some? && cb.Some? && cc.Some? && pp.Some? && pb.Some?
  }

  /** The F-Score's ten numerator and divisor pairs, in the order the function computes them. */
  function FOperands(cp: Frame, cb: Frame, pp: Frame, pb: Frame): seq<(Option<Float>, Option<Float>)>
  {
    [(GetValue(cp, "totalProfitable"), GetValue(cb, "totalAsset")),
     (GetValue(pp, "totalProfitable"), GetValue(pb, "totalAsset")),
     (GetValue(cb, "totalLiability"), GetValue(cb, "totalAsset")),
     (GetValue(pb, "totalLiability"), GetValue(pb, "totalAsset")),
     (GetValue(cb, "currentAsset"), GetValue(cb, "currentLiability")),
     (GetValue(pb, "currentAsset"), GetValue(pb, "currentLiability")),
     (GetValue(cp, "grossProfit"), GetValue(cp, "revenue")),
     (GetValue(pp, "grossProfit"), GetValue(pp, "revenue")),
     (GetValue(cp, "revenue"), GetValue(cb, "totalAsset")),
     (GetValue(pp, "revenue"), GetValue(pb, "totalAsset"))]
  }

  function Ratios(ops: seq<(Option<Float>, Option<Float>)>): (rs: seq<Option<Option<Float>>>)
    ensures |rs| == |ops| && forall i :: 0 <= i < |ops| ==> rs[i] == Ratio(ops[i].0, ops[i].1)
  {
    if |ops| == 0 then [] else [Ratio(ops[0].0, ops[0].1)] + Ratios(ops[1..])
  }

  /** The F-Score's ten ratios. */
  function FRatios(cp: Frame, cb: Frame, pp: Frame, pb: Frame): seq<Option<Option<Float>>>
  {
    Ratios(FOperands(cp, cb, pp, pb))
  }

  predicate NoneRaised(rs: seq<Option<Option<Float>>>)
  {
    forall i :: 0 <= i < |rs| ==> rs[i].Some?
  }

  /** The nine tests once the ratios are known; test 7 always passes. */
  function FTests(rs: seq<Option<Float>>, cfo: Option<Float>, netProfit: Option<Float>): (r: Scored)
    requires |rs| == 10
    ensures |r.details| == 9 && r.fScore == Count(r.details) && r.details[6] && 1 <= r.fScore <= 9
  {
    var b0 := Above(rs[0], 0.0);
    var b1 := Above(cfo, 0.0);
    var b2 := Increased(rs[0], rs[1]);
    var b3 := Increased(cfo, netProfit);
    var b4 := Decreased(rs[2], rs[3]);
    var b5 := Increased(rs[4], rs[5]);
    var b7 := Increased(rs[6], rs[7]);
    var b8 := Increased(rs[8], rs[9]);
    CountNine(b0, b1, b2, b3, b4, b5, true, b7, b8);
    Scored(Point(b0) + Point(b1) + Point(b2) + Point(b3) + Point(b4) + Point(b5) + 1 + Point(b7) + Point(b8),
      [b0, b1, b2, b3, b4, b5, true, b7, b8])
  }

  function Values(rs: seq<Option<Option<Float>>>): (vs: seq<Option<Float>>)
    requires NoneRaised(rs)
    ensures |vs| == |rs| && forall i :: 0 <= i < |rs| ==> vs[i] == rs[i].value
  {
    if |rs| == 0 then [] else [rs[0].value] + Values(rs[1..])
  }

  /**
   * `calculate_f_score`: None when a required frame is missing or empty, or when
   * a ratio raises; otherwise the score in [1, 9] with its details.
   */
  function CalculateFScore(cp: Frame, cb: Frame, cc: Frame, pp: Frame, pb: Frame): (r: Option<Scored>)
    ensures !Complete(cp, cb, cc, pp, pb) ==> r.None?
    ensures r.Some? ==> (|r.value.details| == 9 && r.value.fScore == Count(r.value.details) &&
      r.value.details[6] && 1 <= r.value.fScore <= 9)
    ensures Complete(cp, cb, cc, pp, pb) ==> (r.Some? <==> NoneRaised(FRatios(cp, cb, pp, pb)))
  {
    if !Complete(cp, cb, cc, pp, pb) then None
    else
      var rs := FRatios(cp, cb, pp, pb);
      if !NoneRaised(rs) then None
      else Some(FTests(Values(rs), GetValue(cc, "netOperateCashFlow"), GetValue(cp, "totalProfitable")))
  }

  /** A zero divisor yields no ratio, and a comparison with it fails. */
  lemma ZeroDivisorFailsTest(num: Option<Float>, other: Option<Float>)
    ensures Ratio(num, Some(Fin(0.0))) == Some(None)
    ensures !Increased(Ratio(num, Some(Fin(0.0))).value, other) && !Increased(other, Ratio(num, Some(Fin(0.0))).value)
  {
  }

  /**
   * A balance sheet without `totalLiability` but with a non-zero `totalAsset`
   * makes the debt ratio raise and discards the whole score, although a missing
   * numerator is meant to fail only its own test.
   */
  lemma MissingNumeratorDiscardsScore(cp: Frame, cb: Frame, cc: Frame, pp: Frame, pb: Frame)
    requires Complete(cp, cb, cc, pp, pb)
    requires "totalLiability" !in cb.value && "totalAsset" in cb.value && cb.value["totalAsset"] == CNum(Fin(1.0))
    ensures CalculateFScore(cp, cb, cc, pp, pb).None?
  {
    assert !FRatios(cp, cb, pp, pb)[2].Some?;
  }

  /** The evident intent: a ratio whose numerator is missing is itself missing. */
  function RatioOrNone(num: Option<Float>, den: Option<Float>): (r: Option<Float>)
    ensures r.Some? ==> num.Some? && Truthy(den)
  {
    if !Truthy(den) || num.None? then None else Some(Div(num.value, den.value))
  }

  function RatiosOrNone(ops: seq<(Option<Float>, Option<Float>)>): (rs: seq<Option<Float>>)
    ensures |rs| == |ops| && forall i :: 0 <= i < |ops| ==> rs[i] == RatioOrNone(ops[i].0, ops[i].1)
  {
    if |ops| == 0 then [] else [RatioOrNone(ops[0].0, ops[0].1)] + RatiosOrNone(ops[1..])
  }

  function FRatiosOrNone(cp: Frame, cb: Frame, pp: Frame, pb: Frame): (rs: seq<Option<Float>>)
    ensures |rs| == 10
  {
    RatiosOrNone(FOperands(cp, cb, pp, pb))
  }

  /** The corrected scorer: None exactly when a required frame is missing. */
  function CalculateFScoreCorrected(cp: Frame, cb: Frame, cc: Frame, pp: Frame, pb: Frame): (r: Option<Scored>)
    ensures r.Some? <==> Complete(cp, cb, cc, pp, pb)
    ensures r.Some? ==> |r.value.details| == 9 && r.value.fScore == Count(r.value.details) && 1 <= r.value.fScore <= 9
  {
    if !Complete(cp, cb, cc, pp, pb) then None
    else Some(FTests(FRatiosOrNone(cp, cb, pp, pb), GetValue(cc, "netOperateCashFlow"), GetValue(cp, "totalProfitable")))
  }

  /** Where the written scorer returns a score, the corrected one returns the same score. */
  lemma CorrectedAgrees(cp: Frame, cb: Frame, cc: Frame, pp: Frame, pb: Frame)
    ensures CalculateFScore(cp, cb, cc, pp, pb).Some? ==>
      CalculateFScoreCorrected(cp, cb, cc, pp, pb) == CalculateFScore(cp, cb, cc, pp, pb)
  {
    if CalculateFScore(cp, cb, cc, pp, pb).Some? {
      RaisedFreeAgrees(FOperands(cp, cb, pp, pb));
    }
  }

  /** Where no ratio raises, each computed ratio is the corrected one. */
  lemma RaisedFreeAgrees(ops: seq<(Option<Float>, Option<Float>)>)
    requires NoneRaised(Ratios(ops))
    ensures Values(Ratios(ops)) == RatiosOrNone(ops)
  {
    var vs := Values(Ratios(ops));
    var ws := RatiosOrNone(ops);
    forall i | 0 <= i < |ops| ensures vs[i] == ws[i] {
      assert Ratios(ops)[i].Some?;
    }
  }

  /** The FFScore's eight ratios, in the order the function computes them. */
  function FFRatios(cp: Frame, cb: Frame, pp: Frame, pb: Frame): seq<Option<Option<Float>>>
  {
    [Ratio(GetValue(cp, "totalProfitable"), GetValue(cb, "totalAsset")),
     Ratio(GetValue(cp, "revenue"), GetValue(cb, "totalAsset")),
     Ratio(GetValue(cp, "revenue"), GetValue(cb, "inventory")),
     Ratio(GetValue(pp, "revenue"), GetValue(pb, "inventory")),
     Ratio(GetValue(cb, "totalLiability"), GetValue(cb, "totalAsset")),
     Ratio(GetValue(cb, "currentAsset"), GetValue(cb, "currentLiability")),
     Ratio(GetValue(cp, "grossProfit"), GetValue(cp, "revenue")),
     Ratio(GetValue(pp, "grossProfit"), GetValue(pp, "revenue"))]
  }

  /** Test 10: with a market value fixed at 10^10 the PE is 10^10 / profit, passing below 20. */
  predicate Valuation(profit: Option<Float>)
  {
    profit.Some? && Gt(profit.value, Fin(0.0)) && 10000000000.0 / profit.value.r < 20.0
  }

  /** The valuation test passes exactly when the current profit exceeds 5 * 10^8. */
  lemma ValuationThreshold(profit: Option<Float>)
    ensures Valuation(profit) <==> Above(profit, 500000000.0)
  {
    if profit.Some? && profit.value.Fin? && profit.value.r > 0.0 {
      var p := profit.value.r;
      var q := 10000000000.0 / p;
      assert q * p == 10000000000.0;
      if q < 20.0 {
        assert q * p < 20.0 * p;
      }
      if p > 500000000.0 {
        assert 20.0 * p > 10000000000.0;
        assert q * p < 20.0 * p;
      }
    }
  }

  function FFTests(rs: seq<Option<Float>>, cfo: Option<Float>, profit: Option<Float>, prevProfit: Option<Float>,
                   revenue: Option<Float>, prevRevenue: Option<Float>): (r: Scored)
    requires |rs| == 8
    ensures |r.details| == 10 && r.fScore == Count(r.details) && r.fScore <= 10
    ensures r.details[9] <==> Above(profit, 500000000.0)
  {
    var b0 := Above(rs[0], 0.06);
    var b1 := Increased(cfo, profit);
    var b2 := Increased(profit, prevProfit);
    var b3 := Above(rs[1], 0.8);
    var b4 := Increased(rs[2], rs[3]);
    var b5 := Below(rs[4], 0.6);
    var b6 := Above(rs[5], 1.0);
    var b7 := Increased(revenue, prevRevenue);
    var b8 := Increased(rs[6], rs[7]);
    var b9 := Valuation(profit);
    ValuationThreshold(profit);
    CountTen(b0, b1, b2, b3, b4, b5, b6, b7, b8, b9);
    Scored(Point(b0) + Point(b1) + Point(b2) + Point(b3) + Point(b4) + Point(b5) + Point(b6) +
      Point(b7) + Point(b8) + Point(b9), [b0, b1, b2, b3, b4, b5, b6, b7, b8, b9])
  }

  /**
   * `calculate_ff_score`: the same frame and ratio rules as the F-Score, ten
   * tests, a score in [0, 10]; the valuation test passes iff profit > 5 * 10^8.
   */
  function CalculateFFScore(cp: Frame, cb: Frame, cc: Frame, pp: Frame, pb: Frame): (r: Option<Scored>)
    ensures !Complete(cp, cb, cc, pp, pb) ==> r.None?
    ensures Complete(cp, cb, cc, pp, pb) ==> (r.Some? <==> NoneRaised(FFRatios(cp, cb, pp, pb)))
    ensures r.Some? ==> (|r.value.details| == 10 && r.value.fScore == Count(r.value.details) &&
      r.value.fScore <= 10 && (r.value.details[9] <==> Above(GetValue(cp, "totalProfitable"), 500000000.0)))
  {
    if !Complete(cp, cb, cc, pp, pb) then None
    else
      var rs := FFRatios(cp, cb, pp, pb);
      if !NoneRaised(rs) then None
      else Some(FFTests(Values(rs), GetValue(cc, "netOperateCashFlow"), GetValue(cp, "totalProfitable"),
        GetValue(pp, "totalProfitable"), GetValue(cp, "revenue"), GetValue(pp, "revenue")))
  }
}
