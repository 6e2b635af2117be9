// quantitative_trading/stock_selector.py: the bounded fetch of
// `get_stock_fundamentals` (the first 25 stocks of the spot list, two finance
// sources, the positive-only extraction) and `save_to_json`. Its strategies
// and merge are `Strategies.RunAllStrategies` with the `Selector` variant.

module QuantSelector {
  import opened Py
  import opened Strings
  import opened Tables
  import opened Batching
  import opened FinanceExtract
  import opened StockSelector
  import Strategies

  /** At most this many stocks are examined. */
  const MaxAttempts: nat := 25

  /** The seven indicator fields of a record, all NaN before any source is read. */
  const QuantFields: seq<string> := ["pe", "pb", "roe", "debt_ratio", "revenue_growth", "profit_growth", "current_ratio"]

  function QuantBlank(): (d: map<string, Float>)
    ensures forall k :: k in d <==> k in QuantFields
    ensures forall k :: k in d ==> d[k] == NaN
  {
    map k | k in QuantFields :: NaN
  }

  function QuantInitial(s: StockInfo, code: string, env: Env): Fundamentals
  {
    Fundamentals(code, Strip(s.name), NumberOr(s.price, env.randomPrice(code)),
                 NumberOr(s.marketCap, env.randomCap(code)), QuantBlank())
  }

  /** One stock: None when its stripped code is shorter than six characters or its record does not validate. */
  function QuantAttempt(s: StockInfo, env: Env): Option<Fundamentals>
  {
    var code := Strip(s.code);
    if |code| < 6 then None
    else
      var d := TrySources(QuantBlank(), env.finance(code), QuantRule).0;
      if ValidateStockData(d) then Some(QuantInitial(s, code, env).(ind := d)) else None
  }

  /** The records kept from some rows, in order. */
  function Fetched(rows: seq<StockInfo>, env: Env): seq<Fundamentals>
  {
    if |rows| == 0 then []
    else
      var prev := Fetched(rows[..|rows| - 1], env);
      match QuantAttempt(rows[|rows| - 1], env)
      case None => prev
      case Some(rec) => prev + [rec]
  }

  /**
   * `get_stock_fundamentals`: nothing when no spot source is accepted;
   * otherwise the records of the first 25 stocks that validate.
   */
  method GetStockFundamentals(spots: seq<Option<Spot>>, env: Env) returns (fundamentals: seq<Fundamentals>)
    ensures StockList(spots).None? ==> fundamentals == []
    ensures StockList(spots).Some? ==>
      fundamentals == Fetched(StockList(spots).value[..Min(MaxAttempts, |StockList(spots).value|)], env)
  {
    var stockInfo := StockList(spots);
    if stockInfo.None? || |stockInfo.value| == 0 {
      return [];
    }
    var maxAttempts := Min(MaxAttempts, |stockInfo.value|);
    var rows := stockInfo.value[..maxAttempts];
    fundamentals := [];
    var validStocks := 0;
    var idx := 0;
    while idx < |rows|
      invariant idx <= |rows|
      invariant fundamentals == Fetched(rows[..idx], env)
      invariant validStocks == |fundamentals|
    {
      assert rows[..idx + 1][..idx] == rows[..idx];
      var code := Strip(rows[idx].code);
      if |code| >= 6 {
        var financeData := QuantInitial(rows[idx], code, env);
        var d, calls := FetchFinance(financeData.ind, env.finance(code), QuantRule);
        if ValidateStockData(d) {
          fundamentals := fundamentals + [financeData.(ind := d)];
          validStocks := validStocks + 1;
        }
      }
      idx := idx + 1;
    }
    assert rows[..|rows|] == rows;
    if validStocks == 0 {
      return [];
    }
  }

  /**
   * The records kept are at most one per row, each with a code of at least
   * six characters whose indicators validate and, from the positive-only
   * extraction, are NaN or above zero.
   */
  lemma {:induction false} FetchedProps(rows: seq<StockInfo>, env: Env)
    ensures |Fetched(rows, env)| <= |rows|
    ensures forall rec :: rec in Fetched(rows, env) ==> (Kept(rec) && rec.ind.Keys == QuantBlank().Keys &&
      forall k :: k in rec.ind && rec.ind[k].Fin? ==> rec.ind[k].r > 0.0)
  {
    if |rows| > 0 {
      FetchedProps(rows[..|rows| - 1], env);
      var s := rows[|rows| - 1];
      var code := Strip(s.code);
      if |code| >= 6 {
        PositiveSources(QuantBlank(), env.finance(code));
      }
    }
  }

  /** Reading sources with the positive-only rule keeps the fields and keeps every number above zero. */
  lemma {:induction false} PositiveSources(d: map<string, Float>, frames: seq<Option<Frame>>)
    requires forall k :: k in d && d[k].Fin? ==> d[k].r > 0.0
    requires d.Keys == QuantBlank().Keys
    ensures var r := TrySources(d, frames, QuantRule).0;
      r.Keys == d.Keys && forall k :: k in r && r[k].Fin? ==> r[k].r > 0.0
    decreases |frames|
  {
    if |frames| > 0 {
      var d1 := d;
      if frames[0].Some? && !Empty(frames[0].value) {
        d1 := Extract(d, frames[0].value, QuantRule);
        PositiveExtract(d, frames[0].value);
      }
      PositiveSources(d1, frames[1..]);
    }
  }

  lemma PositiveExtract(d: map<string, Float>, f: Frame)
    requires forall k :: k in d && d[k].Fin? ==> d[k].r > 0.0
    requires d.Keys == QuantBlank().Keys
    ensures var r := Extract(d, f, QuantRule);
      r.Keys == d.Keys && forall k :: k in r && r[k].Fin? ==> r[k].r > 0.0
  {
    if !Empty(f) {
      WrittenValues(d, f.columns, f.rows[0], QuantRule, |f.columns|);
      assert forall i :: 0 <= i < |QuantTable| ==> QuantTable[i].0 in QuantFields;
    }
  }

  /** The fetch examines at most the first 25 stocks, so it keeps at most 25 records, all of which validate. */
  lemma FetchBounded(spots: seq<Option<Spot>>, env: Env)
    requires StockList(spots).Some?
    ensures var out := Fetched(StockList(spots).value[..Min(MaxAttempts, |StockList(spots).value|)], env);
      |out| <= MaxAttempts && forall rec :: rec in out ==> Kept(rec)
  {
    FetchedProps(StockList(spots).value[..Min(MaxAttempts, |StockList(spots).value|)], env);
  }

  /**
   * `save_to_json`: None (no file) for no results or no non-empty code;
   * otherwise the non-empty codes, in order, zero-padded to six characters.
   */
  function SaveToJson(results: Option<seq<Strategies.Pick>>): Option<seq<string>>
  {
    if results.None? || |results.value| == 0 then None
    else
      var valid := Filter(results.value, HasCode);
      if |valid| == 0 then None else Some(Map(valid, PaddedCode))
  }

  predicate HasCode(p: Strategies.Pick) { p.row.code != "" }

  /** `str(code).zfill(6)`: at least six characters. */
  function PaddedCode(p: Strategies.Pick): (r: string)
    ensures |r| == if |p.row.code| >= 6 then |p.row.code| else 6
  {
    ZFill(p.row.code, 6)
  }

  /**
   * A file is written exactly when some result has a non-empty code; it holds
   * the non-empty codes in result order, each zero-padded, and misses none.
   */
  lemma SaveToJsonProps(results: Option<seq<Strategies.Pick>>)
    ensures var out := SaveToJson(results);
      (out.Some? <==> results.Some? && exists p :: p in results.value && HasCode(p)) &&
      (out.Some? ==> (
        out.value == Map(Filter(results.value, HasCode), PaddedCode) &&
        (forall p :: p in results.value && HasCode(p) ==> PaddedCode(p) in out.value) &&
        forall i :: 0 <= i < |out.value| ==> ImageOfPassing(results.value, HasCode, PaddedCode, out.value[i])))
  {
    if results.Some? {
      FilterNonEmpty(results.value, HasCode);
      MapFilterMembers(results.value, HasCode, PaddedCode);
    }
  }
}
