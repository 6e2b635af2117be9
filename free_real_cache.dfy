// stock_screeners/free_real_cache.py: the cache builder without a provider
// token. Its stock list is a fixed table of twenty stocks; each stock's
// record combines its list entry, a quote parsed from the Sina quote line and
// seeded sample figures; the records of the first `max_stocks` stocks are
// built batch by batch and their numeric columns are coerced.

module FreeCache {
  import opened Py
  import opened Strings
  import opened Tables
  import opened Batching
  import opened RealCache

  /** A list entry after `get_stock_list` has added its fixed fields. */
  datatype Listed = Listed(code: string, name: string, listDate: string, exchange: string,
                           industry: string, region: string, sector: string)

  /** The twenty predefined stocks, as (code, name). */
  const Base: seq<(string, string)> := [
    ("000001", "平安银行"), ("000002", "万科A"), ("000858", "五粮液"), ("002415", "海康威视"),
    ("600000", "浦发银行"), ("600036", "招商银行"), ("600519", "贵州茅台"), ("601318", "中国平安"),
    ("601888", "中国中免"), ("300750", "宁德时代"), ("000333", "美的集团"), ("600276", "恒瑞医药"),
    ("002594", "比亚迪"), ("600031", "三一重工"), ("000651", "格力电器"), ("601668", "中国建筑"),
    ("000725", "京东方A"), ("002230", "科大讯飞"), ("600887", "伊利股份"), ("000538", "云南白药")
  ]

  /** The fields `stock.update(...)` adds: fixed texts and the exchange of the code. */
  function WithInfo(e: (string, string)): (s: Listed)
    ensures s.code == e.0 && s.name == e.1
    ensures s.exchange == "SH" <==> StartsWith(e.0, "6")
  {
    Listed(e.0, e.1, "20100101", Exchange(e.0), "综合", "北京", "主板")
  }

  /** `get_stock_list`: the loop that completes each predefined entry (`Base` in the source). */
  method GetStockList(base: seq<(string, string)>) returns (stocks: seq<Listed>)
    ensures stocks == Map(base, WithInfo)
  {
    stocks := [];
    var i := 0;
    while i < |base|
      invariant i <= |base|
      invariant stocks == Map(base[..i], WithInfo)
    {
      assert base[..i + 1] == base[..i] + [base[i]];
      MapConcat(base[..i], [base[i]], WithInfo);
      stocks := stocks + [WithInfo(base[i])];
      i := i + 1;
    }
    assert base[..|base|] == base;
  }

  /** Every listed stock is tagged SH exactly when its code starts with '6', and SZ otherwise. */
  lemma ListingExchanges(base: seq<(string, string)>)
    ensures forall s :: s in Map(base, WithInfo) ==> (s.exchange == "SH" <==> StartsWith(s.code, "6"))
    ensures forall s :: s in Map(base, WithInfo) ==> (s.exchange == "SZ" <==> !StartsWith(s.code, "6"))
  {
    forall s | s in Map(base, WithInfo)
      ensures (s.exchange == "SH" <==> StartsWith(s.code, "6")) && (s.exchange == "SZ" <==> !StartsWith(s.code, "6"))
    {
      var i :| 0 <= i < |base| && Map(base, WithInfo)[i] == s;
      assert s == WithInfo(base[i]);
    }
  }

  /** An HTTP answer: status code and body text. */
  datatype Response = Response(status: int, text: string)

  /** What `get_realtime_data` returns. */
  datatype Quote = Quote(price: Float, turnover: Float)

  const NoQuote := Quote(Fin(0.0), Fin(0.0))

  /** The Sina quote address: `sh` for codes starting with '6', `sz` otherwise. */
  function QuoteUrl(code: string): string
  {
    "https://hq.sinajs.cn/list=" + (if StartsWith(code, "6") then "sh" else "sz") + code
  }

  /** `float(x) if x else 0`; None stands for the ValueError of a field that does not parse. */
  function FieldOrZero(f: string): Option<Float>
  {
    if f == "" then Some(Fin(0.0)) else ParseFloat(f)
  }

  /**
   * `get_realtime_data` on the answer (None when the request raised): the
   * text after the first double quote is split on commas; with at least 30
   * fields the price is field 3 and the turnover field 38 when there is one.
   * Anything else, an error status, a missing quote, a short field list or a
   * field that does not parse, gives zero price and zero turnover.
   */
  function ParseQuote(resp: Option<Response>): (q: Quote)
    ensures resp.None? || resp.value.status != 200 ==> q == NoQuote
    ensures resp.Some? && |Split(resp.value.text, '"')| < 2 ==> q == NoQuote
  {
    if resp.None? || resp.value.status != 200 then NoQuote
    else
      var pieces := Split(resp.value.text, '"');
      if |pieces| < 2 then NoQuote
      else
        var data := Split(pieces[1], ',');
        if |data| < 30 then NoQuote
        else
          var price := FieldOrZero(data[3]);
          var turnover := if |data| > 38 then FieldOrZero(data[38]) else Some(Fin(0.0));
          if price.None? || turnover.None? then NoQuote else Quote(price.value, turnover.value)
  }

  predicate Free(s: string, c: char)
  {
    forall j :: 0 <= j < |s| ==> s[j] != c
  }

  /**
   * A quote line `prefix"f0,f1,...,fn"suffix` with at least 30 fields gives
   * back field 3 as the price and field 38, when there is one, as the turnover.
   */
  lemma QuoteRoundTrip(prefix: string, fields: seq<string>, suffix: string)
    requires Free(prefix, '"') && Free(suffix, '"') && |fields| >= 30
    requires forall k :: 0 <= k < |fields| ==> Free(fields[k], ',') && Free(fields[k], '"')
    requires FieldOrZero(fields[3]).Some? && (|fields| > 38 ==> FieldOrZero(fields[38]).Some?)
    ensures ParseQuote(Some(Response(200, Join([prefix, Join(fields, ','), suffix], '"')))) ==
      Quote(FieldOrZero(fields[3]).value, if |fields| > 38 then FieldOrZero(fields[38]).value else Fin(0.0))
  {
    var body := Join(fields, ',');
    JoinFree(fields, ',', '"');
    QuotedPieces(prefix, body, suffix);
    SplitJoin(fields, ',');
    QuoteFields(Join([prefix, body, suffix], '"'), fields);
  }

  /** A line of three pieces free of `"` splits on `"` back into them. */
  lemma QuotedPieces(prefix: string, body: string, suffix: string)
    requires Free(prefix, '"') && Free(body, '"') && Free(suffix, '"')
    ensures Split(Join([prefix, body, suffix], '"'), '"') == [prefix, body, suffix]
  {
    var parts := [prefix, body, suffix];
    forall k, j | 0 <= k < |parts| && 0 <= j < |parts[k]| ensures parts[k][j] != '"' {
      assert Free(parts[k], '"');
    }
    SplitJoin(parts, '"');
  }

  /** A response whose second quoted piece splits into the fields reads field 3 and field 38. */
  lemma QuoteFields(text: string, fields: seq<string>)
    requires |Split(text, '"')| >= 2 && Split(Split(text, '"')[1], ',') == fields && |fields| >= 30
    requires FieldOrZero(fields[3]).Some? && (|fields| > 38 ==> FieldOrZero(fields[38]).Some?)
    ensures ParseQuote(Some(Response(200, text))) ==
      Quote(FieldOrZero(fields[3]).value, if |fields| > 38 then FieldOrZero(fields[38]).value else Fin(0.0))
  {
  }

  /** Joining pieces free of a character on another separator leaves the character out. */
  lemma {:induction false} JoinFree(parts: seq<string>, sep: char, c: char)
    requires sep != c
    requires forall k :: 0 <= k < |parts| ==> Free(parts[k], c)
    ensures Free(Join(parts, sep), c)
    decreases |parts|
  {
    if |parts| > 1 {
      JoinFree(parts[1..], sep, c);
      var r := Join(parts[1..], sep);
      assert Join(parts, sep) == parts[0] + [sep] + r;
      assert Free(parts[0], c);
    }
  }

  /** `get_default_fundamentals`: every figure zero. */
  const FigureKeys: seq<string> := ["total_assets", "total_liabilities", "total_equity", "revenue",
    "net_profit", "operating_cash_flow", "eps", "roe", "gross_margin", "net_margin", "debt_ratio",
    "revenue_growth", "profit_growth", "current_price", "market_cap", "pe_ttm", "pb",
    "dividend_yield", "turnover_rate"]

  function DefaultFundamentals(): (r: Record)
    ensures r.Keys == set k | k in FigureKeys
    ensures forall k :: k in r ==> r[k] == CNum(Fin(0.0))
  {
    map k | k in FigureKeys :: CNum(Fin(0.0))
  }

  /**
   * The seeded `np.random.uniform` draws of one stock, one field per draw site in
   * source order; the price and turnover draws are used only when the quote's
   * figure is zero, since `x or draw` does not evaluate the draw otherwise, so
   * a later draw is not tied to a fixed position in the random stream.
   */
  datatype Draws = Draws(assets: real, liabilityShare: real, revenue: real, margin: real, cashShare: real,
                         shares: real, grossMargin: real, revenueGrowth: real, profitGrowth: real,
                         price: real, marketCap: real, pe: real, pb: real, dividendYield: real, turnover: real)

  /** Every draw lies in the range it was sampled from. */
  predicate InRange(d: Draws)
  {
    100.0 <= d.assets <= 5000.0 && 0.3 <= d.liabilityShare <= 0.8 &&
    50.0 <= d.revenue <= 2000.0 && 0.05 <= d.margin <= 0.25 && 0.8 <= d.cashShare <= 1.2 &&
    5.0 <= d.shares <= 100.0 && 20.0 <= d.grossMargin <= 60.0 &&
    -10.0 <= d.revenueGrowth <= 30.0 && -20.0 <= d.profitGrowth <= 40.0 &&
    5.0 <= d.price <= 200.0 && 100.0 <= d.marketCap <= 5000.0 && 5.0 <= d.pe <= 50.0 &&
    0.5 <= d.pb <= 5.0 && 0.0 <= d.dividendYield <= 5.0 && 0.5 <= d.turnover <= 5.0
  }

  /** A float division; a zero denominator gives NaN. */
  function Div(a: real, b: real): (f: Float)
    ensures b != 0.0 ==> f == Fin(a / b)
  {
    if b == 0.0 then NaN else Fin(a / b)
  }

  /** `x or y` for a quote figure: zero is falsy, so the draw replaces it; NaN is truthy and stays. */
  function OrDraw(x: Float, y: real): Float
  {
    if x == Fin(0.0) then Fin(y) else x
  }

  /** The figures `get_fundamentals_from_sina` derives from the draws and the quote. */
  datatype Figures = Figures(totalAssets: real, totalLiabilities: real, totalEquity: real, revenue: real,
                             netProfit: real, cashFlow: real, eps: Float, roe: Float, grossMargin: real,
                             netMargin: Float, debtRatio: Float, revenueGrowth: real, profitGrowth: real,
                             price: Float, marketCap: real, pe: real, pb: real, dividendYield: real, turnover: Float)

  function SinaFigures(d: Draws, q: Quote): Figures
  {
    var assets := d.assets * 100000000.0;
    var liabilities := assets * d.liabilityShare;
    var equity := assets - liabilities;
    var revenue := d.revenue * 100000000.0;
    var net := revenue * d.margin;
    Figures(assets, liabilities, equity, revenue, net, net * d.cashShare,
            Div(net, d.shares * 100000000.0), Scale(Div(net, equity), 100.0), d.grossMargin,
            Scale(Div(net, revenue), 100.0), Scale(Div(liabilities, assets), 100.0),
            d.revenueGrowth, d.profitGrowth, OrDraw(q.price, d.price), d.marketCap * 100000000.0,
            d.pe, d.pb, d.dividendYield, OrDraw(q.turnover, d.turnover))
  }

  /**
   * With draws in their ranges the figures are consistent: assets split into
   * liabilities and a positive equity, the debt ratio lies in [30, 80], the
   * net margin in [5, 25], roe is positive, and the price and turnover are the
   * quote's when those are non-zero and the draws otherwise.
   */
  lemma SinaFiguresProps(d: Draws, q: Quote)
    requires InRange(d)
    ensures var f := SinaFigures(d, q);
      f.totalLiabilities + f.totalEquity == f.totalAssets && f.totalEquity > 0.0 &&
      f.debtRatio.Fin? && 30.0 <= f.debtRatio.r <= 80.0 &&
      f.netMargin.Fin? && 5.0 <= f.netMargin.r <= 25.0 &&
      f.roe.Fin? && f.roe.r > 0.0 && f.eps.Fin? && f.eps.r > 0.0 &&
      (q.price != Fin(0.0) ==> f.price == q.price) && (q.price == Fin(0.0) ==> f.price == Fin(d.price)) &&
      (q.turnover != Fin(0.0) ==> f.turnover == q.turnover) && (q.turnover == Fin(0.0) ==> f.turnover == Fin(d.turnover))
  {
    EquityWithin(d, q);
    DebtRatioWithin(d, q);
    NetMarginWithin(d, q);
    ReturnsPositive(d, q);
  }

  lemma EquityWithin(d: Draws, q: Quote)
    requires InRange(d)
    ensures var f := SinaFigures(d, q);
      f.totalLiabilities + f.totalEquity == f.totalAssets && f.totalEquity > 0.0
  {
    ProductPositive(d.assets, 100000000.0);
    RestPositive(d.assets * 100000000.0, d.liabilityShare);
  }

  lemma DebtRatioWithin(d: Draws, q: Quote)
    requires InRange(d)
    ensures var r := SinaFigures(d, q).debtRatio; r.Fin? && 30.0 <= r.r <= 80.0
  {
    var assets := d.assets * 100000000.0;
    ProductPositive(d.assets, 100000000.0);
    PercentOfShare(assets, d.liabilityShare);
    var r := SinaFigures(d, q).debtRatio;
    assert r == Scale(Div(assets * d.liabilityShare, assets), 100.0);
    assert r == Fin(d.liabilityShare * 100.0);
    assert r.r == d.liabilityShare * 100.0;
  }

  lemma NetMarginWithin(d: Draws, q: Quote)
    requires InRange(d)
    ensures var r := SinaFigures(d, q).netMargin; r.Fin? && 5.0 <= r.r <= 25.0
  {
    var revenue := d.revenue * 100000000.0;
    ProductPositive(d.revenue, 100000000.0);
    PercentOfShare(revenue, d.margin);
    var m := SinaFigures(d, q).netMargin;
    assert m == Scale(Div(revenue * d.margin, revenue), 100.0);
    assert m == Fin(d.margin * 100.0);
    assert m.r == d.margin * 100.0;
  }

  lemma ReturnsPositive(d: Draws, q: Quote)
    requires InRange(d)
    ensures var f := SinaFigures(d, q); f.roe.Fin? && f.roe.r > 0.0 && f.eps.Fin? && f.eps.r > 0.0
  {
    var assets := d.assets * 100000000.0;
    var revenue := d.revenue * 100000000.0;
    ProductPositive(d.assets, 100000000.0);
    ProductPositive(d.revenue, 100000000.0);
    ProductPositive(d.shares, 100000000.0);
    ProductPositive(revenue, d.margin);
    RestPositive(assets, d.liabilityShare);
    PositivePercent(revenue * d.margin, assets - assets * d.liabilityShare);
    PositiveQuotient(revenue * d.margin, d.shares * 100000000.0);
  }

  lemma ProductPositive(a: real, b: real)
    requires a > 0.0 && b > 0.0
    ensures a * b > 0.0
  {
  }

  /** What is left of a positive whole after a share below one is positive. */
  lemma RestPositive(whole: real, k: real)
    requires whole > 0.0 && k < 1.0
    ensures whole - whole * k > 0.0
  {
    assert whole - whole * k == whole * (1.0 - k);
    ProductPositive(whole, 1.0 - k);
  }

  /** The share k of a positive whole, as a percentage of the whole, is 100k. */
  lemma PercentOfShare(whole: real, k: real)
    requires whole > 0.0
    ensures Scale(Div(whole * k, whole), 100.0) == Fin(k * 100.0)
  {
    assert (whole * k) / whole == k;
  }

  lemma PositiveQuotient(a: real, b: real)
    requires a > 0.0 && b > 0.0
    ensures Div(a, b).Fin? && Div(a, b).r > 0.0
  {
  }

  lemma PositivePercent(a: real, b: real)
    requires a > 0.0 && b > 0.0
    ensures Scale(Div(a, b), 100.0).Fin? && Scale(Div(a, b), 100.0).r > 0.0
  {
    PositiveQuotient(a, b);
  }

  function Num(x: real): Cell { CNum(Fin(x)) }

  /** The dict `get_fundamentals_from_sina` returns. */
  function FiguresRecord(f: Figures): Record
  {
    map["total_assets" := Num(f.totalAssets), "total_liabilities" := Num(f.totalLiabilities),
        "total_equity" := Num(f.totalEquity), "revenue" := Num(f.revenue), "net_profit" := Num(f.netProfit),
        "operating_cash_flow" := Num(f.cashFlow), "eps" := CNum(f.eps), "roe" := CNum(f.roe),
        "gross_margin" := Num(f.grossMargin), "net_margin" := CNum(f.netMargin), "debt_ratio" := CNum(f.debtRatio),
        "revenue_growth" := Num(f.revenueGrowth), "profit_growth" := Num(f.profitGrowth),
        "current_price" := CNum(f.price), "market_cap" := Num(f.marketCap), "pe_ttm" := Num(f.pe),
        "pb" := Num(f.pb), "dividend_yield" := Num(f.dividendYield), "turnover_rate" := CNum(f.turnover)]
  }

  /** `int(x)`: truncation toward zero. */
  function Trunc(x: real): int
  {
    if x >= 0.0 then x.Floor else -((-x).Floor)
  }

  /** What the run reads from outside: the clock, the quote answers by address, the draws and the employee draw by code. */
  datatype Env = Env(now: string, http: string -> Option<Response>, draws: string -> Draws, employees: string -> real)

  /** The fixed part of `process_stock`'s dict, before `data.update(fundamentals)`. */
  function Identity(s: Listed, env: Env): Record
  {
    map["update_time" := CStr(env.now),
        "list_date" := CStr(s.listDate), "exchange" := CStr(s.exchange), "company_industry" := CStr(s.industry),
        "company_region" := CStr(s.region), "sector" := CStr(s.sector), "chairman" := CStr("董事长"),
        "ceo" := CStr("总经理"), "secretary" := CStr("董秘"), "employees" := Num(Trunc(env.employees(s.code)) as real),
        "name" := CStr(s.name), "code" := CStr(s.code)]
  }

  /** `process_stock`: the identity fields updated with the fundamentals. */
  function ProcessStock(s: Listed, env: Env): Record
  {
    var q := ParseQuote(env.http(QuoteUrl(s.code)));
    Identity(s, env) + FiguresRecord(SinaFigures(env.draws(s.code), q))
  }

  /** The record of a stock carries its code and name as given by the list. */
  lemma ProcessStockIdentity(s: Listed, env: Env)
    ensures "code" in ProcessStock(s, env) && ProcessStock(s, env)["code"] == CStr(s.code)
    ensures "name" in ProcessStock(s, env) && ProcessStock(s, env)["name"] == CStr(s.name)
  {
    FiguresNoIdentity(SinaFigures(env.draws(s.code), ParseQuote(env.http(QuoteUrl(s.code)))));
  }

  lemma FiguresNoIdentity(f: Figures)
    ensures "code" !in FiguresRecord(f) && "name" !in FiguresRecord(f)
  {
  }

  /**
   * `update_cache`: the records of the first `max_stocks` listed stocks (all
   * of them when it is not positive), batch by batch, with the numeric columns
   * coerced. The list is a fixed non-empty table, so the emptiness checks of
   * the source never fire and the run always succeeds.
   */
  method UpdateCache(env: Env, maxStocks: int, batchSize: int) returns (ok: bool, final: seq<Record>)
    requires batchSize > 0
    ensures ok
    ensures final == Coerce(Map(Head(Map(Base, WithInfo), maxStocks), (s: Listed) => ProcessStock(s, env)))
  {
    var stockList := GetStockList(Base);
    var rows := Head(stockList, maxStocks);
    var allData := RunBatches(rows, batchSize, (s: Listed) => ProcessStock(s, env));
    final := Coerce(allData);
    ok := true;
  }

  /**
   * The cache holds one row per selected stock (`UpdateCache` passes the first
   * `max_stocks` listed ones), in list order, with that
   * stock's code and name, and a number (never NaN) in every numeric column.
   */
  lemma UpdateCacheProps(rows: seq<Listed>, env: Env)
    ensures var records := Map(rows, (s: Listed) => ProcessStock(s, env));
      var final := Coerce(records);
      |final| == |rows| &&
      (forall i :: 0 <= i < |final| ==>
        "code" in final[i] && final[i]["code"] == CStr(rows[i].code) &&
        "name" in final[i] && final[i]["name"] == CStr(rows[i].name)) &&
      forall i, k :: 0 <= i < |final| && k in final[i] && k in NumericCols ==> final[i][k].CNum? && final[i][k].f.Fin?
  {
    var records := Map(rows, (s: Listed) => ProcessStock(s, env));
    forall i | 0 <= i < |records|
      ensures "code" in Columns(records) && "name" in Columns(records)
      ensures Coerce(records)[i]["code"] == CStr(rows[i].code) && Coerce(records)[i]["name"] == CStr(rows[i].name)
    {
      ProcessStockIdentity(rows[i], env);
      InColumns(records, i, "code");
      InColumns(records, i, "name");
      IdentityNotNumeric();
    }
  }
}
