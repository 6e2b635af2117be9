// stock_screeners/tushare_real_cache.py: the cache builder over the tushare
// provider. The stock list comes from the provider or, without a connection
// or an answer, from a ten-stock demo list; each stock's record is fetched
// under its tushare code (or generated from seeded draws), completed with the
// list row's fields it lacks, and the records, built batch by batch, become a
// frame whose numeric columns are coerced and whose required columns exist.

module TushareCache {
  import opened Py
  import opened Strings
  import opened Tables
  import opened Batching
  import opened RealCache

  /** A row of the stock list: its code, its name and its other columns. */
  datatype ListStock = ListStock(code: string, name: string, info: map<string, Cell>)

  /** `key in stock`: the row has that column. */
  predicate InStock(s: ListStock, k: string)
  {
    k == "code" || k == "name" || k in s.info
  }

  /** `stock[key]` */
  function StockValue(s: ListStock, k: string): Cell
  {
    if k == "code" then CStr(s.code) else if k == "name" then CStr(s.name) else if k in s.info then s.info[k] else CNone
  }

  function DemoStock(code: string, name: string, exchange: string, industry: string, region: string,
                     listDate: string, sector: string): ListStock
  {
    ListStock(code, name, map["exchange" := CStr(exchange), "company_industry" := CStr(industry),
      "company_region" := CStr(region), "list_date" := CStr(listDate), "sector" := CStr(sector)])
  }

  /** `get_demo_stock_list` */
  const DemoList: seq<ListStock> := [
    DemoStock("000001", "平安银行", "SZ", "银行", "深圳", "19910403", "主板"),
    DemoStock("000002", "万科A", "SZ", "房地产", "深圳", "19910129", "主板"),
    DemoStock("000858", "五粮液", "SZ", "白酒", "四川", "19980427", "主板"),
    DemoStock("002415", "海康威视", "SZ", "电子", "浙江", "20100528", "中小板"),
    DemoStock("600000", "浦发银行", "SH", "银行", "上海", "19991110", "主板"),
    DemoStock("600036", "招商银行", "SH", "银行", "深圳", "20020409", "主板"),
    DemoStock("600519", "贵州茅台", "SH", "白酒", "贵州", "20010827", "主板"),
    DemoStock("601318", "中国平安", "SH", "保险", "深圳", "20070301", "主板"),
    DemoStock("601888", "中国中免", "SH", "零售", "北京", "20090408", "主板"),
    DemoStock("300750", "宁德时代", "SZ", "新能源", "福建", "20180611", "创业板")
  ]

  /**
   * `get_real_stock_list`: the demo list without a connection, when the
   * request raises (None) or when the answer is empty; the provider's rows
   * otherwise.
   */
  function StockList(pro: bool, answer: Option<seq<ListStock>>): seq<ListStock>
  {
    if !pro || answer.None? || |answer.value| == 0 then DemoList else answer.value
  }

  /** The stock list is never empty, so `update_cache` always has stocks to process. */
  lemma StockListNonEmpty(pro: bool, answer: Option<seq<ListStock>>)
    ensures |StockList(pro, answer)| > 0
    ensures pro && answer.Some? && |answer.value| > 0 ==> StockList(pro, answer) == answer.value
  {
  }

  /** The tushare code: `.SH` for codes starting with '6', `.SZ` otherwise. */
  function TsCode(code: string): (t: string)
    ensures |t| == |code| + 3 && t[..|code|] == code
    ensures t[|code|..] == ".SH" <==> StartsWith(code, "6")
    ensures t[|code|..] == ".SZ" <==> !StartsWith(code, "6")
  {
    var suffix := if StartsWith(code, "6") then ".SH" else ".SZ";
    assert (code + suffix)[..|code|] == code && (code + suffix)[|code|..] == suffix;
    code + suffix
  }

  /** The seeded `np.random.uniform` draws of `get_demo_fundamentals`. */
  datatype Draws = Draws(assets: real, liabilityShare: real, revenue: real, margin: real, price: real,
                         shares: real, employees: real, cashShare: real, grossMargin: real,
                         revenueGrowth: real, profitGrowth: real, dividendYield: real, turnover: real)

  /** Every draw lies in the range it was sampled from. */
  predicate InRange(d: Draws)
  {
    100.0 <= d.assets <= 5000.0 && 0.3 <= d.liabilityShare <= 0.8 &&
    50.0 <= d.revenue <= 2000.0 && 0.05 <= d.margin <= 0.25 && 5.0 <= d.price <= 200.0 &&
    5.0 <= d.shares <= 100.0 && 1000.0 <= d.employees <= 50000.0 && 0.8 <= d.cashShare <= 1.2 &&
    20.0 <= d.grossMargin <= 60.0 && -10.0 <= d.revenueGrowth <= 30.0 && -20.0 <= d.profitGrowth <= 40.0 &&
    0.0 <= d.dividendYield <= 5.0 && 0.5 <= d.turnover <= 5.0
  }

  /** A float division; a zero denominator gives NaN. */
  function Div(a: real, b: real): (f: Float)
    ensures b != 0.0 ==> f == Fin(a / b)
  {
    if b == 0.0 then NaN else Fin(a / b)
  }

  /** `x / y if y > 0 else 0` */
  function RatioIfPositive(x: real, y: Float): (r: real)
    ensures y.Fin? && y.r > 0.0 ==> r == x / y.r
    ensures !(y.Fin? && y.r > 0.0) ==> r == 0.0
  {
    if y.Fin? && y.r > 0.0 then x / y.r else 0.0
  }

  /** The figures `get_demo_fundamentals` derives from the draws. */
  datatype Figures = Figures(totalAssets: real, totalLiabilities: real, totalEquity: real, revenue: real,
                             netProfit: real, price: real, marketCap: real, eps: Float, bookValue: Float,
                             pe: real, pb: real, roe: Float, netMargin: Float, debtRatio: Float)

  function DemoFigures(d: Draws): Figures
  {
    var assets := d.assets * 100000000.0;
    var liabilities := assets * d.liabilityShare;
    var equity := assets - liabilities;
    var revenue := d.revenue * 100000000.0;
    var net := revenue * d.margin;
    var shares := d.shares * 100000000.0;
    var eps := Div(net, shares);
    var bvps := Div(equity, shares);
    Figures(assets, liabilities, equity, revenue, net, d.price, d.price * shares, eps, bvps,
            RatioIfPositive(d.price, eps), RatioIfPositive(d.price, bvps),
            Scale(Div(net, equity), 100.0), Scale(Div(net, revenue), 100.0), Scale(Div(liabilities, assets), 100.0))
  }

  /**
   * With draws in their ranges: pe is price over earnings per share and pb is
   * price over book value per share (both positive, so neither guard gives 0),
   * the debt ratio lies in [30, 80], the market cap is price times shares, and
   * assets split into liabilities and equity.
   */
  lemma DemoFiguresProps(d: Draws)
    requires InRange(d)
    ensures var f := DemoFigures(d);
      f.eps.Fin? && f.eps.r > 0.0 && f.pe == f.price / f.eps.r && f.pe > 0.0 &&
      f.bookValue.Fin? && f.bookValue.r > 0.0 && f.pb == f.price / f.bookValue.r && f.pb > 0.0 &&
      f.debtRatio.Fin? && 30.0 <= f.debtRatio.r <= 80.0 &&
      f.marketCap == d.price * (d.shares * 100000000.0) &&
      f.totalLiabilities + f.totalEquity == f.totalAssets
  {
    var assets := d.assets * 100000000.0;
    var revenue := d.revenue * 100000000.0;
    var shares := d.shares * 100000000.0;
    MulPos(revenue, d.margin);
    RestPos(assets, d.liabilityShare);
    DivPos(revenue * d.margin, shares);
    DivPos(assets - assets * d.liabilityShare, shares);
    DemoDebtRatio(d);
  }

  /** The debt ratio is the drawn liability share as a percentage. */
  lemma DemoDebtRatio(d: Draws)
    requires InRange(d)
    ensures DemoFigures(d).debtRatio.Fin? && 30.0 <= DemoFigures(d).debtRatio.r <= 80.0
  {
    var assets := d.assets * 100000000.0;
    ShareBack(assets, d.liabilityShare);
    assert DemoFigures(d).debtRatio == Fin(d.liabilityShare * 100.0);
  }

  lemma MulPos(a: real, b: real)
    requires a > 0.0 && b > 0.0
    ensures a * b > 0.0
  {
  }

  lemma DivPos(a: real, b: real)
    requires a > 0.0 && b > 0.0
    ensures a / b > 0.0
  {
  }

  /** The share of a positive whole, divided by the whole, is the share. */
  lemma ShareBack(a: real, s: real)
    requires a > 0.0
    ensures (a * s) / a == s
  {
  }

  /** What is left of a positive whole after a share below one is positive. */
  lemma RestPos(a: real, s: real)
    requires a > 0.0 && s < 1.0
    ensures a - a * s > 0.0
  {
    assert a - a * s == a * (1.0 - s);
    MulPos(a, 1.0 - s);
  }

  function Num(x: real): Cell { CNum(Fin(x)) }

  /** `int(x)`: truncation toward zero. */
  function Trunc(x: real): int
  {
    if x >= 0.0 then x.Floor else -((-x).Floor)
  }

  /** The dict of some key-value pairs, later pairs winning. */
  function FromPairs(pairs: seq<(string, Cell)>): Record
  {
    if |pairs| == 0 then map[] else FromPairs(pairs[..|pairs| - 1])[pairs[|pairs| - 1].0 := pairs[|pairs| - 1].1]
  }

  /** The dict `get_demo_fundamentals` returns, apart from code, name and update time. */
  function DemoRecord(code: string, d: Draws): Record
  {
    var f := DemoFigures(d);
    FromPairs([("list_date", CStr("20100101")), ("exchange", CStr(Exchange(code))), ("company_industry", CStr("综合")),
      ("company_region", CStr("北京")), ("sector", CStr("主板")), ("chairman", CStr("董事长")),
      ("ceo", CStr("总经理")), ("secretary", CStr("董秘")), ("employees", Num(Trunc(d.employees) as real)),
      ("total_assets", Num(f.totalAssets)), ("total_liabilities", Num(f.totalLiabilities)),
      ("total_equity", Num(f.totalEquity)), ("revenue", Num(f.revenue)), ("net_profit", Num(f.netProfit)),
      ("operating_cash_flow", Num(f.netProfit * d.cashShare)), ("eps", CNum(f.eps)),
      ("roe", CNum(f.roe)), ("gross_margin", Num(d.grossMargin)), ("net_margin", CNum(f.netMargin)),
      ("debt_ratio", CNum(f.debtRatio)), ("revenue_growth", Num(d.revenueGrowth)),
      ("profit_growth", Num(d.profitGrowth)), ("current_price", Num(f.price)), ("market_cap", Num(f.marketCap)),
      ("pe_ttm", Num(f.pe)), ("pb", Num(f.pb)), ("dividend_yield", Num(d.dividendYield)),
      ("turnover_rate", Num(d.turnover))])
  }

  /**
   * What the run reads from outside: whether the provider connected, the
   * clock, the figures the six provider requests set for a tushare code, and
   * the demo draws of a code.
   */
  datatype Env = Env(pro: bool, now: string, fetched: string -> Record, draws: string -> Draws)

  /** The fields every record starts with. */
  function Identity(s: ListStock, env: Env): Record
  {
    map["code" := CStr(s.code), "name" := CStr(s.name), "update_time" := CStr(env.now)]
  }

  /**
   * `get_real_fundamentals`: the provider's figures for the tushare code, or
   * the demo record without a connection, with code, name and update time.
   * None of the provider's or the demo's keys is one of those three, so the
   * union is the source's dict whichever side is applied last.
   */
  function Fetch(s: ListStock, env: Env): Record
  {
    (if env.pro then env.fetched(TsCode(s.code)) else DemoRecord(s.code, env.draws(s.code))) + Identity(s, env)
  }

  /** The list fields `process_batch` copies when the record lacks them. */
  const FillKeys: seq<string> := ["name", "list_date", "exchange", "company_industry", "company_region", "sector"]

  /** The record after the copy loop has run over some keys. */
  function FillFrom(data: Record, s: ListStock, keys: seq<string>): Record
  {
    if |keys| == 0 then data
    else
      var prev := FillFrom(data, s, keys[..|keys| - 1]);
      var k := keys[|keys| - 1];
      if InStock(s, k) && k !in prev then prev[k := StockValue(s, k)] else prev
  }

  /**
   * Fill-if-absent: the record keeps every key and value it had, gains
   * exactly the listed keys the row has and the record lacked, and takes
   * those values from the row.
   */
  lemma {:induction false} FillFromProps(data: Record, s: ListStock, keys: seq<string>)
    ensures var out := FillFrom(data, s, keys);
      (forall k :: k in out <==> k in data || (k in keys && InStock(s, k))) &&
      (forall k :: k in data ==> out[k] == data[k]) &&
      (forall k :: k in out && k !in data ==> out[k] == StockValue(s, k))
  {
    if |keys| > 0 {
      FillFromProps(data, s, keys[..|keys| - 1]);
      assert keys == keys[..|keys| - 1] + [keys[|keys| - 1]];
    }
  }

  /** `for key in [...]: if key in stock and key not in data: data[key] = stock[key]` */
  method FillInfo(data: Record, s: ListStock, keys: seq<string>) returns (out: Record)
    ensures out == FillFrom(data, s, keys)
  {
    out := data;
    var i := 0;
    while i < |keys|
      invariant i <= |keys|
      invariant out == FillFrom(data, s, keys[..i])
    {
      assert keys[..i + 1][..i] == keys[..i];
      var key := keys[i];
      if InStock(s, key) && key !in out {
        out := out[key := StockValue(s, key)];
      }
      i := i + 1;
    }
    assert keys[..|keys|] == keys;
  }

  /** One stock's record as `process_batch` appends it: its fetched dict, completed from the list row. */
  function Complete(fetch: ListStock -> Record, keys: seq<string>): ListStock -> Record
  {
    (s: ListStock) => FillFrom(fetch(s), s, keys)
  }

  /**
   * `process_batch`: the records of a batch, in order; `fetch` is
   * `get_real_fundamentals` applied to a list row.
   */
  method ProcessBatch(batch: seq<ListStock>, fetch: ListStock -> Record, keys: seq<string>,
                      ghost complete: ListStock -> Record) returns (batchData: seq<Record>)
    requires complete == Complete(fetch, keys)
    ensures batchData == Map(batch, complete)
  {
    batchData := [];
    var i := 0;
    while i < |batch|
      invariant i <= |batch|
      invariant batchData == Map(batch[..i], complete)
    {
      assert batch[..i + 1] == batch[..i] + [batch[i]];
      MapConcat(batch[..i], [batch[i]], complete);
      var data := fetch(batch[i]);
      data := FillInfo(data, batch[i], keys);
      batchData := batchData + [data];
      i := i + 1;
    }
    assert batch[..|batch|] == batch;
  }

  /** The columns the saved frame must have. */
  const RequiredFields: seq<string> := ["code", "name", "update_time", "list_date", "exchange", "company_industry",
    "total_assets", "total_liabilities", "total_equity", "revenue", "net_profit",
    "current_price", "market_cap", "pe_ttm", "pb", "roe"]

  /** A missing required column is added as 0 when it is numeric and as '' otherwise. */
  function Missing(cols: set<string>, required: seq<string>): Record
  {
    map k | k in required && k !in cols :: if k in NumericCols then Num(0.0) else CStr("")
  }

  function Finalize(frame: seq<Record>, cols: set<string>, required: seq<string>): (out: seq<Record>)
    ensures |out| == |frame|
    ensures forall i :: 0 <= i < |out| ==> out[i] == frame[i] + Missing(cols, required)
  {
    Map(frame, (r: Record) => r + Missing(cols, required))
  }

  /** The saved frame of some records. */
  function SavedFrame(records: seq<Record>): seq<Record>
  {
    Finalize(Coerce(records), Columns(records), RequiredFields)
  }

  /**
   * `update_cache` with the provider's answer for the list: the records of
   * the first `max_stocks` stocks (all when it is not positive), built batch
   * by batch, coerced and completed. The list is never empty (see
   * `StockListNonEmpty`), so the run always succeeds.
   */
  method UpdateCache(env: Env, answer: Option<seq<ListStock>>, maxStocks: int, batchSize: int)
    returns (ok: bool, final: seq<Record>)
    requires batchSize > 0
    ensures ok
    ensures final == SavedFrame(Map(Head(StockList(env.pro, answer), maxStocks),
                                    Complete((s: ListStock) => Fetch(s, env), FillKeys)))
  {
    var stockList := StockList(env.pro, answer);
    var rows := Head(stockList, maxStocks);
    var fetch := (s: ListStock) => Fetch(s, env);
    var records := BatchFrames(rows, fetch, FillKeys, batchSize, Complete(fetch, FillKeys));
    final := Finalize(Coerce(records), Columns(records), RequiredFields);
    ok := true;
  }

  /** The batch loop: each batch's frame is appended to `all_data`, then all are concatenated. */
  method BatchFrames(rows: seq<ListStock>, fetch: ListStock -> Record, keys: seq<string>, batchSize: int,
                     ghost complete: ListStock -> Record) returns (records: seq<Record>)
    requires batchSize > 0 && complete == Complete(fetch, keys)
    ensures records == Map(rows, complete)
  {
    var totalStocks := |rows|;
    var totalBatches := NumBatches(totalStocks, batchSize);
    var allData: seq<seq<Record>> := [];
    ghost var done := 0;
    var batchNum := 1;
    while batchNum <= totalBatches
      invariant 1 <= batchNum <= totalBatches + 1
      invariant done == Min((batchNum - 1) * batchSize, totalStocks)
      invariant Concat(allData) == Map(rows[..done], complete)
    {
      var startIdx := (batchNum - 1) * batchSize;
      var endIdx := Min(batchNum * batchSize, totalStocks);
      Window(totalStocks, batchSize, batchNum);
      var batchDf := ProcessBatch(rows[startIdx..endIdx], fetch, keys, complete);
      MapWindow(rows, startIdx, endIdx, complete);
      ConcatSnoc(allData, batchDf);
      allData := allData + [batchDf];
      done := endIdx;
      batchNum := batchNum + 1;
    }
    WindowsCover(totalStocks, batchSize);
    assert rows[..done] == rows;
    records := Concat(allData);
  }


  /**
   * A row of a completed frame has every required column and every frame
   * column; its numeric columns hold numbers (never NaN), and any other
   * column its record had keeps the record's value.
   */
  lemma CompletedRow(records: seq<Record>, required: seq<string>, i: nat)
    requires i < |records|
    ensures var out := Finalize(Coerce(records), Columns(records), required)[i];
      (forall k :: k in required ==> k in out) &&
      (forall k :: k in out && k in NumericCols ==> out[k].CNum? && out[k].f.Fin?) &&
      (forall k :: k in records[i] && k !in NumericCols ==> k in out && out[k] == records[i][k])
  {
    var cols := Columns(records);
    var miss := Missing(cols, required);
    var row := CoerceRow(cols, records[i]);
    MissingProps(cols, required);
    forall k | k in records[i]
      ensures k in cols && k !in miss
    {
      InColumns(records, i, k);
    }
  }

  /** A fetcher whose dict for a row carries that row's code and name. */
  ghost predicate KeepsIdentity(fetch: ListStock -> Record)
  {
    forall s :: "code" in fetch(s) && fetch(s)["code"] == CStr(s.code) && "name" in fetch(s) && fetch(s)["name"] == CStr(s.name)
  }

  /** `get_real_fundamentals`, with a connection or without, returns the code and name it was given. */
  lemma FetchKeepsIdentity(env: Env)
    ensures KeepsIdentity((s: ListStock) => Fetch(s, env))
  {
    forall s: ListStock
      ensures "code" in Fetch(s, env) && Fetch(s, env)["code"] == CStr(s.code)
      ensures "name" in Fetch(s, env) && Fetch(s, env)["name"] == CStr(s.name)
    {
      var id := Identity(s, env);
      assert "code" in id && id["code"] == CStr(s.code);
      assert "name" in id && id["name"] == CStr(s.name);
    }
  }

  /**
   * The saved frame has one row per selected stock, in list order, with that
   * stock's code and name; every row has every required column, and every
   * numeric column, required or not, holds a number (never NaN).
   */
  lemma SavedFrameProps(rows: seq<ListStock>, fetch: ListStock -> Record)
    requires KeepsIdentity(fetch)
    ensures var records := Map(rows, Complete(fetch, FillKeys));
      var out := SavedFrame(records);
      |out| == |rows| &&
      (forall i :: 0 <= i < |out| ==> out[i]["code"] == CStr(rows[i].code) && out[i]["name"] == CStr(rows[i].name)) &&
      (forall i, k :: 0 <= i < |out| && k in RequiredFields ==> k in out[i]) &&
      forall i, k :: 0 <= i < |out| && k in out[i] && k in NumericCols ==> out[i][k].CNum? && out[i][k].f.Fin?
  {
    var records := Map(rows, Complete(fetch, FillKeys));
    var out := SavedFrame(records);
    IdentityNotNumeric();
    forall i | 0 <= i < |out|
      ensures out[i]["code"] == CStr(rows[i].code) && out[i]["name"] == CStr(rows[i].name)
      ensures forall k :: k in RequiredFields ==> k in out[i]
      ensures forall k :: k in out[i] && k in NumericCols ==> out[i][k].CNum? && out[i][k].f.Fin?
    {
      FillFromProps(fetch(rows[i]), rows[i], FillKeys);
      assert records[i] == FillFrom(fetch(rows[i]), rows[i], FillKeys);
      CompletedRow(records, RequiredFields, i);
    }
  }

  /** The added columns are exactly the required ones the frame lacks; numeric ones hold 0. */
  lemma MissingProps(cols: set<string>, required: seq<string>)
    ensures forall k :: k in Missing(cols, required) <==> k in required && k !in cols
    ensures forall k :: k in Missing(cols, required) && k in NumericCols ==> Missing(cols, required)[k] == Num(0.0)
  {
  }
}
