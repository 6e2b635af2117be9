// stock_fundamentals_cache.py: `should_update_cache`, the checkpointed loop of
// `update_fundamentals_cache` and its projection onto the required columns.

module FundamentalsCache {
  import opened Py
  import opened Strings
  import opened Tables
  import opened Batching

  /** The update log: missing, malformed, or naming a `last_update` of the given age in days. */
  datatype UpdateLog = NoLog | BadLog | LastUpdate(ageDays: real)

  /** `should_update_cache`: the file's existence and age are parameters, as is the log's age. */
  function ShouldUpdateCache(cacheExists: bool, fileAgeDays: real, log: UpdateLog, days: real): bool
  {
    if !cacheExists then true
    else if fileAgeDays >= days then true
    else log.LastUpdate? && log.ageDays >= days
  }

  /**
   * A malformed log counts as no log; a missing cache always needs an update,
   * and a fresh cache with a fresh (or no) log never does.
   */
  lemma ShouldUpdateCacheCases(cacheExists: bool, fileAgeDays: real, log: UpdateLog, days: real)
    ensures ShouldUpdateCache(cacheExists, fileAgeDays, BadLog, days) == ShouldUpdateCache(cacheExists, fileAgeDays, NoLog, days)
    ensures !cacheExists ==> ShouldUpdateCache(cacheExists, fileAgeDays, log, days)
    ensures cacheExists && fileAgeDays < days && (log.LastUpdate? ==> log.ageDays < days) ==>
      !ShouldUpdateCache(cacheExists, fileAgeDays, log, days)
  {
  }

  /** A shorter period can only ask for more updates. */
  lemma ShouldUpdateCacheMonotone(cacheExists: bool, fileAgeDays: real, log: UpdateLog, days: real, days': real)
    requires days' <= days && ShouldUpdateCache(cacheExists, fileAgeDays, log, days)
    ensures ShouldUpdateCache(cacheExists, fileAgeDays, log, days')
  {
  }

  /** The 33 output columns in their declared order. */
  const RequiredFields: seq<string> := ["code", "name", "list_date", "exchange", "industry", "sector",
    "company_name", "company_industry", "company_region", "ceo", "chairman", "secretary", "employees",
    "total_assets", "total_liabilities", "total_equity", "revenue", "net_profit", "operating_cash_flow",
    "eps", "pe_static", "pe_ttm", "gross_margin", "net_margin", "roe", "debt_ratio", "revenue_growth",
    "profit_growth", "current_price", "market_cap", "pb", "dividend_yield", "update_time"]

  /** `get_company_info`: seven values, or `{}` on any failure. */
  datatype Company = Company(listDate: Cell, exchange: Cell, industry: Cell, employees: Cell,
                             ceo: Cell, chairman: Cell, secretary: Cell)

  /** The financial abstract's six values. */
  datatype Statement = Statement(totalAssets: Cell, totalLiabilities: Cell, totalEquity: Cell, revenue: Cell,
                                 netProfit: Cell, operatingCashFlow: Cell)

  /** The annual indicators' five values. */
  datatype Indicators = Indicators(eps: Cell, roe: Cell, debtRatio: Cell, grossMargin: Cell, netMargin: Cell)

  /** `get_market_data`: price, market cap (already in 亿), PE (TTM) and PB. */
  datatype Market = Market(currentPrice: Cell, marketCap: Cell, peTtm: Cell, pb: Cell)

  /** The lookups for every code, each None when it fails or finds nothing; `now` is the timestamp. */
  datatype Sources = Sources(company: string -> Option<Company>, statement: string -> Option<Statement>,
                             indicators: string -> Option<Indicators>, market: string -> Option<Market>, now: string)

  function CompanyDict(c: Option<Company>): map<string, Cell>
  {
    if c.None? then map[]
    else map["list_date" := c.value.listDate, "exchange" := c.value.exchange, "industry" := c.value.industry,
             "employees" := c.value.employees, "ceo" := c.value.ceo, "chairman" := c.value.chairman,
             "secretary" := c.value.secretary]
  }

  function FinancialDict(s: Option<Statement>, i: Option<Indicators>): map<string, Cell>
  {
    (if s.None? then map[]
     else map["total_assets" := s.value.totalAssets, "total_liabilities" := s.value.totalLiabilities,
              "total_equity" := s.value.totalEquity, "revenue" := s.value.revenue, "net_profit" := s.value.netProfit,
              "operating_cash_flow" := s.value.operatingCashFlow]) +
    (if i.None? then map[]
     else map["eps" := i.value.eps, "roe" := i.value.roe, "debt_ratio" := i.value.debtRatio,
              "gross_margin" := i.value.grossMargin, "net_margin" := i.value.netMargin])
  }

  function MarketDict(m: Option<Market>): map<string, Cell>
  {
    if m.None? then map[]
    else map["current_price" := m.value.currentPrice, "market_cap" := m.value.marketCap,
             "pe_ttm" := m.value.peTtm, "pb" := m.value.pb]
  }

  /** `stock_data`: code and name, updated by the three lookups, then the update time. */
  function Collect(code: string, name: string, src: Sources): map<string, Cell>
  {
    (map["code" := CStr(code), "name" := CStr(name)] + CompanyDict(src.company(code)) +
     FinancialDict(src.statement(code), src.indicators(code)) + MarketDict(src.market(code)))["update_time" := CStr(src.now)]
  }

  /** The lookups never write the code, so every collected record keeps it. */
  lemma CollectKeepsCode(code: string, name: string, src: Sources)
    ensures "code" in Collect(code, name, src) && Collect(code, name, src)["code"] == CStr(code)
  {
    NoCodeKey(src.company(code), src.statement(code), src.indicators(code), src.market(code));
    var base := map["code" := CStr(code), "name" := CStr(name)];
    var merged := base + CompanyDict(src.company(code)) +
      FinancialDict(src.statement(code), src.indicators(code)) + MarketDict(src.market(code));
    assert merged["code"] == CStr(code);
  }

  lemma NoCodeKey(c: Option<Company>, s: Option<Statement>, i: Option<Indicators>, m: Option<Market>)
    ensures "code" !in CompanyDict(c) && "code" !in FinancialDict(s, i) && "code" !in MarketDict(m)
  {
  }

  /** `df[list(required_fields)]` after adding the absent columns as None. */
  function Project(row: map<string, Cell>): (r: seq<Cell>)
    ensures |r| == |RequiredFields|
    ensures forall i :: 0 <= i < |RequiredFields| ==>
      r[i] == (if RequiredFields[i] in row then row[RequiredFields[i]] else CNone)
  {
    seq(|RequiredFields|, i requires 0 <= i < |RequiredFields| =>
      if RequiredFields[i] in row then row[RequiredFields[i]] else CNone)
  }

  /** One row of the stock list. */
  datatype ListRow = ListRow(code: string, name: string)

  /** The processed codes, the collected records and the checkpoints written, in order. */
  datatype CacheState = CacheState(processed: set<string>, data: seq<map<string, Cell>>, saves: seq<set<string>>)

  /** One list row: skipped when processed, otherwise collected, with a checkpoint at each multiple of the batch size. */
  function RowStep(st: CacheState, row: ListRow, size: nat, src: Sources): CacheState
    requires size > 0
  {
    var code := ZFill(row.code, 6);
    if code in st.processed then st
    else
      var p := st.processed + {code};
      CacheState(p, st.data + [Collect(code, row.name, src)], if |p| % size == 0 then st.saves + [p] else st.saves)
  }

  function RowsRun(st: CacheState, rows: seq<ListRow>, size: nat, src: Sources): CacheState
    requires size > 0
  {
    if |rows| == 0 then st else RowStep(RowsRun(st, rows[..|rows| - 1], size, src), rows[|rows| - 1], size, src)
  }

  /** One batch: its rows, then a checkpoint. */
  function BatchRun(st: CacheState, batch: seq<ListRow>, size: nat, src: Sources): CacheState
    requires size > 0
  {
    var s := RowsRun(st, batch, size, src);
    s.(saves := s.saves + [s.processed])
  }

  /** The first k batches. */
  function BatchesRun(st: CacheState, rows: seq<ListRow>, size: nat, src: Sources, k: nat): CacheState
    requires size > 0
  {
    if k == 0 then st else BatchRun(BatchesRun(st, rows, size, src, k - 1), BatchAt(rows, size, k - 1), size, src)
  }

  /** The checkpoint file: missing, unreadable, or a stored set of processed codes. */
  datatype Checkpoint = NoCheckpoint | Corrupt | Saved(codes: set<string>)

  function LoadCheckpoint(c: Checkpoint): set<string>
  {
    if c.Saved? then c.codes else {}
  }

  /** The rows of one batch, in order, from the state reached so far. */
  method ProcessBatch(st: CacheState, batch: seq<ListRow>, batchSize: nat, src: Sources) returns (r: CacheState)
    requires batchSize > 0
    ensures r == RowsRun(st, batch, batchSize, src)
  {
    var processed, data, saves := st.processed, st.data, st.saves;
    var j := 0;
    while j < |batch|
      invariant j <= |batch|
      invariant CacheState(processed, data, saves) == RowsRun(st, batch[..j], batchSize, src)
    {
      assert batch[..j + 1][..j] == batch[..j];
      var code := ZFill(batch[j].code, 6);
      if code !in processed {
        data := data + [Collect(code, batch[j].name, src)];
        processed := processed + {code};
        if |processed| % batchSize == 0 {
          saves := saves + [processed];
        }
      }
      j := j + 1;
    }
    assert batch[..|batch|] == batch;
    r := CacheState(processed, data, saves);
  }

  /** One pass of the batch loop: the rows of batch b, then a checkpoint. */
  method RunBatch(st: CacheState, rows: seq<ListRow>, batchSize: nat, src: Sources, b: nat) returns (r: CacheState)
    requires batchSize > 0 && b < NumBatches(|rows|, batchSize)
    ensures r == BatchRun(st, BatchAt(rows, batchSize, b), batchSize, src)
  {
    var total := |rows|;
    var startIdx := b * batchSize;
    var endIdx := Min((b + 1) * batchSize, total);
    ZeroBasedBatch(rows, batchSize, b);
    var batch := if startIdx >= total then [] else rows[startIdx..endIdx];
    r := ProcessBatch(st, batch, batchSize, src);
    r := r.(saves := r.saves + [r.processed]);
  }

  /** The batch loop: batch after batch, each followed by a checkpoint. */
  method RunBatches(start: set<string>, rows: seq<ListRow>, batchSize: nat, src: Sources) returns (st: CacheState)
    requires batchSize > 0
    ensures st == BatchesRun(CacheState(start, [], []), rows, batchSize, src, NumBatches(|rows|, batchSize))
  {
    var total := |rows|;
    st := CacheState(start, [], []);
    ghost var init := st;
    var totalBatches := NumBatches(total, batchSize);
    var b := 0;
    while b < totalBatches
      invariant b <= totalBatches
      invariant st == BatchesRun(init, rows, batchSize, src, b)
    {
      BatchesRunStep(init, rows, batchSize, src, b);
      st := RunBatch(st, rows, batchSize, src, b);
      b := b + 1;
    }
  }

  lemma BatchesRunStep(st: CacheState, rows: seq<ListRow>, size: nat, src: Sources, b: nat)
    requires size > 0
    ensures BatchesRun(st, rows, size, src, b + 1) == BatchRun(BatchesRun(st, rows, size, src, b), BatchAt(rows, size, b), size, src)
  {
  }

  /** The output of an update: none for an empty stock list, else a frame (empty when nothing was collected). */
  function Output(data: seq<map<string, Cell>>): seq<seq<Cell>>
  {
    Map(data, Project)
  }

  /** The cache directory: the checkpoint, every checkpoint written, the cache file and the update log. */
  class CacheFiles {
    var checkpoint: Checkpoint
    var writes: seq<set<string>>
    var cache: Option<seq<seq<Cell>>>
    var log: Option<(string, int)>

    constructor (c: Checkpoint, cached: Option<seq<seq<Cell>>>, l: Option<(string, int)>)
      ensures checkpoint == c && writes == [] && cache == cached && log == l
    {
      checkpoint := c;
      writes := [];
      cache := cached;
      log := l;
    }

    /**
     * `update_fundamentals_cache`: nothing for an empty list; otherwise every
     * batch of the first `max_stocks` rows, the checkpoint deleted, and, when
     * any record was collected, the projected records written with a log of
     * their number.
     */
    method UpdateFundamentalsCache(list: seq<ListRow>, batchSize: nat, maxStocks: int, src: Sources)
      returns (out: Option<seq<seq<Cell>>>)
      requires batchSize > 0
      modifies this
      ensures |list| == 0 ==> (out.None? && checkpoint == old(checkpoint) && writes == old(writes) &&
        cache == old(cache) && log == old(log))
      ensures |list| > 0 ==>
        var rows := Head(list, maxStocks);
        var st := BatchesRun(CacheState(LoadCheckpoint(old(checkpoint)), [], []), rows, batchSize, src,
                             NumBatches(|rows|, batchSize));
        checkpoint == NoCheckpoint && writes == old(writes) + st.saves && out == Some(Output(st.data)) &&
        cache == (if |st.data| == 0 then old(cache) else out) &&
        log == (if |st.data| == 0 then old(log) else Some((src.now, |st.data|)))
    {
      if |list| == 0 {
        return None;
      }
      var rows := Head(list, maxStocks);
      var st := RunBatches(LoadCheckpoint(checkpoint), rows, batchSize, src);
      writes := writes + st.saves;
      checkpoint := NoCheckpoint;
      out := Some(Output(st.data));
      if |st.data| > 0 {
        cache := out;
        log := Some((src.now, |st.data|));
      }
    }
  }

  /** The checkpoints written do not change what gets processed or collected. */
  lemma {:induction false} RowsRunIgnoresSaves(st: CacheState, rows: seq<ListRow>, size: nat, src: Sources,
                                               saves: seq<set<string>>)
    requires size > 0
    ensures RowsRun(st.(saves := saves), rows, size, src).processed == RowsRun(st, rows, size, src).processed
    ensures RowsRun(st.(saves := saves), rows, size, src).data == RowsRun(st, rows, size, src).data
  {
    if |rows| > 0 {
      RowsRunIgnoresSaves(st, rows[..|rows| - 1], size, src, saves);
    }
  }

  lemma {:induction false} RowsRunConcat(st: CacheState, a: seq<ListRow>, b: seq<ListRow>, size: nat, src: Sources)
    requires size > 0
    ensures RowsRun(st, a + b, size, src) == RowsRun(RowsRun(st, a, size, src), b, size, src)
  {
    if |b| == 0 {
      assert a + b == a;
    } else {
      assert (a + b)[..|a + b| - 1] == a + b[..|b| - 1];
      RowsRunConcat(st, a, b[..|b| - 1], size, src);
    }
  }

  /** Processing batch by batch collects exactly what one pass over the rows collects. */
  lemma {:induction false} BatchesRunIsRowsRun(st: CacheState, rows: seq<ListRow>, size: nat, src: Sources, k: nat)
    requires size > 0
    ensures BatchesRun(st, rows, size, src, k).processed == RowsRun(st, FirstBatches(rows, size, k), size, src).processed
    ensures BatchesRun(st, rows, size, src, k).data == RowsRun(st, FirstBatches(rows, size, k), size, src).data
  {
    if k > 0 {
      BatchesRunIsRowsRun(st, rows, size, src, k - 1);
      var prev := BatchesRun(st, rows, size, src, k - 1);
      var flat := RowsRun(st, FirstBatches(rows, size, k - 1), size, src);
      var batch := BatchAt(rows, size, k - 1);
      RowsRunConcat(st, FirstBatches(rows, size, k - 1), batch, size, src);
      RowsRunIgnoresSaves(flat, batch, size, src, prev.saves);
      assert prev == flat.(saves := prev.saves);
    }
  }

  /** The zero-padded codes of some rows. */
  function Codes(rows: seq<ListRow>): set<string>
  {
    set r | r in rows :: ZFill(r.code, 6)
  }

  function RecordCode(m: map<string, Cell>): string
  {
    if "code" in m && m["code"].CStr? then m["code"].s else ""
  }

  /** One pass adds exactly the rows' codes to the processed set. */
  lemma {:induction false} RowsRunProcessed(st: CacheState, rows: seq<ListRow>, size: nat, src: Sources)
    requires size > 0
    ensures RowsRun(st, rows, size, src).processed == st.processed + Codes(rows)
  {
    if |rows| > 0 {
      var p := rows[..|rows| - 1];
      RowsRunProcessed(st, p, size, src);
      assert rows == p + [rows[|rows| - 1]];
      assert Codes(rows) == Codes(p) + {ZFill(rows[|rows| - 1].code, 6)};
    }
  }

  /**
   * One pass appends one record per newly processed code: codes already
   * processed on entry (from the checkpoint) are never collected again, and no
   * code is collected twice.
   */
  lemma {:induction false} RowsRunData(st: CacheState, rows: seq<ListRow>, size: nat, src: Sources)
    requires size > 0
    ensures RowsRunFrom(st, RowsRun(st, rows, size, src), Codes(rows))
  {
    if |rows| == 0 {
      assert st.data[|st.data|..] == [];
    } else {
      var p := rows[..|rows| - 1];
      var row := rows[|rows| - 1];
      var prev := RowsRun(st, p, size, src);
      RowsRunData(st, p, size, src);
      RowsRunProcessed(st, p, size, src);
      assert rows == p + [row];
      assert Codes(rows) == Codes(p) + {ZFill(row.code, 6)};
      RowStepData(st, prev, row, size, src, Codes(p));
      assert RowsRun(st, rows, size, src) == RowStep(prev, row, size, src);
    }
  }

  /** The records appended since `st` carry distinct codes, exactly the given codes not processed in `st`. */
  predicate RowsRunFrom(st: CacheState, r: CacheState, codes: set<string>)
  {
    |r.data| >= |st.data| && r.data[..|st.data|] == st.data &&
    UniqueKeys(r.data[|st.data|..], RecordCode) &&
    Keys(r.data[|st.data|..], RecordCode) == codes - st.processed
  }

  lemma RowStepData(st: CacheState, prev: CacheState, row: ListRow, size: nat, src: Sources, codes: set<string>)
    requires size > 0
    requires RowsRunFrom(st, prev, codes) && prev.processed == st.processed + codes
    ensures RowsRunFrom(st, RowStep(prev, row, size, src), codes + {ZFill(row.code, 6)})
  {
    var code := ZFill(row.code, 6);
    var r := RowStep(prev, row, size, src);
    if code in prev.processed {
      assert r == prev;
      assert codes + {code} - st.processed == codes - st.processed;
    } else {
      var rec := Collect(code, row.name, src);
      CollectKeepsCode(code, row.name, src);
      assert r.data == prev.data + [rec];
      AppendFresh(st.data, prev.data, rec, codes - st.processed);
      assert codes + {code} - st.processed == (codes - st.processed) + {code};
    }
  }

  /** Appending a record with a new code to a run of distinct codes keeps them distinct. */
  lemma AppendFresh(base: seq<map<string, Cell>>, data: seq<map<string, Cell>>, rec: map<string, Cell>, codes: set<string>)
    requires |data| >= |base| && data[..|base|] == base
    requires UniqueKeys(data[|base|..], RecordCode) && Keys(data[|base|..], RecordCode) == codes
    requires RecordCode(rec) !in codes
    ensures var d := data + [rec];
      |d| >= |base| && d[..|base|] == base &&
      UniqueKeys(d[|base|..], RecordCode) && Keys(d[|base|..], RecordCode) == codes + {RecordCode(rec)}
  {
    var d := data + [rec];
    assert d[..|base|] == base;
    assert d[|base|..] == data[|base|..] + [rec];
    UniqueSnoc(data[|base|..], rec, RecordCode);
  }

  lemma UniqueSnoc(s: seq<map<string, Cell>>, x: map<string, Cell>, key: map<string, Cell> -> string)
    requires UniqueKeys(s, key) && key(x) !in Keys(s, key)
    ensures UniqueKeys(s + [x], key) && Keys(s + [x], key) == Keys(s, key) + {key(x)}
  {
    var t := s + [x];
    forall i, j | 0 <= i < j < |t| ensures key(t[i]) != key(t[j]) {
      assert t[i] == s[i];
      if j == |s| {
        assert key(s[i]) in Keys(s, key);
      } else {
        assert t[j] == s[j];
      }
    }
    forall y | y in Keys(t, key) ensures y in Keys(s, key) + {key(x)} {
      var i :| 0 <= i < |t| && key(t[i]) == y;
      if i < |s| {
        assert t[i] == s[i];
      }
    }
    forall y | y in Keys(s, key) ensures y in Keys(t, key) {
      var i :| 0 <= i < |s| && key(s[i]) == y;
      assert t[i] == s[i];
    }
    assert key(t[|s|]) in Keys(t, key);
  }

  /**
   * A whole run over the head of the list: every listed code ends up processed,
   * the cache rows carry distinct codes, and exactly the codes not already in
   * the checkpoint.
   */
  lemma RunCollectsEachCodeOnce(start: set<string>, rows: seq<ListRow>, size: nat, src: Sources)
    requires size > 0
    ensures var st := BatchesRun(CacheState(start, [], []), rows, size, src, NumBatches(|rows|, size));
      st.processed == start + Codes(rows) &&
      UniqueKeys(st.data, RecordCode) && Keys(st.data, RecordCode) == Codes(rows) - start
  {
    var init := CacheState(start, [], []);
    BatchesPartition(rows, size);
    BatchesRunIsRowsRun(init, rows, size, src, NumBatches(|rows|, size));
    RowsRunProcessed(init, rows, size, src);
    RowsRunData(init, rows, size, src);
    var r := RowsRun(init, rows, size, src);
    assert r.data[0..] == r.data;
  }

  /** Every batch ends with a checkpoint of the processed set at that point. */
  lemma BatchEndsWithCheckpoint(st: CacheState, rows: seq<ListRow>, size: nat, src: Sources, k: nat)
    requires size > 0 && k > 0
    ensures var r := BatchesRun(st, rows, size, src, k);
      |r.saves| > 0 && r.saves[|r.saves| - 1] == r.processed
  {
  }
}
