// stock_screeners/stock_selector.py, `get_stock_fundamentals`: a fresh cache
// of more than ten rows is returned as it is; otherwise the stock list comes
// from the first spot source that answers with enough rows and columns, the
// codes of the checkpoint are filtered out, and the rest are fetched batch by
// batch. A stock is kept, and its code counted as processed, only when its
// record validates; the checkpoint is saved every fifty processed codes and
// after every batch, and deleted at the end.

module StockSelector {
  import opened Py
  import opened Strings
  import opened Tables
  import opened Batching
  import opened FinanceExtract
  import FundamentalsCache

  /** A row of the spot table after renaming: its code, name, price and market value columns. */
  datatype StockInfo = StockInfo(code: string, name: string, price: Float, marketCap: Float)

  /** A spot source's table: its rows and how many of the four mapped columns it had. */
  datatype Spot = Spot(rows: seq<StockInfo>, foundColumns: nat)

  /** A spot table is used when it has more than fifty rows and at least three of the mapped columns. */
  predicate Accepted(s: Option<Spot>)
  {
    s.Some? && |s.value.rows| > 50 && s.value.foundColumns >= 3
  }

  /** The stock list: the rows of the first accepted spot source (None when a source raised). */
  function StockList(spots: seq<Option<Spot>>): Option<seq<StockInfo>>
    decreases |spots|
  {
    if |spots| == 0 then None
    else if Accepted(spots[0]) then Some(spots[0].value.rows)
    else StockList(spots[1..])
  }

  /** The stock list comes from the first accepted source, and there is one exactly when some source is accepted. */
  lemma {:induction false} StockListFirstAccepted(spots: seq<Option<Spot>>, i: nat)
    requires i < |spots| && Accepted(spots[i])
    requires forall j :: 0 <= j < i ==> !Accepted(spots[j])
    ensures StockList(spots) == Some(spots[i].value.rows)
    ensures |StockList(spots).value| > 50
    decreases i
  {
    if i > 0 {
      assert !Accepted(spots[0]);
      StockListFirstAccepted(spots[1..], i - 1);
    }
  }

  lemma {:induction false} StockListNone(spots: seq<Option<Spot>>)
    requires forall j :: 0 <= j < |spots| ==> !Accepted(spots[j])
    ensures StockList(spots).None?
    decreases |spots|
  {
    if |spots| > 0 {
      assert !Accepted(spots[0]);
      StockListNone(spots[1..]);
    }
  }

  /** The finance tables of each source for a code, and the random price and market value drawn for a missing one. */
  datatype Env = Env(finance: string -> seq<Option<Frame>>, randomPrice: string -> real, randomCap: string -> real)

  /** The eleven indicator fields of a record, all NaN before any source is read. */
  const Fields: seq<string> := ["pe", "pe_ttm", "pb", "roe", "debt_ratio", "revenue_growth", "profit_growth", "eps",
                                "gross_margin", "current_ratio", "net_profit_margin"]

  function Blank(): (d: map<string, Float>)
    ensures forall k :: k in d <==> k in Fields
    ensures forall k :: k in d ==> d[k] == NaN
  {
    map k | k in Fields :: NaN
  }

  /** A stock's record: the stripped code and name, the price and market value, the indicators. */
  datatype Fundamentals = Fundamentals(code: string, name: string, price: real, marketCap: real, ind: map<string, Float>)

  function NumberOr(x: Float, drawn: real): real
  {
    if x.Fin? then x.r else drawn
  }

  /** The record before any finance source is read. */
  function Initial(s: StockInfo, code: string, env: Env): Fundamentals
  {
    Fundamentals(code, Strip(s.name), NumberOr(s.price, env.randomPrice(code)),
                 NumberOr(s.marketCap, env.randomCap(code)), Blank())
  }

  /** One stock: None when its stripped code is shorter than six characters or its record does not validate. */
  function Attempt(s: StockInfo, env: Env): Option<Fundamentals>
  {
    var code := Strip(s.code);
    if |code| < 6 then None
    else
      var d := TrySources(Blank(), env.finance(code), SelectorRule).0;
      if ValidateStockData(d) then Some(Initial(s, code, env).(ind := d)) else None
  }

  /** The processed codes, the records kept, and the checkpoints written, in order. */
  datatype SelState = SelState(processed: set<string>, data: seq<Fundamentals>, saves: seq<set<string>>)

  /** Every fifty processed codes the checkpoint is saved. */
  const SaveEvery: nat := 50

  function RowStep(st: SelState, s: StockInfo, env: Env): SelState
  {
    Keep(st, Attempt(s, env))
  }

  /** A kept record is appended and its code processed, with a checkpoint at each multiple of fifty. */
  function Keep(st: SelState, a: Option<Fundamentals>): SelState
  {
    match a
    case None => st
    case Some(rec) =>
      var p := st.processed + {rec.code};
      SelState(p, st.data + [rec], if |p| % SaveEvery == 0 then st.saves + [p] else st.saves)
  }

  function RowsRun(st: SelState, rows: seq<StockInfo>, env: Env): SelState
  {
    if |rows| == 0 then st else RowStep(RowsRun(st, rows[..|rows| - 1], env), rows[|rows| - 1], env)
  }

  /** One batch: its records are gathered apart and appended after it, then the checkpoint is saved. */
  function BatchRun(st: SelState, batch: seq<StockInfo>, env: Env): SelState
  {
    var s := RowsRun(st.(data := []), batch, env);
    SelState(s.processed, st.data + s.data, s.saves + [s.processed])
  }

  function BatchesRun(st: SelState, rows: seq<StockInfo>, size: nat, env: Env, k: nat): SelState
    requires size > 0
  {
    if k == 0 then st else BatchRun(BatchesRun(st, rows, size, env, k - 1), BatchAt(rows, size, k - 1), env)
  }

  /** The rows whose code, as listed, is not in the checkpoint's processed codes. */
  function Remaining(info: seq<StockInfo>, processed: set<string>): seq<StockInfo>
  {
    Filter(info, (s: StockInfo) => s.code !in processed)
  }

  /** The stocks of one batch, in order; the batch's records are returned apart. */
  method ProcessBatch(processed0: set<string>, saves0: seq<set<string>>, batch: seq<StockInfo>, env: Env)
    returns (processed: set<string>, batchData: seq<Fundamentals>, saves: seq<set<string>>)
    ensures SelState(processed, batchData, saves) == RowsRun(SelState(processed0, [], saves0), batch, env)
  {
    processed, batchData, saves := processed0, [], saves0;
    var j := 0;
    while j < |batch|
      invariant j <= |batch|
      invariant SelState(processed, batchData, saves) == RowsRun(SelState(processed0, [], saves0), batch[..j], env)
    {
      assert batch[..j + 1][..j] == batch[..j];
      var code := Strip(batch[j].code);
      if |code| >= 6 {
        var financeData := Initial(batch[j], code, env);
        var d, calls := FetchFinance(financeData.ind, env.finance(code), SelectorRule);
        if ValidateStockData(d) {
          batchData := batchData + [financeData.(ind := d)];
          processed := processed + {code};
          if |processed| % SaveEvery == 0 {
            saves := saves + [processed];
          }
        }
      }
      j := j + 1;
    }
    assert batch[..|batch|] == batch;
  }

  /** One pass of the batch loop: batch b's records appended, then the checkpoint. */
  method RunBatch(st: SelState, rows: seq<StockInfo>, batchSize: nat, env: Env, b: nat) returns (r: SelState)
    requires batchSize > 0 && b < NumBatches(|rows|, batchSize)
    ensures r == BatchRun(st, BatchAt(rows, batchSize, b), env)
  {
    var total := |rows|;
    var startIdx := b * batchSize;
    var endIdx := Min((b + 1) * batchSize, total);
    ZeroBasedBatch(rows, batchSize, b);
    var batch := if startIdx >= total then [] else rows[startIdx..endIdx];
    var processed, batchData, saves := ProcessBatch(st.processed, st.saves, batch, env);
    r := SelState(processed, st.data + batchData, saves + [processed]);
  }

  /** The batch loop over the remaining rows. */
  method RunBatches(start: set<string>, rows: seq<StockInfo>, batchSize: nat, env: Env) returns (st: SelState)
    requires batchSize > 0
    ensures st == BatchesRun(SelState(start, [], []), rows, batchSize, env, NumBatches(|rows|, batchSize))
  {
    var total := |rows|;
    st := SelState(start, [], []);
    ghost var init := st;
    var totalBatches := NumBatches(total, batchSize);
    var b := 0;
    while b < totalBatches
      invariant b <= totalBatches
      invariant st == BatchesRun(init, rows, batchSize, env, b)
    {
      BatchesRunStep(init, rows, batchSize, env, b);
      st := RunBatch(st, rows, batchSize, env, b);
      b := b + 1;
    }
  }

  lemma BatchesRunStep(st: SelState, rows: seq<StockInfo>, size: nat, env: Env, b: nat)
    requires size > 0
    ensures BatchesRun(st, rows, size, env, b + 1) == BatchRun(BatchesRun(st, rows, size, env, b), BatchAt(rows, size, b), env)
  {
  }

  /** The cache directory: the checkpoint, every checkpoint written, and the fundamentals cache file. */
  class SelectorFiles {
    var checkpoint: FundamentalsCache.Checkpoint
    var writes: seq<set<string>>
    var cache: Option<seq<Fundamentals>>

    constructor (c: FundamentalsCache.Checkpoint, cached: Option<seq<Fundamentals>>)
      ensures checkpoint == c && writes == [] && cache == cached
    {
      checkpoint := c;
      writes := [];
      cache := cached;
    }

    /** A cache file younger than seven days with more than ten rows is used instead of fetching. */
    predicate CacheFresh(ageDays: real)
      reads this
    {
      cache.Some? && ageDays < 7.0 && |cache.value| > 10
    }

    /**
     * `get_stock_fundamentals`: the fresh cache; else nothing when no spot
     * source is accepted; else every batch of the remaining rows, the
     * checkpoint deleted and, when any record was kept, the cache rewritten.
     */
    method GetStockFundamentals(spots: seq<Option<Spot>>, ageDays: real, env: Env, batchSize: nat, maxStocks: int)
      returns (out: seq<Fundamentals>)
      requires batchSize > 0
      modifies this
      ensures old(CacheFresh(ageDays)) ==> out == old(cache).value && unchanged(this)
      ensures !old(CacheFresh(ageDays)) && (StockList(spots).None? || |StockList(spots).value| == 0) ==>
        out == [] && unchanged(this)
      ensures !old(CacheFresh(ageDays)) && StockList(spots).Some? && |StockList(spots).value| > 0 ==>
        var start := FundamentalsCache.LoadCheckpoint(old(checkpoint));
        var rows := Remaining(Head(StockList(spots).value, maxStocks), start);
        var st := BatchesRun(SelState(start, [], []), rows, batchSize, env, NumBatches(|rows|, batchSize));
        checkpoint == FundamentalsCache.NoCheckpoint && writes == old(writes) + st.saves && out == st.data &&
        cache == (if |st.data| == 0 then old(cache) else Some(st.data))
    {
      if CacheFresh(ageDays) {
        return cache.value;
      }
      var stockInfo := StockList(spots);
      if stockInfo.None? || |stockInfo.value| == 0 {
        return [];
      }
      var info := Head(stockInfo.value, maxStocks);
      var processedCodes := FundamentalsCache.LoadCheckpoint(checkpoint);
      var remaining := Remaining(info, processedCodes);
      var st := RunBatches(processedCodes, remaining, batchSize, env);
      writes := writes + st.saves;
      checkpoint := FundamentalsCache.NoCheckpoint;
      if |st.data| > 0 {
        cache := Some(st.data);
      }
      out := st.data;
    }
  }

  /** Neither the records kept before nor the checkpoints written change what a run processes. */
  lemma {:induction false} RowsRunShift(st: SelState, rows: seq<StockInfo>, env: Env)
    ensures RowsRun(st, rows, env).processed == RowsRun(st.(data := [], saves := []), rows, env).processed
    ensures RowsRun(st, rows, env).data == st.data + RowsRun(st.(data := [], saves := []), rows, env).data
    ensures RowsRun(st, rows, env).saves == st.saves + RowsRun(st.(data := [], saves := []), rows, env).saves
  {
    if |rows| > 0 {
      RowsRunShift(st, rows[..|rows| - 1], env);
    }
  }

  lemma {:induction false} RowsRunConcat(st: SelState, a: seq<StockInfo>, b: seq<StockInfo>, env: Env)
    ensures RowsRun(st, a + b, env) == RowsRun(RowsRun(st, a, env), b, env)
  {
    if |b| == 0 {
      assert a + b == a;
    } else {
      assert (a + b)[..|a + b| - 1] == a + b[..|b| - 1];
      RowsRunConcat(st, a, b[..|b| - 1], env);
    }
  }

  /** Batch by batch, the run processes and keeps exactly what one pass over the rows does. */
  lemma {:induction false} BatchesRunIsRowsRun(st: SelState, rows: seq<StockInfo>, size: nat, env: Env, k: nat)
    requires size > 0
    ensures BatchesRun(st, rows, size, env, k).processed == RowsRun(st, FirstBatches(rows, size, k), env).processed
    ensures BatchesRun(st, rows, size, env, k).data == RowsRun(st, FirstBatches(rows, size, k), env).data
  {
    if k > 0 {
      var j: nat := k - 1;
      BatchesRunIsRowsRun(st, rows, size, env, j);
      BatchesRunIsRowsRunStep(st, rows, size, env, j);
    }
  }

  lemma BatchesRunIsRowsRunStep(st: SelState, rows: seq<StockInfo>, size: nat, env: Env, j: nat)
    requires size > 0
    requires BatchesRun(st, rows, size, env, j).processed == RowsRun(st, FirstBatches(rows, size, j), env).processed
    requires BatchesRun(st, rows, size, env, j).data == RowsRun(st, FirstBatches(rows, size, j), env).data
    ensures BatchesRun(st, rows, size, env, j + 1).processed == RowsRun(st, FirstBatches(rows, size, j + 1), env).processed
    ensures BatchesRun(st, rows, size, env, j + 1).data == RowsRun(st, FirstBatches(rows, size, j + 1), env).data
  {
    var prev := BatchesRun(st, rows, size, env, j);
    var flat := RowsRun(st, FirstBatches(rows, size, j), env);
    var batch := BatchAt(rows, size, j);
    var own := RowsRun(prev.(data := []), batch, env);
    assert BatchesRun(st, rows, size, env, j + 1) == BatchRun(prev, batch, env);
    assert FirstBatches(rows, size, j + 1) == FirstBatches(rows, size, j) + batch;
    RowsRunConcat(st, FirstBatches(rows, size, j), batch, env);
    var clean := flat.(data := [], saves := []);
    assert prev.(data := []).(data := [], saves := []) == clean;
    RowsRunShift(prev.(data := []), batch, env);
    RowsRunShift(flat, batch, env);
    assert own.processed == RowsRun(clean, batch, env).processed;
    assert own.data == RowsRun(clean, batch, env).data;
  }

  function RecordCodes(data: seq<Fundamentals>): set<string>
  {
    if |data| == 0 then {} else RecordCodes(data[..|data| - 1]) + {data[|data| - 1].code}
  }

  /** What a record kept by a run satisfies: it validates and its code has at least six characters. */
  predicate Kept(rec: Fundamentals)
  {
    ValidateStockData(rec.ind) && |rec.code| >= 6
  }

  /**
   * A code becomes processed only with a kept record: the processed codes are
   * the starting ones plus the codes of the records kept, and every kept
   * record validates, at most one per row.
   */
  lemma {:induction false} RowsRunKeepsValid(st: SelState, rows: seq<StockInfo>, env: Env)
    ensures KeptSince(st, RowsRun(st, rows, env), |rows|)
  {
    if |rows| > 0 {
      var prev := RowsRun(st, rows[..|rows| - 1], env);
      RowsRunKeepsValid(st, rows[..|rows| - 1], env);
      var s := rows[|rows| - 1];
      AttemptKept(s, env);
      KeepStep(st, prev, Attempt(s, env), |rows| - 1);
      assert RowsRun(st, rows, env) == Keep(prev, Attempt(s, env));
    }
  }

  /** From `st` to `r` over n rows: at most n records appended, all kept, and their codes processed. */
  predicate KeptSince(st: SelState, r: SelState, n: nat)
  {
    |st.data| <= |r.data| <= |st.data| + n && r.data[..|st.data|] == st.data &&
    r.processed == st.processed + RecordCodes(r.data[|st.data|..]) &&
    (forall i :: |st.data| <= i < |r.data| ==> Kept(r.data[i]))
  }

  lemma AttemptKept(s: StockInfo, env: Env)
    ensures Attempt(s, env).Some? ==> Kept(Attempt(s, env).value)
  {
  }

  lemma KeepStep(st: SelState, prev: SelState, a: Option<Fundamentals>, n: nat)
    requires KeptSince(st, prev, n) && (a.Some? ==> Kept(a.value))
    ensures KeptSince(st, Keep(prev, a), n + 1)
  {
    if a.Some? {
      var r := Keep(prev, a);
      assert r.data == prev.data + [a.value];
      assert r.data[|st.data|..] == prev.data[|st.data|..] + [a.value];
      assert RecordCodes(r.data[|st.data|..]) == RecordCodes(prev.data[|st.data|..]) + {a.value.code};
    }
  }

  /** Between batch ends, the checkpoint is saved only at a multiple of fifty processed codes. */
  lemma {:induction false} RowsRunSavesAtMultiples(st: SelState, rows: seq<StockInfo>, env: Env)
    ensures var r := RowsRun(st, rows, env);
      |st.saves| <= |r.saves| && r.saves[..|st.saves|] == st.saves &&
      forall i :: |st.saves| <= i < |r.saves| ==> |r.saves[i]| % SaveEvery == 0 && r.saves[i] <= r.processed
  {
    if |rows| > 0 {
      RowsRunSavesAtMultiples(st, rows[..|rows| - 1], env);
      RowsRunGrows(st, rows[..|rows| - 1], env);
    }
  }

  lemma {:induction false} RowsRunGrows(st: SelState, rows: seq<StockInfo>, env: Env)
    ensures st.processed <= RowsRun(st, rows, env).processed
  {
    if |rows| > 0 {
      RowsRunGrows(st, rows[..|rows| - 1], env);
    }
  }

  /**
   * A whole run from a checkpoint: processed holds the checkpoint's codes and
   * the codes of the records kept, and every kept record validates.
   */
  lemma RunKeepsOnlyValid(start: set<string>, rows: seq<StockInfo>, size: nat, env: Env)
    requires size > 0
    ensures var r := BatchesRun(SelState(start, [], []), rows, size, env, NumBatches(|rows|, size));
      r.processed == start + RecordCodes(r.data) && |r.data| <= |rows| &&
      forall rec :: rec in r.data ==> Kept(rec)
  {
    var n := NumBatches(|rows|, size);
    var st := SelState(start, [], []);
    BatchesRunIsRowsRun(st, rows, size, env, n);
    BatchesPartition(rows, size);
    RowsRunKeepsValid(st, rows, env);
    var r := RowsRun(st, rows, env);
    assert r.data[|st.data|..] == r.data;
    forall rec | rec in r.data
      ensures Kept(rec)
    {
      var i :| 0 <= i < |r.data| && r.data[i] == rec;
    }
  }
}
