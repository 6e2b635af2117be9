// What stock_screeners/tushare_real_cache.py and
// stock_screeners/free_real_cache.py share: a record is a dict of cells; the
// run walks the stock list in one-based batches and turns the records into a
// frame whose numeric columns are coerced, with NaN read as zero.

module RealCache {
  import opened Py
  import opened Strings
  import opened Tables
  import opened Batching

  /** One stock's dict. */
  type Record = map<string, Cell>

  /** `'SH' if code.startswith('6') else 'SZ'` */
  function Exchange(code: string): (e: string)
    ensures e == "SH" <==> StartsWith(code, "6")
    ensures e == "SZ" <==> !StartsWith(code, "6")
  {
    if StartsWith(code, "6") then "SH" else "SZ"
  }

  /** The columns coerced with `pd.to_numeric(errors='coerce').fillna(0)`. */
  const NumericCols: seq<string> := ["total_assets", "total_liabilities", "total_equity", "revenue",
    "net_profit", "operating_cash_flow", "current_price", "market_cap",
    "pe_ttm", "pb", "roe", "gross_margin", "net_margin", "debt_ratio",
    "revenue_growth", "profit_growth", "eps", "employees", "dividend_yield"]

  /** The columns of `pd.DataFrame(records)`: every key of any record. */
  function Columns(records: seq<Record>): set<string>
  {
    if |records| == 0 then {} else Columns(records[..|records| - 1]) + records[|records| - 1].Keys
  }

  lemma {:induction false} InColumns(records: seq<Record>, i: nat, k: string)
    requires i < |records| && k in records[i]
    ensures k in Columns(records)
  {
    if i < |records| - 1 {
      InColumns(records[..|records| - 1], i, k);
    }
  }

  /** A record's cell in a column of the frame: NaN (here None) where the record lacks the key. */
  function Get(r: Record, k: string): Cell
  {
    if k in r then r[k] else CNone
  }

  /** `fillna(0)` */
  function FillZero(f: Float): (g: Float)
    ensures g.Fin?
    ensures f.Fin? ==> g == f
    ensures f.NaN? ==> g == Fin(0.0)
  {
    if f.NaN? then Fin(0.0) else f
  }

  /**
   * One row of the frame with the numeric columns coerced: it has every
   * column of the frame, each numeric column holds a number (never NaN), a
   * number already there is kept, and every other column is unchanged.
   */
  function CoerceRow(cols: set<string>, r: Record): (out: Record)
    ensures out.Keys == cols
    ensures forall k :: k in cols && k in NumericCols ==> out[k].CNum? && out[k].f.Fin?
    ensures forall k :: k in cols && k in NumericCols && k in r && r[k].CNum? && r[k].f.Fin? ==> out[k] == r[k]
    ensures forall k :: k in cols && k !in NumericCols ==> out[k] == Get(r, k)
  {
    map k | k in cols :: if k in NumericCols then CNum(FillZero(CellToNumeric(Get(r, k)))) else Get(r, k)
  }

  /** The frame of the records, with its numeric columns coerced. */
  function Coerce(records: seq<Record>): (out: seq<Record>)
    ensures |out| == |records|
    ensures forall i :: 0 <= i < |out| ==> out[i] == CoerceRow(Columns(records), records[i])
  {
    Map(records, (r: Record) => CoerceRow(Columns(records), r))
  }

  /** `pd.concat(frames, ignore_index=True)` on the rows. */
  function Concat<T>(frames: seq<seq<T>>): seq<T>
  {
    if |frames| == 0 then [] else Concat(frames[..|frames| - 1]) + frames[|frames| - 1]
  }

  lemma ConcatSnoc<T>(frames: seq<seq<T>>, f: seq<T>)
    ensures Concat(frames + [f]) == Concat(frames) + f
  {
    assert (frames + [f])[..|frames|] == frames;
  }

  /** The items before a window's end are those before its start, then the window's. */
  lemma MapWindow<T, U>(rows: seq<T>, start: nat, end: nat, f: T -> U)
    requires start <= end <= |rows|
    ensures Map(rows[..end], f) == Map(rows[..start], f) + Map(rows[start..end], f)
  {
    assert rows[..end] == rows[..start] + rows[start..end];
    MapConcat(rows[..start], rows[start..end], f);
  }

  /** The identity columns are not coerced. */
  lemma IdentityNotNumeric()
    ensures "code" !in NumericCols && "name" !in NumericCols
  {
  }

  /** The inner loop over a batch's stocks: one record per stock, in order. */
  method ProcessEach<S>(batchStocks: seq<S>, process: S -> Record) returns (batchData: seq<Record>)
    ensures batchData == Map(batchStocks, process)
  {
    batchData := [];
    var j := 0;
    while j < |batchStocks|
      invariant j <= |batchStocks|
      invariant batchData == Map(batchStocks[..j], process)
    {
      assert batchStocks[..j + 1] == batchStocks[..j] + [batchStocks[j]];
      MapConcat(batchStocks[..j], [batchStocks[j]], process);
      batchData := batchData + [process(batchStocks[j])];
      j := j + 1;
    }
    assert batchStocks[..j] == batchStocks;
  }

  /** The batch loop of `update_cache` with a per-stock step: every stock once, in order. */
  method RunBatches<S>(rows: seq<S>, batchSize: int, process: S -> Record) returns (allData: seq<Record>)
    requires batchSize > 0
    ensures allData == Map(rows, process)
  {
    var totalStocks := |rows|;
    var totalBatches := NumBatches(totalStocks, batchSize);
    allData := [];
    ghost var done := 0;
    var batchNum := 1;
    while batchNum <= totalBatches
      invariant 1 <= batchNum <= totalBatches + 1
      invariant done == Min((batchNum - 1) * batchSize, totalStocks)
      invariant allData == Map(rows[..done], process)
    {
      var startIdx := (batchNum - 1) * batchSize;
      var endIdx := Min(batchNum * batchSize, totalStocks);
      Window(totalStocks, batchSize, batchNum);
      MapWindow(rows, startIdx, endIdx, process);
      var batchData := ProcessEach(rows[startIdx..endIdx], process);
      allData := allData + batchData;
      done := endIdx;
      batchNum := batchNum + 1;
    }
    WindowsCover(totalStocks, batchSize);
    assert rows[..done] == rows;
  }

}
