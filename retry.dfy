// The retry decorator `retry_on_exception` and the skip-processed batch loop of
// the akshare and eastmoney F-Score scripts.

module Retry {
  import opened Py

  /** What one attempt does: raise, or return a value. */
  datatype Outcome<T> = Raised | Returned(v: T)

  /** Index of the first attempt at or after `from` that returns, or `max`. */
  function FirstReturn<T>(call: nat -> Outcome<T>, from: nat, max: nat): (k: nat)
    requires from <= max
    ensures from <= k <= max
    ensures k < max ==> call(k).Returned?
    ensures forall j :: from <= j < k ==> call(j).Raised?
    decreases max - from
  {
    if from == max then max
    else if call(from).Returned? then from
    else FirstReturn(call, from + 1, max)
  }

  /** The decorator's result: the first returned value unchanged, or None after `max` raises. */
  function RetryResult<T>(call: nat -> Outcome<T>, max: nat): Option<T>
  {
    var k := FirstReturn(call, 0, max);
    if k < max then Some(call(k).v) else None
  }

  function RetryCalls<T>(call: nat -> Outcome<T>, max: nat): nat
  {
    var k := FirstReturn(call, 0, max);
    if k < max then k + 1 else max
  }

  /**
   * `retry_on_exception(max_retries, retry_delay)` applied to one call sequence:
   * `call(k)` is the outcome of the k-th attempt. Returns the result (None when
   * every attempt raised), the number of attempts and the number of sleeps.
   */
  method RetryOnException<T>(call: nat -> Outcome<T>, maxRetries: nat) returns (r: Option<T>, calls: nat, sleeps: nat)
    ensures r == RetryResult(call, maxRetries) && calls == RetryCalls(call, maxRetries)
    ensures calls <= maxRetries
    ensures r.Some? ==> calls >= 1 && call(calls - 1) == Returned(r.value)
    ensures r.None? ==> calls == maxRetries && forall j :: 0 <= j < maxRetries ==> call(j).Raised?
    ensures sleeps == if calls == 0 then 0 else calls - 1
  {
    var retries := 0;
    calls := 0;
    sleeps := 0;
    while retries < maxRetries
      invariant retries <= maxRetries && calls == retries
      invariant sleeps == retries && (retries < maxRetries || retries == 0)
      invariant forall j :: 0 <= j < retries ==> call(j).Raised?
      decreases maxRetries - retries
    {
      var o := call(retries);
      calls := calls + 1;
      if o.Returned? {
        return Some(o.v), calls, sleeps;
      }
      retries := retries + 1;
      if retries >= maxRetries {
        return None, calls, sleeps;
      }
      sleeps := sleeps + 1;
    }
    r := None;
  }

  /** The decorator with the F-Score scripts' `MAX_RETRY` of 3. */
  const MaxRetry: nat := 3

  /** A call that never raises is made exactly once. */
  lemma NeverRaisingCalledOnce<T>(call: nat -> Outcome<T>, max: nat)
    requires max > 0 && forall j :: call(j).Returned?
    ensures RetryCalls(call, max) == 1 && RetryResult(call, max) == Some(call(0).v)
  {
  }
}

// `main` of get_stock_fscore_akshare.py and get_stock_fscore_eastmoney.py.
module SkipLoop {
  import opened Py
  import opened Batching
  import opened Tables
  import opened Retry

  /** `analyze_stock(code)` attempt k: raise, return None, or return a result. */
  type Analyze<!R> = (string, nat) -> Outcome<Option<R>>

  /** A code succeeds when its first non-raising attempt, within three, returns a result. */
  predicate Succeeds<R>(analyze: Analyze<R>, code: string)
  {
    var r := RetryResult((k: nat) => analyze(code, k), MaxRetry);
    r.Some? && r.value.Some?
  }

  function SuccessValue<R>(analyze: Analyze<R>, code: string): R
    requires Succeeds(analyze, code)
  {
    RetryResult((k: nat) => analyze(code, k), MaxRetry).value.value
  }

  /** The processed set and the result list. */
  datatype SkipState<R> = SkipState(processed: set<string>, results: seq<R>)

  function SkipStep<R>(analyze: Analyze<R>, st: SkipState<R>, code: string): SkipState<R>
  {
    if code in st.processed || !Succeeds(analyze, code) then st
    else SkipState(st.processed + {code}, st.results + [SuccessValue(analyze, code)])
  }

  /** The state after the codes of s, in order. */
  function SkipAll<R>(analyze: Analyze<R>, st: SkipState<R>, s: seq<string>): SkipState<R>
  {
    if |s| == 0 then st else SkipStep(analyze, SkipAll(analyze, st, s[..|s| - 1]), s[|s| - 1])
  }

  lemma {:induction false} SkipAllConcat<R>(analyze: Analyze<R>, st: SkipState<R>, s: seq<string>, t: seq<string>)
    ensures SkipAll(analyze, st, s + t) == SkipAll(analyze, SkipAll(analyze, st, s), t)
    decreases |t|
  {
    if |t| == 0 {
      assert s + t == s;
    } else {
      assert (s + t)[..|s + t| - 1] == s + t[..|t| - 1];
      assert (s + t)[|s + t| - 1] == t[|t| - 1];
      SkipAllConcat(analyze, st, s, t[..|t| - 1]);
    }
  }

  /**
   * After the codes of s the processed set is the old set plus exactly the codes
   * of s that succeed, and each appended result is a successful analysis of a code
   * of s that was not processed before it.
   */
  ghost predicate SkipProps<R>(analyze: Analyze<R>, st: SkipState<R>, s: seq<string>, fin: SkipState<R>)
  {
    fin.processed == st.processed + (set c | c in s && Succeeds(analyze, c)) &&
    |st.results| <= |fin.results| <= |st.results| + |s| &&
    fin.results[..|st.results|] == st.results &&
    forall i :: |st.results| <= i < |fin.results| ==> NewResult(analyze, st, s, fin.results[i])
  }

  /** v is the successful analysis of a code of s that was not processed before. */
  ghost predicate NewResult<R>(analyze: Analyze<R>, st: SkipState<R>, s: seq<string>, v: R)
  {
    exists c :: c in s && c !in st.processed && Succeeds(analyze, c) && v == SuccessValue(analyze, c)
  }

  lemma {:induction false} SkipAllProps<R>(analyze: Analyze<R>, st: SkipState<R>, s: seq<string>)
    ensures SkipProps(analyze, st, s, SkipAll(analyze, st, s))
    decreases |s|
  {
    if |s| > 0 {
      var p := s[..|s| - 1];
      var x := s[|s| - 1];
      SkipAllProps(analyze, st, p);
      SkipPropsStep(analyze, st, p, x);
      assert s == p + [x];
    }
  }

  lemma SkipPropsStep<R>(analyze: Analyze<R>, st: SkipState<R>, p: seq<string>, x: string)
    requires SkipProps(analyze, st, p, SkipAll(analyze, st, p))
    ensures SkipProps(analyze, st, p + [x], SkipAll(analyze, st, p + [x]))
  {
    var s := p + [x];
    var mid := SkipAll(analyze, st, p);
    assert s[..|s| - 1] == p && s[|s| - 1] == x;
    var fin := SkipAll(analyze, st, s);
    assert fin == SkipStep(analyze, mid, x);
    SucceedingSnoc(analyze, p, x);
    assert fin.processed == st.processed + (set c | c in s && Succeeds(analyze, c));
    assert |st.results| <= |fin.results| <= |st.results| + |s|;
    assert fin.results[..|st.results|] == st.results by {
      assert fin.results[..|mid.results|] == mid.results;
    }
    forall i | |st.results| <= i < |fin.results|
      ensures NewResult(analyze, st, s, fin.results[i])
    {
      if i < |mid.results| {
        assert fin.results[i] == mid.results[i];
        assert NewResult(analyze, st, p, mid.results[i]);
        var c :| c in p && c !in st.processed && Succeeds(analyze, c) && mid.results[i] == SuccessValue(analyze, c);
        assert c in s;
      } else {
        assert x !in mid.processed && st.processed <= mid.processed;
        assert fin.results[i] == SuccessValue(analyze, x);
        assert x in s;
      }
    }
  }

  /** The succeeding codes of p + [x]: those of p, and x when it succeeds. */
  lemma SucceedingSnoc<R>(analyze: Analyze<R>, p: seq<string>, x: string)
    ensures (set c | c in p + [x] && Succeeds(analyze, c)) ==
      (set c | c in p && Succeeds(analyze, c)) + (if Succeeds(analyze, x) then {x} else {})
  {
  }

  /** A code's result is appended at most once: once it succeeds it is skipped. */
  lemma SkipStepOnce<R>(analyze: Analyze<R>, st: SkipState<R>, code: string)
    ensures SkipStep(analyze, SkipStep(analyze, st, code), code) == SkipStep(analyze, st, code)
  {
  }

  /** The batch size of the skip-processed scripts. */
  const SkipBatch := 20

  /** The run of one script, with the progress file and the pause counter. */
  class SkipRun<R> {
    var processed: set<string>
    var results: seq<R>
    var savedProgress: set<string>
    var saves: nat
    var delays: nat

    function State(): SkipState<R>
      reads this
    {
      SkipState(processed, results)
    }

    /** `load_progress`: the stored `processed_stocks`, or the empty set. */
    constructor (stored: Option<set<string>>)
      ensures processed == (if stored.Some? then stored.value else {})
      ensures savedProgress == processed && results == [] && saves == 0 && delays == 0
    {
      processed := if stored.Some? then stored.value else {};
      savedProgress := if stored.Some? then stored.value else {};
      results := [];
      saves := 0;
      delays := 0;
    }

    /**
     * Batches of 20; progress is saved after every batch; the pause between
     * batches is skipped after the last one.
     */
    method Run(codes: seq<string>, analyze: Analyze<R>)
      modifies this
      ensures State() == SkipAll(analyze, old(State()), codes)
      ensures saves == old(saves) + NumBatches(|codes|, SkipBatch)
      ensures delays == old(delays) + (if |codes| == 0 then 0 else NumBatches(|codes|, SkipBatch) - 1)
      ensures |codes| > 0 ==> savedProgress == processed
      ensures |codes| == 0 ==> savedProgress == old(savedProgress)
    {
      ghost var st0, sv0 := State(), savedProgress;
      var k := 0;
      var i := 0;
      while i < |codes|
        invariant Progress(codes, analyze, st0, sv0, old(saves), old(delays), k, i)
        decreases |codes| - i
      {
        SaveBatchAt(codes, analyze, k, i, st0, sv0, old(saves), old(delays));
        k := k + 1;
        i := i + SkipBatch;
      }
      ProgressAtExit(codes, analyze, st0, sv0, old(saves), old(delays), k, i);
    }

    /**
     * The state after k passes of the batch loop, at `i == k * 20`, from the
     * state st0, progress file sv0 and counters saves0 and delays0.
     */
    ghost predicate Progress(codes: seq<string>, analyze: Analyze<R>, st0: SkipState<R>, sv0: set<string>,
                             saves0: nat, delays0: nat, k: nat, i: nat)
      reads this
    {
      && i == k * SkipBatch
      && (k == 0 || i - SkipBatch < |codes|)
      && State() == SkipAll(analyze, st0, FirstBatches(codes, SkipBatch, k))
      && saves == saves0 + k
      && delays == delays0 + (if k == 0 then 0 else if i < |codes| then k else k - 1)
      && (k > 0 ==> savedProgress == processed)
      && (k == 0 ==> savedProgress == sv0)
    }

    /** Once the loop has passed the end, every batch is done, saved and paused after. */
    lemma ProgressAtExit(codes: seq<string>, analyze: Analyze<R>, st0: SkipState<R>, sv0: set<string>,
                         saves0: nat, delays0: nat, k: nat, i: nat)
      requires Progress(codes, analyze, st0, sv0, saves0, delays0, k, i) && i >= |codes|
      ensures State() == SkipAll(analyze, st0, codes)
      ensures saves == saves0 + NumBatches(|codes|, SkipBatch)
      ensures delays == delays0 + (if |codes| == 0 then 0 else NumBatches(|codes|, SkipBatch) - 1)
      ensures |codes| > 0 ==> savedProgress == processed
      ensures |codes| == 0 ==> savedProgress == sv0
    {
      BatchLoopExit(codes, SkipBatch, k, i);
    }

    /** The body of the batch loop at `i == k * 20`: batch k, its save and its pause. */
    method SaveBatchAt(codes: seq<string>, analyze: Analyze<R>, k: nat, i: nat, ghost st0: SkipState<R>,
                       ghost sv0: set<string>, ghost saves0: nat, ghost delays0: nat)
      requires Progress(codes, analyze, st0, sv0, saves0, delays0, k, i) && i < |codes|
      modifies this
      ensures Progress(codes, analyze, st0, sv0, saves0, delays0, k + 1, i + SkipBatch)
    {
      var batch := codes[i..Min(i + SkipBatch, |codes|)];
      BatchStep(codes, SkipBatch, k, i);
      SkipAllConcat(analyze, st0, FirstBatches(codes, SkipBatch, k), batch);
      SaveBatch(batch, analyze, i + SkipBatch < |codes|);
    }

    /** One batch, then its progress save, then the pause when more batches follow. */
    method SaveBatch(batch: seq<string>, analyze: Analyze<R>, more: bool)
      modifies this
      ensures State() == SkipAll(analyze, old(State()), batch)
      ensures savedProgress == processed && saves == old(saves) + 1
      ensures delays == old(delays) + (if more then 1 else 0)
    {
      RunBatch(batch, analyze);
      savedProgress := processed;
      saves := saves + 1;
      if more {
        delays := delays + 1;
      }
    }

    /** One batch: skip processed codes, retry the others up to three times. */
    method RunBatch(batch: seq<string>, analyze: Analyze<R>)
      modifies this
      ensures State() == SkipAll(analyze, old(State()), batch)
      ensures savedProgress == old(savedProgress) && saves == old(saves) && delays == old(delays)
    {
      ghost var st0 := State();
      var j := 0;
      while j < |batch|
        invariant 0 <= j <= |batch|
        invariant State() == SkipAll(analyze, st0, batch[..j])
        invariant savedProgress == old(savedProgress) && saves == old(saves) && delays == old(delays)
      {
        var code := batch[j];
        assert batch[..j + 1][..j] == batch[..j];
        if code !in processed {
          var r, calls, sleeps := RetryOnException((k: nat) => analyze(code, k), MaxRetry);
          if r.Some? && r.value.Some? {
            results := results + [r.value.value];
            processed := processed + {code};
          }
        }
        j := j + 1;
      }
      assert batch[..|batch|] == batch;
    }
  }
}
