// The resumable batch loop shared by the fundamentals and F-Score downloaders:
// load `{last_index, completed_codes}`, compute the remaining codes, fetch them
// batch by batch with a bounded retry, record successes, write each batch that
// has successes and move the progress record forward only after that write.

module Resume {
  import opened Py
  import opened Tables
  import opened Batching

  /** The `{last_index, completed_codes}` progress record. */
  datatype Progress = Progress(lastIndex: nat, completedCodes: set<string>)

  /** What the progress file holds when a run starts. */
  datatype ProgressFile = NoFile | Unreadable | Stored(record: Progress)

  /** A missing or unreadable progress file yields `{last_index: 0, completed_codes: []}`. */
  function LoadProgress(f: ProgressFile): (p: Progress)
    ensures f.Stored? ==> p == f.record
    ensures !f.Stored? ==> p.lastIndex == 0 && p.completedCodes == {}
  {
    match f
    case Stored(r) => r
    case _ => Progress(0, {})
  }

  /** `[code for code in codes[start:] if code not in completed]` */
  function Remaining(codes: seq<string>, start: nat, completed: set<string>): seq<string>
  {
    if start >= |codes| then [] else Filter(codes[start..], (c: string) => c !in completed)
  }

  /** A code remains exactly when it sits at or after `start` and is not completed. */
  lemma RemainingMembers(codes: seq<string>, start: nat, completed: set<string>)
    ensures forall c :: c in Remaining(codes, start, completed) <==>
      (exists i :: start <= i < |codes| && codes[i] == c) && c !in completed
  {
    if start < |codes| {
      var tail := codes[start..];
      forall c
        ensures c in Remaining(codes, start, completed) <==>
          (exists i :: start <= i < |codes| && codes[i] == c) && c !in completed
      {
        if c in tail {
          var j :| 0 <= j < |tail| && tail[j] == c;
          assert codes[start + j] == c;
        }
        if exists i :: start <= i < |codes| && codes[i] == c {
          var i :| start <= i < |codes| && codes[i] == c;
          assert tail[i - start] == c;
        }
      }
    }
  }

  /** The CSV write mode: 'w' overwrites, 'a' appends without a header. */
  datatype Mode = Overwrite | AppendMode

  /** When the pause between batches happens. */
  datatype DelayRule = BeforeLaterBatches | AfterNonEmptyBatch

  /**
   * One downloader's constants: batch size, calls per code (the retry bound),
   * whether batches are written to a CSV file, and the delay rule.
   */
  datatype Config = Config(batchSize: nat, maxCalls: nat, writesCsv: bool, delay: DelayRule)

  predicate ValidConfig(cfg: Config)
  {
    cfg.batchSize > 0 && cfg.maxCalls > 0
  }

  /**
   * The outside world: `fetch(code, k)` is the k-th call's result for a code
   * (None when the result is falsy), `accept` is the success test on a record,
   * and `writeOk(k)` says whether writing batch k succeeds.
   */
  datatype Env<!R> = Env(fetch: (string, nat) -> Option<R>, accept: R -> bool, writeOk: nat -> bool)

  /** The first call index at or after `from` whose result is truthy, or `maxCalls`. */
  function FirstTruthy<R>(fetch: (string, nat) -> Option<R>, code: string, from: nat, maxCalls: nat): (k: nat)
    requires from <= maxCalls
    ensures from <= k <= maxCalls
    ensures k < maxCalls ==> fetch(code, k).Some?
    ensures forall j :: from <= j < k ==> fetch(code, j).None?
    decreases maxCalls - from
  {
    if from == maxCalls then maxCalls
    else if fetch(code, from).Some? then from
    else FirstTruthy(fetch, code, from + 1, maxCalls)
  }

  /** Number of calls `while retry < maxCalls: result = f(); if result: break` makes. */
  function CallsFor<R>(fetch: (string, nat) -> Option<R>, code: string, maxCalls: nat): nat
  {
    var k := FirstTruthy(fetch, code, 0, maxCalls);
    if k < maxCalls then k + 1 else maxCalls
  }

  /** The value that loop ends with: the first truthy result, or None. */
  function ResultFor<R>(fetch: (string, nat) -> Option<R>, code: string, maxCalls: nat): Option<R>
  {
    var k := FirstTruthy(fetch, code, 0, maxCalls);
    if k < maxCalls then fetch(code, k) else None
  }

  /**
   * The retry loop of the downloaders: call until the result is truthy, at most
   * `maxCalls` times.
   */
  method FetchUntilTruthy<R>(fetch: (string, nat) -> Option<R>, code: string, maxCalls: nat)
    returns (r: Option<R>, calls: nat)
    ensures r == ResultFor(fetch, code, maxCalls) && calls == CallsFor(fetch, code, maxCalls)
    ensures calls <= maxCalls
    ensures r.Some? ==> 1 <= calls && r == fetch(code, calls - 1)
    ensures r.None? ==> calls == maxCalls && forall j :: 0 <= j < maxCalls ==> fetch(code, j).None?
  {
    var retry := 0;
    r := None;
    calls := 0;
    while retry < maxCalls
      invariant retry <= maxCalls && calls == retry && r.None?
      invariant forall j :: 0 <= j < retry ==> fetch(code, j).None?
    {
      r := fetch(code, retry);
      calls := calls + 1;
      if r.Some? {
        return;
      }
      retry := retry + 1;
    }
  }

  /** A code succeeds when the retry loop ends with a record that passes `accept`. */
  predicate Accepted<R>(env: Env<R>, cfg: Config, code: string)
  {
    var r := ResultFor(env.fetch, code, cfg.maxCalls);
    r.Some? && env.accept(r.value)
  }

  /** The records a batch contributes, in batch order. */
  function BatchRecords<R>(env: Env<R>, cfg: Config, batch: seq<string>): seq<R>
  {
    if |batch| == 0 then []
    else
      var c := batch[|batch| - 1];
      BatchRecords(env, cfg, batch[..|batch| - 1]) +
        (if Accepted(env, cfg, c) then [ResultFor(env.fetch, c, cfg.maxCalls).value] else [])
  }

  /** The codes of a batch that succeed. */
  function AcceptedCodes<R>(env: Env<R>, cfg: Config, batch: seq<string>): set<string>
  {
    if |batch| == 0 then {}
    else
      var c := batch[|batch| - 1];
      AcceptedCodes(env, cfg, batch[..|batch| - 1]) + (if Accepted(env, cfg, c) then {c} else {})
  }

  /** A code is among them exactly when it is in the batch and succeeds. */
  lemma {:induction false} AcceptedCodesMembers<R>(env: Env<R>, cfg: Config, batch: seq<string>, c: string)
    ensures c in AcceptedCodes(env, cfg, batch) <==> c in batch && Accepted(env, cfg, c)
  {
    if |batch| > 0 {
      var p := batch[..|batch| - 1];
      AcceptedCodesMembers(env, cfg, p, c);
      assert batch == p + [batch[|batch| - 1]];
    }
  }

  lemma AcceptedCodesSnoc<R>(env: Env<R>, cfg: Config, s: seq<string>, x: string)
    ensures AcceptedCodes(env, cfg, s + [x]) ==
      AcceptedCodes(env, cfg, s) + (if Accepted(env, cfg, x) then {x} else {})
  {
    assert (s + [x])[..|s|] == s;
  }

  lemma {:induction false} AcceptedCodesConcat<R>(env: Env<R>, cfg: Config, s: seq<string>, t: seq<string>)
    ensures AcceptedCodes(env, cfg, s + t) == AcceptedCodes(env, cfg, s) + AcceptedCodes(env, cfg, t)
    decreases |t|
  {
    if |t| == 0 {
      assert s + t == s;
    } else {
      var u := t[..|t| - 1];
      assert (s + t)[..|s + t| - 1] == s + u;
      assert (s + t)[|s + t| - 1] == t[|t| - 1];
      AcceptedCodesConcat(env, cfg, s, u);
    }
  }

  /**
   * Everything a run changes: the in-memory completed set, the progress file, the
   * output (the CSV file, or the in-memory result list when nothing is written
   * per batch), the write mode and the counters.
   */
  datatype RunState<R> = RunState(
    completed: set<string>, progress: Progress, output: seq<R>, mode: Mode, successCount: nat, delays: nat)

  /** Whether batch k is written: it has records and, when a CSV is written, the write succeeds. */
  predicate BatchSaved<R>(env: Env<R>, cfg: Config, k: nat, batch: seq<string>)
  {
    |BatchRecords(env, cfg, batch)| > 0 && (!cfg.writesCsv || env.writeOk(k))
  }

  /** The effect of batch k, which starts at position `k * batchSize` of the remaining codes. */
  function AfterBatch<R>(env: Env<R>, cfg: Config, st: RunState<R>, start: nat, k: nat, batch: seq<string>): RunState<R>
  {
    Commit(cfg, st, start, k, |batch|, BatchRecords(env, cfg, batch), AcceptedCodes(env, cfg, batch), env.writeOk(k))
  }

  function Commit<R>(cfg: Config, st: RunState<R>, start: nat, k: nat, n: nat, recs: seq<R>, acc: set<string>, ok: bool): RunState<R>
  {
    var completed := st.completed + acc;
    var count := st.successCount + |recs|;
    var delays := st.delays +
      (if cfg.delay == BeforeLaterBatches then (if k > 0 then 1 else 0) else (if |recs| > 0 then 1 else 0));
    if |recs| > 0 && (!cfg.writesCsv || ok) then
      RunState(completed, Progress(start + k * cfg.batchSize + n, completed),
        if !cfg.writesCsv then st.output + recs else if st.mode == Overwrite then recs else st.output + recs,
        if cfg.writesCsv then AppendMode else st.mode, count, delays)
    else
      RunState(completed, st.progress, st.output, st.mode, count, delays)
  }

  /** The state after the first k batches of `rem`. */
  function RunBatches<R>(env: Env<R>, cfg: Config, st0: RunState<R>, start: nat, rem: seq<string>, k: nat): RunState<R>
    requires ValidConfig(cfg)
  {
    if k == 0 then st0
    else AfterBatch(env, cfg, RunBatches(env, cfg, st0, start, rem, k - 1), start, k - 1, BatchAt(rem, cfg.batchSize, k - 1))
  }

  /**
   * A whole `main`: nothing happens when `last_index` is past the end or nothing
   * remains; otherwise the mode starts as 'w' iff `last_index` is 0 and every batch runs.
   */
  function MainSpec<R>(env: Env<R>, cfg: Config, codes: seq<string>, st: RunState<R>): RunState<R>
    requires ValidConfig(cfg)
  {
    var start := st.progress.lastIndex;
    var rem := Remaining(codes, start, st.completed);
    if start >= |codes| || |rem| == 0 then st
    else
      RunBatches(env, cfg, st.(mode := if start == 0 then Overwrite else AppendMode), start, rem,
        NumBatches(|rem|, cfg.batchSize))
  }

  /** The run state of one downloader: its progress file, its CSV file and its counters. */
  class ResumeRun<R> {
    var completed: set<string>
    var progress: Progress
    var output: seq<R>
    var mode: Mode
    var successCount: nat
    var delays: nat

    function State(): RunState<R>
      reads this
    {
      RunState(completed, progress, output, mode, successCount, delays)
    }

    /** Loads the progress record; the completed set and the success count start from it. */
    constructor (file: ProgressFile, outputBefore: seq<R>)
      ensures progress == LoadProgress(file) && completed == progress.completedCodes
      ensures output == outputBefore && mode == Overwrite
      ensures successCount == |completed| && delays == 0
    {
      progress := LoadProgress(file);
      completed := LoadProgress(file).completedCodes;
      output := outputBefore;
      mode := Overwrite;
      successCount := |LoadProgress(file).completedCodes|;
      delays := 0;
    }

    method Run(codes: seq<string>, cfg: Config, env: Env<R>)
      requires ValidConfig(cfg)
      modifies this
      ensures State() == MainSpec(env, cfg, codes, old(State()))
    {
      var start := progress.lastIndex;
      if start >= |codes| {
        return;
      }
      var remaining := Remaining(codes, start, completed);
      if |remaining| == 0 {
        return;
      }
      mode := if start == 0 then Overwrite else AppendMode;
      ghost var st0 := State();
      var k := 0;
      var i := 0;
      while i < |remaining|
        invariant i == k * cfg.batchSize
        invariant k == 0 || i - cfg.batchSize < |remaining|
        invariant State() == RunBatches(env, cfg, st0, start, remaining, k)
        decreases |remaining| - i
      {
        var batch := remaining[i..Min(i + cfg.batchSize, |remaining|)];
        assert batch == BatchAt(remaining, cfg.batchSize, k);
        ghost var next := k + 1;
        assert RunBatches(env, cfg, st0, start, remaining, next) ==
          AfterBatch(env, cfg, RunBatches(env, cfg, st0, start, remaining, k), start, k, batch);
        ProcessBatch(k, batch, start, cfg, env);
        MulSucc(k, cfg.batchSize);
        k := k + 1;
        i := i + cfg.batchSize;
      }
      BatchIndexBound(|remaining|, cfg.batchSize, k);
    }

    /** One batch: fetch every code, then write the batch and save progress if it has records. */
    method ProcessBatch(k: nat, batch: seq<string>, start: nat, cfg: Config, env: Env<R>)
      requires ValidConfig(cfg)
      modifies this
      ensures State() == AfterBatch(env, cfg, old(State()), start, k, batch)
    {
      var records, accepted := CollectBatch(batch, cfg, env);
      RecordBatch(k, |batch|, start, cfg, records, accepted, env.writeOk(k));
    }

    /**
     * The bookkeeping of a fetched batch with `records` from the codes `accepted`:
     * the pauses, the counters, and the write and progress update when it has
     * records and the write (`writeOk`) succeeds.
     */
    method RecordBatch(k: nat, n: nat, start: nat, cfg: Config, records: seq<R>, accepted: set<string>, writeOk: bool)
      modifies this
      ensures State() == Commit(cfg, old(State()), start, k, n, records, accepted, writeOk)
    {
      if cfg.delay == BeforeLaterBatches && k > 0 {
        delays := delays + 1;
      }
      completed := completed + accepted;
      successCount := successCount + |records|;
      if cfg.delay == AfterNonEmptyBatch && |records| > 0 {
        delays := delays + 1;
      }
      if |records| > 0 && (!cfg.writesCsv || writeOk) {
        if cfg.writesCsv {
          output := if mode == Overwrite then records else output + records;
          mode := AppendMode;
        } else {
          output := output + records;
        }
        progress := Progress(start + k * cfg.batchSize + n, completed);
      }
    }
  }

  /** The call sequence for one code: a single call, or the retry loop when more are allowed. */
  method FetchCode<R>(fetch: (string, nat) -> Option<R>, code: string, maxCalls: nat) returns (r: Option<R>)
    requires maxCalls > 0
    ensures r == ResultFor(fetch, code, maxCalls)
  {
    if maxCalls == 1 {
      r := fetch(code, 0);
    } else {
      var calls;
      r, calls := FetchUntilTruthy(fetch, code, maxCalls);
    }
  }

  /** The inner loop over a batch: the accepted records in order and the codes that succeeded. */
  method CollectBatch<R>(batch: seq<string>, cfg: Config, env: Env<R>) returns (records: seq<R>, accepted: set<string>)
    requires ValidConfig(cfg)
    ensures records == BatchRecords(env, cfg, batch)
    ensures accepted == AcceptedCodes(env, cfg, batch)
  {
    records := [];
    accepted := {};
    var j := 0;
    while j < |batch|
      invariant 0 <= j <= |batch|
      invariant records == BatchRecords(env, cfg, batch[..j])
      invariant accepted == AcceptedCodes(env, cfg, batch[..j])
    {
      var code := batch[j];
      var r := FetchCode(env.fetch, code, cfg.maxCalls);
      assert batch[..j + 1] == batch[..j] + [code];
      AcceptedCodesSnoc(env, cfg, batch[..j], code);
      if r.Some? && env.accept(r.value) {
        records := records + [r.value];
        accepted := accepted + {code};
      }
      j := j + 1;
    }
    assert batch[..|batch|] == batch;
  }
}

// Properties of the specification of a run.
module ResumeFacts {
  import opened Py
  import opened Tables
  import opened Batching
  import opened Resume

  lemma {:induction false} BatchRecordsConcat<R>(env: Env<R>, cfg: Config, s: seq<string>, t: seq<string>)
    ensures BatchRecords(env, cfg, s + t) == BatchRecords(env, cfg, s) + BatchRecords(env, cfg, t)
    decreases |t|
  {
    if |t| == 0 {
      assert s + t == s;
    } else {
      var u := t[..|t| - 1];
      assert (s + t)[..|s + t| - 1] == s + u;
      assert (s + t)[|s + t| - 1] == t[|t| - 1];
      BatchRecordsConcat(env, cfg, s, u);
    }
  }

  /** Every record a batch contributes passed the acceptance test, and there is at most one per code. */
  lemma {:induction false} BatchRecordsAccepted<R>(env: Env<R>, cfg: Config, batch: seq<string>)
    ensures |BatchRecords(env, cfg, batch)| <= |batch|
    ensures forall r :: r in BatchRecords(env, cfg, batch) ==> env.accept(r)
    decreases |batch|
  {
    if |batch| > 0 {
      BatchRecordsAccepted(env, cfg, batch[..|batch| - 1]);
    }
  }

  /** The saved records of the first k batches, in order. */
  function SavedRecords<R>(env: Env<R>, cfg: Config, rem: seq<string>, k: nat): seq<R>
    requires ValidConfig(cfg)
  {
    if k == 0 then []
    else
      var b := BatchAt(rem, cfg.batchSize, k - 1);
      SavedRecords(env, cfg, rem, k - 1) + (if BatchSaved(env, cfg, k - 1, b) then BatchRecords(env, cfg, b) else [])
  }

  /** What one batch does to the completed set, the success count and, without a CSV file, the output. */
  lemma AfterBatchFields<R>(env: Env<R>, cfg: Config, st: RunState<R>, start: nat, k: nat, b: seq<string>)
    ensures var st' := AfterBatch(env, cfg, st, start, k, b);
      st'.completed == st.completed + AcceptedCodes(env, cfg, b) &&
      st'.successCount == st.successCount + |BatchRecords(env, cfg, b)| &&
      (!cfg.writesCsv ==> st'.output == st.output + BatchRecords(env, cfg, b) && st'.mode == st.mode) &&
      (cfg.writesCsv ==> if BatchSaved(env, cfg, k, b) then st'.mode == AppendMode &&
          st'.output == (if st.mode == Overwrite then BatchRecords(env, cfg, b) else st.output + BatchRecords(env, cfg, b))
        else st'.mode == st.mode && st'.output == st.output)
  {
    if !BatchSaved(env, cfg, k, b) && !cfg.writesCsv {
      assert BatchRecords(env, cfg, b) == [];
      assert st.output + [] == st.output;
    }
  }

  /** The state after k batches is the k-th batch's effect on the state after k - 1. */
  lemma RunBatchesStep<R>(env: Env<R>, cfg: Config, st0: RunState<R>, start: nat, rem: seq<string>, k: nat)
    requires ValidConfig(cfg) && k > 0
    ensures RunBatches(env, cfg, st0, start, rem, k) ==
      AfterBatch(env, cfg, RunBatches(env, cfg, st0, start, rem, k - 1), start, k - 1, BatchAt(rem, cfg.batchSize, k - 1))
    ensures FirstBatches(rem, cfg.batchSize, k) == FirstBatches(rem, cfg.batchSize, k - 1) + BatchAt(rem, cfg.batchSize, k - 1)
  {
  }

  /** The completed set grows by exactly the accepted codes. */
  lemma {:induction false} RunCompleted<R>(env: Env<R>, cfg: Config, st0: RunState<R>, start: nat, rem: seq<string>, k: nat)
    requires ValidConfig(cfg)
    ensures CompletedAfter(env, cfg, st0, start, rem, k)
  {
    if k > 0 {
      var j: nat := k - 1;
      RunCompleted(env, cfg, st0, start, rem, j);
      CompletedStep(env, cfg, st0, start, rem, j);
    } else {
      var e: seq<string> := [];
      assert FirstBatches(rem, cfg.batchSize, 0) == e && AcceptedCodes(env, cfg, e) == {};
      UnionEmpty(st0.completed);
    }
  }

  /** After k batches the completed set is the initial one and the accepted codes of those batches. */
  ghost predicate CompletedAfter<R>(env: Env<R>, cfg: Config, st0: RunState<R>, start: nat, rem: seq<string>, k: nat)
    requires ValidConfig(cfg)
  {
    RunBatches(env, cfg, st0, start, rem, k).completed ==
      st0.completed + AcceptedCodes(env, cfg, FirstBatches(rem, cfg.batchSize, k))
  }

  lemma CompletedStep<R>(env: Env<R>, cfg: Config, st0: RunState<R>, start: nat, rem: seq<string>, j: nat)
    requires ValidConfig(cfg)
    requires CompletedAfter(env, cfg, st0, start, rem, j)
    ensures CompletedAfter(env, cfg, st0, start, rem, j + 1)
  {
    var k := j + 1;
    var prev := RunBatches(env, cfg, st0, start, rem, k - 1);
    var f := FirstBatches(rem, cfg.batchSize, k - 1);
    var b := BatchAt(rem, cfg.batchSize, k - 1);
    assert RunBatches(env, cfg, st0, start, rem, k).completed == prev.completed + AcceptedCodes(env, cfg, b) by {
      RunBatchesStep(env, cfg, st0, start, rem, k);
      AfterBatchFields(env, cfg, prev, start, k - 1, b);
    }
    assert FirstBatches(rem, cfg.batchSize, k) == f + b;
    AcceptedCodesConcat(env, cfg, f, b);
    UnionAssoc(st0.completed, AcceptedCodes(env, cfg, f), AcceptedCodes(env, cfg, b));
  }

  lemma UnionEmpty<T>(x: set<T>)
    ensures x + {} == x
  {
  }

  lemma UnionAssoc<T>(x: set<T>, y: set<T>, z: set<T>)
    ensures x + y + z == x + (y + z)
  {
  }

  /** After k batches the success count has grown by the number of records those batches accepted. */
  ghost predicate CountedAfter<R>(env: Env<R>, cfg: Config, st0: RunState<R>, start: nat, rem: seq<string>, k: nat)
    requires ValidConfig(cfg)
  {
    RunBatches(env, cfg, st0, start, rem, k).successCount ==
      st0.successCount + |BatchRecords(env, cfg, FirstBatches(rem, cfg.batchSize, k))|
  }

  /** The success count grows by the number of accepted records. */
  lemma {:induction false} RunSuccessCount<R>(env: Env<R>, cfg: Config, st0: RunState<R>, start: nat, rem: seq<string>, k: nat)
    requires ValidConfig(cfg)
    ensures CountedAfter(env, cfg, st0, start, rem, k)
  {
    if k > 0 {
      var j: nat := k - 1;
      RunSuccessCount(env, cfg, st0, start, rem, j);
      CountedStep(env, cfg, st0, start, rem, j);
    }
  }

  lemma CountedStep<R>(env: Env<R>, cfg: Config, st0: RunState<R>, start: nat, rem: seq<string>, j: nat)
    requires ValidConfig(cfg)
    requires CountedAfter(env, cfg, st0, start, rem, j)
    ensures CountedAfter(env, cfg, st0, start, rem, j + 1)
  {
    var k := j + 1;
    var prev := RunBatches(env, cfg, st0, start, rem, k - 1);
    var f := FirstBatches(rem, cfg.batchSize, k - 1);
    var b := BatchAt(rem, cfg.batchSize, k - 1);
    assert RunBatches(env, cfg, st0, start, rem, k).successCount == prev.successCount + |BatchRecords(env, cfg, b)| by {
      RunBatchesStep(env, cfg, st0, start, rem, k);
      AfterBatchFields(env, cfg, prev, start, k - 1, b);
    }
    assert FirstBatches(rem, cfg.batchSize, k) == f + b;
    BatchRecordsConcat(env, cfg, f, b);
  }

  /** The progress record names only completed codes and lies at or after the start. */
  ghost predicate ProgressOk<R>(st: RunState<R>, start: nat, n: nat)
  {
    st.progress.completedCodes <= st.completed && start <= st.progress.lastIndex <= start + n
  }

  /**
   * Progress moves only on a saved batch, and then to the end of that batch:
   * `last_index = start_index + i + len(batch)`.
   */
  lemma AfterBatchProgress<R>(env: Env<R>, cfg: Config, st: RunState<R>, start: nat, rem: seq<string>, k: nat)
    requires ValidConfig(cfg) && ProgressOk(st, start, |rem|)
    ensures var b := BatchAt(rem, cfg.batchSize, k);
      var st' := AfterBatch(env, cfg, st, start, k, b);
      ProgressOk(st', start, |rem|) && st.completed <= st'.completed &&
      if BatchSaved(env, cfg, k, b) then st'.progress.lastIndex == start + Min(k * cfg.batchSize + cfg.batchSize, |rem|)
      else st'.progress == st.progress
  {
    var b := BatchAt(rem, cfg.batchSize, k);
    if BatchSaved(env, cfg, k, b) {
      assert |b| > 0;
      assert k * cfg.batchSize + |b| == Min(k * cfg.batchSize + cfg.batchSize, |rem|);
    }
  }

  /** Batch j was saved, and p's index is the end of that batch. */
  ghost predicate SavedEnd<R>(env: Env<R>, cfg: Config, start: nat, rem: seq<string>, j: nat, p: Progress)
    requires ValidConfig(cfg)
  {
    BatchSaved(env, cfg, j, BatchAt(rem, cfg.batchSize, j)) &&
    p.lastIndex == start + Min(j * cfg.batchSize + cfg.batchSize, |rem|)
  }

  /**
   * Progress moves only on a saved batch, and then to the end of that batch:
   * `last_index = start_index + i + len(batch)`.
   */
  lemma {:induction false} RunProgress<R>(env: Env<R>, cfg: Config, st0: RunState<R>, start: nat, rem: seq<string>, k: nat)
    requires ValidConfig(cfg) && ProgressOk(st0, start, |rem|)
    ensures ProgressOk(RunBatches(env, cfg, st0, start, rem, k), start, |rem|)
    ensures st0.completed <= RunBatches(env, cfg, st0, start, rem, k).completed
    ensures var p := RunBatches(env, cfg, st0, start, rem, k).progress;
      p == st0.progress || exists j :: 0 <= j < k && SavedEnd(env, cfg, start, rem, j, p)
  {
    if k > 0 {
      RunProgress(env, cfg, st0, start, rem, k - 1);
      var prev := RunBatches(env, cfg, st0, start, rem, k - 1);
      var cur := RunBatches(env, cfg, st0, start, rem, k);
      RunBatchesStep(env, cfg, st0, start, rem, k);
      AfterBatchProgress(env, cfg, prev, start, rem, k - 1);
      if BatchSaved(env, cfg, k - 1, BatchAt(rem, cfg.batchSize, k - 1)) {
        assert SavedEnd(env, cfg, start, rem, k - 1, cur.progress);
      } else if prev.progress != st0.progress {
        var j :| 0 <= j < k - 1 && SavedEnd(env, cfg, start, rem, j, prev.progress);
        assert SavedEnd(env, cfg, start, rem, j, cur.progress);
      }
    }
  }

  /**
   * The CSV file: a run that starts in 'a' mode appends every saved batch; one that
   * starts in 'w' mode leaves the file alone until the first saved batch, which
   * replaces it; later batches append.
   */
  lemma {:induction false} RunCsv<R>(env: Env<R>, cfg: Config, st0: RunState<R>, start: nat, rem: seq<string>, k: nat)
    requires ValidConfig(cfg) && cfg.writesCsv
    ensures var st := RunBatches(env, cfg, st0, start, rem, k);
      var saved := SavedRecords(env, cfg, rem, k);
      if st0.mode == AppendMode then st.mode == AppendMode && st.output == st0.output + saved
      else if saved == [] then st.mode == Overwrite && st.output == st0.output
      else st.mode == AppendMode && st.output == saved
  {
    if k > 0 {
      var prev := RunBatches(env, cfg, st0, start, rem, k - 1);
      var cur := RunBatches(env, cfg, st0, start, rem, k);
      var b := BatchAt(rem, cfg.batchSize, k - 1);
      var recs := BatchRecords(env, cfg, b);
      var before := SavedRecords(env, cfg, rem, k - 1);
      assert SavedRecords(env, cfg, rem, k) == before + (if BatchSaved(env, cfg, k - 1, b) then recs else []);
      assert if BatchSaved(env, cfg, k - 1, b) then cur.mode == AppendMode &&
          cur.output == (if prev.mode == Overwrite then recs else prev.output + recs)
        else cur.mode == prev.mode && cur.output == prev.output by {
        RunBatchesStep(env, cfg, st0, start, rem, k);
        AfterBatchFields(env, cfg, prev, start, k - 1, b);
      }
      RunCsv(env, cfg, st0, start, rem, k - 1);
      if BatchSaved(env, cfg, k - 1, b) {
        if st0.mode == AppendMode {
          assert st0.output + before + recs == st0.output + (before + recs);
        } else if before == [] {
          assert before + recs == recs;
        }
      } else {
        assert before + [] == before;
      }
    }
  }

  /** Without a CSV file, every accepted record is appended to the result list and the mode never changes. */
  lemma {:induction false} RunNoCsv<R>(env: Env<R>, cfg: Config, st0: RunState<R>, start: nat, rem: seq<string>, k: nat)
    requires ValidConfig(cfg) && !cfg.writesCsv
    ensures RunBatches(env, cfg, st0, start, rem, k).output ==
      st0.output + BatchRecords(env, cfg, FirstBatches(rem, cfg.batchSize, k))
    ensures RunBatches(env, cfg, st0, start, rem, k).mode == st0.mode
  {
    if k > 0 {
      var prev := RunBatches(env, cfg, st0, start, rem, k - 1);
      var cur := RunBatches(env, cfg, st0, start, rem, k);
      var f := FirstBatches(rem, cfg.batchSize, k - 1);
      var b := BatchAt(rem, cfg.batchSize, k - 1);
      assert cur.output == prev.output + BatchRecords(env, cfg, b) && cur.mode == prev.mode by {
        RunBatchesStep(env, cfg, st0, start, rem, k);
        AfterBatchFields(env, cfg, prev, start, k - 1, b);
      }
      assert FirstBatches(rem, cfg.batchSize, k) == f + b;
      RunNoCsv(env, cfg, st0, start, rem, k - 1);
      BatchRecordsConcat(env, cfg, f, b);
      assert st0.output + BatchRecords(env, cfg, f) + BatchRecords(env, cfg, b) ==
        st0.output + (BatchRecords(env, cfg, f) + BatchRecords(env, cfg, b));
    }
  }

  /** When every write succeeds, the saved records are all the accepted records. */
  lemma {:induction false} SavedAll<R>(env: Env<R>, cfg: Config, rem: seq<string>, k: nat)
    requires ValidConfig(cfg) && forall j :: env.writeOk(j)
    ensures SavedRecords(env, cfg, rem, k) == BatchRecords(env, cfg, FirstBatches(rem, cfg.batchSize, k))
  {
    if k > 0 {
      SavedAll(env, cfg, rem, k - 1);
      BatchRecordsConcat(env, cfg, FirstBatches(rem, cfg.batchSize, k - 1), BatchAt(rem, cfg.batchSize, k - 1));
    }
  }

  /** With the delay before every batch but the first, k batches pause k - 1 times. */
  lemma {:induction false} RunDelays<R>(env: Env<R>, cfg: Config, st0: RunState<R>, start: nat, rem: seq<string>, k: nat)
    requires ValidConfig(cfg) && cfg.delay == BeforeLaterBatches
    ensures RunBatches(env, cfg, st0, start, rem, k).delays == st0.delays + (if k > 0 then k - 1 else 0)
  {
    if k > 0 {
      RunDelays(env, cfg, st0, start, rem, k - 1);
    }
  }

  lemma RemainingLength(codes: seq<string>, start: nat, completed: set<string>)
    requires start < |codes|
    ensures |Remaining(codes, start, completed)| <= |codes| - start
  {
  }

  /**
   * A whole run: the completed set gains exactly the accepted remaining codes,
   * the success count the accepted records, and the progress record stays
   * consistent and within the code list.
   */
  lemma MainCompletion<R>(env: Env<R>, cfg: Config, codes: seq<string>, st: RunState<R>)
    requires ValidConfig(cfg)
    ensures var rem := Remaining(codes, st.progress.lastIndex, st.completed);
      MainSpec(env, cfg, codes, st).completed == st.completed + AcceptedCodes(env, cfg, rem) &&
      MainSpec(env, cfg, codes, st).successCount == st.successCount + |BatchRecords(env, cfg, rem)|
  {
    var start := st.progress.lastIndex;
    var rem := Remaining(codes, start, st.completed);
    if start < |codes| && |rem| > 0 {
      BatchesPartition(rem, cfg.batchSize);
      RunCompleted(env, cfg, st.(mode := if start == 0 then Overwrite else AppendMode), start, rem,
        NumBatches(|rem|, cfg.batchSize));
      RunSuccessCount(env, cfg, st.(mode := if start == 0 then Overwrite else AppendMode), start, rem,
        NumBatches(|rem|, cfg.batchSize));
    } else {
      assert rem == [];
    }
  }

  lemma MainProgress<R>(env: Env<R>, cfg: Config, codes: seq<string>, st: RunState<R>)
    requires ValidConfig(cfg) && st.progress.completedCodes <= st.completed
    ensures var st' := MainSpec(env, cfg, codes, st);
      st.completed <= st'.completed &&
      st'.progress.completedCodes <= st'.completed &&
      st.progress.lastIndex <= st'.progress.lastIndex &&
      (st'.progress != st.progress ==> st'.progress.lastIndex <= |codes|)
  {
    var start := st.progress.lastIndex;
    var rem := Remaining(codes, start, st.completed);
    if start < |codes| && |rem| > 0 {
      RemainingLength(codes, start, st.completed);
      RunProgress(env, cfg, st.(mode := if start == 0 then Overwrite else AppendMode), start, rem,
        NumBatches(|rem|, cfg.batchSize));
    }
  }

  /**
   * The write mode: a run from index 0 replaces the file with its saved records
   * (or leaves it alone when nothing is saved); a resumed run appends them.
   */
  lemma MainCsv<R>(env: Env<R>, cfg: Config, codes: seq<string>, st: RunState<R>)
    requires ValidConfig(cfg) && cfg.writesCsv
    ensures var start := st.progress.lastIndex;
      var rem := Remaining(codes, start, st.completed);
      var saved := SavedRecords(env, cfg, rem, NumBatches(|rem|, cfg.batchSize));
      var st' := MainSpec(env, cfg, codes, st);
      start < |codes| && |rem| > 0 ==>
        if start > 0 then st'.output == st.output + saved && st'.mode == AppendMode
        else if saved == [] then st'.output == st.output && st'.mode == Overwrite
        else st'.output == saved && st'.mode == AppendMode
  {
    var start := st.progress.lastIndex;
    var rem := Remaining(codes, start, st.completed);
    RunCsv(env, cfg, st.(mode := if start == 0 then Overwrite else AppendMode), start, rem,
      NumBatches(|rem|, cfg.batchSize));
  }

  lemma MainNoCsv<R>(env: Env<R>, cfg: Config, codes: seq<string>, st: RunState<R>)
    requires ValidConfig(cfg) && !cfg.writesCsv
    ensures MainSpec(env, cfg, codes, st).output ==
      st.output + BatchRecords(env, cfg, Remaining(codes, st.progress.lastIndex, st.completed))
  {
    var start := st.progress.lastIndex;
    var rem := Remaining(codes, start, st.completed);
    if start < |codes| && |rem| > 0 {
      BatchesPartition(rem, cfg.batchSize);
      RunNoCsv(env, cfg, st.(mode := if start == 0 then Overwrite else AppendMode), start, rem,
        NumBatches(|rem|, cfg.batchSize));
    } else {
      assert rem == [];
      assert st.output + [] == st.output;
    }
  }

  lemma MainDelays<R>(env: Env<R>, cfg: Config, codes: seq<string>, st: RunState<R>)
    requires ValidConfig(cfg) && cfg.delay == BeforeLaterBatches
    ensures var start := st.progress.lastIndex;
      var rem := Remaining(codes, start, st.completed);
      start < |codes| && |rem| > 0 ==>
        MainSpec(env, cfg, codes, st).delays == st.delays + NumBatches(|rem|, cfg.batchSize) - 1
  {
    var start := st.progress.lastIndex;
    var rem := Remaining(codes, start, st.completed);
    if start < |codes| && |rem| > 0 {
      BatchesPartition(rem, cfg.batchSize);
      RunDelays(env, cfg, st.(mode := if start == 0 then Overwrite else AppendMode), start, rem,
        NumBatches(|rem|, cfg.batchSize));
    }
  }
}

// The five downloaders that share the resumable loop, each with its constants.
module Downloaders {
  import opened Batching
  import opened Resume
  import opened ResumeFacts

  /** `get_stock_Fscore.main`: batches of 20, three attempts, results kept in memory. */
  const FscoreMain := Config(20, 3, false, BeforeLaterBatches)
  /** `get_stockA_fundamentals_akshare.main`: batches of 20, one attempt, CSV per batch. */
  const AkshareFundamentalsMain := Config(20, 1, true, BeforeLaterBatches)
  /** `get_stockA_fundamentals_baostock.main`: batches of 20, three attempts, CSV per batch. */
  const BaostockFundamentalsMain := Config(20, 3, true, BeforeLaterBatches)
  /** `get_stockA_fundamentals.main`: batches of 20, one attempt, pause after a non-empty batch. */
  const MultiSourceFundamentalsMain := Config(20, 1, true, AfterNonEmptyBatch)
  /** `get_stockA_fundamentals_v2.main`: batches of 10, one attempt, pause after a non-empty batch. */
  const SimpleFundamentalsMain := Config(10, 1, true, AfterNonEmptyBatch)

  lemma MainSavedAll<R>(env: Env<R>, cfg: Config, rem: seq<string>)
    requires ValidConfig(cfg) && forall j :: env.writeOk(j)
    ensures SavedRecords(env, cfg, rem, NumBatches(|rem|, cfg.batchSize)) == BatchRecords(env, cfg, rem)
  {
    BatchesPartition(rem, cfg.batchSize);
    SavedAll(env, cfg, rem, NumBatches(|rem|, cfg.batchSize));
  }

  /** What a run of a CSV-writing downloader leaves behind. */
  ghost predicate CsvRunOutcome<R>(env: Env<R>, cfg: Config, codes: seq<string>, st: RunState<R>, st': RunState<R>)
    requires ValidConfig(cfg)
  {
    var start := st.progress.lastIndex;
    var rem := Remaining(codes, start, st.completed);
    st'.completed == st.completed + AcceptedCodes(env, cfg, rem) &&
    st'.successCount == st.successCount + |BatchRecords(env, cfg, rem)| &&
    st'.progress.completedCodes <= st'.completed &&
    start <= st'.progress.lastIndex &&
    (st'.progress != st.progress ==> st'.progress.lastIndex <= |codes|) &&
    ((start >= |codes| || |rem| == 0) ==> st' == st) &&
    ((start < |codes| && |rem| > 0 && (forall j :: env.writeOk(j))) ==>
      if start > 0 then st'.output == st.output + BatchRecords(env, cfg, rem)
      else if BatchRecords(env, cfg, rem) == [] then st'.output == st.output
      else st'.output == BatchRecords(env, cfg, rem))
  }

  lemma CsvRun<R>(env: Env<R>, cfg: Config, codes: seq<string>, st: RunState<R>)
    requires ValidConfig(cfg) && cfg.writesCsv && st.progress.completedCodes <= st.completed
    ensures CsvRunOutcome(env, cfg, codes, st, MainSpec(env, cfg, codes, st))
  {
    var rem := Remaining(codes, st.progress.lastIndex, st.completed);
    MainCompletion(env, cfg, codes, st);
    MainProgress(env, cfg, codes, st);
    MainCsv(env, cfg, codes, st);
    if forall j :: env.writeOk(j) {
      MainSavedAll(env, cfg, rem);
    }
  }

  /**
   * The F-Score run: every accepted remaining code joins the completed set, every
   * result is kept, progress names only completed codes, and the run pauses
   * between consecutive batches only.
   */
  lemma FscoreRun<R>(env: Env<R>, codes: seq<string>, st: RunState<R>)
    requires st.progress.completedCodes <= st.completed
    ensures var start := st.progress.lastIndex;
      var rem := Remaining(codes, start, st.completed);
      var st' := MainSpec(env, FscoreMain, codes, st);
      st'.completed == st.completed + AcceptedCodes(env, FscoreMain, rem) &&
      st'.output == st.output + BatchRecords(env, FscoreMain, rem) &&
      st'.successCount == st.successCount + |BatchRecords(env, FscoreMain, rem)| &&
      st'.progress.completedCodes <= st'.completed &&
      start <= st'.progress.lastIndex &&
      (start < |codes| && |rem| > 0 ==> st'.delays == st.delays + NumBatches(|rem|, 20) - 1)
  {
    MainCompletion(env, FscoreMain, codes, st);
    MainProgress(env, FscoreMain, codes, st);
    MainNoCsv(env, FscoreMain, codes, st);
    MainDelays(env, FscoreMain, codes, st);
  }

  lemma AkshareFundamentalsRun<R>(env: Env<R>, codes: seq<string>, st: RunState<R>)
    requires st.progress.completedCodes <= st.completed
    ensures CsvRunOutcome(env, AkshareFundamentalsMain, codes, st, MainSpec(env, AkshareFundamentalsMain, codes, st))
    ensures var rem := Remaining(codes, st.progress.lastIndex, st.completed);
      st.progress.lastIndex < |codes| && |rem| > 0 ==>
        MainSpec(env, AkshareFundamentalsMain, codes, st).delays == st.delays + NumBatches(|rem|, 20) - 1
  {
    CsvRun(env, AkshareFundamentalsMain, codes, st);
    MainDelays(env, AkshareFundamentalsMain, codes, st);
  }

  lemma BaostockFundamentalsRun<R>(env: Env<R>, codes: seq<string>, st: RunState<R>)
    requires st.progress.completedCodes <= st.completed
    ensures CsvRunOutcome(env, BaostockFundamentalsMain, codes, st, MainSpec(env, BaostockFundamentalsMain, codes, st))
    ensures var rem := Remaining(codes, st.progress.lastIndex, st.completed);
      st.progress.lastIndex < |codes| && |rem| > 0 ==>
        MainSpec(env, BaostockFundamentalsMain, codes, st).delays == st.delays + NumBatches(|rem|, 20) - 1
  {
    CsvRun(env, BaostockFundamentalsMain, codes, st);
    MainDelays(env, BaostockFundamentalsMain, codes, st);
  }

  lemma MultiSourceFundamentalsRun<R>(env: Env<R>, codes: seq<string>, st: RunState<R>)
    requires st.progress.completedCodes <= st.completed
    ensures CsvRunOutcome(env, MultiSourceFundamentalsMain, codes, st, MainSpec(env, MultiSourceFundamentalsMain, codes, st))
  {
    CsvRun(env, MultiSourceFundamentalsMain, codes, st);
  }

  lemma SimpleFundamentalsRun<R>(env: Env<R>, codes: seq<string>, st: RunState<R>)
    requires st.progress.completedCodes <= st.completed
    ensures CsvRunOutcome(env, SimpleFundamentalsMain, codes, st, MainSpec(env, SimpleFundamentalsMain, codes, st))
  {
    CsvRun(env, SimpleFundamentalsMain, codes, st);
  }
}
