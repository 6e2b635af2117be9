// The fixed-window `RateLimiter` singleton: a request counter and a window start
// per data source, reset once a minute.

module RateLimit {

  /** `get_stock_Fscore.py` and `get_stockA_fundamentals_baostock.py`: baostock, 100 per minute. */
  const BaostockLimits: map<string, nat> := map["baostock" := 100]

  /** `get_stockA_fundamentals_akshare.py`: akshare 60 and eastmoney 50 per minute. */
  const AkshareEastmoneyLimits: map<string, nat> := map["akshare" := 60, "eastmoney" := 50]

  /** The window length in seconds. */
  const Window: real := 60.0

  class RateLimiter {
    var counts: map<string, int>
    var lastReset: map<string, real>
    var limits: map<string, nat>
    /** The wall clock; `time.time()` reads it and `time.sleep` advances it. */
    var clock: real

    ghost predicate Valid()
      reads this
    {
      counts.Keys == limits.Keys && lastReset.Keys == limits.Keys &&
      forall s :: s in limits ==> limits[s] > 0 && 0 <= counts[s] <= limits[s] && lastReset[s] <= clock
    }

    /** `reset()`: every counter 0 and every window starting now. */
    constructor (lim: map<string, nat>, now: real)
      requires forall s :: s in lim ==> lim[s] > 0
      ensures Valid()
      ensures limits == lim && clock == now
      ensures forall s :: s in lim ==> counts[s] == 0 && lastReset[s] == now
    {
      limits := lim;
      counts := map s | s in lim :: 0;
      lastReset := map s | s in lim :: now;
      clock := now;
    }

    /**
     * `check_rate_limit(source)` called at time `now`: a window at least 60 s old
     * is reset; a full window is waited out (61 - elapsed seconds) and then reset;
     * finally the counter is incremented. Returns the time slept, 0 when none.
     */
    method CheckRateLimit(source: string, now: real) returns (wait: real)
      requires Valid() && source in limits && now >= clock
      modifies this
      ensures Valid()
      ensures limits == old(limits)
      ensures 1 <= counts[source] <= limits[source]
      ensures forall s :: s in limits && s != source ==> counts[s] == old(counts[s]) && lastReset[s] == old(lastReset[s])
      ensures var elapsed := now - old(lastReset[source]);
        if elapsed >= Window then
          wait == 0.0 && counts[source] == 1 && lastReset[source] == now && clock == now
        else if old(counts[source]) >= limits[source] then
          wait == Window - elapsed + 1.0 && 1.0 < wait <= Window + 1.0 &&
          counts[source] == 1 && clock == now + wait && lastReset[source] == clock
        else
          wait == 0.0 && counts[source] == old(counts[source]) + 1 &&
          lastReset[source] == old(lastReset[source]) && clock == now
    {
      clock := now;
      var elapsed := clock - lastReset[source];
      if elapsed >= Window {
        counts := counts[source := 0];
        lastReset := lastReset[source := clock];
      }
      wait := 0.0;
      if counts[source] >= limits[source] {
        wait := Window - elapsed + 1.0;
        clock := clock + wait;
        counts := counts[source := 0];
        lastReset := lastReset[source := clock];
      }
      counts := counts[source := counts[source] + 1];
    }

    /**
     * The effective `get_stock_fundamental_data` of `get_stock_Fscore.py` checks the
     * limit itself and again inside `login_baostock`: two units per fetch, so a
     * fetch inside a window with room for two costs exactly two and never waits.
     */
    method FetchPermits(now: real, gap: real) returns (waited: real)
      requires Valid() && "baostock" in limits && clock <= now && gap >= 0.0
      modifies this
      ensures Valid() && limits == old(limits)
      ensures 1 <= counts["baostock"] <= limits["baostock"]
      ensures now + gap - old(lastReset["baostock"]) < Window && old(counts["baostock"]) + 2 <= limits["baostock"] ==>
        waited == 0.0 && counts["baostock"] == old(counts["baostock"]) + 2
    {
      var w1 := CheckRateLimit("baostock", now);
      var w2 := CheckRateLimit("baostock", clock + gap);
      waited := w1 + w2;
    }
  }
}
