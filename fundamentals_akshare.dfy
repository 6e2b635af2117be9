// get_stockA_fundamentals_akshare.py: the record `get_fundamentals_real_data`
// returns, and the update log with its bounded history. The limiter is
// `RateLimit.RateLimiter` over `AkshareEastmoneyLimits`; the resumable `main`
// is `Resume.ResumeRun`; the method-4 merge is `MultiSourceFundamentals.MergeAbsent`.

module AkshareFundamentals {
  import opened Py
  import opened MultiSourceFundamentals

  /** The five columns of the fallback record. */
  const BasicKeys: set<string> := {"股票代码", "股票名称", "股票上市日期", "股票上市地点", "股票所属行业"}

  /**
   * `get_fundamentals_real_data`: the akshare record when it carries a
   * non-empty name, otherwise the five-column record with an empty name.
   */
  function RealData(code: string, akshare: Option<Record>): (r: Record)
    ensures Accepted(akshare) ==> r == akshare.value
    ensures !Accepted(akshare) ==> (r.Keys == BasicKeys && r[NameKey] == "" && r[CodeKey] == code &&
      r[LocationKey] == Location(code) && r["股票上市日期"] == "" && r["股票所属行业"] == "")
    ensures NameKey in r && (r[NameKey] != "" <==> Accepted(akshare))
  {
    if Accepted(akshare) then akshare.value
    else map["股票代码" := code, "股票名称" := "", "股票上市日期" := "", "股票上市地点" := Location(code),
             "股票所属行业" := ""]
  }

  /** One log entry, reduced to what varies: the time (a parameter), the stock count and the status. */
  datatype Entry = Entry(time: string, stockCount: int, status: string)

  /**
   * The log file: missing, unreadable (not JSON, or not an object), or an
   * object with an optional 当前状态, an optional 历史记录 and, when it was
   * written after a failed read, the entry's own fields at top level.
   */
  datatype LogFile = Missing | Unreadable | Doc(current: Option<Entry>, history: Option<seq<Entry>>, flat: Option<Entry>)

  const HistoryLimit: nat := 100

  /** The document `update_log` writes for a new entry. */
  function Logged(f: LogFile, e: Entry): LogFile
  {
    match f
    case Missing => Doc(Some(e), Some([e]), None)
    case Unreadable => Doc(None, None, Some(e))
    case Doc(c, h, fl) =>
      if h.None? then Doc(c, Some([e]), fl)
      else Doc(c, Some(if |[e] + h.value| > HistoryLimit then ([e] + h.value)[..HistoryLimit] else [e] + h.value), fl)
  }

  /** The log file on disk. */
  class UpdateLogFile {
    var file: LogFile

    constructor (f: LogFile)
      ensures file == f
    {
      file := f;
    }

    /** `update_log`: returns True unless the write fails, in which case the file is left as it was. */
    method UpdateLog(entry: Entry, writeOk: bool) returns (ok: bool)
      modifies this
      ensures ok == writeOk
      ensures file == if writeOk then Logged(old(file), entry) else old(file)
    {
      var logData: LogFile;
      match file {
        case Missing =>
          logData := Doc(Some(entry), Some([entry]), None);
        case Unreadable =>
          logData := Doc(None, None, Some(entry));
        case Doc(c, h, fl) =>
          if h.Some? {
            var history := h.value;
            history := [entry] + history;
            if |history| > HistoryLimit {
              history := history[..HistoryLimit];
            }
            logData := Doc(c, Some(history), fl);
          } else {
            logData := Doc(c, Some([entry]), fl);
          }
      }
      if !writeOk {
        return false;
      }
      file := logData;
      ok := true;
    }
  }

  /**
   * A logged document holds a history unless the old file could not be read;
   * the history starts with the new entry, is at most 100 long, and continues
   * with the start of the old history.
   */
  lemma LoggedHistory(f: LogFile, e: Entry)
    ensures var g := Logged(f, e);
      g.Doc? && (g.history.None? <==> f.Unreadable?) &&
      (g.history.Some? ==> (1 <= |g.history.value| <= HistoryLimit && g.history.value[0] == e)) &&
      (f.Doc? && f.history.Some? ==> (
        |g.history.value| == (if |f.history.value| + 1 > HistoryLimit then HistoryLimit else |f.history.value| + 1) &&
        g.history.value[1..] == f.history.value[..|g.history.value| - 1])) &&
      (f.Doc? && f.history.None? ==> g.history == Some([e]))
  {
    if f.Doc? && f.history.Some? {
      var h := [e] + f.history.value;
      assert h[1..] == f.history.value;
      if |h| > HistoryLimit {
        assert h[..HistoryLimit][1..] == f.history.value[..HistoryLimit - 1];
      }
    }
  }

  /** The 当前状态 of an existing document is never refreshed; only a new file gets the entry there. */
  lemma CurrentNeverRefreshed(f: LogFile, e: Entry)
    ensures f.Doc? ==> Logged(f, e).current == f.current && Logged(f, e).flat == f.flat
    ensures f.Missing? ==> Logged(f, e).current == Some(e)
    ensures f.Unreadable? ==> Logged(f, e).current.None? && Logged(f, e).flat == Some(e)
  {
  }

  /** After a failed read the next update finds no history and starts one, keeping the flat entry. */
  lemma RecoveryAfterUnreadable(e1: Entry, e2: Entry)
    ensures Logged(Logged(Unreadable, e1), e2) == Doc(None, Some([e2]), Some(e1))
  {
  }
}
