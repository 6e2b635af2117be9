// Baostock helpers: exchange-prefixed codes, the latest trading date,
// the PE/PB query and the three-way stock-name lookup.
// Every baostock reply is a parameter of the operation that receives it.

module BaseInfo {
  import opened Py
  import opened Strings
  import opened Tables

  /** A Python argument: a `str`, or some other value with its `str()` rendering. */
  datatype Arg = Text(s: string) | NonText(repr: string)

  predicate SixDigits(s: string)
  {
    |s| == 6 && AllDigits(s)
  }

  predicate ShanghaiCode(c: string)
    requires |c| == 6
  {
    c[0] == '6' || c[..3] == "900"
  }

  predicate ShenzhenCode(c: string)
    requires |c| == 6
  {
    c[0] == '0' || c[0] == '3' || c[..3] == "200"
  }

  /** `convert_stock_code`; None is the ValueError it raises. */
  function ConvertStockCode(arg: Arg): Option<string>
  {
    if !arg.Text? || !SixDigits(arg.s) then None
    else if ShanghaiCode(arg.s) then Some("SH." + arg.s)
    else if ShenzhenCode(arg.s) then Some("SZ." + arg.s)
    else None
  }

  /** Accepted exactly for six-digit strings of a known board; nine characters, ending with the input. */
  lemma ConvertStockCodeProps(arg: Arg)
    ensures ConvertStockCode(arg).Some? <==>
      arg.Text? && SixDigits(arg.s) && (ShanghaiCode(arg.s) || ShenzhenCode(arg.s))
    ensures ConvertStockCode(arg).Some? ==>
      var r := ConvertStockCode(arg).value;
      |r| == 9 && r[3..] == arg.s &&
      (r[..3] == "SH." || r[..3] == "SZ.") &&
      (r[..3] == "SH." <==> ShanghaiCode(arg.s))
  {
    if ConvertStockCode(arg).Some? {
      var r := ConvertStockCode(arg).value;
      assert r[..3] == "SH." || r[..3] == "SZ.";
      assert r[3..] == arg.s;
    }
  }

  /** The baostock code: "sh." before a code starting with '6', else "sz.". */
  function BaostockCode(code: string): string
  {
    (if StartsWith(code, "6") then "sh." else "sz.") + code
  }

  lemma BaostockCodeProps(code: string)
    ensures |BaostockCode(code)| == |code| + 3 && BaostockCode(code)[3..] == code
    ensures BaostockCode(code)[..3] == "sh." <==> |code| > 0 && code[0] == '6'
    ensures BaostockCode(code)[..3] != "sh." ==> BaostockCode(code)[..3] == "sz."
  {
    assert BaostockCode(code)[3..] == code;
    if |code| > 0 && code[0] == '6' {
      assert code[..1] == "6";
    }
  }

  /** A B-share code of the Shanghai board gets "SH." from one helper and "sz." from the other. */
  lemma BShareExchangeDisagrees()
    ensures ConvertStockCode(Text("900901")) == Some("SH.900901")
    ensures BaostockCode("900901") == "sz.900901"
  {
    assert "900901"[..3] == "900";
    assert SixDigits("900901") by {
      var s := "900901";
      assert IsDigit(s[0]) && IsDigit(s[1]) && IsDigit(s[2]) && IsDigit(s[3]) && IsDigit(s[4]) && IsDigit(s[5]);
    }
    assert ShanghaiCode("900901");
    assert "SH." + "900901" == "SH.900901";
    assert "sz." + "900901" == "sz.900901";
    assert !StartsWith("900901", "6") by {
      assert "900901"[..1][0] == '9';
    }
  }

  /** `get_stock_industry_info`: None when the login fails, else the reply to the prefixed code. */
  function IndustryInfo<F>(loginOk: bool, code: string, query: string -> Option<F>): (r: Option<F>)
    ensures !loginOk ==> r.None?
    ensures loginOk ==> r == query(BaostockCode(code))
  {
    if !loginOk then None else query(BaostockCode(code))
  }

  // ---- trading calendar ----

  datatype CalendarDay = CalendarDay(date: string, isTradingDay: string)

  /** The reply to `query_trade_dates`; CalendarFailed covers a non-zero error code and an exception. */
  datatype CalendarReply = CalendarFailed | Calendar(days: seq<CalendarDay>)

  /** Python `int(s)` for an optionally signed decimal literal inside whitespace. */
  function IntOf(s: string): Option<int>
  {
    var t := Strip(s);
    if |t| > 0 && (t[0] == '+' || t[0] == '-') then
      (if |t| > 1 && AllDigits(t[1..]) then
         Some(if t[0] == '-' then -(DigitsValue(t[1..]) as int) else DigitsValue(t[1..]) as int)
       else None)
    else if |t| > 0 && AllDigits(t) then Some(DigitsValue(t) as int)
    else None
  }

  /** A plain digit string reads as its value; so "1" marks a trading day and "0" does not. */
  lemma IntOfDigits(s: string)
    requires |s| > 0 && AllDigits(s)
    ensures IntOf(s) == Some(DigitsValue(s) as int)
  {
    StripDigits(s);
    assert IsDigit(s[0]);
  }

  /** `astype(int)` succeeds on the whole column. */
  predicate AllParse(days: seq<CalendarDay>)
  {
    forall i :: 0 <= i < |days| ==> IntOf(days[i].isTradingDay).Some?
  }

  predicate IsTradingDay(d: CalendarDay)
  {
    IntOf(d.isTradingDay) == Some(1)
  }

  function TradingDays(days: seq<CalendarDay>): seq<CalendarDay>
  {
    Filter(days, IsTradingDay)
  }

  /** Descending order of `calendar_date`. */
  predicate DateAfter(a: CalendarDay, b: CalendarDay)
  {
    LexLe(b.date, a.date)
  }

  lemma DateAfterPreorder()
    ensures TotalPreorder(DateAfter)
  {
    forall a: CalendarDay, b: CalendarDay
      ensures DateAfter(a, b) || DateAfter(b, a)
    {
      LexLeTotal(a.date, b.date);
    }
    forall a: CalendarDay, b: CalendarDay, c: CalendarDay | DateAfter(a, b) && DateAfter(b, c)
      ensures DateAfter(a, c)
    {
      LexLeTrans(c.date, b.date, a.date);
    }
  }

  /** Python `s[i]`, negative positions counting from the end; None is the IndexError. */
  function ILoc<T>(s: seq<T>, i: int): (r: Option<T>)
    ensures r.Some? <==> -|s| <= i < |s|
    ensures 0 <= i < |s| ==> r == Some(s[i])
    ensures -|s| <= i < 0 ==> r == Some(s[|s| + i])
  {
    if 0 <= i < |s| then Some(s[i])
    else if -|s| <= i < 0 then Some(s[|s| + i])
    else None
  }

  /** The selected trading date, or None where `_get_lastest_trade_date` returns "". */
  function PickTradeDate(reply: CalendarReply, offset: int): Option<string>
  {
    if reply.CalendarFailed? || !AllParse(reply.days) then None
    else
      var sorted := SortBy(TradingDays(reply.days), DateAfter);
      if |sorted| == 0 then None
      else match ILoc(sorted, offset)
        case None => None
        case Some(d) => Some(d.date)
  }

  /** `_get_lastest_trade_date(offset)` */
  function LatestTradeDate(reply: CalendarReply, offset: int): (r: string)
    ensures PickTradeDate(reply, offset).None? ==> r == ""
  {
    match PickTradeDate(reply, offset)
    case None => ""
    case Some(d) => d
  }

  /** The trading days in descending date order, with their members. */
  lemma SortedTradingDays(days: seq<CalendarDay>)
    ensures SortedBy(SortBy(TradingDays(days), DateAfter), DateAfter)
    ensures |SortBy(TradingDays(days), DateAfter)| == |TradingDays(days)|
    ensures forall d :: d in SortBy(TradingDays(days), DateAfter) <==> d in days && IsTradingDay(d)
  {
    DateAfterPreorder();
    SortByCorrect(TradingDays(days), DateAfter);
    SortByMembers(TradingDays(days), DateAfter);
  }

  /** No date on a failed or unparseable reply or for an offset outside the trading days. */
  lemma LatestTradeDateNone(reply: CalendarReply, offset: int)
    ensures PickTradeDate(reply, offset).None? <==>
      reply.CalendarFailed? || !AllParse(reply.days) ||
      !(-|TradingDays(reply.days)| <= offset < |TradingDays(reply.days)|)
  {
    if reply.Calendar? {
      SortedTradingDays(reply.days);
    }
  }

  /** Otherwise a trading date, the latest for offset 0 and the earliest for offset -1. */
  lemma LatestTradeDateSome(reply: CalendarReply, offset: int)
    requires PickTradeDate(reply, offset).Some?
    ensures exists d :: d in reply.days && IsTradingDay(d) && d.date == PickTradeDate(reply, offset).value
    ensures offset == 0 ==>
      forall d :: d in reply.days && IsTradingDay(d) ==> LexLe(d.date, PickTradeDate(reply, offset).value)
    ensures offset == -1 ==>
      forall d :: d in reply.days && IsTradingDay(d) ==> LexLe(PickTradeDate(reply, offset).value, d.date)
  {
    var sorted := SortBy(TradingDays(reply.days), DateAfter);
    SortedTradingDays(reply.days);
    var d := ILoc(sorted, offset).value;
    assert d in sorted;
    forall e | e in reply.days && IsTradingDay(e)
      ensures offset == 0 ==> LexLe(e.date, d.date)
      ensures offset == -1 ==> LexLe(d.date, e.date)
    {
      assert e in sorted;
      var k :| 0 <= k < |sorted| && sorted[k] == e;
      if offset == 0 {
        if k != 0 {
          assert DateAfter(sorted[0], sorted[k]);
        } else {
          LexLeTotal(e.date, e.date);
        }
      }
      if offset == -1 {
        if k != |sorted| - 1 {
          assert DateAfter(sorted[k], sorted[|sorted| - 1]);
        } else {
          LexLeTotal(e.date, e.date);
        }
      }
    }
  }

  // ---- PE / PB ----

  datatype PePbEntry = PePbEntry(date: string, code: string, peTTM: string, pbMRQ: string)

  /** The reply to `query_history_k_data_plus`: an exception, or the rows `rs.next()` walks. */
  datatype KReply = KRaised | KRows(rows: seq<seq<string>>)

  /** What `get_stock_pe_pb` ends with: the ValueError of the conversion, None, or its list. */
  datatype PePbOutcome = PePbRaised | PePbNone | PePbList(entries: seq<PePbEntry>)

  function EntryOf(row: seq<string>): PePbEntry
    requires |row| >= 4
  {
    PePbEntry(row[0], row[1], row[2], row[3])
  }

  /** The outcome as the loop that returns on its first iteration leaves it. */
  function PePb(arg: Arg, offset: int, calendar: CalendarReply, query: (string, string) -> KReply): PePbOutcome
  {
    match ConvertStockCode(arg)
    case None => PePbRaised
    case Some(code) =>
      match query(code, LatestTradeDate(calendar, offset))
      case KRaised => PePbNone
      case KRows(rows) =>
        if |rows| == 0 then PePbNone
        else PePbList(if |rows[0]| >= 4 then [EntryOf(rows[0])] else [])
  }

  /** At most one entry, built from the first row; None exactly when the query fails or is empty. */
  lemma PePbProps(arg: Arg, offset: int, calendar: CalendarReply, query: (string, string) -> KReply)
    ensures PePb(arg, offset, calendar, query).PePbRaised? <==> ConvertStockCode(arg).None?
    ensures PePb(arg, offset, calendar, query).PePbNone? <==>
      ConvertStockCode(arg).Some? &&
      (var q := query(ConvertStockCode(arg).value, LatestTradeDate(calendar, offset));
       q.KRaised? || |q.rows| == 0)
    ensures PePb(arg, offset, calendar, query).PePbList? ==>
      var q := query(ConvertStockCode(arg).value, LatestTradeDate(calendar, offset));
      var es := PePb(arg, offset, calendar, query).entries;
      q.KRows? && |q.rows| > 0 && |es| <= 1 &&
      (|es| == 1 <==> |q.rows[0]| >= 4) &&
      (|es| == 1 ==> es[0].date == q.rows[0][0] && es[0].code == q.rows[0][1] &&
                     es[0].peTTM == q.rows[0][2] && es[0].pbMRQ == q.rows[0][3])
  {
  }

  /** `get_stock_pe_pb`, with its row loop. */
  method GetStockPePb(arg: Arg, offset: int, calendar: CalendarReply, query: (string, string) -> KReply)
    returns (r: PePbOutcome)
    ensures r == PePb(arg, offset, calendar, query)
  {
    var code := ConvertStockCode(arg);
    if code.None? {
      return PePbRaised;
    }
    var date := LatestTradeDate(calendar, offset);
    var reply := query(code.value, date);
    if reply.KRaised? {
      return PePbNone;
    }
    // The row loop returns at the end of its first pass, so it runs at most once.
    var rows := reply.rows;
    var dataList: seq<PePbEntry> := [];
    if |rows| > 0 {
      var row := rows[0];
      if |row| >= 4 {
        dataList := dataList + [EntryOf(row)];
      }
      return PePbList(dataList);
    }
    return PePbNone;
  }

  // ---- stock name ----

  /** The code after `strip()` and, when shorter than six, `zfill(6)`. */
  function NormalizeCode(s: string): string
  {
    var t := Strip(s);
    if |t| < 6 then ZFill(t, 6) else t
  }

  lemma NormalizeCodeProps(s: string)
    ensures |NormalizeCode(s)| >= 6
    ensures |Strip(s)| >= 6 ==> NormalizeCode(s) == Strip(s)
    ensures AllDigits(Strip(s)) && |Strip(s)| <= 6 ==>
      NormalizeCode(s) == Zeros(6 - |Strip(s)|) + Strip(s) && SixDigits(NormalizeCode(s))
  {
    var t := Strip(s);
    if AllDigits(t) && |t| <= 6 {
      ZFillDigits(t, 6);
      if |t| == 6 {
        assert Zeros(0) + t == t;
      } else if |t| > 0 {
        assert IsDigit(t[0]);
      }
    }
  }

  function Unknown(code: string): string
  {
    "未知股票(" + code + ")"
  }

  /** A basic-info row whose second field is a name other than the code itself. */
  predicate Accepted(info: Option<seq<string>>, code: string)
  {
    info.Some? && |info.value| > 1 && info.value[1] != "" && Strip(info.value[1]) != "" &&
    info.value[1] != code
  }

  predicate Listed(stock: seq<string>, fullCode: string)
  {
    |stock| > 0 && Contains(stock[0], fullCode)
  }

  /** The retry loop over the full stock list from position i on. */
  function ListName(stocks: seq<seq<string>>, fullCode: string, code: string,
                    retry: nat -> Option<seq<string>>, i: nat): (r: Option<string>)
    decreases |stocks| - i
    ensures r.Some? ==>
      exists j :: i <= j < |stocks| && Listed(stocks[j], fullCode) && Accepted(retry(j), code) &&
                  r.value == Strip(retry(j).value[1])
    ensures r.None? <==>
      forall j :: i <= j < |stocks| && Listed(stocks[j], fullCode) ==> !Accepted(retry(j), code)
  {
    if i >= |stocks| then None
    else if Listed(stocks[i], fullCode) && Accepted(retry(i), code) then Some(Strip(retry(i).value[1]))
    else ListName(stocks, fullCode, code, retry, i + 1)
  }

  /**
   * The replies `get_stock_name_by_code` receives: the login, the first basic query
   * (None: error, no row or exception), the full list (None: error or exception),
   * the basic query repeated for the list entry at each position, and whether the
   * daily query succeeded with a row.
   */
  datatype NameReplies = NameReplies(
    loginOk: bool,
    basic: Option<seq<string>>,
    all: Option<seq<seq<string>>>,
    retry: nat -> Option<seq<string>>,
    dailyHasRow: bool)

  /** `get_stock_name_by_code` */
  function StockName(arg: Arg, q: NameReplies): string
  {
    if arg.NonText? then Unknown(arg.repr)
    else
      var code := NormalizeCode(arg.s);
      if !q.loginOk then Unknown(code)
      else if Accepted(q.basic, code) then Strip(q.basic.value[1])
      else
        var listed := if q.all.Some? then ListName(q.all.value, BaostockCode(code), code, q.retry, 0) else None;
        if listed.Some? then listed.value
        else if q.dailyHasRow then "股票" + code
        else Unknown(code)
  }

  /** The fallback cascade: a non-empty name from a basic query, then "股票…", then "未知股票(…)". */
  lemma StockNameProps(arg: Arg, q: NameReplies)
    ensures StockName(arg, q) != ""
    ensures arg.NonText? ==> StockName(arg, q) == "未知股票(" + arg.repr + ")"
    ensures arg.Text? && !q.loginOk ==> StockName(arg, q) == Unknown(NormalizeCode(arg.s))
    ensures arg.Text? && q.loginOk && Accepted(q.basic, NormalizeCode(arg.s)) ==>
      StockName(arg, q) == Strip(q.basic.value[1])
    ensures arg.Text? && q.loginOk && !Accepted(q.basic, NormalizeCode(arg.s)) &&
            (q.all.None? ||
             forall j :: (0 <= j < |q.all.value| && Listed(q.all.value[j], BaostockCode(NormalizeCode(arg.s)))) ==>
               !Accepted(q.retry(j), NormalizeCode(arg.s))) ==>
      StockName(arg, q) == (if q.dailyHasRow then "股票" + NormalizeCode(arg.s) else Unknown(NormalizeCode(arg.s)))
  {
    if arg.Text? && q.loginOk && !Accepted(q.basic, NormalizeCode(arg.s)) && q.all.Some? {
      var code := NormalizeCode(arg.s);
      var r := ListName(q.all.value, BaostockCode(code), code, q.retry, 0);
      if r.Some? {
        var j :| 0 <= j < |q.all.value| && Listed(q.all.value[j], BaostockCode(code)) &&
                 Accepted(q.retry(j), code) && r.value == Strip(q.retry(j).value[1]);
      }
    }
  }

  /** `get_stock_name_by_code`, with its loop over the stock list. */
  method GetStockNameByCode(arg: Arg, q: NameReplies) returns (name: string)
    ensures name == StockName(arg, q)
  {
    if arg.NonText? {
      return Unknown(arg.repr);
    }
    var code := NormalizeCode(arg.s);
    if !q.loginOk {
      return Unknown(code);
    }
    var fullCode := BaostockCode(code);
    if Accepted(q.basic, code) {
      return Strip(q.basic.value[1]);
    }
    if q.all.Some? {
      var stocks := q.all.value;
      var i := 0;
      while i < |stocks|
        invariant 0 <= i <= |stocks|
        invariant ListName(stocks, fullCode, code, q.retry, 0) == ListName(stocks, fullCode, code, q.retry, i)
      {
        if Listed(stocks[i], fullCode) && Accepted(q.retry(i), code) {
          return Strip(q.retry(i).value[1]);
        }
        i := i + 1;
      }
    }
    if q.dailyHasRow {
      return "股票" + code;
    }
    return Unknown(code);
  }
}
