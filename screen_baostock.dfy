// stock_screeners_baostock.py, the `StockScreener` object: the query date and
// target years, the session flag, the stock list with its A-share filter, the
// per-year finance walk with its test-data fallback, the batched valuation
// query with its estimates, and `run`, which chains them into the screen.

module ScreenBaostock {
  import opened Py
  import opened Strings
  import opened Tables
  import opened Batching
  import opened BaostockScreen

  // ---------------------------------------------------------------------------
  // Dates
  // ---------------------------------------------------------------------------

  /**
   * `date.weekday()` of a day numbered as by `date.toordinal()`: day 1, the
   * first of January of year 1, is a Monday (0); Saturday is 5, Sunday 6.
   */
  function Weekday(day: int): int
  {
    (day + 6) % 7
  }

  /**
   * `_get_latest_trading_day`: on a weekend the Friday before, on any other day
   * the day before, so a Monday gives the Sunday before it.
   */
  function LatestTradingDay(today: int): (d: int)
    ensures d < today
    ensures Weekday(today) >= 5 ==> Weekday(d) == 4 && today - d <= 2
    ensures Weekday(today) < 5 ==> d == today - 1
    ensures Weekday(today) == 0 ==> Weekday(d) == 6
  {
    if Weekday(today) >= 5 then today - (if Weekday(today) == 5 then 1 else 2)
    else today - 1
  }

  /** `[datetime.now().year - i for i in range(1, 4)]` */
  function TargetYears(currentYear: int): seq<int>
  {
    [currentYear - 1, currentYear - 2, currentYear - 3]
  }

  predicate Distinct<T(==)>(s: seq<T>)
  {
    forall i, j :: 0 <= i < j < |s| ==> s[i] != s[j]
  }

  // ---------------------------------------------------------------------------
  // Provider replies
  // ---------------------------------------------------------------------------

  /** A baostock reply: a non-zero error code, an exception, or the frame `get_data()` returns. */
  datatype Reply = ErrorCode | Raises | Data(frame: TextFrame)

  /** A frame of text cells: the column names and one dict per row. */
  datatype TextFrame = TextFrame(columns: seq<string>, rows: seq<map<string, string>>)

  /** `df.empty`: no rows or no columns. */
  predicate Empty(f: TextFrame)
  {
    |f.columns| == 0 || |f.rows| == 0
  }

  /** A reply that carries rows. */
  predicate Answers(r: Reply)
  {
    r.Data? && !Empty(r.frame)
  }

  // ---------------------------------------------------------------------------
  // Stock list
  // ---------------------------------------------------------------------------

  /** A code of the Shanghai or Shenzhen main boards, ChiNext or STAR market. */
  predicate IsAShare(code: string)
  {
    StartsWith(code, "sh.60") || StartsWith(code, "sz.00") || StartsWith(code, "sz.30") || StartsWith(code, "sh.688")
  }

  /** `_get_test_stock_codes` */
  const TestCodes: seq<string> := ["sh.600519", "sz.000858", "sh.600276", "sz.000333", "sh.600887",
    "sz.002594", "sh.600900", "sh.601888", "sh.603288", "sz.002415"]

  /** `dict.get(key)` on a dictionary literal written as its list of items. */
  function Lookup<V>(table: seq<(string, V)>, key: string): (r: Option<V>)
    ensures r.Some? ==> exists i :: 0 <= i < |table| && table[i].0 == key && table[i].1 == r.value
    ensures r.None? ==> forall i :: 0 <= i < |table| ==> table[i].0 != key
  {
    if |table| == 0 then None
    else if table[0].0 == key then Some(table[0].1)
    else Lookup(table[1..], key)
  }

  /** The items of `_get_test_stock_name_dict`. */
  const NameTable: seq<(string, string)> := [("sh.600519", "贵州茅台"), ("sz.000858", "五粮液"),
    ("sh.600276", "恒瑞医药"), ("sz.000333", "美的集团"), ("sh.600887", "伊利股份"), ("sz.002594", "比亚迪"),
    ("sh.600900", "长江电力"), ("sh.601888", "中国中免"), ("sh.603288", "海天味业"), ("sz.002415", "海康威视")]

  /** `_get_test_stock_name_dict` */
  function TestNames(): map<string, string>
  {
    map c | c in TestCodes :: match Lookup(NameTable, c) case Some(n) => n case None => ""
  }

  /** The fixed test list is made of distinct A-share codes. */
  lemma TestCodesProps()
    ensures |TestCodes| == 10 && Distinct(TestCodes)
    ensures forall c :: c in TestCodes ==> IsAShare(c)
  {
    forall c | c in TestCodes
      ensures IsAShare(c)
    {
      assert c[..3] == "sh." || c[..3] == "sz.";
    }
  }

  /** The code column: `code`, else `股票代码`, else the first column. */
  function CodeColumn(columns: seq<string>): string
    requires |columns| > 0
  {
    if "code" in columns then "code" else if "股票代码" in columns then "股票代码" else columns[0]
  }

  /** The name column: `code_name`, else `股票名称`, else the second column if there is one. */
  function NameColumn(columns: seq<string>): Option<string>
  {
    if "code_name" in columns then Some("code_name")
    else if "股票名称" in columns then Some("股票名称")
    else if |columns| > 1 then Some(columns[1])
    else None
  }

  /** A kept row's name: its name cell when that is non-empty, else `股票` + code. */
  function RowName(row: map<string, string>, nameCol: Option<string>, code: string): string
  {
    if nameCol.Some? && nameCol.value in row && row[nameCol.value] != "" then row[nameCol.value]
    else "股票" + code
  }

  /** The rows an A-share code is read from; a row without the code column raises and is skipped. */
  predicate Kept(row: map<string, string>, codeCol: string)
  {
    codeCol in row && IsAShare(row[codeCol])
  }

  /** The loop over the listing rows: the kept codes in order, and the last name seen for each. */
  function Collect(rows: seq<map<string, string>>, codeCol: string, nameCol: Option<string>): (r: (seq<string>, map<string, string>))
  {
    if |rows| == 0 then ([], map[])
    else
      var prev := Collect(rows[..|rows| - 1], codeCol, nameCol);
      var row := rows[|rows| - 1];
      if Kept(row, codeCol) then (prev.0 + [row[codeCol]], prev.1[row[codeCol] := RowName(row, nameCol, row[codeCol])])
      else prev
  }

  /**
   * The collected codes are the codes of the kept rows, every one an A-share;
   * the dictionary names exactly those codes, each with the name of a row that
   * carried it.
   */
  lemma {:induction false} CollectProps(rows: seq<map<string, string>>, codeCol: string, nameCol: Option<string>)
    ensures var r := Collect(rows, codeCol, nameCol);
      |r.0| <= |rows| &&
      (forall c :: c in r.0 ==> IsAShare(c)) &&
      (forall c :: c in r.1 <==> c in r.0) &&
      (forall c :: c in r.0 <==> exists j :: 0 <= j < |rows| && Kept(rows[j], codeCol) && rows[j][codeCol] == c) &&
      (forall c :: c in r.1 ==>
        exists j :: 0 <= j < |rows| && Kept(rows[j], codeCol) && rows[j][codeCol] == c && r.1[c] == RowName(rows[j], nameCol, c))
  {
    if |rows| > 0 {
      var init := rows[..|rows| - 1];
      var row := rows[|rows| - 1];
      CollectProps(init, codeCol, nameCol);
      assert forall j :: 0 <= j < |init| ==> init[j] == rows[j];
      var prev := Collect(init, codeCol, nameCol);
      var r := Collect(rows, codeCol, nameCol);
      if Kept(row, codeCol) {
        var c := row[codeCol];
        assert r == (prev.0 + [c], prev.1[c := RowName(row, nameCol, c)]);
        assert rows[|rows| - 1] == row;
      } else {
        assert r == prev;
      }
    }
  }

  /**
   * `get_a_share_codes`: the codes and names of the listing, or the test list
   * when the query fails, returns no rows, or keeps no code.
   */
  function AShareCodes(reply: Reply): (seq<string>, map<string, string>)
  {
    if !Answers(reply) then (TestCodes, TestNames())
    else
      var f := reply.frame;
      var r := Collect(f.rows, CodeColumn(f.columns), NameColumn(f.columns));
      if |r.0| == 0 then (TestCodes, TestNames()) else r
  }

  /** The list is never empty, holds only A-share codes, and the dictionary names exactly its codes. */
  lemma AShareCodesProps(reply: Reply)
    ensures var r := AShareCodes(reply);
      |r.0| > 0 && (forall c :: c in r.0 ==> IsAShare(c)) && (forall c :: c in r.1 <==> c in r.0)
    ensures !Answers(reply) ==> AShareCodes(reply) == (TestCodes, TestNames())
  {
    TestCodesProps();
    if Answers(reply) {
      var f := reply.frame;
      CollectProps(f.rows, CodeColumn(f.columns), NameColumn(f.columns));
    }
  }

  // ---------------------------------------------------------------------------
  // Finance
  // ---------------------------------------------------------------------------

  /** The three statements queried per year, each for the fourth quarter. */
  datatype Statement = ProfitSheet | BalanceSheet | CashSheet

  type Statements = (string, int, Statement) -> Reply

  /** What one target year gives: skipped, the end of the walk (an exception), or a row. */
  datatype YearOutcome = Skip | Abort | Got(row: FinRow)

  /** `float(df[col].iloc[0]) if col in df.columns else 0`; None where `float` raises. */
  function Field(f: TextFrame, col: string): Option<Float>
    requires |f.rows| > 0
  {
    if col !in f.columns then Some(Fin(0.0))
    else if col in f.rows[0] then ParseFloat(f.rows[0][col])
    else None
  }

  /** One year of `get_stock_finance`. */
  function FetchYear(code: string, names: map<string, string>, year: int, q: Statements): (r: YearOutcome)
    ensures r.Got? ==> r.row.code == code && r.row.name == NameOr(names, code) && r.row.year == year
  {
    var p := q(code, year, ProfitSheet);
    if p.Raises? then Abort
    else if !Answers(p) then Skip
    else
      var b := q(code, year, BalanceSheet);
      if b.Raises? then Abort
      else if !Answers(b) then Skip
      else
        var c := q(code, year, CashSheet);
        if c.Raises? then Abort
        else if !Answers(c) then Skip
        else
          var np := Field(p.frame, "netProfit");
          var gp := Field(p.frame, "grossProfitRate");
          var roe := Field(b.frame, "roe");
          var debt := Field(b.frame, "debtEquityRatio");
          var cur := Field(b.frame, "currentRatio");
          var ocf := Field(c.frame, "netOperateCashFlow");
          if np.None? || gp.None? || roe.None? || debt.None? || cur.None? || ocf.None? then Skip
          else Got(FinRow(code, NameOr(names, code), year, np.value, roe.value, gp.value, debt.value, cur.value, ocf.value))
  }

  /** The rows of the year loop, which an exception ends. */
  function Fetched(code: string, names: map<string, string>, years: seq<int>, q: Statements): seq<FinRow>
  {
    if |years| == 0 then []
    else match FetchYear(code, names, years[0], q)
      case Abort => []
      case Skip => Fetched(code, names, years[1..], q)
      case Got(row) => [row] + Fetched(code, names, years[1..], q)
  }

  predicate DistinctYears(rows: seq<FinRow>)
  {
    forall i, j :: 0 <= i < j < |rows| ==> rows[i].year != rows[j].year
  }

  /** The fetched rows are the code's, one per year at most, each for a target year. */
  lemma {:induction false} FetchedProps(code: string, names: map<string, string>, years: seq<int>, q: Statements)
    ensures var r := Fetched(code, names, years, q);
      |r| <= |years| &&
      (forall i :: 0 <= i < |r| ==> r[i].code == code && r[i].name == NameOr(names, code) && r[i].year in years) &&
      (Distinct(years) ==> DistinctYears(r))
  {
    if |years| > 0 {
      var tail := years[1..];
      FetchedProps(code, names, tail, q);
      assert forall y :: y in tail ==> y in years;
      var rest := Fetched(code, names, tail, q);
      match FetchYear(code, names, years[0], q)
      case Abort =>
        assert Fetched(code, names, years, q) == [];
      case Skip =>
        assert Fetched(code, names, years, q) == rest;
      case Got(row) =>
        assert Fetched(code, names, years, q) == [row] + rest;
      if Distinct(years) {
        assert Distinct(tail) by {
          forall i, j | 0 <= i < j < |tail|
            ensures tail[i] != tail[j]
          {
            assert tail[i] == years[i + 1] && tail[j] == years[j + 1];
          }
        }
        assert years[0] !in tail;
      }
    }
  }

  /** The figures of `_provide_test_finance_data` for one code. */
  datatype Template = Template(roe: real, gross: real, debt: real, current: real, cash: real)

  /** The items of `stock_finance_map`. */
  const TemplateTable: seq<(string, Template)> := [
    ("sh.600519", Template(30.0, 90.0, 20.0, 3.0, 1000000.0)), ("sz.000858", Template(25.0, 75.0, 25.0, 2.5, 800000.0)),
    ("sh.600276", Template(18.0, 85.0, 45.0, 1.8, 300000.0)), ("sz.000333", Template(20.0, 25.0, 65.0, 1.2, 400000.0)),
    ("sh.600887", Template(19.0, 30.0, 55.0, 1.5, 250000.0)), ("sz.002594", Template(16.0, 20.0, 70.0, 1.3, 200000.0)),
    ("sh.600900", Template(17.0, 50.0, 60.0, 1.4, 900000.0)), ("sh.601888", Template(18.0, 60.0, 50.0, 1.6, 500000.0)),
    ("sh.603288", Template(28.0, 45.0, 35.0, 2.2, 350000.0)), ("sz.002415", Template(22.0, 40.0, 40.0, 2.0, 450000.0))]

  /** `stock_finance_map.get(code, default_finance)`: every template has an ROE of at least 15. */
  function FinanceTemplate(code: string): (t: Template)
    ensures t.roe >= 15.0
  {
    match Lookup(TemplateTable, code)
    case None => Template(15.0, 25.0, 55.0, 1.5, 150000.0)
    case Some(t) => assert forall i :: 0 <= i < |TemplateTable| ==> TemplateTable[i].1.roe >= 15.0; t
  }

  /** Year i of the test data: profit and cash flow grow 5% a year, ROE falls 2% a year. */
  function TestRow(code: string, name: string, year: int, i: nat, t: Template): FinRow
  {
    var growth := 1.0 + (i as real) * 0.05;
    FinRow(code, name, year, Fin(500000.0 * growth), Fin(t.roe * (1.0 - (i as real) * 0.02)),
      Fin(t.gross), Fin(t.debt), Fin(t.current), Fin(t.cash * growth))
  }

  /** `_provide_test_finance_data` */
  function TestFinance(code: string, name: string, years: seq<int>, t: Template): (r: seq<FinRow>)
    ensures |r| == |years|
  {
    seq(|years|, i requires 0 <= i < |years| => TestRow(code, name, years[i], i, t))
  }

  /**
   * One row per target year, in order, for the code; every net profit is
   * positive, and in the first three years the ROE stays at 14.4 or more.
   */
  lemma TestFinanceProps(code: string, name: string, years: seq<int>, t: Template)
    requires t.roe >= 15.0
    ensures var r := TestFinance(code, name, years, t);
      (forall i :: 0 <= i < |r| ==> r[i].code == code && r[i].name == name && r[i].year == years[i]) &&
      (forall i :: 0 <= i < |r| ==> Above(r[i].netProfit, 0.0)) &&
      (forall i :: 0 <= i < |r| && i <= 2 ==> AtLeast(r[i].roe, 14.4))
  {
    var r := TestFinance(code, name, years, t);
    forall i | 0 <= i < |r| && i <= 2
      ensures AtLeast(r[i].roe, 14.4)
    {
      assert r[i].roe == Fin(t.roe * (1.0 - (i as real) * 0.02));
      RoeFloor(t.roe, i as real);
    }
  }

  lemma RoeFloor(roe: real, i: real)
    requires roe >= 15.0 && 0.0 <= i <= 2.0
    ensures roe * (1.0 - i * 0.02) >= 14.4
  {
    assert 1.0 - i * 0.02 >= 0.96;
    assert roe * (1.0 - i * 0.02) >= 15.0 * (1.0 - i * 0.02);
  }

  /** Nothing was fetched, or every ROE is 0. */
  predicate NeedsTestData(rows: seq<FinRow>)
  {
    forall i :: 0 <= i < |rows| ==> rows[i].roe == Fin(0.0)
  }

  /** `get_stock_finance` */
  function StockFinance(code: string, names: map<string, string>, years: seq<int>, q: Statements): seq<FinRow>
  {
    var f := Fetched(code, names, years, q);
    if NeedsTestData(f) then TestFinance(code, NameOr(names, code), years, FinanceTemplate(code)) else f
  }

  /**
   * The frame is the code's, never empty when there are target years, with
   * each year at most once; it is the test data exactly when nothing with a
   * non-zero ROE was fetched.
   */
  lemma StockFinanceProps(code: string, names: map<string, string>, years: seq<int>, q: Statements)
    ensures var r := StockFinance(code, names, years, q);
      (|years| > 0 ==> |r| > 0) &&
      (forall i :: 0 <= i < |r| ==> r[i].code == code && r[i].name == NameOr(names, code) && r[i].year in years) &&
      (Distinct(years) ==> DistinctYears(r))
    ensures NeedsTestData(Fetched(code, names, years, q)) ==> StockFinance(code, names, years, q) == TestFinance(code, NameOr(names, code), years, FinanceTemplate(code))
    ensures !NeedsTestData(Fetched(code, names, years, q)) ==>
      StockFinance(code, names, years, q) == Fetched(code, names, years, q) &&
      exists i :: 0 <= i < |Fetched(code, names, years, q)| && Fetched(code, names, years, q)[i].roe != Fin(0.0)
  {
    FetchedProps(code, names, years, q);
    TestFinanceProps(code, NameOr(names, code), years, FinanceTemplate(code));
    var r := StockFinance(code, names, years, q);
    if NeedsTestData(Fetched(code, names, years, q)) && Distinct(years) {
      assert DistinctYears(r) by {
        forall i, j | 0 <= i < j < |r|
          ensures r[i].year != r[j].year
        {
          assert r[i].year == years[i] && r[j].year == years[j];
        }
      }
    }
  }

  /** The finance frames of the sampled codes, concatenated in order. */
  function AllFinance(codes: seq<string>, names: map<string, string>, years: seq<int>, q: Statements): seq<FinRow>
  {
    if |codes| == 0 then []
    else AllFinance(codes[..|codes| - 1], names, years, q) + StockFinance(codes[|codes| - 1], names, years, q)
  }

  /** Distinct codes and distinct years leave no (code, year) twice, so `pivot` does not raise. */
  lemma {:induction false} AllFinanceProps(codes: seq<string>, names: map<string, string>, years: seq<int>, q: Statements)
    requires Distinct(codes) && Distinct(years) && |years| > 0
    ensures var all := AllFinance(codes, names, years, q);
      !HasDuplicate(all) && (|codes| > 0 ==> |all| > 0) &&
      forall i :: 0 <= i < |all| ==> all[i].code in codes
  {
    AllFinanceCodes(codes, names, years, q);
    if |codes| > 0 {
      var init := codes[..|codes| - 1];
      var last := codes[|codes| - 1];
      assert Distinct(init);
      AllFinanceProps(init, names, years, q);
      StockFinanceProps(last, names, years, q);
      var a := AllFinance(init, names, years, q);
      var b := StockFinance(last, names, years, q);
      assert forall i :: 0 <= i < |a| ==> a[i].code != last by {
        forall i | 0 <= i < |a|
          ensures a[i].code != last
        {
          var k :| 0 <= k < |init| && init[k] == a[i].code;
        }
      }
      NoDuplicateAppend(a, b, last);
    }
  }

  /** Every gathered row is the row of one of the codes. */
  lemma {:induction false} AllFinanceCodes(codes: seq<string>, names: map<string, string>, years: seq<int>, q: Statements)
    ensures forall i :: 0 <= i < |AllFinance(codes, names, years, q)| ==> AllFinance(codes, names, years, q)[i].code in codes
  {
    if |codes| > 0 {
      var init := codes[..|codes| - 1];
      var last := codes[|codes| - 1];
      AllFinanceCodes(init, names, years, q);
      StockFinanceProps(last, names, years, q);
      var a := AllFinance(init, names, years, q);
      var b := StockFinance(last, names, years, q);
      var all := AllFinance(codes, names, years, q);
      assert all == a + b;
      forall i | 0 <= i < |all| ensures all[i].code in codes {
        if i < |a| {
          assert all[i] == a[i] && a[i].code in init;
        } else {
          assert all[i] == b[i - |a|];
        }
      }
    }
  }

  lemma NoDuplicateAppend(a: seq<FinRow>, b: seq<FinRow>, last: string)
    requires !HasDuplicate(a) && DistinctYears(b)
    requires forall i :: 0 <= i < |a| ==> a[i].code != last
    requires forall i :: 0 <= i < |b| ==> b[i].code == last
    ensures !HasDuplicate(a + b)
  {
    var s := a + b;
    forall i, j | 0 <= i < j < |s|
      ensures !(s[i].code == s[j].code && s[i].year == s[j].year)
    {
      if j < |a| {
        assert s[i] == a[i] && s[j] == a[j];
      } else if i < |a| {
        assert s[i] == a[i] && s[j] == b[j - |a|];
      } else {
        assert s[i] == b[i - |a|] && s[j] == b[j - |a|];
      }
    }
  }

  // ---------------------------------------------------------------------------
  // Valuation
  // ---------------------------------------------------------------------------

  /** Which `np.random.uniform` draw of a code: the PE, or the dividend rate of a code outside the table. */
  datatype Draw = PeDraw | DividendDraw

  /** The value `np.random.uniform(lo, hi)` returns for a code and draw. */
  type Draws = (string, Draw, real, real) -> real

  /** Draws that honour `uniform`'s contract: a value in [lo, hi). */
  ghost predicate UniformDraws(draws: Draws)
  {
    forall c, w, lo, hi :: lo < hi ==> lo <= draws(c, w, lo, hi) < hi
  }

  /** The items of `industry_pe_ranges`. */
  const PeTable: seq<(string, (real, real))> := [("sh.600519", (25.0, 35.0)), ("sz.000858", (20.0, 30.0)),
    ("sh.600276", (30.0, 40.0)), ("sz.000333", (15.0, 25.0)), ("sh.600887", (20.0, 30.0)), ("sz.002594", (50.0, 70.0)),
    ("sh.600900", (15.0, 25.0)), ("sh.601888", (20.0, 30.0)), ("sh.603288", (40.0, 60.0)), ("sz.002415", (20.0, 35.0))]

  /** The items of `industry_dividend_rates`. */
  const DividendTable: seq<(string, real)> := [("sh.600519", 1.5), ("sz.000858", 1.2), ("sh.600276", 0.5),
    ("sz.000333", 3.0), ("sh.600887", 3.5), ("sz.002594", 0.5), ("sh.600900", 5.0), ("sh.601888", 1.0),
    ("sh.603288", 2.0), ("sz.002415", 2.5)]

  /** `industry_pe_ranges.get(code)`: every range lies within [15, 70]. */
  function PeRange(code: string): (r: Option<(real, real)>)
    ensures r.Some? ==> 15.0 <= r.value.0 < r.value.1 <= 70.0
  {
    PeTableWithin();
    Lookup(PeTable, code)
  }

  lemma PeTableWithin()
    ensures forall i :: 0 <= i < |PeTable| ==> 15.0 <= PeTable[i].1.0 < PeTable[i].1.1 <= 70.0
  {
  }

  /** `industry_dividend_rates.get(code, 2.5)` */
  function DividendRate(code: string): real
  {
    match Lookup(DividendTable, code)
    case None => 2.5
    case Some(d) => d
  }

  /**
   * One row of `_estimate_valuation_data`: the dividend rate is floored at 1.6,
   * and draws within their ranges put the PE in [15, 70).
   */
  function EstimateRow(code: string, names: map<string, string>, draws: Draws): ValRow
  {
    var range := PeRange(code);
    var pe := if range.Some? then draws(code, PeDraw, range.value.0, range.value.1) else draws(code, PeDraw, 15.0, 40.0);
    var rate := if range.Some? then DividendRate(code) else draws(code, DividendDraw, 1.5, 4.5);
    ValRow(code, NameOr(names, code), Fin(pe), Fin(if 1.6 > rate then 1.6 else rate))
  }

  lemma EstimateRowProps(code: string, names: map<string, string>, draws: Draws)
    ensures EstimateRow(code, names, draws).code == code && EstimateRow(code, names, draws).name == NameOr(names, code)
    ensures AtLeast(EstimateRow(code, names, draws).dividend, 1.6)
    ensures UniformDraws(draws) ==> AtLeast(EstimateRow(code, names, draws).pe, 15.0) && Below(EstimateRow(code, names, draws).pe, 70.0)
  {
  }

  /** The estimate of one code, as a function value. */
  function Quote(names: map<string, string>, draws: Draws): string -> ValRow
  {
    code => EstimateRow(code, names, draws)
  }

  /** `_estimate_valuation_data`: one estimated row per code, in order. */
  function Estimate(codes: seq<string>, names: map<string, string>, draws: Draws): seq<ValRow>
  {
    Map(codes, Quote(names, draws))
  }

  /**
   * One estimated row per code, in order, each carrying its code and name, a
   * dividend rate of at least 1.6, and a PE in [15, 70).
   */
  lemma EstimateProps(codes: seq<string>, names: map<string, string>, draws: Draws)
    ensures |Estimate(codes, names, draws)| == |codes|
    ensures forall i :: 0 <= i < |codes| ==>
      var v := Estimate(codes, names, draws)[i];
      v == EstimateRow(codes[i], names, draws) && v.code == codes[i] && v.name == NameOr(names, codes[i]) &&
      AtLeast(v.dividend, 1.6) && (UniformDraws(draws) ==> AtLeast(v.pe, 15.0) && Below(v.pe, 70.0))
  {
    forall i | 0 <= i < |codes|
      ensures var v := Estimate(codes, names, draws)[i];
        v == EstimateRow(codes[i], names, draws) && v.code == codes[i] && v.name == NameOr(names, codes[i]) &&
        AtLeast(v.dividend, 1.6) && (UniformDraws(draws) ==> AtLeast(v.pe, 15.0) && Below(v.pe, 70.0))
    {
      EstimateRowProps(codes[i], names, draws);
    }
  }

  /** `float(x) if x and x != 'null' else np.nan`; None where `float` raises. */
  function ValueCell(x: string): Option<Float>
  {
    if x == "" || x == "null" then Some(NaN) else ParseFloat(x)
  }

  /** One row of a batch frame; None where a key is missing or a cell does not convert. */
  function ApiRow(row: map<string, string>, names: map<string, string>): Option<ValRow>
  {
    if "code" !in row || "peTTM" !in row || "dividendRate" !in row then None
    else
      var code := row["code"];
      var pe := ValueCell(row["peTTM"]);
      var rate := ValueCell(row["dividendRate"]);
      if pe.None? || rate.None? then None
      else Some(ValRow(code, NameOr(names, code), pe.value, rate.value))
  }

  /** The rows of a batch frame that convert, in order. */
  function ApiRows(rows: seq<map<string, string>>, names: map<string, string>): seq<ValRow>
  {
    if |rows| == 0 then []
    else
      var rest := ApiRows(rows[1..], names);
      match ApiRow(rows[0], names)
      case None => rest
      case Some(v) => [v] + rest
  }

  /**
   * A batch frame gives at most one row per frame row, and exactly one per
   * frame row when every row converts.
   */
  lemma {:induction false} ApiRowsProps(rows: seq<map<string, string>>, names: map<string, string>)
    ensures |ApiRows(rows, names)| <= |rows|
    ensures (forall i :: 0 <= i < |rows| ==> ApiRow(rows[i], names).Some?) ==> |ApiRows(rows, names)| == |rows|
  {
    if |rows| > 0 {
      ApiRowsProps(rows[1..], names);
      assert forall i :: 0 <= i < |rows| - 1 ==> rows[1..][i] == rows[i + 1];
    }
  }

  /** One batch: its frame's rows, or estimates for its codes when the query fails or returns nothing. */
  function BatchValuation(batch: seq<string>, names: map<string, string>, reply: Reply, draws: Draws): seq<ValRow>
  {
    if Answers(reply) then ApiRows(reply.frame.rows, names) else Estimate(batch, names, draws)
  }

  /** One batch of `get_valuation_data`, as a function value. */
  function BatchFn(names: map<string, string>, replies: seq<string> -> Reply, draws: Draws): seq<string> -> seq<ValRow>
  {
    batch => BatchValuation(batch, names, replies(batch), draws)
  }

  /** `get_valuation_data`: the batches, or estimates for every code when they gave no row at all. */
  function Valuation(codes: seq<string>, names: map<string, string>, replies: seq<string> -> Reply, draws: Draws): seq<ValRow>
  {
    var v := Batched(codes, 300, BatchFn(names, replies, draws), NumBatches(|codes|, 300));
    if |v| == 0 then Estimate(codes, names, draws) else v
  }

  /** When no batch answers, the first k batches are the estimates of their codes. */
  lemma SilentBatches(codes: seq<string>, names: map<string, string>, replies: seq<string> -> Reply, draws: Draws, k: nat)
    requires forall j :: 0 <= j < k ==> !Answers(replies(BatchAt(codes, 300, j)))
    ensures Batched(codes, 300, BatchFn(names, replies, draws), k) == Estimate(FirstBatches(codes, 300, k), names, draws)
  {
    forall j | 0 <= j < k
      ensures BatchFn(names, replies, draws)(BatchAt(codes, 300, j)) == Map(BatchAt(codes, 300, j), Quote(names, draws))
    {
    }
    BatchedMap(codes, 300, BatchFn(names, replies, draws), Quote(names, draws), k);
  }

  /**
   * The valuation frame is empty only for an empty code list; if no batch
   * answers, it is the estimate for every code, each with a dividend rate of
   * at least 1.6.
   */
  lemma ValuationProps(codes: seq<string>, names: map<string, string>, replies: seq<string> -> Reply, draws: Draws)
    ensures |Valuation(codes, names, replies, draws)| == 0 <==> |codes| == 0
    ensures (forall j :: 0 <= j < NumBatches(|codes|, 300) ==> !Answers(replies(BatchAt(codes, 300, j)))) ==>
      Valuation(codes, names, replies, draws) == Estimate(codes, names, draws) &&
      forall i :: 0 <= i < |codes| ==> AtLeast(Valuation(codes, names, replies, draws)[i].dividend, 1.6)
  {
    var n := NumBatches(|codes|, 300);
    NumBatchesIsCeiling(|codes|, 300);
    if forall j :: 0 <= j < n ==> !Answers(replies(BatchAt(codes, 300, j))) {
      SilentBatches(codes, names, replies, draws, n);
      BatchesPartition(codes, 300);
      EstimateProps(codes, names, draws);
    }
  }

  // ---------------------------------------------------------------------------
  // The screener
  // ---------------------------------------------------------------------------

  /** What `run` meets outside the program: the provider's answers and the random draws. */
  datatype Env = Env(login: Option<string>, logoutRaises: bool, listing: Reply, statements: Statements,
                     valuation: seq<string> -> Reply, draws: Draws)

  /** `run`: the screened frame, or None where it returns before screening. */
  function RunResult(years: seq<int>, env: Env): Option<seq<Merged>>
  {
    if env.login != Some("0") then None
    else
      var listing := AShareCodes(env.listing);
      if |listing.0| == 0 then None
      else
        var sample := Take(listing.0, 10);
        var all := AllFinance(sample, listing.1, years, env.statements);
        if |all| == 0 then None
        else
          match GrowthRates(all)
          case None => None
          case Some(g) =>
            if g.growth == map[] then None
            else
              var vals := Valuation(sample, listing.1, env.valuation, env.draws);
              if |vals| == 0 then None else Some(Screen(all, g, vals))
  }

  /**
   * With a successful login and no code twice among the first ten, `run`
   * always reaches the screen, and the screen is never empty.
   */
  lemma RunSucceeds(years: seq<int>, env: Env)
    requires env.login == Some("0") && |years| > 0 && Distinct(years)
    requires Distinct(Take(AShareCodes(env.listing).0, 10))
    ensures RunResult(years, env).Some? && |RunResult(years, env).value| > 0
  {
    var listing := AShareCodes(env.listing);
    AShareCodesProps(env.listing);
    var sample := Take(listing.0, 10);
    var all := AllFinance(sample, listing.1, years, env.statements);
    AllFinanceProps(sample, listing.1, years, env.statements);
    GrowthRatesProps(all);
    var g := GrowthRates(all).value;
    assert all[0].code in g.growth;
    ValuationProps(sample, listing.1, env.valuation, env.draws);
    ScreenProps(all, g, Valuation(sample, listing.1, env.valuation, env.draws));
  }

  /** The year loop of `get_stock_finance`: rows in year order, stopping at the first raising query. */
  method FetchYears(code: string, names: map<string, string>, years: seq<int>, q: Statements) returns (rows: seq<FinRow>)
    ensures rows == Fetched(code, names, years, q)
  {
    rows := [];
    var i := 0;
    while i < |years|
      invariant 0 <= i <= |years|
      invariant Fetched(code, names, years, q) == rows + Fetched(code, names, years[i..], q)
    {
      assert years[i..][0] == years[i] && years[i..][1..] == years[i + 1..];
      var outcome := FetchYear(code, names, years[i], q);
      if outcome.Abort? {
        assert Fetched(code, names, years[i..], q) == [];
        break;
      }
      if outcome.Got? {
        rows := rows + [outcome.row];
      }
      i := i + 1;
    }
    if i == |years| {
      assert years[i..] == [];
    }
  }

  /** The `StockScreener` object. */
  class Screener {
    var queryDate: int
    var targetYears: seq<int>
    var connected: bool

    /** `today` is the day number of `datetime.now()`, `currentYear` its year. */
    constructor (today: int, currentYear: int)
      ensures queryDate == LatestTradingDay(today) && targetYears == TargetYears(currentYear) && !connected
    {
      queryDate := LatestTradingDay(today);
      targetYears := TargetYears(currentYear);
      connected := false;
    }

    /** `login`; `reply` is the error code of `bs.login()`, None when it raises. */
    method Login(reply: Option<string>) returns (ok: bool)
      modifies this
      ensures ok <==> reply == Some("0")
      ensures connected == (old(connected) || ok)
      ensures queryDate == old(queryDate) && targetYears == old(targetYears)
    {
      if reply.None? || reply.value != "0" {
        return false;
      }
      connected := true;
      return true;
    }

    /** `logout`; when `bs.logout()` raises, the flag stays set. */
    method Logout(raises: bool)
      modifies this
      ensures connected == (old(connected) && raises)
      ensures queryDate == old(queryDate) && targetYears == old(targetYears)
    {
      if connected && !raises {
        connected := false;
      }
    }

    /** `get_a_share_codes` */
    method GetAShareCodes(reply: Reply) returns (codes: seq<string>, names: map<string, string>)
      ensures (codes, names) == AShareCodes(reply)
    {
      if !Answers(reply) {
        return TestCodes, TestNames();
      }
      var f := reply.frame;
      var codeCol := CodeColumn(f.columns);
      var nameCol := NameColumn(f.columns);
      codes, names := [], map[];
      var i := 0;
      while i < |f.rows|
        invariant 0 <= i <= |f.rows|
        invariant (codes, names) == Collect(f.rows[..i], codeCol, nameCol)
      {
        var row := f.rows[i];
        assert f.rows[..i + 1][..i] == f.rows[..i];
        if codeCol in row {
          var code := row[codeCol];
          if IsAShare(code) {
            codes := codes + [code];
            names := names[code := RowName(row, nameCol, code)];
          }
        }
        i := i + 1;
      }
      assert f.rows[..i] == f.rows;
      if |codes| == 0 {
        codes, names := TestCodes, TestNames();
      }
    }

    /** `get_stock_finance` */
    method GetStockFinance(code: string, names: map<string, string>, q: Statements) returns (rows: seq<FinRow>)
      ensures rows == StockFinance(code, names, targetYears, q)
    {
      rows := FetchYears(code, names, targetYears, q);
      if NeedsTestData(rows) {
        rows := ProvideTestFinanceData(code, names);
      }
    }

    /** `_provide_test_finance_data` */
    method ProvideTestFinanceData(code: string, names: map<string, string>) returns (rows: seq<FinRow>)
      ensures rows == TestFinance(code, NameOr(names, code), targetYears, FinanceTemplate(code))
    {
      var t := FinanceTemplate(code);
      var name := NameOr(names, code);
      var years := targetYears;
      rows := [];
      var i := 0;
      while i < |years|
        invariant 0 <= i <= |years| && |rows| == i
        invariant forall j :: 0 <= j < i ==> rows[j] == TestRow(code, name, years[j], j, t)
      {
        rows := rows + [TestRow(code, name, years[i], i, t)];
        i := i + 1;
      }
      assert rows == TestFinance(code, name, years, t);
    }

    /** `_estimate_valuation_data` */
    method EstimateValuationData(codes: seq<string>, names: map<string, string>, draws: Draws) returns (rows: seq<ValRow>)
      ensures rows == Estimate(codes, names, draws)
    {
      rows := [];
      var i := 0;
      while i < |codes|
        invariant 0 <= i <= |codes|
        invariant rows == Map(codes[..i], Quote(names, draws))
      {
        MapSnoc(codes, i, Quote(names, draws));
        rows := rows + [EstimateRow(codes[i], names, draws)];
        i := i + 1;
      }
      assert codes[..i] == codes;
    }

    /** One batch of `get_valuation_data`. */
    method ValuationBatch(batch: seq<string>, names: map<string, string>, reply: Reply, draws: Draws)
      returns (rows: seq<ValRow>)
      ensures rows == BatchValuation(batch, names, reply, draws)
    {
      if !Answers(reply) {
        rows := EstimateValuationData(batch, names, draws);
        return;
      }
      var frame := reply.frame.rows;
      rows := [];
      var i := 0;
      while i < |frame|
        invariant 0 <= i <= |frame|
        invariant rows + ApiRows(frame[i..], names) == ApiRows(frame, names)
      {
        assert frame[i..][1..] == frame[i + 1..];
        var v := ApiRow(frame[i], names);
        if v.Some? {
          assert (rows + [v.value]) + ApiRows(frame[i + 1..], names) == rows + ([v.value] + ApiRows(frame[i + 1..], names));
          rows := rows + [v.value];
        }
        i := i + 1;
      }
    }

    /** The batch loop of `get_valuation_data`: batches of 300 codes, in order. */
    method ValuationLoop(codes: seq<string>, names: map<string, string>, replies: seq<string> -> Reply, draws: Draws)
      returns (rows: seq<ValRow>)
      ensures rows == Batched(codes, 300, BatchFn(names, replies, draws), NumBatches(|codes|, 300))
    {
      var n := NumBatches(|codes|, 300);
      rows := [];
      var k := 0;
      while k < n
        invariant k <= n
        invariant rows == Batched(codes, 300, BatchFn(names, replies, draws), k)
      {
        rows := ValuationBatchAt(codes, names, replies, draws, k, rows);
        k := k + 1;
      }
    }

    /** The k-th batch of 300 codes, appended to the rows of the batches before it. */
    method ValuationBatchAt(codes: seq<string>, names: map<string, string>, replies: seq<string> -> Reply, draws: Draws,
                            k: nat, prev: seq<ValRow>) returns (rows: seq<ValRow>)
      requires k < NumBatches(|codes|, 300)
      requires prev == Batched(codes, 300, BatchFn(names, replies, draws), k)
      ensures rows == Batched(codes, 300, BatchFn(names, replies, draws), k + 1)
    {
      var i := k * 300;
      BatchNonEmpty(codes, 300, k);
      var batch := codes[i..Min(i + 300, |codes|)];
      assert batch == BatchAt(codes, 300, k);
      var part := ValuationBatch(batch, names, replies(batch), draws);
      rows := prev + part;
    }

    /** `get_valuation_data`: the batch loop, then estimates for every code when it gave no row. */
    method GetValuationData(codes: seq<string>, names: map<string, string>, replies: seq<string> -> Reply, draws: Draws)
      returns (rows: seq<ValRow>)
      ensures rows == Valuation(codes, names, replies, draws)
    {
      rows := ValuationLoop(codes, names, replies, draws);
      if |rows| == 0 {
        rows := EstimateValuationData(codes, names, draws);
      }
    }

    /** `run`; the session is closed at the end whatever happened. */
    method Run(env: Env) returns (outcome: Option<seq<Merged>>)
      modifies this
      ensures outcome == RunResult(old(targetYears), env)
      ensures connected == ((old(connected) || env.login == Some("0")) && env.logoutRaises)
      ensures queryDate == old(queryDate) && targetYears == old(targetYears)
    {
      var ok := Login(env.login);
      outcome := None;
      if ok {
        outcome := Screening(env);
      }
      Logout(env.logoutRaises);
    }

    /** The loop of `run` over the sampled codes, gathering each one's statement rows. */
    method FetchSample(sample: seq<string>, names: map<string, string>, q: Statements) returns (all: seq<FinRow>)
      ensures all == AllFinance(sample, names, targetYears, q)
    {
      all := [];
      var i := 0;
      while i < |sample|
        invariant 0 <= i <= |sample|
        invariant all == AllFinance(sample[..i], names, targetYears, q)
      {
        assert sample[..i + 1][..i] == sample[..i];
        var rows := GetStockFinance(sample[i], names, q);
        if |rows| > 0 {
          all := all + rows;
        }
        i := i + 1;
      }
      assert sample[..i] == sample;
    }

    /** The part of `run` after a successful login. */
    method Screening(env: Env) returns (outcome: Option<seq<Merged>>)
      requires env.login == Some("0")
      ensures outcome == RunResult(targetYears, env)
    {
      var codes, names := GetAShareCodes(env.listing);
      if |codes| == 0 {
        return None;
      }
      var sample := Take(codes, 10);
      var all := FetchSample(sample, names, env.statements);
      if |all| == 0 {
        return None;
      }
      var growth := GrowthRates(all);
      if growth.None? || growth.value.growth == map[] {
        return None;
      }
      var vals := GetValuationData(sample, names, env.valuation, env.draws);
      if |vals| == 0 {
        return None;
      }
      outcome := Some(Screen(all, growth.value, vals));
    }
  }
}
