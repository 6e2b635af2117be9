// `_extract_finance_data` and `_validate_stock_data` of stock_screeners/stock_selector.py,
// their identical copies in stock_screeners/stock_screeners.py, and the
// positive-only variant of quantitative_trading/stock_selector.py; then the loop
// over financial sources that stops at the first source after which the record
// validates.

module FinanceExtract {
  import opened Py
  import opened Strings

  /** A provider table: column names and rows of cells. */
  datatype Frame = Frame(columns: seq<string>, rows: seq<seq<Cell>>)

  /** pandas `empty`: no rows or no columns. */
  predicate Empty(f: Frame)
  {
    |f.rows| == 0 || |f.columns| == 0
  }

  /** The indicator table (field, keywords) in its declared order, which fields are stored as absolute values, and whether values ≤ 0 are skipped. */
  datatype ExtractRule = ExtractRule(table: seq<(string, seq<string>)>, absFields: set<string>, positiveOnly: bool)

  const PeKeywords: seq<string> := ["市盈率(静)", "市盈率", "P/E", "PE", "pe_ratio", "静态市盈率"]
  const PeTtmKeywords: seq<string> := ["市盈率(TTM)", "TTM市盈率", "滚动市盈率", "pe_ttm"]

  const SelectorTable: seq<(string, seq<string>)> := [
    ("pe", PeKeywords),
    ("pe_ttm", PeTtmKeywords),
    ("pb", ["市净率", "P/B", "PB", "pb_ratio"]),
    ("roe", ["净资产收益率", "ROE", "roe", "return_on_equity"]),
    ("debt_ratio", ["资产负债率", "负债率", "debt_ratio", "资产负债比率"]),
    ("revenue_growth", ["营业收入增长率", "营收增长", "revenue_growth", "营业总收入增长率"]),
    ("profit_growth", ["净利润增长率", "净利增长", "profit_growth", "净利润同比增长率"]),
    ("eps", ["每股收益", "EPS", "eps", "基本每股收益"]),
    ("gross_margin", ["毛利率", "销售毛利率", "gross_margin", "主营业务毛利率"]),
    ("current_ratio", ["流动比率", "current_ratio", "流动资产比率"]),
    ("net_profit_margin", ["净利润率", "销售净利率", "净利润率", "净利率"])]

  /** stock_screeners/stock_selector.py and stock_screeners/stock_screeners.py. */
  const SelectorRule: ExtractRule := ExtractRule(SelectorTable, {"revenue_growth", "profit_growth"}, false)

  const QuantTable: seq<(string, seq<string>)> := [
    ("pe", ["市盈率", "P/E", "PE", "pe_ratio"]),
    ("pb", ["市净率", "P/B", "PB", "pb_ratio"]),
    ("roe", ["净资产收益率", "ROE", "roe", "return_on_equity"]),
    ("debt_ratio", ["资产负债率", "负债率", "debt_ratio"]),
    ("revenue_growth", ["营业收入增长率", "营收增长", "revenue_growth"]),
    ("profit_growth", ["净利润增长率", "净利增长", "profit_growth"]),
    ("current_ratio", ["流动比率", "current_ratio"])]

  /** quantitative_trading/stock_selector.py: no absolute values, values ≤ 0 skipped. */
  const QuantRule: ExtractRule := ExtractRule(QuantTable, {}, true)

  /** `any(keyword.lower() in name.lower() for keyword in keywords)` */
  predicate Matches(keywords: seq<string>, name: string)
  {
    exists k :: k in keywords && Contains(Lower(name), Lower(k))
  }

  /** The index of the first indicator with a matching keyword, or |table| when none matches. */
  function FirstMatch(table: seq<(string, seq<string>)>, name: string): (i: nat)
    ensures i <= |table|
    ensures i < |table| ==> Matches(table[i].1, name)
    ensures forall j :: 0 <= j < i ==> !Matches(table[j].1, name)
  {
    if |table| == 0 then 0
    else if Matches(table[0].1, name) then 0
    else 1 + FirstMatch(table[1..], name)
  }

  function Abs(x: Float): Float
  {
    if x.Fin? && x.r < 0.0 then Fin(-x.r) else x
  }

  /** The cell at a column position; a missing cell is an IndexError, which skips the column like NaN does. */
  function CellAt(row: seq<Cell>, i: nat): Cell
  {
    if i < |row| then row[i] else CNone
  }

  /** The position of the first column of that name, |cols| when there is none. */
  function ColumnIndex(cols: seq<string>, name: string): (i: nat)
    ensures i <= |cols|
    ensures i < |cols| ==> cols[i] == name
    ensures i == |cols| <==> name !in cols
    decreases |cols|
  {
    if |cols| == 0 then 0 else if cols[0] == name then 0 else 1 + ColumnIndex(cols[1..], name)
  }

  /** A row's cell in the named column; None when the column is absent. */
  function Col(cols: seq<string>, row: seq<Cell>, name: string): Cell
  {
    CellAt(row, ColumnIndex(cols, name))
  }

  /**
   * What one column writes: nothing for a blank name, a value that coerces to
   * NaN (or is ≤ 0 under `positiveOnly`), or a name no indicator matches;
   * otherwise the value, made absolute for the growth fields, under the first
   * matching indicator.
   */
  function Contribution(name: string, cell: Cell, rule: ExtractRule): Option<(string, Float)>
  {
    var n := Strip(name);
    var v := CellToNumeric(cell);
    var i := FirstMatch(rule.table, n);
    if n == "" || v.NaN? || (rule.positiveOnly && v.r <= 0.0) || i == |rule.table| then None
    else Some((rule.table[i].0, if rule.table[i].0 in rule.absFields then Abs(v) else v))
  }

  function ColumnStep(d: map<string, Float>, name: string, cell: Cell, rule: ExtractRule): map<string, Float>
  {
    match Contribution(name, cell, rule)
    case None => d
    case Some(w) => d[w.0 := w.1]
  }

  /** The record after the first n columns of the first row. */
  function Extracted(d: map<string, Float>, cols: seq<string>, row: seq<Cell>, rule: ExtractRule, n: nat): map<string, Float>
    requires n <= |cols|
  {
    if n == 0 then d else ColumnStep(Extracted(d, cols, row, rule, n - 1), cols[n - 1], CellAt(row, n - 1), rule)
  }

  /** The whole extraction: an empty frame leaves the record as it was. */
  function Extract(d: map<string, Float>, f: Frame, rule: ExtractRule): map<string, Float>
  {
    if Empty(f) then d else Extracted(d, f.columns, f.rows[0], rule, |f.columns|)
  }

  /** `_extract_finance_data`: the record is updated in place; here the updated record is returned. */
  method ExtractFinanceData(d: map<string, Float>, f: Frame, rule: ExtractRule) returns (r: map<string, Float>)
    ensures r == Extract(d, f, rule)
  {
    r := d;
    if Empty(f) {
      return;
    }
    var row := f.rows[0];
    var i := 0;
    while i < |f.columns|
      invariant i <= |f.columns|
      invariant r == Extracted(d, f.columns, row, rule, i)
    {
      var name := Strip(f.columns[i]);
      if name != "" {
        var value := CellToNumeric(CellAt(row, i));
        if !(value.NaN? || (rule.positiveOnly && value.r <= 0.0)) {
          var j := 0;
          while j < |rule.table| && !Matches(rule.table[j].1, name)
            invariant j <= |rule.table|
            invariant forall m :: 0 <= m < j ==> !Matches(rule.table[m].1, name)
          {
            j := j + 1;
          }
          assert j == FirstMatch(rule.table, name);
          if j < |rule.table| {
            var field := rule.table[j].0;
            r := r[field := if field in rule.absFields then Abs(value) else value];
          }
        }
      }
      i := i + 1;
    }
  }

  /** Column i writes field f. */
  predicate Writes(cols: seq<string>, row: seq<Cell>, rule: ExtractRule, i: nat, f: string)
    requires i < |cols|
  {
    Contribution(cols[i], CellAt(row, i), rule).Some? && Contribution(cols[i], CellAt(row, i), rule).value.0 == f
  }

  /** A field holds the value of the last column that writes it: later columns overwrite earlier ones. */
  lemma {:induction false} LastColumnWins(d: map<string, Float>, cols: seq<string>, row: seq<Cell>, rule: ExtractRule,
                                          n: nat, f: string, i: nat)
    requires i < n <= |cols| && Writes(cols, row, rule, i, f)
    requires forall j :: i < j < n ==> !Writes(cols, row, rule, j, f)
    ensures f in Extracted(d, cols, row, rule, n)
    ensures Extracted(d, cols, row, rule, n)[f] == Contribution(cols[i], CellAt(row, i), rule).value.1
  {
    if n - 1 > i {
      assert !Writes(cols, row, rule, n - 1, f);
      LastColumnWins(d, cols, row, rule, n - 1, f, i);
    }
  }

  /** A field no column writes keeps its presence and value. */
  lemma {:induction false} UnwrittenUnchanged(d: map<string, Float>, cols: seq<string>, row: seq<Cell>, rule: ExtractRule,
                                              n: nat, f: string)
    requires n <= |cols|
    requires forall j :: 0 <= j < n ==> !Writes(cols, row, rule, j, f)
    ensures (f in Extracted(d, cols, row, rule, n)) == (f in d)
    ensures f in d ==> Extracted(d, cols, row, rule, n)[f] == d[f]
  {
    if n > 0 {
      assert !Writes(cols, row, rule, n - 1, f);
      UnwrittenUnchanged(d, cols, row, rule, n - 1, f);
    }
  }

  /**
   * Every field either keeps its old value or holds a number: positive when
   * values ≤ 0 are skipped, non-negative for the absolute-value fields. Only
   * fields of the indicator table are ever added.
   */
  lemma {:induction false} WrittenValues(d: map<string, Float>, cols: seq<string>, row: seq<Cell>, rule: ExtractRule, n: nat)
    requires n <= |cols|
    ensures d.Keys <= Extracted(d, cols, row, rule, n).Keys
    ensures var e := Extracted(d, cols, row, rule, n);
      forall k :: k in e ==> ((k in d && e[k] == d[k]) ||
        (e[k].Fin? && (rule.positiveOnly ==> e[k].r > 0.0) && (k in rule.absFields ==> e[k].r >= 0.0) &&
         exists i :: 0 <= i < |rule.table| && rule.table[i].0 == k))
  {
    if n > 0 {
      WrittenValues(d, cols, row, rule, n - 1);
    }
  }

  /** Every `pe_ttm` keyword contains a `pe` keyword, so a column matching `pe_ttm` matches `pe` first. */
  lemma PeTtmNeverMatched(name: string)
    ensures FirstMatch(SelectorTable, name) != 1
  {
    assert SelectorTable[0].1 == PeKeywords && SelectorTable[1].1 == PeTtmKeywords;
    if Matches(PeTtmKeywords, name) {
      PeTtmMatchesPe(name);
    }
  }

  lemma PeTtmMatchesPe(name: string)
    requires Matches(PeTtmKeywords, name)
    ensures Matches(PeKeywords, name)
  {
    var k :| k in PeTtmKeywords && Contains(Lower(name), Lower(k));
    TtmKeywordHasPe(k, Lower(name));
    if Contains(Lower(name), "pe") {
      LowerPe();
      assert PeKeywords[3] in PeKeywords;
    } else {
      LowerPeName();
      assert PeKeywords[1] in PeKeywords;
    }
  }

  lemma LowerPe()
    ensures PeKeywords[3] == "PE" && Lower("PE") == "pe"
  {
  }

  lemma LowerPeName()
    ensures PeKeywords[1] == "市盈率" && Lower("市盈率") == "市盈率"
  {
  }

  lemma TtmKeywordHasPe(k: string, lc: string)
    requires k in PeTtmKeywords && Contains(lc, Lower(k))
    ensures Contains(lc, "市盈率") || Contains(lc, "pe")
  {
    if k == "pe_ttm" {
      InPeTtm(lc);
    } else if k == "市盈率(TTM)" {
      InTtmSuffix(lc);
    } else if k == "TTM市盈率" {
      InTtmPrefix(lc);
    } else {
      InRolling(lc);
    }
  }

  lemma InPeTtm(lc: string)
    requires Contains(lc, Lower("pe_ttm"))
    ensures Contains(lc, "pe")
  {
    var lk := Lower("pe_ttm");
    assert lk[0] == 'p' && lk[1] == 'e';
    ContainsTrans(lc, lk, "pe", 0);
  }

  lemma InTtmSuffix(lc: string)
    requires Contains(lc, Lower("市盈率(TTM)"))
    ensures Contains(lc, "市盈率")
  {
    var lk := Lower("市盈率(TTM)");
    assert lk[0] == '市' && lk[1] == '盈' && lk[2] == '率';
    ContainsTrans(lc, lk, "市盈率", 0);
  }

  lemma InTtmPrefix(lc: string)
    requires Contains(lc, Lower("TTM市盈率"))
    ensures Contains(lc, "市盈率")
  {
    var lk := Lower("TTM市盈率");
    assert lk[3] == '市' && lk[4] == '盈' && lk[5] == '率';
    ContainsTrans(lc, lk, "市盈率", 3);
  }

  lemma InRolling(lc: string)
    requires Contains(lc, Lower("滚动市盈率"))
    ensures Contains(lc, "市盈率")
  {
    var lk := Lower("滚动市盈率");
    assert lk[2] == '市' && lk[3] == '盈' && lk[4] == '率';
    ContainsTrans(lc, lk, "市盈率", 2);
  }

  /** `c in b` and `b in a` give `c in a`. */
  lemma ContainsTrans(a: string, b: string, c: string, j: nat)
    requires Contains(a, b) && j + |c| <= |b| && b[j..j + |c|] == c
    ensures Contains(a, c)
  {
    var i := ContainsIndex(a, b);
    forall t | 0 <= t < |c| ensures a[i + j + t] == c[t] {
      assert a[i..i + |b|][j + t] == b[j + t];
      assert b[j..j + |c|][t] == b[j + t];
    }
    assert a[i + j..i + j + |c|] == c;
    ContainsAt(a, c, i + j);
  }

  /** A position where `sub` occurs in `s`. */
  lemma ContainsIndex(s: string, sub: string) returns (i: nat)
    requires Contains(s, sub)
    ensures i + |sub| <= |s| && s[i..i + |sub|] == sub
    decreases |s|
  {
    if StartsWith(s, sub) {
      i := 0;
    } else {
      var j := ContainsIndex(s[1..], sub);
      i := j + 1;
      assert s[i..i + |sub|] == s[1..][j..j + |sub|];
    }
  }

  /** Only the second entry of the selector table names `pe_ttm`. */
  lemma OnlySecondIsPeTtm()
    ensures forall i :: 0 <= i < |SelectorTable| && i != 1 ==> SelectorTable[i].0 != "pe_ttm"
  {
  }

  /** So the selector extraction never changes `pe_ttm`. */
  lemma PeTtmNeverAssigned(d: map<string, Float>, f: Frame)
    ensures ("pe_ttm" in Extract(d, f, SelectorRule)) == ("pe_ttm" in d)
    ensures "pe_ttm" in d ==> Extract(d, f, SelectorRule)["pe_ttm"] == d["pe_ttm"]
  {
    if !Empty(f) {
      OnlySecondIsPeTtm();
      forall j | 0 <= j < |f.columns| ensures !Writes(f.columns, f.rows[0], SelectorRule, j, "pe_ttm") {
        PeTtmNeverMatched(Strip(f.columns[j]));
      }
      UnwrittenUnchanged(d, f.columns, f.rows[0], SelectorRule, |f.columns|, "pe_ttm");
    }
  }

  function Get(d: map<string, Float>, k: string): Float
  {
    if k in d then d[k] else NaN
  }

  /** A required field: present, not NaN and positive. */
  predicate Positive(d: map<string, Float>, k: string)
  {
    k in d && d[k].Fin? && d[k].r > 0.0
  }

  /** `_validate_stock_data`, the same text in all three selectors. */
  function ValidateStockData(d: map<string, Float>): (ok: bool)
    ensures ok <==> ("pe" in d && "pb" in d && "roe" in d && d["pe"].Fin? && d["pb"].Fin? && d["roe"].Fin? &&
      1.0 <= d["pe"].r <= 200.0 && 0.1 <= d["pb"].r <= 20.0 && 0.1 <= d["roe"].r <= 100.0)
  {
    if !(forall k :: k in ["pe", "pb", "roe"] ==> Positive(d, k)) then false
    else
      assert Positive(d, "pe") && Positive(d, "pb") && Positive(d, "roe");
      if d["pe"].r > 200.0 || d["pe"].r < 1.0 then false
      else if d["pb"].r > 20.0 || d["pb"].r < 0.1 then false
      else if d["roe"].r > 100.0 || d["roe"].r < 0.1 then false
      else true
  }

  /**
   * The source loop of `get_stock_fundamentals`: each source's table (None
   * when the call raised or returned None) is extracted into the record when
   * non-empty, and the loop stops once the record validates. Returns the
   * record and the number of sources called.
   */
  function TrySources(d: map<string, Float>, frames: seq<Option<Frame>>, rule: ExtractRule): (map<string, Float>, nat)
    decreases |frames|
  {
    if |frames| == 0 then (d, 0)
    else
      var d1 := if frames[0].Some? && !Empty(frames[0].value) then Extract(d, frames[0].value, rule) else d;
      if frames[0].Some? && !Empty(frames[0].value) && ValidateStockData(d1) then (d1, 1)
      else
        var rest := TrySources(d1, frames[1..], rule);
        (rest.0, rest.1 + 1)
  }

  method FetchFinance(d: map<string, Float>, frames: seq<Option<Frame>>, rule: ExtractRule)
    returns (r: map<string, Float>, calls: nat)
    ensures (r, calls) == TrySources(d, frames, rule)
  {
    r := d;
    calls := 0;
    while calls < |frames|
      invariant calls <= |frames|
      invariant TrySources(r, frames[calls..], rule) == (TrySources(d, frames, rule).0, TrySources(d, frames, rule).1 - calls)
      invariant TrySources(d, frames, rule).1 >= calls
    {
      var finance := frames[calls];
      calls := calls + 1;
      if finance.Some? && !Empty(finance.value) {
        r := ExtractFinanceData(r, finance.value, rule);
        if ValidateStockData(r) {
          return;
        }
      }
    }
  }

  /**
   * The loop stops at the first source after which the record validates:
   * when sources are left uncalled the record validates, the result depends
   * only on the sources called, and a record that does not validate means
   * every source was called.
   */
  lemma {:induction false} SourcesStopAtFirstValid(d: map<string, Float>, frames: seq<Option<Frame>>, rule: ExtractRule)
    ensures var (r, calls) := TrySources(d, frames, rule);
      calls <= |frames| &&
      (calls < |frames| ==> ValidateStockData(r)) &&
      (!ValidateStockData(r) ==> calls == |frames|) &&
      TrySources(d, frames[..calls], rule) == (r, calls)
    decreases |frames|
  {
    if |frames| > 0 {
      var d1 := if frames[0].Some? && !Empty(frames[0].value) then Extract(d, frames[0].value, rule) else d;
      SourcesStopAtFirstValid(d1, frames[1..], rule);
      var (r, calls) := TrySources(d, frames, rule);
      assert frames[..calls][1..] == frames[1..][..calls - 1];
    }
  }
}
