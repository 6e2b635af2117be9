// get_stock_fscore_eastmoney.py: market identifiers, kline parsing, the
// fixed-value snapshot and `analyze_stock`. The scorer is `GuardedFScore`.

module EastmoneyFScore {
  import opened Py
  import opened Strings
  import opened Scoring
  import opened GuardedFScore

  predicate ShenzhenPrefix(code: string)
  {
    StartsWith(code, "0") || StartsWith(code, "3")
  }

  /** `get_eastmoney_secid`: "0." for Shenzhen, "1." for Shanghai, otherwise the code itself. */
  function Secid(code: string): (r: string)
    ensures ShenzhenPrefix(code) ==> r == "0." + code
    ensures !ShenzhenPrefix(code) && StartsWith(code, "6") ==> r == "1." + code
    ensures !ShenzhenPrefix(code) && !StartsWith(code, "6") ==> r == code
  {
    if ShenzhenPrefix(code) then "0." + code
    else if StartsWith(code, "6") then "1." + code
    else code
  }

  /** The inline secid of the statement requests: "0." for Shenzhen, "1." for everything else. */
  function SheetSecid(code: string): string
  {
    if ShenzhenPrefix(code) then "0." + code else "1." + code
  }

  /** `get_stock_info`: the code is zero-padded to six characters first. */
  function InfoSecid(code: string): string
  {
    SheetSecid(ZFill(code, 6))
  }

  /**
   * The three secid rules agree on six-character codes of the Shenzhen and
   * Shanghai boards; on any other first character `get_eastmoney_secid` keeps
   * the bare code while the others tag it with market 1.
   */
  lemma SecidAgreement(code: string)
    ensures |code| == 6 && (ShenzhenPrefix(code) || StartsWith(code, "6")) ==>
      Secid(code) == SheetSecid(code) == InfoSecid(code)
    ensures |code| == 6 && !ShenzhenPrefix(code) && !StartsWith(code, "6") ==>
      Secid(code) == code && InfoSecid(code) == "1." + code && SheetSecid(code) != Secid(code)
    ensures 0 < |code| < 6 && code[0] != '-' && code[0] != '+' ==> StartsWith(InfoSecid(code), "0.0")
  {
    if 0 < |code| < 6 && code[0] != '-' && code[0] != '+' {
      var z := ZFill(code, 6);
      assert z == Zeros(6 - |code|) + code;
      assert z[0] == '0';
    }
    if |code| == 6 && !ShenzhenPrefix(code) && !StartsWith(code, "6") {
      assert |SheetSecid(code)| == 8;
    }
  }

  /** One kline line contributes `parts[0] -> parts[1]` when it splits into two or more parts. */
  predicate HasEntry(line: string)
  {
    |Split(line, ',')| >= 2
  }

  function EntryKey(line: string): string
    requires HasEntry(line)
  {
    Split(line, ',')[0]
  }

  function EntryValue(line: string): string
    requires HasEntry(line)
  {
    Split(line, ',')[1]
  }

  /** The dictionary after the lines of s, in order. */
  function KlineMap(s: seq<string>): map<string, string>
  {
    if |s| == 0 then map[]
    else
      var m := KlineMap(s[..|s| - 1]);
      var line := s[|s| - 1];
      if HasEntry(line) then m[EntryKey(line) := EntryValue(line)] else m
  }

  /** The loop of `_get_balance_sheet` and `_get_profit_sheet` over `data['data']['klines']`. */
  method ParseKlines(lines: seq<string>) returns (m: map<string, string>)
    ensures m == KlineMap(lines)
  {
    m := map[];
    var j := 0;
    while j < |lines|
      invariant 0 <= j <= |lines|
      invariant m == KlineMap(lines[..j])
    {
      assert lines[..j + 1][..j] == lines[..j];
      var parts := Split(lines[j], ',');
      if |parts| >= 2 {
        m := m[parts[0] := parts[1]];
      }
      j := j + 1;
    }
    assert lines[..|lines|] == lines;
  }

  /** Line i is the last line with an entry for key k, and the map holds its value. */
  predicate LastEntryAt(s: seq<string>, k: string, i: int)
  {
    0 <= i < |s| && HasEntry(s[i]) && EntryKey(s[i]) == k && k in KlineMap(s) &&
    KlineMap(s)[k] == EntryValue(s[i]) &&
    forall j :: i < j < |s| && HasEntry(s[j]) ==> EntryKey(s[j]) != k
  }

  ghost predicate LastEntry(s: seq<string>, k: string)
  {
    exists i :: LastEntryAt(s, k, i)
  }

  /**
   * A date is a key iff some line with two or more parts starts with it, and its
   * value comes from the last such line: later duplicates overwrite earlier ones
   * and shorter lines are ignored.
   */
  lemma {:induction false} KlineMapLastWins(s: seq<string>)
    ensures forall i :: 0 <= i < |s| && HasEntry(s[i]) ==> EntryKey(s[i]) in KlineMap(s)
    ensures forall k :: k in KlineMap(s) ==> LastEntry(s, k)
  {
    if |s| > 0 {
      var p := s[..|s| - 1];
      var line := s[|s| - 1];
      KlineMapLastWins(p);
      forall i | 0 <= i < |s| && HasEntry(s[i]) ensures EntryKey(s[i]) in KlineMap(s) {
        if i < |p| { assert s[i] == p[i]; }
      }
      forall k | k in KlineMap(s)
        ensures LastEntry(s, k)
      {
        if HasEntry(line) && EntryKey(line) == k {
          assert LastEntryAt(s, k, |s| - 1);
        } else {
          var i :| LastEntryAt(p, k, i);
          assert s[i] == p[i];
          forall j | i < j < |s| && HasEntry(s[j]) ensures EntryKey(s[j]) != k {
            if j < |p| { assert s[j] == p[j]; }
          }
          assert LastEntryAt(s, k, i);
        }
      }
    }
  }

  /** A parsed sheet is truthy iff it is a non-empty dictionary. */
  predicate SheetTruthy(sheet: Option<map<string, string>>)
  {
    sheet.Some? && |sheet.value| > 0
  }

  /** A fetched kline list parses to a truthy sheet iff one of its lines has two or more parts. */
  lemma SheetTruthyIffEntry(lines: seq<string>)
    ensures SheetTruthy(Some(KlineMap(lines))) <==> exists i :: 0 <= i < |lines| && HasEntry(lines[i])
  {
    KlineMapLastWins(lines);
    if exists i :: 0 <= i < |lines| && HasEntry(lines[i]) {
      var i :| 0 <= i < |lines| && HasEntry(lines[i]);
      assert EntryKey(lines[i]) in KlineMap(lines);
    }
  }

  /** The `get_stock_info` record, reduced to the fields this file reads. */
  datatype Info = Info(name: string, industry: string, roa: Cell, grossMargin: Cell)

  datatype InfoBlock = InfoBlock(roa: Option<Float>, grossMargin: Option<Float>,
                                 previousRoa: Option<Float>, previousGrossMargin: Option<Float>)

  /** `float(v)` when v is truthy, as an assignment that may raise (outer None). */
  function FloatIfTruthy(c: Cell): Option<Option<Float>>
  {
    if !CellTruthy(c) then Some(None)
    else match ToFloat(c)
      case None => None
      case Some(f) => Some(Some(f))
  }

  /** The `stock_info` block; a failed conversion abandons its remaining assignments. */
  function InfoValues(info: Option<Info>): InfoBlock
  {
    if info.None? then InfoBlock(None, None, None, None)
    else match FloatIfTruthy(info.value.roa)
      case None => InfoBlock(None, None, None, None)
      case Some(roa) =>
        match FloatIfTruthy(info.value.grossMargin)
        case None => InfoBlock(roa, None, None, None)
        case Some(gm) => InfoBlock(roa, gm, roa, gm)
  }

  /**
   * `get_stock_fundamental_data`: ROA and gross margin from the info block with
   * their priors copied, and the fixed example values for a truthy balance,
   * profit or cash-flow result; equity is not increased and turnover is 0.8 / 0.7.
   */
  function BuildSnapshot(info: Option<Info>, balance: Option<map<string, string>>,
                         profit: Option<map<string, string>>, cashTruthy: bool): Snapshot
  {
    var ib := InfoValues(info);
    var bal := SheetTruthy(balance);
    Snapshot(ib.roa, ib.previousRoa,
      if cashTruthy then Some(Fin(120000000.0)) else None,
      if SheetTruthy(profit) then Some(Fin(100000000.0)) else None,
      if bal then Some(Fin(50.0)) else None, if bal then Some(Fin(55.0)) else None,
      if bal then Some(Fin(1.5)) else None, if bal then Some(Fin(1.3)) else None,
      Some(false), ib.grossMargin, ib.previousGrossMargin, Some(Fin(0.8)), Some(Fin(0.7)))
  }

  /** The copied priors: a prior is either absent or equal to its current value. */
  lemma InfoPriorsCopied(info: Option<Info>)
    ensures var ib := InfoValues(info);
      (ib.previousRoa.None? || ib.previousRoa == ib.roa) &&
      (ib.previousGrossMargin.None? || ib.previousGrossMargin == ib.grossMargin)
  {
  }

  /**
   * Every score of a returned snapshot: tests 3 and 8 always fail, 7 and 9 always
   * pass, test 2 follows the cash-flow fetch, tests 5 and 6 the balance-sheet
   * fetch, test 4 both the profit and the cash-flow fetches; so 2 <= score <= 7.
   */
  lemma ScoreFollowsFetches(info: Option<Info>, balance: Option<map<string, string>>,
                            profit: Option<map<string, string>>, cashTruthy: bool)
    ensures var r := CalculateFScore(BuildSnapshot(info, balance, profit, cashTruthy));
      !r.details[2] && !r.details[7] && r.details[6] && r.details[8] &&
      (r.details[1] <==> cashTruthy) &&
      (r.details[4] <==> SheetTruthy(balance)) && (r.details[5] <==> SheetTruthy(balance)) &&
      (r.details[3] <==> SheetTruthy(profit) && cashTruthy) &&
      2 <= r.fScore <= 7
  {
    SnapshotTests(info, balance, profit, cashTruthy);
    ScoreFromTests(BuildSnapshot(info, balance, profit, cashTruthy), cashTruthy, SheetTruthy(balance), SheetTruthy(profit));
  }

  /** The score of any snapshot whose tests come out as a built snapshot's do. */
  lemma ScoreFromTests(d: Snapshot, cash: bool, bal: bool, prof: bool)
    requires !RoaIncreased(d) && !MarginIncreased(d) && NoEquityIssue(d) && TurnoverIncreased(d)
    requires (CashFlowPositive(d) <==> cash) && (LeverageImproved(d) <==> bal) && (RatioIncreased(d) <==> bal)
    requires CashFlowAboveProfit(d) <==> prof && cash
    ensures var r := CalculateFScore(d);
      !r.details[2] && !r.details[7] && r.details[6] && r.details[8] &&
      (r.details[1] <==> cash) && (r.details[4] <==> bal) && (r.details[5] <==> bal) &&
      (r.details[3] <==> prof && cash) && 2 <= r.fScore <= 7
  {
  }

  /** The nine tests on a built snapshot, one by one. */
  lemma SnapshotTests(info: Option<Info>, balance: Option<map<string, string>>,
                      profit: Option<map<string, string>>, cashTruthy: bool)
    ensures var d := BuildSnapshot(info, balance, profit, cashTruthy);
      !RoaIncreased(d) && !MarginIncreased(d) && NoEquityIssue(d) && TurnoverIncreased(d) &&
      (CashFlowPositive(d) <==> cashTruthy) &&
      (LeverageImproved(d) <==> SheetTruthy(balance)) && (RatioIncreased(d) <==> SheetTruthy(balance)) &&
      (CashFlowAboveProfit(d) <==> SheetTruthy(profit) && cashTruthy)
  {
    var d := BuildSnapshot(info, balance, profit, cashTruthy);
    InfoPriorsCopied(info);
    NoChangeNoPoint(d.currentRoa);
    NoChangeNoPoint(d.currentGrossMargin);
  }

  /** The `analyze_stock` result row, reduced to its derived fields. */
  datatype Analysis = Analysis(code: string, name: string, industry: string, fScore: nat,
                               roaIncreased: bool, leverageImproved: bool)

  /**
   * `analyze_stock`: the info record supplies name and industry (the code and
   * '未知行业' without it); a snapshot of None, after exhausted retries, makes
   * the scorer raise, which the function catches and turns into None.
   */
  function AnalyzeStock(code: string, info: Option<Info>, snapshot: Option<Snapshot>): (r: Option<Analysis>)
    ensures r.Some? <==> snapshot.Some?
    ensures r.Some? ==> (r.value.fScore == Count(CalculateFScore(snapshot.value).details) &&
      r.value.roaIncreased == CalculateFScore(snapshot.value).details[2] &&
      r.value.name == (if info.Some? then info.value.name else code))
  {
    if snapshot.None? then None
    else
      var s := CalculateFScore(snapshot.value);
      Some(Analysis(code, if info.Some? then info.value.name else code,
        if info.Some? then info.value.industry else "未知行业",
        s.fScore, s.details[2], s.details[4]))
  }

  /** A returned analysis never reports ROA growth, since the priors are copies. */
  lemma AnalysisNeverRoaIncreased(code: string, info: Option<Info>, balance: Option<map<string, string>>,
                                  profit: Option<map<string, string>>, cashTruthy: bool)
    ensures var r := AnalyzeStock(code, info, Some(BuildSnapshot(info, balance, profit, cashTruthy)));
      r.Some? && !r.value.roaIncreased && 2 <= r.value.fScore <= 7
  {
    ScoreFollowsFetches(info, balance, profit, cashTruthy);
  }
}
