// get_stock_fscore_baostock.py: the login session, the quarter walk-back of
// `get_financial_data`, `calculate_f_score` and the `save_f_score_results` merge.

module BaostockFScore {
  import opened Py
  import opened Scoring
  import opened Tables
  import Retry

  /** The keys of the financial-data dictionary; `current` selects the `current_` prefix. */
  datatype Key = Roa(current: bool) | GrossMargin(current: bool) | Leverage(current: bool) |
                 CurrentRatio(current: bool) | CashFlow(current: bool) | Turnover(current: bool)

  type FinMap = map<Key, Option<Float>>

  /** `d.get(k)`: a missing key reads as None. */
  function Get(m: FinMap, k: Key): Option<Float>
  {
    if k in m then m[k] else None
  }

  /** `d.get(k, 0)` */
  function GetOrZero(m: FinMap, k: Key): Option<Float>
  {
    if k in m then m[k] else Some(Fin(0.0))
  }

  /**
   * `calculate_f_score`. The details list `no_new_equity` as 1 but no point is added
   * for it; accruals is the conjunction of the first two tests.
   */
  function CalculateFScore(m: FinMap): (r: Scored)
    ensures |r.details| == 9 && r.details[6]
    ensures r.fScore + 1 == Count(r.details) && r.fScore <= 8
    ensures r.details[3] <==> r.details[0] && r.details[1]
  {
    var roa := GetOrZero(m, Roa(true));
    var ocf := GetOrZero(m, CashFlow(true));
    var b0, b1 := Positive(roa), Positive(ocf);
    var b2 := Increased(roa, Get(m, Roa(false)));
    var b3 := ocf.Some? && roa.Some? && Gt(ocf.value, Fin(0.0)) && Gt(roa.value, Fin(0.0));
    var b4 := Decreased(Get(m, Leverage(true)), Get(m, Leverage(false)));
    var b5 := Increased(Get(m, CurrentRatio(true)), Get(m, CurrentRatio(false)));
    var b7 := Increased(Get(m, GrossMargin(true)), Get(m, GrossMargin(false)));
    var b8 := Increased(Get(m, Turnover(true)), Get(m, Turnover(false)));
    CountNine(b0, b1, b2, b3, b4, b5, true, b7, b8);
    Scored(Point(b0) + Point(b1) + Point(b2) + Point(b3) + Point(b4) + Point(b5) + Point(b7) + Point(b8),
      [b0, b1, b2, b3, b4, b5, true, b7, b8])
  }

  /**
   * Missing current ROA and cash flow fail tests 1, 2 and 4; a comparison fails
   * when its prior operand is missing, and every comparison fails on an empty
   * dictionary, which scores 0.
   */
  lemma MissingKeys(m: FinMap)
    ensures Roa(true) !in m ==> !CalculateFScore(m).details[0] && !CalculateFScore(m).details[3]
    ensures CashFlow(true) !in m ==> !CalculateFScore(m).details[1] && !CalculateFScore(m).details[3]
    ensures Roa(false) !in m ==> !CalculateFScore(m).details[2]
    ensures Leverage(false) !in m ==> !CalculateFScore(m).details[4]
    ensures CurrentRatio(true) !in m || CurrentRatio(false) !in m ==> !CalculateFScore(m).details[5]
    ensures GrossMargin(true) !in m || GrossMargin(false) !in m ==> !CalculateFScore(m).details[7]
    ensures Turnover(true) !in m || Turnover(false) !in m ==> !CalculateFScore(m).details[8]
    ensures m == map[] ==> CalculateFScore(m).fScore == 0
  {
  }

  /**
   * The default of 0 takes part in test 3: a missing current ROA counts as 0 and
   * is an improvement over a negative prior ROA.
   */
  lemma MissingRoaCountsAsZero(m: FinMap)
    requires Roa(true) !in m && Roa(false) in m && m[Roa(false)] == Some(Fin(-1.0))
    ensures CalculateFScore(m).details[2]
  {
  }

  /** The statements queried per year and quarter. */
  datatype Statement = ProfitData | BalanceData | CashFlowData | OperationData

  /** The first row of a query, None for an error code or no rows. */
  type Query = (Statement, int, nat) -> Option<seq<string>>

  /** The first quarter, counting down from q, whose query has rows. */
  function LatestRow(query: Query, st: Statement, year: int, q: nat): Option<seq<string>>
    decreases q
  {
    if q == 0 then None
    else if query(st, year, q).Some? then query(st, year, q)
    else LatestRow(query, st, year, q - 1)
  }

  /** `for quarter in range(4, 0, -1)` with its `break` at the first quarter with rows. */
  method LatestQuarter(query: Query, st: Statement, year: int) returns (q: nat, row: Option<seq<string>>)
    ensures row == LatestRow(query, st, year, 4)
    ensures row.Some? ==> (1 <= q <= 4 && row == query(st, year, q) &&
      forall q' :: q < q' <= 4 ==> query(st, year, q').None?)
    ensures row.None? ==> q == 0 && forall q' :: 1 <= q' <= 4 ==> query(st, year, q').None?
  {
    q := 4;
    while q > 0
      invariant q <= 4
      invariant forall q' :: q < q' <= 4 ==> query(st, year, q').None?
      invariant LatestRow(query, st, year, 4) == LatestRow(query, st, year, q)
      decreases q
    {
      var r := query(st, year, q);
      if r.Some? {
        return q, r;
      }
      q := q - 1;
    }
    row := None;
  }

  /** `float(data[i]) if len(data) > i and data[i] else None`; the outer None is a raise. */
  function Column(row: seq<string>, i: nat): Option<Option<Float>>
  {
    if |row| > i then FloatIfNonEmpty(row[i]) else Some(None)
  }

  /** Writes `keys[j] := Column(row, cols[j])` for every j, or None when a conversion fails. */
  function WriteRow(m: FinMap, row: Option<seq<string>>, k1: Key, c1: nat, k2: Option<Key>, c2: nat): Option<FinMap>
  {
    if row.None? then Some(m)
    else if Column(row.value, c1).None? then None
    else if k2.Some? && Column(row.value, c2).None? then None
    else
      var m1 := m[k1 := Column(row.value, c1).value];
      Some(if k2.Some? then m1[k2.value := Column(row.value, c2).value] else m1)
  }

  /** One pass of the year loop: profit, balance and cash flow walked back, turnover from Q4. */
  function YearUpdate(m: FinMap, query: Query, year: int, cur: bool): Option<FinMap>
  {
    YearWrites(m, LatestRow(query, ProfitData, year, 4), LatestRow(query, BalanceData, year, 4),
               LatestRow(query, CashFlowData, year, 4), query(OperationData, year, 4), cur)
  }

  /** The four rows of a year written in turn; None as soon as a conversion raises. */
  function YearWrites(m: FinMap, profit: Option<seq<string>>, balance: Option<seq<string>>,
                      cash: Option<seq<string>>, operation: Option<seq<string>>, cur: bool): Option<FinMap>
  {
    match WriteRow(m, profit, Roa(cur), 4, Some(GrossMargin(cur)), 7)
    case None => None
    case Some(m1) =>
      match WriteRow(m1, balance, Leverage(cur), 13, Some(CurrentRatio(cur)), 14)
      case None => None
      case Some(m2) =>
        match WriteRow(m2, cash, CashFlow(cur), 24, None, 0)
        case None => None
        case Some(m3) => WriteRow(m3, operation, Turnover(cur), 3, None, 0)
  }

  /** The dictionary after year offsets `offset`..1; None when a conversion raised. */
  function Years(m: FinMap, query: Query, currentYear: int, offset: nat): Option<FinMap>
    decreases 2 - offset
  {
    if offset >= 2 then Some(m)
    else match YearUpdate(m, query, currentYear - offset, offset == 0)
      case None => None
      case Some(m') => Years(m', query, currentYear, offset + 1)
  }

  /** One year of `get_financial_data`, with its three walk-back loops. */
  method FetchYear(m: FinMap, query: Query, year: int, cur: bool) returns (r: Option<FinMap>)
    ensures r == YearUpdate(m, query, year, cur)
  {
    var q1, profit := LatestQuarter(query, ProfitData, year);
    r := WriteRow(m, profit, Roa(cur), 4, Some(GrossMargin(cur)), 7);
    if r.None? { return; }
    var q2, balance := LatestQuarter(query, BalanceData, year);
    r := WriteRow(r.value, balance, Leverage(cur), 13, Some(CurrentRatio(cur)), 14);
    if r.None? { return; }
    var q3, cash := LatestQuarter(query, CashFlowData, year);
    r := WriteRow(r.value, cash, CashFlow(cur), 24, None, 0);
    if r.None? { return; }
    r := WriteRow(r.value, query(OperationData, year, 4), Turnover(cur), 3, None, 0);
  }

  /** Year offset 0 writes only `current_` keys, offset 1 only `previous_` keys. */
  lemma YearUpdateKeys(m: FinMap, query: Query, year: int, cur: bool)
    ensures var r := YearUpdate(m, query, year, cur);
      r.Some? ==> forall k: Key :: k.current != cur ==> (k in r.value <==> k in m) && (k in m ==> r.value[k] == m[k])
    ensures var r := YearUpdate(m, query, year, cur);
      r.Some? ==> (Roa(cur) in r.value <==> Roa(cur) in m || LatestRow(query, ProfitData, year, 4).Some?)
    ensures var r := YearUpdate(m, query, year, cur);
      r.Some? && LatestRow(query, ProfitData, year, 4).Some? ==>
        r.value[Roa(cur)] == Column(LatestRow(query, ProfitData, year, 4).value, 4).value
  {
    YearWritesKeys(m, LatestRow(query, ProfitData, year, 4), LatestRow(query, BalanceData, year, 4),
                   LatestRow(query, CashFlowData, year, 4), query(OperationData, year, 4), cur);
  }

  lemma YearWritesKeys(m: FinMap, profit: Option<seq<string>>, balance: Option<seq<string>>,
                       cash: Option<seq<string>>, operation: Option<seq<string>>, cur: bool)
    ensures var r := YearWrites(m, profit, balance, cash, operation, cur);
      r.Some? ==> forall k: Key :: k.current != cur ==> (k in r.value <==> k in m) && (k in m ==> r.value[k] == m[k])
    ensures var r := YearWrites(m, profit, balance, cash, operation, cur);
      r.Some? ==> (Roa(cur) in r.value <==> Roa(cur) in m || profit.Some?)
    ensures var r := YearWrites(m, profit, balance, cash, operation, cur);
      r.Some? && profit.Some? ==> r.value[Roa(cur)] == Column(profit.value, 4).value
  {
    var r := YearWrites(m, profit, balance, cash, operation, cur);
    if r.Some? {
      var w1 := WriteRow(m, profit, Roa(cur), 4, Some(GrossMargin(cur)), 7).value;
      var w2 := WriteRow(w1, balance, Leverage(cur), 13, Some(CurrentRatio(cur)), 14).value;
      var w3 := WriteRow(w2, cash, CashFlow(cur), 24, None, 0).value;
      assert r == WriteRow(w3, operation, Turnover(cur), 3, None, 0);
      WriteRowKeys(m, profit, Roa(cur), 4, Some(GrossMargin(cur)), 7, cur);
      WriteRowKeys(w1, balance, Leverage(cur), 13, Some(CurrentRatio(cur)), 14, cur);
      WriteRowKeys(w2, cash, CashFlow(cur), 24, None, 0, cur);
      WriteRowKeys(w3, operation, Turnover(cur), 3, None, 0, cur);
      SameOtherYearTrans(m, w1, w2, cur);
      SameOtherYearTrans(m, w2, w3, cur);
      SameOtherYearTrans(m, w3, r.value, cur);
      assert SameOtherYear(m, r.value, cur);
    }
  }

  /** Every key of the other year is present in both or neither, with the same value. */
  ghost predicate SameOtherYear(m: FinMap, r: FinMap, cur: bool)
  {
    forall k: Key :: k.current != cur ==> (k in r <==> k in m) && (k in m ==> r[k] == m[k])
  }

  lemma SameOtherYearTrans(a: FinMap, b: FinMap, c: FinMap, cur: bool)
    requires SameOtherYear(a, b, cur) && SameOtherYear(b, c, cur)
    ensures SameOtherYear(a, c, cur)
  {
  }

  /** A written row touches only its one or two keys. */
  lemma WriteRowKeys(m: FinMap, row: Option<seq<string>>, k1: Key, c1: nat, k2: Option<Key>, c2: nat, cur: bool)
    requires k1.current == cur && (k2.Some? ==> k2.value.current == cur && k2.value != k1)
    ensures var r := WriteRow(m, row, k1, c1, k2, c2);
      r.Some? ==> (SameOtherYear(m, r.value, cur) &&
        (forall k :: k != k1 && (k2.None? || k != k2.value) ==> (k in r.value <==> k in m) && (k in m ==> r.value[k] == m[k])) &&
        (k1 in r.value <==> k1 in m || row.Some?) &&
        (row.Some? ==> r.value[k1] == Column(row.value, c1).value))
  {
  }

  /**
   * The login session: `is_logged_in` is set by a successful `bs.login()` and
   * cleared by `logout_baostock`; `logins` counts the calls to `bs.login()`.
   */
  class Calculator {
    var isLoggedIn: bool
    var logins: nat

    constructor ()
      ensures !isLoggedIn && logins == 0
    {
      isLoggedIn := false;
      logins := 0;
    }

    /** `login_baostock`; `serverOk` is the outcome `bs.login()` would have. */
    method Login(serverOk: bool) returns (ok: bool)
      modifies this
      ensures old(isLoggedIn) ==> ok && isLoggedIn && logins == old(logins)
      ensures !old(isLoggedIn) ==> ok == serverOk && isLoggedIn == serverOk && logins == old(logins) + 1
    {
      if isLoggedIn {
        return true;
      }
      logins := logins + 1;
      if serverOk {
        isLoggedIn := true;
        return true;
      }
      return false;
    }

    method Logout()
      modifies this
      ensures !isLoggedIn && logins == old(logins)
    {
      if isLoggedIn {
        isLoggedIn := false;
      }
    }

    /**
     * `get_financial_data`: None without a session; otherwise two years of
     * statements, or an exception when a cell does not convert.
     */
    method GetFinancialData(query: Query, currentYear: int, serverOk: bool)
      returns (r: Retry.Outcome<Option<FinMap>>)
      modifies this
      ensures isLoggedIn == (old(isLoggedIn) || serverOk)
      ensures !isLoggedIn ==> r == Retry.Returned(None)
      ensures isLoggedIn ==> r == match Years(map[], query, currentYear, 0)
        case None => Retry.Raised
        case Some(m) => Retry.Returned(Some(m))
    {
      var ok := Login(serverOk);
      if !ok {
        return Retry.Returned(None);
      }
      var m: FinMap := map[];
      var offset: nat := 0;
      while offset < 2
        invariant offset <= 2
        invariant Years(m, query, currentYear, offset) == Years(map[], query, currentYear, 0)
        invariant isLoggedIn
        decreases 2 - offset
      {
        var next := FetchYear(m, query, currentYear - offset, offset == 0);
        if next.None? {
          return Retry.Raised;
        }
        m := next.value;
        offset := offset + 1;
      }
      r := Retry.Returned(Some(m));
    }
  }

  /** One row of the results CSV. */
  datatype ResultRow = ResultRow(name: string, code: string, industry: string, fScore: int, details: seq<int>)

  function Code(row: ResultRow): string { row.code }

  /** Descending F-Score order. */
  function ByScoreDesc(): (ResultRow, ResultRow) -> bool
  {
    (a: ResultRow, b: ResultRow) => a.fScore >= b.fScore
  }

  /**
   * `save_f_score_results`: None when there is nothing to save (the function
   * returns False); otherwise the file written. Appending to an existing file
   * merges it with the new rows, sorts and keeps the last row of each code.
   */
  function SaveFScoreResults(rows: seq<ResultRow>, append: bool, existing: Option<seq<ResultRow>>): Option<seq<ResultRow>>
  {
    if |rows| == 0 then None
    else
      var sorted := SortBy(rows, ByScoreDesc());
      if append && existing.Some? then Some(DedupLast(SortBy(existing.value + sorted, ByScoreDesc()), Code))
      else Some(sorted)
  }

  /**
   * The merge is sorted by descending F-Score, has unique codes and loses none,
   * holds only input rows, and keeps for each code a row of minimal score.
   */
  lemma SaveMerge(rows: seq<ResultRow>, existing: seq<ResultRow>)
    requires |rows| > 0
    ensures var out := SaveFScoreResults(rows, true, Some(existing)).value;
      SortedBy(out, ByScoreDesc()) && UniqueKeys(out, Code) &&
      Keys(out, Code) == Keys(existing + rows, Code) &&
      (forall x :: x in out ==> x in existing + rows) &&
      forall x, y :: x in out && y in existing + rows && y.code == x.code ==> x.fScore <= y.fScore
  {
    var le := ByScoreDesc();
    var sorted := SortBy(rows, le);
    var merged := existing + sorted;
    var all := SortBy(merged, le);
    var out := DedupLast(all, Code);
    assert SaveFScoreResults(rows, true, Some(existing)) == Some(out);
    assert forall x :: x in all <==> x in existing + rows by {
      SortByMembers(rows, le);
      SortByMembers(merged, le);
    }
    assert SortedBy(all, le) by {
      SortByCorrect(merged, le);
    }
    DedupLastSorted(all, Code, le);
    DedupLastProps(all, Code);
    assert Keys(all, Code) == Keys(existing + rows, Code) by {
      SameMembersSameKeys(all, existing + rows, Code);
    }
    DedupLastKeepsLast(all, Code, le);
    forall x, y | x in out && y in existing + rows && y.code == x.code ensures x.fScore <= y.fScore {
      var j :| 0 <= j < |all| && all[j] == y;
      assert le(all[j], x);
    }
  }

  /** Overwriting writes exactly the new rows, sorted by descending F-Score. */
  lemma SaveOverwrite(rows: seq<ResultRow>, existing: Option<seq<ResultRow>>)
    requires |rows| > 0
    ensures var out := SaveFScoreResults(rows, false, existing).value;
      SortedBy(out, ByScoreDesc()) && multiset(out) == multiset(rows)
  {
    SortByCorrect(rows, ByScoreDesc());
  }
}
