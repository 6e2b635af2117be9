// get_stockA_fundamentals_baostock.py: the quarter arithmetic and the nested
// year / quarter walk-back of `get_fundamentals_from_baostock`. The limiter is
// `RateLimit.RateLimiter` over `BaostockLimits`; the retrying `main` is
// `Resume.ResumeRun` with `Downloaders.BaostockFundamentalsMain`.

module BaostockFundamentals {
  import opened Py
  import opened MultiSourceFundamentals

  /** `(month - 1) // 3 + 1`: the quarter holding the month. */
  function CurrentQuarter(month: int): (q: int)
    requires 1 <= month <= 12
    ensures 1 <= q <= 4
    ensures 3 * (q - 1) < month <= 3 * q
  {
    (month - 1) / 3 + 1
  }

  datatype Period = Period(year: int, quarter: int)

  /** The period queried at year offset yo and quarter offset qo, wrapping into the previous year. */
  function PeriodAt(currentYear: int, currentQuarter: int, yo: nat, qo: nat): Period
  {
    var year := currentYear - yo;
    var quarter := currentQuarter - qo;
    if quarter < 1 then Period(year - 1, quarter + 4) else Period(year, quarter)
  }

  /** Periods in chronological order: four quarters per year. */
  function Index(p: Period): int
  {
    4 * p.year + p.quarter
  }

  /** Every queried quarter lies in 1..4, and the period is the offset's distance back from now. */
  lemma PeriodInRange(currentYear: int, currentQuarter: int, yo: nat, qo: nat)
    requires 1 <= currentQuarter <= 4 && qo < 4
    ensures 1 <= PeriodAt(currentYear, currentQuarter, yo, qo).quarter <= 4
    ensures Index(PeriodAt(currentYear, currentQuarter, yo, qo)) == 4 * (currentYear - yo) + currentQuarter - qo
  {
  }

  /** The walk-back visits strictly earlier periods as (year offset, quarter offset) grows. */
  lemma PeriodsDecrease(currentYear: int, currentQuarter: int, yo: nat, qo: nat, yo': nat, qo': nat)
    requires 1 <= currentQuarter <= 4 && qo < 4 && qo' < 4
    requires yo < yo' || (yo == yo' && qo < qo')
    ensures Index(PeriodAt(currentYear, currentQuarter, yo', qo')) < Index(PeriodAt(currentYear, currentQuarter, yo, qo))
  {
    PeriodInRange(currentYear, currentQuarter, yo, qo);
    PeriodInRange(currentYear, currentQuarter, yo', qo');
  }

  /** The 2007 floor is checked before the wrap: in the first quarter of 2007 the walk-back queries 2006. */
  lemma FloorBeforeWrap()
    ensures 2007 - 0 >= 2007 && PeriodAt(2007, 1, 0, 1) == Period(2006, 4)
  {
  }

  /** The 29 columns of the baostock record. */
  const FullKeys: set<string> := {"股票代码", "股票名称", "股票上市日期", "股票上市地点", "股票所属行业",
    "每股收益", "每股净资产", "净资产收益率", "总资产收益率", "毛利率", "净利率", "营业利润率",
    "市盈率（静）", "市盈率（TTM）", "市净率", "市销率", "股息率",
    "营业收入增长率", "净利润增长率", "净资产增长率", "净利润增速",
    "资产负债率", "流动比率", "速动比率", "总资产周转率", "存货周转率", "应收账款周转率",
    "每股经营现金流", "现金流量比率"}

  /** The record before the loops: the code, its location, every other column empty. */
  function Initial(code: string): (r: Record)
    ensures r.Keys == FullKeys && r[NameKey] == ""
  {
    map k | k in FullKeys :: if k == CodeKey then code else if k == LocationKey then Location(code) else ""
  }

  /**
   * The provider for one code: the rows of each query by period (none on an
   * error code), the basic-information rows, the daily k-line rows by year, and
   * `str` of a parsed float.
   */
  datatype Provider = Provider(
    available: bool, loginOk: bool,
    profit: (int, int) -> seq<seq<string>>, balance: (int, int) -> seq<seq<string>>,
    cash: (int, int) -> seq<seq<string>>, basic: seq<seq<string>>, kdata: int -> seq<seq<string>>,
    show: Float -> string)

  /** `if len(data) > i: fundamental[key] = str(data[i])` */
  function SetIfPresent(f: Record, key: string, data: seq<string>, i: nat): Record
  {
    if |data| > i then f[key := data[i]] else f
  }

  /** `str(data[i]) if len(data) > i else ''` */
  function SetOrEmpty(f: Record, key: string, data: seq<string>, i: nat): Record
  {
    f[key := if |data| > i then data[i] else ""]
  }

  /** The first profit row: ROE, net, operating and gross margins, EPS and BPS. */
  function ProfitFields(f: Record, data: seq<string>): Record
  {
    var f1 := SetIfPresent(SetIfPresent(SetIfPresent(f, "净资产收益率", data, 4), "净利率", data, 5), "营业利润率", data, 6);
    SetIfPresent(SetIfPresent(SetIfPresent(f1, "毛利率", data, 7), "每股收益", data, 11), "每股净资产", data, 12)
  }

  /** `str(float(x) if x else 0)`: '0' for an empty cell; None when the cell does not parse. */
  function RatioText(x: string, show: Float -> string): Option<string>
  {
    if x == "" then Some("0")
    else match ParseFloat(x)
      case None => None
      case Some(v) => Some(show(v))
  }

  /**
   * The first balance row: leverage from column 13; from column 14 on, the
   * current and quick ratios (columns 14 and 15). A row of exactly 15 columns
   * raises on `data[15]`, and so does a ratio that does not parse (None).
   */
  function BalanceFields(f: Record, rows: seq<seq<string>>, show: Float -> string): Option<Record>
  {
    if |rows| == 0 then Some(f)
    else
      var data := rows[0];
      var f1 := SetIfPresent(f, "资产负债率", data, 13);
      if |data| <= 14 then Some(f1)
      else
        var cr := RatioText(data[14], show);
        if cr.None? || |data| <= 15 then None
        else
          var qr := RatioText(data[15], show);
          if qr.None? then None
          else Some(f1["流动比率" := cr.value]["速动比率" := qr.value])
  }

  /** The first cash-flow row: operating cash flow per share from column 24. */
  function CashFields(f: Record, rows: seq<seq<string>>): Record
  {
    if |rows| == 0 then f else SetIfPresent(f, "每股经营现金流", rows[0], 24)
  }

  /** The first basic row: name, listing date and industry, each '' when the row is too short. */
  function BasicFields(f: Record, rows: seq<seq<string>>): Record
  {
    if |rows| == 0 then f
    else SetOrEmpty(SetOrEmpty(SetOrEmpty(f, NameKey, rows[0], 1), "股票上市日期", rows[0], 3), "股票所属行业", rows[0], 7)
  }

  /** The last k-line row: PE (TTM), PB, PS and the cash-flow ratio. */
  function KdataFields(f: Record, rows: seq<seq<string>>): Record
  {
    if |rows| == 0 then f
    else
      var last := rows[|rows| - 1];
      var f1 := SetOrEmpty(SetOrEmpty(f, "市盈率（TTM）", last, 1), "市净率", last, 2);
      SetOrEmpty(SetOrEmpty(f1, "市销率", last, 3), "现金流量比率", last, 4)
  }

  /** The body run for the first period with profit rows; None is a raise. */
  function Hit(f: Record, env: Provider, p: Period, rows: seq<seq<string>>): Option<Record>
    requires |rows| > 0
  {
    var f1 := ProfitFields(f, rows[0]);
    match BalanceFields(f1, env.balance(p.year, p.quarter), env.show)
    case None => None
    case Some(f2) => Some(KdataFields(BasicFields(CashFields(f2, env.cash(p.year, p.quarter)), env.basic), env.kdata(p.year)))
  }

  /** The quarter loop from offset qo on: it stops at the 2007 floor or after the first period with profit rows. */
  function Quarters(f: Record, env: Provider, currentYear: int, currentQuarter: int, yo: nat, qo: nat): Option<Record>
    decreases 4 - qo
  {
    if qo >= 4 || currentYear - yo < 2007 then Some(f)
    else
      var p := PeriodAt(currentYear, currentQuarter, yo, qo);
      var rows := env.profit(p.year, p.quarter);
      if |rows| > 0 then Hit(f, env, p, rows)
      else Quarters(f, env, currentYear, currentQuarter, yo, qo + 1)
  }

  /** `if fundamental['股票名称']`: a name has been found. */
  predicate Named(f: Record)
  {
    NameKey in f && f[NameKey] != ""
  }

  /** The year loop from offset yo on: it stops once a name has been found. */
  function Years(f: Record, env: Provider, currentYear: int, currentQuarter: int, yo: nat): Option<Record>
    decreases 2 - yo
  {
    if yo >= 2 then Some(f)
    else match Quarters(f, env, currentYear, currentQuarter, yo, 0)
      case None => None
      case Some(f') =>
        if Named(f') then Some(f') else Years(f', env, currentYear, currentQuarter, yo + 1)
  }

  /** `净利润增速` takes `净利润增长率` when only the latter is set. */
  function DeriveGrowth(f: Record): Record
  {
    if "净利润增速" in f && "净利润增长率" in f && f["净利润增速"] == "" && f["净利润增长率"] != "" then
      f["净利润增速" := f["净利润增长率"]]
    else f
  }

  /** The outcome of `get_fundamentals_from_baostock`: a record only when it carries a name. */
  function Fetched(code: string, env: Provider, currentYear: int, month: int): (r: Option<Record>)
    requires 1 <= month <= 12
    ensures r.Some? ==> Named(r.value)
  {
    if !env.available || !env.loginOk then None
    else match Years(Initial(code), env, currentYear, CurrentQuarter(month), 0)
      case None => None
      case Some(f) => if Named(f) then DeriveKeepsName(f); Some(DeriveGrowth(f)) else None
  }

  /** Deriving the growth column leaves the name alone. */
  lemma DeriveKeepsName(f: Record)
    requires Named(f)
    ensures Named(DeriveGrowth(f)) && DeriveGrowth(f)[NameKey] == f[NameKey]
  {
  }

  /** The inner loop of `get_fundamentals_from_baostock` for one year offset; None is a raise. */
  method QuarterLoop(f0: Record, env: Provider, currentYear: int, currentQuarter: int, yo: nat)
    returns (r: Option<Record>)
    ensures r == Quarters(f0, env, currentYear, currentQuarter, yo, 0)
  {
    var f := f0;
    var qo: nat := 0;
    while qo < 4
      invariant qo <= 4
      invariant Quarters(f, env, currentYear, currentQuarter, yo, qo) == Quarters(f0, env, currentYear, currentQuarter, yo, 0)
      decreases 4 - qo
    {
      var year := currentYear - yo;
      if year < 2007 {
        break;
      }
      var quarter := currentQuarter - qo;
      if quarter < 1 {
        quarter := quarter + 4;
        year := year - 1;
      }
      var rows := env.profit(year, quarter);
      assert PeriodAt(currentYear, currentQuarter, yo, qo) == Period(year, quarter);
      if |rows| > 0 {
        return Hit(f, env, Period(year, quarter), rows);
      }
      assert Quarters(f, env, currentYear, currentQuarter, yo, qo) == Quarters(f, env, currentYear, currentQuarter, yo, qo + 1);
      qo := qo + 1;
    }
    r := Some(f);
  }

  /** `get_fundamentals_from_baostock`: the year loop around `QuarterLoop`, with its break on a found name. */
  method GetFundamentalsFromBaostock(code: string, env: Provider, currentYear: int, month: int)
    returns (r: Option<Record>)
    requires 1 <= month <= 12
    ensures r == Fetched(code, env, currentYear, month)
  {
    if !env.available || !env.loginOk {
      return None;
    }
    var f := Initial(code);
    var currentQuarter := (month - 1) / 3 + 1;
    assert currentQuarter == CurrentQuarter(month);
    var yo: nat := 0;
    while yo < 2
      invariant yo <= 2
      invariant Years(f, env, currentYear, currentQuarter, yo) == Years(Initial(code), env, currentYear, currentQuarter, 0)
      decreases 2 - yo
    {
      var next := QuarterLoop(f, env, currentYear, currentQuarter, yo);
      if next.None? {
        return None;
      }
      f := next.value;
      if Named(f) {
        break;
      }
      yo := yo + 1;
    }
    assert Years(Initial(code), env, currentYear, currentQuarter, 0) == Some(f);
    if Named(f) {
      r := Some(DeriveGrowth(f));
    } else {
      r := None;
    }
  }

  /** Period qo is the first from qo0 on whose profit query has rows. */
  predicate FirstHitAt(env: Provider, currentYear: int, currentQuarter: int, yo: nat, qo0: nat, qo: nat)
  {
    qo0 <= qo < 4 &&
    |env.profit(PeriodAt(currentYear, currentQuarter, yo, qo).year, PeriodAt(currentYear, currentQuarter, yo, qo).quarter)| > 0 &&
    forall j :: qo0 <= j < qo ==>
      |env.profit(PeriodAt(currentYear, currentQuarter, yo, j).year, PeriodAt(currentYear, currentQuarter, yo, j).quarter)| == 0
  }

  /**
   * From 2007 on, the quarter loop runs the body exactly for the first period
   * with profit rows, and leaves the record unchanged when there is none.
   */
  lemma {:induction false} QuartersFirstHit(f: Record, env: Provider, currentYear: int, currentQuarter: int,
                                            yo: nat, qo0: nat, qo: nat)
    requires currentYear - yo >= 2007
    ensures FirstHitAt(env, currentYear, currentQuarter, yo, qo0, qo) ==>
      var p := PeriodAt(currentYear, currentQuarter, yo, qo);
      Quarters(f, env, currentYear, currentQuarter, yo, qo0) == Hit(f, env, p, env.profit(p.year, p.quarter))
    ensures (forall j :: qo0 <= j < 4 ==>
      |env.profit(PeriodAt(currentYear, currentQuarter, yo, j).year, PeriodAt(currentYear, currentQuarter, yo, j).quarter)| == 0) ==>
      Quarters(f, env, currentYear, currentQuarter, yo, qo0) == Some(f)
    decreases 4 - qo0
  {
    if qo0 < 4 {
      QuartersFirstHit(f, env, currentYear, currentQuarter, yo, qo0 + 1, qo);
    }
  }

  /** Before 2007 nothing is queried: no name is found and the result is None. */
  lemma NoDataBefore2007(code: string, env: Provider, currentYear: int, month: int)
    requires 1 <= month <= 12 && currentYear < 2007
    ensures Fetched(code, env, currentYear, month).None?
  {
    var f := Initial(code);
    var cq := CurrentQuarter(month);
    assert Quarters(f, env, currentYear, cq, 0, 0) == Some(f);
    assert Quarters(f, env, currentYear, cq, 1, 0) == Some(f);
    assert Years(f, env, currentYear, cq, 1) == Some(f);
  }

  /** Empty ratio cells are recorded as '0' rather than left empty. */
  lemma EmptyRatiosBecomeZero(f: Record, rows: seq<seq<string>>, show: Float -> string)
    requires |rows| > 0 && |rows[0]| > 15 && rows[0][14] == "" && rows[0][15] == ""
    ensures BalanceFields(f, rows, show).Some?
    ensures BalanceFields(f, rows, show).value["流动比率"] == "0" && BalanceFields(f, rows, show).value["速动比率"] == "0"
  {
  }

  /** A balance row of exactly 15 columns raises on the quick ratio, which discards the whole record. */
  lemma FifteenColumnBalanceRaises(f: Record, rows: seq<seq<string>>, show: Float -> string)
    requires |rows| > 0 && |rows[0]| == 15 && (rows[0][14] == "" || ParseFloat(rows[0][14]).Some?)
    ensures BalanceFields(f, rows, show).None?
  {
  }
}
