// get_stockA_fundamentals_v2.py: the record of `get_fundamentals_simple` and the
// numeric columns of its `save_batch_to_csv`. The resumable `main` is
// `Resume.ResumeRun` with `Downloaders.SimpleFundamentalsMain`.

module SimpleFundamentals {
  import opened Py
  import opened Strings
  import opened MultiSourceFundamentals

  /** The spot row's name, PE (TTM) and industry, as text. */
  datatype Spot = Spot(name: string, pe: string, industry: string)

  /** The latest financial-abstract row's six indicators, as text. */
  datatype Abstract = Abstract(eps: string, grossMargin: string, netMargin: string, roe: string,
                               debtRatio: string, profitGrowth: string)

  /**
   * The name: the stripped spot name, or when that is empty the stripped
   * `stock_individual_info_em` name (None when that call raises).
   */
  function SimpleName(spot: Option<Spot>, infoName: Option<string>): (n: string)
    ensures spot.Some? && Strip(spot.value.name) != "" ==> n == Strip(spot.value.name)
    ensures (spot.None? || Strip(spot.value.name) == "") ==> n == (if infoName.Some? then Strip(infoName.value) else "")
  {
    var name := if spot.Some? then Strip(spot.value.name) else "";
    if name != "" then name else if infoName.Some? then Strip(infoName.value) else ""
  }

  /**
   * `get_fundamentals_simple`: a missing or raising lookup leaves its columns
   * empty; the record always has the thirteen short columns.
   */
  function GetFundamentalsSimple(code: string, spot: Option<Spot>, abs: Option<Abstract>, infoName: Option<string>): (r: Record)
    ensures r.Keys == ShortKeys
    ensures "市盈率（静）" in r && "市盈率（TTM）" in r && NameKey in r && CodeKey in r
    ensures r["市盈率（静）"] == r["市盈率（TTM）"] == (if spot.Some? then Strip(spot.value.pe) else "")
    ensures r[NameKey] == SimpleName(spot, infoName) && r[CodeKey] == code
  {
    var pe := if spot.Some? then Strip(spot.value.pe) else "";
    var industry := if spot.Some? then Strip(spot.value.industry) else "";
    var a := if abs.Some? then abs.value else Abstract("", "", "", "", "", "");
    map["股票上市日期" := "", "股票所属行业" := industry, "每股收益" := Strip(a.eps),
        "毛利率" := Strip(a.grossMargin), "净利率" := Strip(a.netMargin), "资产收益率" := Strip(a.roe),
        "资产负债率" := Strip(a.debtRatio), "净利润增速" := Strip(a.profitGrowth), "股票上市地点" := Location(code),
        "市盈率（静）" := pe, "市盈率（TTM）" := pe, "股票名称" := SimpleName(spot, infoName), "股票代码" := code]
  }

  /** Without the financial abstract every indicator column is empty; the location follows the code. */
  lemma SimpleRecordDefaults(code: string, spot: Option<Spot>, infoName: Option<string>)
    ensures var r := GetFundamentalsSimple(code, spot, None, infoName);
      r[LocationKey] == Location(code) && r["股票上市日期"] == "" &&
      r["每股收益"] == r["毛利率"] == r["净利率"] == r["资产收益率"] == r["资产负债率"] == r["净利润增速"] == ""
  {
  }

  /** A code is completed only with a non-empty name, which needs the spot row or the fallback lookup. */
  lemma NamedNeedsLookup(code: string, spot: Option<Spot>, abs: Option<Abstract>, infoName: Option<string>)
    ensures Accepted(Some(GetFundamentalsSimple(code, spot, abs, infoName))) ==>
      (spot.Some? && Strip(spot.value.name) != "") || (infoName.Some? && Strip(infoName.value) != "")
  {
  }

  /** The eight columns this `save_batch_to_csv` coerces, with `pd.to_numeric` alone. */
  const SimpleNumericColumns: set<string> := {"每股收益", "市盈率（静）", "市盈率（TTM）", "毛利率", "净利率",
    "资产收益率", "资产负债率", "净利润增速"}
}
