// stock_screeners/get_stockA_list.py, `get_stock_list`: the universe comes
// from the first provider with more than a hundred records (akshare, then
// tushare, then eastmoney), or from a preset list; duplicate codes are
// dropped keeping the first record, the list is sorted by code, and the
// market and industry distributions and the top ten industries are counted.

module StockUniverse {
  import opened Py
  import opened Strings
  import opened Tables

  /** One record of the universe: code, name, market (1 Shanghai, 0 Shenzhen), market name, industry, area. */
  datatype Stock = Stock(code: string, name: string, market: int, marketName: string, industry: string, area: string)

  /**
   * The market name of a Shenzhen record from the akshare list: main board
   * for "00", ChiNext for "30", the SME board otherwise.
   */
  function ShenzhenMarketName(code: string): (m: string)
    ensures m == "深圳主板" <==> StartsWith(code, "00")
    ensures m == "创业板" <==> StartsWith(code, "30")
    ensures m == "中小板" <==> !StartsWith(code, "00") && !StartsWith(code, "30")
  {
    if StartsWith(code, "00") then "深圳主板" else if StartsWith(code, "30") then "创业板" else "中小板"
  }

  /** A provider's list is used when it is non-empty and has more than a hundred records. */
  predicate Enough(stocks: Option<seq<Stock>>)
  {
    stocks.Some? && |stocks.value| > 100
  }

  /** The first provider, in order, whose list is used, with its name. */
  function FirstAccepted(sources: seq<(string, Option<seq<Stock>>)>): Option<(seq<Stock>, string)>
    decreases |sources|
  {
    if |sources| == 0 then None
    else if Enough(sources[0].1) then Some((sources[0].1.value, sources[0].0))
    else FirstAccepted(sources[1..])
  }

  /** The list used is that of the first provider with enough records. */
  lemma {:induction false} FirstAcceptedIsFirst(sources: seq<(string, Option<seq<Stock>>)>, i: nat)
    requires i < |sources| && Enough(sources[i].1)
    requires forall j :: 0 <= j < i ==> !Enough(sources[j].1)
    ensures FirstAccepted(sources) == Some((sources[i].1.value, sources[i].0))
  {
    if i > 0 {
      FirstAcceptedIsFirst(sources[1..], i - 1);
    }
  }

  /** The preset list is used exactly when no provider has enough records. */
  lemma {:induction false} FirstAcceptedNone(sources: seq<(string, Option<seq<Stock>>)>)
    ensures FirstAccepted(sources).None? <==> forall j :: 0 <= j < |sources| ==> !Enough(sources[j].1)
    decreases |sources|
  {
    if |sources| > 0 {
      FirstAcceptedNone(sources[1..]);
      assert forall j :: 1 <= j < |sources| ==> sources[j] == sources[1..][j - 1];
    }
  }

  /** The preset universe used when no provider answers with enough records. */
  const Preset: seq<Stock> := [
    Stock("600000", "浦发银行", 1, "上海主板", "银行", "上海"),
    Stock("600015", "华夏银行", 1, "上海主板", "银行", "北京"),
    Stock("600016", "民生银行", 1, "上海主板", "银行", "北京"),
    Stock("600036", "招商银行", 1, "上海主板", "银行", "深圳"),
    Stock("601009", "南京银行", 1, "上海主板", "银行", "江苏"),
    Stock("601166", "兴业银行", 1, "上海主板", "银行", "福建"),
    Stock("601169", "北京银行", 1, "上海主板", "银行", "北京"),
    Stock("601288", "农业银行", 1, "上海主板", "银行", "北京"),
    Stock("601328", "交通银行", 1, "上海主板", "银行", "上海"),
    Stock("601398", "工商银行", 1, "上海主板", "银行", "北京"),
    Stock("601939", "建设银行", 1, "上海主板", "银行", "北京"),
    Stock("601988", "中国银行", 1, "上海主板", "银行", "北京"),
    Stock("600519", "贵州茅台", 1, "上海主板", "白酒", "贵州"),
    Stock("600702", "舍得酒业", 1, "上海主板", "白酒", "四川"),
    Stock("600779", "水井坊", 1, "上海主板", "白酒", "四川"),
    Stock("600809", "山西汾酒", 1, "上海主板", "白酒", "山西"),
    Stock("600196", "复星医药", 1, "上海主板", "医药", "上海"),
    Stock("600276", "恒瑞医药", 1, "上海主板", "医药", "江苏"),
    Stock("600436", "片仔癀", 1, "上海主板", "医药", "福建"),
    Stock("600518", "康美药业", 1, "上海主板", "医药", "广东"),
    Stock("600030", "中信证券", 1, "上海主板", "券商", "深圳"),
    Stock("600104", "上汽集团", 1, "上海主板", "汽车", "上海"),
    Stock("600887", "伊利股份", 1, "上海主板", "食品", "内蒙古"),
    Stock("601012", "隆基绿能", 1, "上海主板", "新能源", "陕西"),
    Stock("601318", "中国平安", 1, "上海主板", "保险", "深圳"),
    Stock("000001", "平安银行", 0, "深圳主板", "银行", "深圳"),
    Stock("000002", "万科A", 0, "深圳主板", "房地产", "深圳"),
    Stock("000333", "美的集团", 0, "深圳主板", "家电", "广东"),
    Stock("000651", "格力电器", 0, "深圳主板", "家电", "广东"),
    Stock("000858", "五粮液", 0, "深圳主板", "白酒", "四川"),
    Stock("000999", "华润三九", 0, "深圳主板", "医药", "深圳"),
    Stock("002415", "海康威视", 0, "中小板", "安防", "浙江"),
    Stock("300015", "爱尔眼科", 0, "VENT", "医疗", "湖南"),
    Stock("300124", "汇川技术", 0, "VENT", "电气", "广东"),
    Stock("300750", "宁德时代", 0, "VENT", "新能源", "福建"),
    Stock("688036", "传音控股", 1, "科创板", "通信", "广东"),
    Stock("688111", "金山办公", 1, "科创板", "软件", "北京")
  ]

  const PresetSource := "预设列表"

  function StockCode(x: Stock): string { x.code }

  /** The codes a list carries. */
  function Codes(s: seq<Stock>): set<string>
  {
    Keys(s, StockCode)
  }

  /** The loop over the list with `seen_codes`: a record is kept when its code was not seen before. */
  function Unique(s: seq<Stock>): seq<Stock>
  {
    if |s| == 0 then []
    else
      var prev := Unique(s[..|s| - 1]);
      if s[|s| - 1].code in Codes(prev) then prev else prev + [s[|s| - 1]]
  }

  /** `sort(key=lambda x: x['code'])` */
  predicate CodeLe(a: Stock, b: Stock) { LexLe(a.code, b.code) }

  lemma CodeLeTotal()
    ensures TotalPreorder(CodeLe)
  {
    forall a: Stock, b: Stock
      ensures CodeLe(a, b) || CodeLe(b, a)
    {
      LexLeTotal(a.code, b.code);
    }
    forall a: Stock, b: Stock, c: Stock | CodeLe(a, b) && CodeLe(b, c)
      ensures CodeLe(a, c)
    {
      LexLeTrans(a.code, b.code, c.code);
    }
  }

  /** A count dict in insertion order: each key once, with its count. */
  type Counts = seq<(string, nat)>

  /** `counts[k] = counts.get(k, 0) + 1` */
  function Bump(e: Counts, k: string): Counts
  {
    if |e| == 0 then [(k, 1)]
    else if e[0].0 == k then [(k, e[0].1 + 1)] + e[1..]
    else [e[0]] + Bump(e[1..], k)
  }

  /** `counts.get(k, 0)` */
  function Lookup(e: Counts, k: string): nat
  {
    if |e| == 0 then 0 else if e[0].0 == k then e[0].1 else Lookup(e[1..], k)
  }

  function Sum(e: Counts): nat
  {
    if |e| == 0 then 0 else e[0].1 + Sum(e[1..])
  }

  function CountBy(s: seq<Stock>, key: Stock -> string): Counts
  {
    if |s| == 0 then [] else Bump(CountBy(s[..|s| - 1], key), key(s[|s| - 1]))
  }

  /** The number of records with that key. */
  function Occurrences(s: seq<Stock>, key: Stock -> string, k: string): nat
  {
    if |s| == 0 then 0 else Occurrences(s[..|s| - 1], key, k) + (if key(s[|s| - 1]) == k then 1 else 0)
  }

  function MarketKey(x: Stock): string { x.marketName }

  /** `stock['industry'] or '其他'` */
  function IndustryKey(x: Stock): string { if x.industry == "" then "其他" else x.industry }

  /** `sorted(..., key=count, reverse=True)`: stable, so equal counts keep their insertion order. */
  predicate CountDesc(a: (string, nat), b: (string, nat)) { a.1 >= b.1 }

  lemma CountDescTotal()
    ensures TotalPreorder(CountDesc)
  {
  }

  /** The provider loop: the first list that is used, or the preset list. */
  method ChooseSource(sources: seq<(string, Option<seq<Stock>>)>) returns (allStocks: seq<Stock>, dataSource: string)
    ensures FirstAccepted(sources).Some? ==>
      (allStocks == FirstAccepted(sources).value.0 && dataSource == FirstAccepted(sources).value.1)
    ensures FirstAccepted(sources).None? ==> allStocks == Preset && dataSource == PresetSource
  {
    allStocks := [];
    dataSource := "";
    var i := 0;
    while i < |sources|
      invariant i <= |sources|
      invariant FirstAccepted(sources[i..]) == FirstAccepted(sources)
      invariant allStocks == []
    {
      var stocks := sources[i].1;
      if stocks.Some? && |stocks.value| > 0 && |stocks.value| > 100 {
        allStocks := stocks.value;
        dataSource := sources[i].0;
        return;
      }
      assert sources[i..][1..] == sources[i + 1..];
      i := i + 1;
    }
    if |allStocks| == 0 || |allStocks| < 100 {
      allStocks := Preset;
      dataSource := PresetSource;
    }
  }

  /** The de-duplication loop. */
  method Dedup(allStocks: seq<Stock>) returns (uniqueStocks: seq<Stock>)
    ensures uniqueStocks == Unique(allStocks)
  {
    var seenCodes: set<string> := {};
    uniqueStocks := [];
    var j := 0;
    while j < |allStocks|
      invariant j <= |allStocks|
      invariant uniqueStocks == Unique(allStocks[..j]) && seenCodes == Codes(uniqueStocks)
    {
      assert allStocks[..j + 1][..j] == allStocks[..j];
      var stock := allStocks[j];
      KeysSnoc(uniqueStocks, stock, StockCode);
      if stock.code !in seenCodes {
        seenCodes := seenCodes + {stock.code};
        uniqueStocks := uniqueStocks + [stock];
      }
      j := j + 1;
    }
    assert allStocks[..|allStocks|] == allStocks;
  }

  /** A counting loop over the list. */
  method Count(s: seq<Stock>, key: Stock -> string) returns (counts: Counts)
    ensures counts == CountBy(s, key)
  {
    counts := [];
    var j := 0;
    while j < |s|
      invariant j <= |s|
      invariant counts == CountBy(s[..j], key)
    {
      assert s[..j + 1][..j] == s[..j];
      counts := Bump(counts, key(s[j]));
      j := j + 1;
    }
    assert s[..|s|] == s;
  }

  /** `get_stock_list`, from the three providers' answers (None when a provider raised or had nothing). */
  method GetStockList(akshare: Option<seq<Stock>>, tushare: Option<seq<Stock>>, eastmoney: Option<seq<Stock>>)
    returns (uniqueStocks: seq<Stock>, dataSource: string, marketCounts: Counts, topIndustries: Counts)
    ensures var chosen := FirstAccepted([("akshare", akshare), ("tushare", tushare), ("东方财富", eastmoney)]);
      var all := if chosen.Some? then chosen.value.0 else Preset;
      uniqueStocks == SortBy(Unique(all), CodeLe) &&
      dataSource == (if chosen.Some? then chosen.value.1 else PresetSource) &&
      marketCounts == CountBy(uniqueStocks, MarketKey) &&
      topIndustries == Take(SortBy(CountBy(uniqueStocks, IndustryKey), CountDesc), 10)
  {
    var allStocks;
    allStocks, dataSource := ChooseSource([("akshare", akshare), ("tushare", tushare), ("东方财富", eastmoney)]);
    uniqueStocks := Dedup(allStocks);
    uniqueStocks := SortBy(uniqueStocks, CodeLe);
    marketCounts := Count(uniqueStocks, MarketKey);
    var industryCounts := Count(uniqueStocks, IndustryKey);
    topIndustries := Take(SortBy(industryCounts, CountDesc), 10);
  }

  /** The de-duplication loop agrees with `drop_duplicates(keep='first')` on the code. */
  lemma {:induction false} UniqueIsDedupFirst(s: seq<Stock>)
    ensures Unique(s) == DedupFirst(s, StockCode)
  {
    if |s| > 0 {
      var p := s[..|s| - 1];
      UniqueIsDedupFirst(p);
      DedupFromSnoc(p, s[|s| - 1], StockCode, {});
      DedupFirstProps(p, StockCode);
      assert s == p + [s[|s| - 1]];
    }
  }

  /**
   * De-duplication keeps one record per code and loses no code, and the
   * record kept is the first one with its code.
   */
  lemma {:induction false} UniqueKeepsFirst(s: seq<Stock>)
    ensures UniqueKeys(Unique(s), StockCode)
    ensures Codes(Unique(s)) == Codes(s)
    ensures forall x :: x in Unique(s) ==>
      exists i :: 0 <= i < |s| && s[i] == x && forall j :: 0 <= j < i ==> s[j].code != x.code
  {
    UniqueIsDedupFirst(s);
    DedupFirstProps(s, StockCode);
    if |s| > 0 {
      var p := s[..|s| - 1];
      UniqueKeepsFirst(p);
      UniqueIsDedupFirst(p);
      DedupFirstProps(p, StockCode);
      var last := s[|s| - 1];
      forall x | x in Unique(s)
        ensures exists i :: 0 <= i < |s| && s[i] == x && forall j :: 0 <= j < i ==> s[j].code != x.code
      {
        if x in Unique(p) {
          var i :| 0 <= i < |p| && p[i] == x && forall j :: 0 <= j < i ==> p[j].code != x.code;
          assert s[i] == x;
          assert forall j :: 0 <= j < i ==> s[j] == p[j];
        } else {
          assert x == last && last.code !in Codes(p);
          forall j | 0 <= j < |s| - 1 ensures s[j].code != x.code {
            assert p[j] == s[j];
            assert StockCode(p[j]) in Codes(p);
          }
        }
      }
    }
  }

  /** The universe is sorted by code, has one record per code, every code of the chosen list, and only its records. */
  lemma UniverseProps(all: seq<Stock>)
    ensures var u := SortBy(Unique(all), CodeLe);
      SortedBy(u, CodeLe) && UniqueKeys(u, StockCode) && Codes(u) == Codes(all) &&
      |u| <= |all| && forall x :: x in u ==> x in all
  {
    var d := Unique(all);
    CodeLeTotal();
    SortByCorrect(d, CodeLe);
    SortByMembers(d, CodeLe);
    UniqueKeepsFirst(all);
    UniqueIsDedupFirst(all);
    DedupFirstProps(all, StockCode);
    DedupFromProps(all, StockCode, {});
    PermUniqueKeys(d, SortBy(d, CodeLe), StockCode);
    SameMembersSameKeys(SortBy(d, CodeLe), d, StockCode);
  }

  /** The keys of a count dict. */
  function CountKeys(e: Counts): set<string>
  {
    if |e| == 0 then {} else {e[0].0} + CountKeys(e[1..])
  }

  /** Each key once, with a count of at least one. */
  predicate WellFormed(e: Counts)
  {
    |e| == 0 || (e[0].0 !in CountKeys(e[1..]) && e[0].1 > 0 && WellFormed(e[1..]))
  }

  lemma {:induction false} BumpSum(e: Counts, k: string)
    ensures Sum(Bump(e, k)) == Sum(e) + 1
  {
    if |e| > 0 && e[0].0 != k {
      BumpSum(e[1..], k);
    }
  }

  lemma {:induction false} BumpLookup(e: Counts, k: string, k': string)
    ensures Lookup(Bump(e, k), k') == Lookup(e, k') + (if k' == k then 1 else 0)
  {
    if |e| > 0 && e[0].0 != k {
      BumpLookup(e[1..], k, k');
    }
  }

  lemma {:induction false} BumpKeys(e: Counts, k: string)
    ensures CountKeys(Bump(e, k)) == CountKeys(e) + {k}
  {
    if |e| > 0 && e[0].0 != k {
      BumpKeys(e[1..], k);
    }
  }

  lemma {:induction false} BumpWellFormed(e: Counts, k: string)
    requires WellFormed(e)
    ensures WellFormed(Bump(e, k))
  {
    if |e| > 0 && e[0].0 != k {
      BumpWellFormed(e[1..], k);
      BumpKeys(e[1..], k);
    }
  }

  /** In a well-formed dict every entry holds the dict's count for its key. */
  lemma {:induction false} EntryIsLookup(e: Counts, i: nat)
    requires WellFormed(e) && i < |e|
    ensures Lookup(e, e[i].0) == e[i].1 > 0
  {
    if i > 0 {
      EntryIsLookup(e[1..], i - 1);
      KeyInCountKeys(e[1..], i - 1);
    }
  }

  lemma {:induction false} KeyInCountKeys(e: Counts, i: nat)
    requires i < |e|
    ensures e[i].0 in CountKeys(e)
  {
    if i > 0 {
      KeyInCountKeys(e[1..], i - 1);
    }
  }

  /**
   * The counting loops: the counts add up to the number of records, each
   * key's count is its number of records, and each key occurs once with a
   * count of at least one.
   */
  lemma {:induction false} CountByProps(s: seq<Stock>, key: Stock -> string)
    ensures Sum(CountBy(s, key)) == |s|
    ensures WellFormed(CountBy(s, key))
    ensures forall k :: Lookup(CountBy(s, key), k) == Occurrences(s, key, k)
    ensures CountKeys(CountBy(s, key)) == Keys(s, key)
  {
    if |s| > 0 {
      var p := s[..|s| - 1];
      var x := s[|s| - 1];
      CountByProps(p, key);
      BumpSum(CountBy(p, key), key(x));
      BumpWellFormed(CountBy(p, key), key(x));
      BumpKeys(CountBy(p, key), key(x));
      forall k ensures Lookup(CountBy(s, key), k) == Occurrences(s, key, k) {
        BumpLookup(CountBy(p, key), key(x), k);
      }
      assert s == p + [x];
      KeysSnoc(p, x, key);
    }
  }

  /** Every entry of a count dict is a key with its number of records. */
  lemma CountEntries(s: seq<Stock>, key: Stock -> string)
    ensures forall e :: e in CountBy(s, key) ==> e.1 == Occurrences(s, key, e.0) > 0
  {
    CountByProps(s, key);
    forall e | e in CountBy(s, key) ensures e.1 == Occurrences(s, key, e.0) > 0 {
      var i :| 0 <= i < |CountBy(s, key)| && CountBy(s, key)[i] == e;
      EntryIsLookup(CountBy(s, key), i);
    }
  }

  /** Every industry counted is named. */
  lemma IndustryNamed(s: seq<Stock>)
    ensures forall e :: e in CountBy(s, IndustryKey) ==> e.0 != ""
  {
    CountByProps(s, IndustryKey);
    forall e | e in CountBy(s, IndustryKey) ensures e.0 != "" {
      var i :| 0 <= i < |CountBy(s, IndustryKey)| && CountBy(s, IndustryKey)[i] == e;
      KeyInCountKeys(CountBy(s, IndustryKey), i);
      var j :| 0 <= j < |s| && IndustryKey(s[j]) == e.0;
    }
  }

  /**
   * The top industries: min(10, industries) entries of the industry counts,
   * in descending count order, each named and holding its number of records,
   * and no industry left out has a larger count than one kept.
   */
  lemma TopIndustriesProps(s: seq<Stock>)
    ensures var counts := CountBy(s, IndustryKey);
      var top := Take(SortBy(counts, CountDesc), 10);
      |top| == Min(10, |counts|) && SortedBy(top, CountDesc) &&
      (forall e :: e in top ==> e in counts && e.0 != "" && e.1 == Occurrences(s, IndustryKey, e.0)) &&
      forall e, i :: e in counts && e !in top && 0 <= i < |top| ==> top[i].1 >= e.1
  {
    var counts := CountBy(s, IndustryKey);
    CountDescTotal();
    TopOfSorted(counts, 10, CountDesc);
    SortByCorrect(counts, CountDesc);
    CountEntries(s, IndustryKey);
    IndustryNamed(s);
  }
}
