// get_stockA_fundamentals.py: the source order, the first-acceptable-source
// resolver, the baostock adapter's record, the fill-if-absent merge of
// `stock_financial_analysis_indicator` and the coercion and write rule of
// `save_batch_to_csv`. The resumable `main` is `Resume.ResumeRun`.

module MultiSourceFundamentals {
  import opened Py
  import opened Strings

  /** A downloader record: column name to text. */
  type Record = map<string, string>

  const NameKey := "股票名称"
  const CodeKey := "股票代码"
  const LocationKey := "股票上市地点"

  /** '上海' for codes starting with '6' or '5', '深圳' for every other code. */
  function Location(code: string): (r: string)
    ensures r == "上海" <==> (StartsWith(code, "6") || StartsWith(code, "5"))
    ensures r == "上海" || r == "深圳"
  {
    if StartsWith(code, "6") || StartsWith(code, "5") then "上海" else "深圳"
  }

  /** The thirteen columns of the short record. */
  const ShortKeys: set<string> := {"股票上市日期", "股票所属行业", "每股收益", "毛利率", "净利率",
    "资产收益率", "资产负债率", "净利润增速", "股票上市地点", "市盈率（静）", "市盈率（TTM）", "股票名称", "股票代码"}

  /** The record returned when no source qualifies: code and location, every other column empty. */
  function EmptyRecord(code: string): (r: Record)
    ensures r.Keys == ShortKeys
    ensures r[CodeKey] == code && r[NameKey] == "" && r[LocationKey] == Location(code)
    ensures forall k :: k in r && k != CodeKey && k != LocationKey ==> r[k] == ""
  {
    map k | k in ShortKeys :: if k == CodeKey then code else if k == LocationKey then Location(code) else ""
  }

  /** `result and result.get('股票名称')`: a record with a non-empty name. */
  predicate Accepted(r: Option<Record>)
  {
    r.Some? && NameKey in r.value && r.value[NameKey] != ""
  }

  /** A data source by name; any other name matches no branch of the loop. */
  datatype Source = Akshare | Eastmoney | Baostock | Unknown(name: string)

  /** The `data_source` argument: 'auto' or a source name. */
  datatype Choice = Auto | Choose(source: Source)

  function ChoiceNamed(s: string): (c: Choice)
    ensures c == Auto <==> s == "auto"
  {
    if s == "auto" then Auto
    else if s == "akshare" then Choose(Akshare)
    else if s == "eastmoney" then Choose(Eastmoney)
    else if s == "baostock" then Choose(Baostock)
    else Choose(Unknown(s))
  }

  const DefaultSources: seq<Source> := [Akshare, Eastmoney, Baostock]

  /** `data_sources`: the default order for 'auto', otherwise the choice first and the others after it in order. */
  function SourceOrder(choice: Choice): (r: seq<Source>)
    ensures choice == Auto ==> r == DefaultSources
    ensures choice != Auto ==> |r| > 0 && r[0] == choice.source
    ensures choice != Auto && choice.source !in DefaultSources ==> r == [choice.source] + DefaultSources
  {
    if choice.Auto? then DefaultSources
    else
      var c := choice.source;
      [c] + (if c.Akshare? then [] else [Akshare]) + (if c.Eastmoney? then [] else [Eastmoney]) +
            (if c.Baostock? then [] else [Baostock])
  }

  /** Choosing one of the three moves it to the front and keeps the other two in their default order. */
  lemma SourceOrderChoice(c: Source)
    requires !c.Unknown?
    ensures SourceOrder(Choose(c)) ==
      match c
      case Akshare => [Akshare, Eastmoney, Baostock]
      case Eastmoney => [Eastmoney, Akshare, Baostock]
      case _ => [Baostock, Akshare, Eastmoney]
  {
    match c
    case Akshare =>
    case Eastmoney =>
      assert SourceOrder(Choose(c)) == [Eastmoney] + [Akshare] + [Baostock];
    case Baostock =>
      assert SourceOrder(Choose(c)) == [Baostock] + [Akshare] + [Eastmoney];
  }

  /** The baostock reply: login status and the 2023 Q4 profit query (None on an error code). */
  datatype BaostockReply = BaostockReply(loginOk: bool, profitRows: Option<seq<seq<string>>>)

  /** `str(data[i]) if len(data) > i else ''` */
  function Field(data: seq<string>, i: nat): string
  {
    if |data| > i then data[i] else ""
  }

  /** `get_fundamentals_from_baostock`: the short record from the first profit row, with an empty name. */
  function BaostockRecord(code: string, available: bool, reply: BaostockReply): (r: Option<Record>)
    ensures r.Some? <==> (available && reply.loginOk && reply.profitRows.Some? && |reply.profitRows.value| > 0)
    ensures r.Some? ==> r.value.Keys == ShortKeys && r.value[NameKey] == "" && r.value[LocationKey] == Location(code)
  {
    if !available || !reply.loginOk || reply.profitRows.None? || |reply.profitRows.value| == 0 then None
    else
      var data := reply.profitRows.value[0];
      Some(map["股票上市日期" := "", "股票所属行业" := "", "每股收益" := Field(data, 4), "毛利率" := "",
               "净利率" := Field(data, 5), "资产收益率" := Field(data, 4), "资产负债率" := "", "净利润增速" := "",
               "股票上市地点" := Location(code), "市盈率（静）" := "", "市盈率（TTM）" := "", "股票名称" := "",
               "股票代码" := code])
  }

  /** What each source returns for one code; None is a None result or a raise. */
  datatype Providers = Providers(akshare: Option<Record>, eastmoney: Option<Record>,
                                 baostockAvailable: bool, baostock: BaostockReply)

  /** One pass of the source loop; a name matching no branch (an unknown choice) yields nothing. */
  function Attempt(code: string, p: Providers, source: Source): Option<Record>
  {
    match source
    case Akshare => p.akshare
    case Eastmoney => p.eastmoney
    case Baostock => BaostockRecord(code, p.baostockAvailable, p.baostock)
    case Unknown(_) => None
  }

  /** The baostock branch can never be the accepted source: its record has an empty name. */
  lemma BaostockNeverAccepted(code: string, p: Providers)
    ensures !Accepted(Attempt(code, p, Baostock))
  {
  }

  /** The sources from `sources` on: the first accepted record, else the empty record. */
  function Resolve(code: string, p: Providers, sources: seq<Source>): Record
  {
    if |sources| == 0 then EmptyRecord(code)
    else if Accepted(Attempt(code, p, sources[0])) then Attempt(code, p, sources[0]).value
    else Resolve(code, p, sources[1..])
  }

  /** `get_fundamentals_real_data`: the loop over sources with its early return. */
  method GetFundamentalsRealData(code: string, choice: string, p: Providers) returns (r: Record)
    ensures r == Resolve(code, p, SourceOrder(ChoiceNamed(choice)))
  {
    var sources := SourceOrder(ChoiceNamed(choice));
    var i := 0;
    while i < |sources|
      invariant 0 <= i <= |sources|
      invariant Resolve(code, p, sources[i..]) == Resolve(code, p, sources)
    {
      assert sources[i..][1..] == sources[i + 1..];
      var result := Attempt(code, p, sources[i]);
      if Accepted(result) {
        return result.value;
      }
      i := i + 1;
    }
    r := EmptyRecord(code);
  }

  /** Source i is the first whose record is accepted. */
  predicate FirstAcceptedAt(code: string, p: Providers, sources: seq<Source>, i: int)
  {
    0 <= i < |sources| && Accepted(Attempt(code, p, sources[i])) &&
    forall j :: 0 <= j < i ==> !Accepted(Attempt(code, p, sources[j]))
  }

  /**
   * The resolver returns the record of the first accepted source (later sources
   * are never consulted), or the empty record when no source is accepted; it
   * never returns nothing.
   */
  lemma {:induction false} ResolveFirst(code: string, p: Providers, sources: seq<Source>, i: int)
    ensures FirstAcceptedAt(code, p, sources, i) ==> Resolve(code, p, sources) == Attempt(code, p, sources[i]).value
    ensures (forall j :: 0 <= j < |sources| ==> !Accepted(Attempt(code, p, sources[j]))) ==>
      Resolve(code, p, sources) == EmptyRecord(code)
    decreases |sources|
  {
    if |sources| > 0 {
      var t := sources[1..];
      ResolveFirst(code, p, t, i - 1);
      if FirstAcceptedAt(code, p, sources, i) && i > 0 {
        assert sources[i] == t[i - 1];
        forall j | 0 <= j < i - 1 ensures !Accepted(Attempt(code, p, t[j])) {
          assert t[j] == sources[j + 1];
        }
        assert FirstAcceptedAt(code, p, t, i - 1);
      }
      if forall j :: 0 <= j < |sources| ==> !Accepted(Attempt(code, p, sources[j])) {
        forall j | 0 <= j < |t| ensures !Accepted(Attempt(code, p, t[j])) {
          assert t[j] == sources[j + 1];
        }
      }
    }
  }

  /** The returned record carries a non-empty name exactly when some source was accepted. */
  lemma {:induction false} ResolveNamed(code: string, p: Providers, sources: seq<Source>)
    ensures NameKey in Resolve(code, p, sources)
    ensures Resolve(code, p, sources)[NameKey] != "" <==>
      exists j :: 0 <= j < |sources| && Accepted(Attempt(code, p, sources[j]))
    decreases |sources|
  {
    if |sources| > 0 {
      ResolveNamed(code, p, sources[1..]);
      if exists j :: 0 <= j < |sources[1..]| && Accepted(Attempt(code, p, sources[1..][j])) {
        var j :| 0 <= j < |sources[1..]| && Accepted(Attempt(code, p, sources[1..][j]));
        assert sources[1..][j] == sources[j + 1];
      }
      if exists j :: 0 <= j < |sources| && Accepted(Attempt(code, p, sources[j])) {
        var j :| 0 <= j < |sources| && Accepted(Attempt(code, p, sources[j]));
        if j > 0 { assert sources[1..][j - 1] == sources[j]; }
      }
    }
  }

  /**
   * In the default order the outcome is akshare's record if accepted, else
   * eastmoney's if accepted, else the empty record: baostock never decides it.
   */
  lemma AutoResolution(code: string, p: Providers)
    ensures Resolve(code, p, SourceOrder(Auto)) ==
      if Accepted(p.akshare) then p.akshare.value
      else if Accepted(p.eastmoney) then p.eastmoney.value
      else EmptyRecord(code)
  {
    BaostockNeverAccepted(code, p);
    var s := DefaultSources;
    assert s[1..] == [Eastmoney, Baostock] && s[1..][1..] == [Baostock] && s[1..][1..][1..] == [];
    assert Resolve(code, p, [Baostock]) == EmptyRecord(code);
  }

  /** The method-4 merge, after the items of s in order: only keys not yet present are added. */
  function Merged(latest: map<string, Cell>, s: seq<(string, Cell)>): map<string, Cell>
  {
    if |s| == 0 then latest
    else
      var m := Merged(latest, s[..|s| - 1]);
      var kv := s[|s| - 1];
      if kv.0 in m then m else m[kv.0 := kv.1]
  }

  /** `for key, value in financial_dict.items(): if key not in latest_data: latest_data[key] = value` */
  method MergeAbsent(latest: map<string, Cell>, items: seq<(string, Cell)>) returns (m: map<string, Cell>)
    ensures m == Merged(latest, items)
  {
    m := latest;
    var j := 0;
    while j < |items|
      invariant 0 <= j <= |items|
      invariant m == Merged(latest, items[..j])
    {
      assert items[..j + 1][..j] == items[..j];
      var (key, value) := items[j];
      if key !in m {
        m := m[key := value];
      }
      j := j + 1;
    }
    assert items[..|items|] == items;
  }

  /** Item i is the first with its key. */
  predicate FirstWithKey(s: seq<(string, Cell)>, i: int)
  {
    0 <= i < |s| && forall j :: 0 <= j < i ==> s[j].0 != s[i].0
  }

  /** The merge never changes a value already present. */
  lemma {:induction false} MergedKeepsExisting(latest: map<string, Cell>, s: seq<(string, Cell)>)
    ensures forall k :: k in latest ==> k in Merged(latest, s) && Merged(latest, s)[k] == latest[k]
  {
    if |s| > 0 {
      MergedKeepsExisting(latest, s[..|s| - 1]);
    }
  }

  /** The merged keys are the existing keys and the item keys. */
  lemma {:induction false} MergedKeys(latest: map<string, Cell>, s: seq<(string, Cell)>, k: string)
    ensures k in Merged(latest, s) <==> (k in latest || exists i :: 0 <= i < |s| && s[i].0 == k)
  {
    if |s| > 0 {
      var p := s[..|s| - 1];
      MergedKeys(latest, p, k);
      if exists i :: 0 <= i < |s| && s[i].0 == k {
        var i :| 0 <= i < |s| && s[i].0 == k;
        if i < |p| { assert p[i] == s[i]; }
      }
      if exists i :: 0 <= i < |p| && p[i].0 == k {
        var i :| 0 <= i < |p| && p[i].0 == k;
        assert s[i] == p[i];
      }
    }
  }

  /** A key that was absent takes the value of the first item carrying it. */
  lemma {:induction false} MergedFirstWins(latest: map<string, Cell>, s: seq<(string, Cell)>, i: int)
    requires FirstWithKey(s, i) && s[i].0 !in latest
    ensures s[i].0 in Merged(latest, s) && Merged(latest, s)[s[i].0] == s[i].1
  {
    var p := s[..|s| - 1];
    var kv := s[|s| - 1];
    if i < |p| {
      assert p[i] == s[i];
      assert FirstWithKey(p, i);
      MergedFirstWins(latest, p, i);
    } else {
      MergedKeys(latest, p, kv.0);
    }
  }

  /** The 24 columns `save_batch_to_csv` coerces to numbers. */
  const NumericColumns: set<string> := {"每股收益", "每股净资产", "净资产收益率", "总资产收益率", "毛利率", "净利率",
    "营业利润率", "市盈率（静）", "市盈率（TTM）", "市净率", "市销率", "股息率", "营业收入增长率", "净利润增长率",
    "净资产增长率", "净利润增速", "资产负债率", "流动比率", "速动比率", "总资产周转率", "存货周转率", "应收账款周转率",
    "每股经营现金流", "现金流量比率"}

  /** One cell of a numeric column: '', 'None' and 'nan' become NaN first, then the text is coerced. */
  function CoerceWithReplace(s: string): Float
  {
    if s == "" || s == "None" || s == "nan" then NaN else ToNumeric(s)
  }

  /** Replacing '', 'None' and 'nan' by NaN changes nothing that the coercion would not already do. */
  lemma ReplaceRedundant(s: string)
    ensures CoerceWithReplace(s) == ToNumeric(s)
  {
    if s == "" {
      EmptyTextIsNaN();
    } else if s == "None" {
      NoneTextIsNaN();
    } else if s == "nan" {
      NanTextIsNaN();
    }
  }

  lemma EmptyTextIsNaN()
    ensures ToNumeric("") == NaN
  {
    assert Strip("") == "" && Lower("") == "";
    assert ParseUnsigned("") == None;
  }

  lemma NoneTextIsNaN()
    ensures ToNumeric("None") == NaN
  {
    var s := "None";
    NoneStrips();
    assert s[0] != '-' && s[0] != '+';
    assert Lower(s) != "nan" by { assert |Lower(s)| == 4; }
    NoneUnsigned();
    assert ParseFloat(s) == None;
  }

  lemma NoneStrips()
    ensures Strip("None") == "None"
  {
    var s := "None";
    assert StripLeft(s) == s by { assert !IsSpace(s[0]); }
    assert StripRight(s) == s by { assert !IsSpace(s[3]); }
  }

  lemma NoneUnsigned()
    ensures ParseUnsigned("None") == None
  {
    var s := "None";
    IndexOfAbsent(s, '.');
    assert !AllDigits(s) by { assert !IsDigit(s[0]); }
  }

  lemma NanTextIsNaN()
    ensures ToNumeric("nan") == NaN
  {
    var s := "nan";
    assert StripLeft(s) == s by { assert !IsSpace(s[0]); }
    assert StripRight(s) == s by { assert !IsSpace(s[2]); }
    assert Lower(s) == s by { assert forall i :: 0 <= i < 3 ==> LowerChar(s[i]) == s[i]; }
  }

  /** One saved row: numeric columns coerced, the others kept as text. */
  function CoerceRow(r: Record, numeric: set<string>): (c: map<string, Cell>)
    ensures c.Keys == r.Keys
    ensures forall k :: k in r && k in numeric ==> c[k] == CNum(CoerceWithReplace(r[k]))
    ensures forall k :: k in r && k !in numeric ==> c[k] == CStr(r[k])
  {
    map k | k in r :: if k in numeric then CNum(CoerceWithReplace(r[k])) else CStr(r[k])
  }

  function Frame(batch: seq<Record>, numeric: set<string>): (f: seq<map<string, Cell>>)
    ensures |f| == |batch|
    ensures forall i :: 0 <= i < |batch| ==> f[i] == CoerceRow(batch[i], numeric)
  {
    if |batch| == 0 then [] else Frame(batch[..|batch| - 1], numeric) + [CoerceRow(batch[|batch| - 1], numeric)]
  }

  /** The columns of `pd.DataFrame(batch_data)`: every key of every record. */
  function Columns(batch: seq<Record>): (cs: set<string>)
    ensures forall i, k :: 0 <= i < |batch| && k in batch[i] ==> k in cs
    ensures forall k :: k in cs ==> exists i :: 0 <= i < |batch| && k in batch[i]
  {
    if |batch| == 0 then {} else Columns(batch[..|batch| - 1]) + batch[|batch| - 1].Keys
  }

  /** The CSV file: its header and its data rows. */
  datatype CsvFile = CsvFile(header: set<string>, rows: seq<map<string, Cell>>)

  /** The write mode: 'w' or 'a'. */
  datatype WriteMode = Write | Append

  /**
   * `save_batch_to_csv`: a fresh file with header for mode 'w' or a missing
   * file, otherwise the rows appended under the existing header; a failed write
   * returns False and leaves the file as it was.
   */
  function SaveBatch(file: Option<CsvFile>, batch: seq<Record>, mode: WriteMode, numeric: set<string>,
                     writeOk: bool): (r: (bool, Option<CsvFile>))
    ensures r.0 == writeOk
    ensures !writeOk ==> r.1 == file
    ensures writeOk ==> (r.1.Some? && |r.1.value.rows| >= |batch| &&
      r.1.value.rows[|r.1.value.rows| - |batch|..] == Frame(batch, numeric))
    ensures writeOk && (mode == Write || file.None?) ==> r.1 == Some(CsvFile(Columns(batch), Frame(batch, numeric)))
    ensures writeOk && mode == Append && file.Some? ==>
      |r.1.value.rows| == |file.value.rows| + |batch| && r.1.value.header == file.value.header && r.1.value.rows[..|file.value.rows|] == file.value.rows
  {
    if !writeOk then (false, file)
    else if mode == Write || file.None? then (true, Some(CsvFile(Columns(batch), Frame(batch, numeric))))
    else (true, Some(CsvFile(file.value.header, file.value.rows + Frame(batch, numeric))))
  }

  /** Every numeric cell of a saved batch is a number or NaN, never text; the other cells are verbatim. */
  lemma FrameCells(batch: seq<Record>, numeric: set<string>, i: nat, k: string)
    requires i < |batch| && k in batch[i]
    ensures k in Frame(batch, numeric)[i]
    ensures k in numeric ==> Frame(batch, numeric)[i][k] == CNum(ToNumeric(batch[i][k]))
    ensures k !in numeric ==> Frame(batch, numeric)[i][k] == CStr(batch[i][k])
  {
    ReplaceRedundant(batch[i][k]);
  }
}
