// stock_screeners/stock_screeners.py: the screener that reads the
// fundamentals cache instead of fetching. `load_cached_fundamentals` renames
// the cache's columns to the strategy names, requires seven of them, drops
// rows without a positive pe, pb and roe, and coerces the numeric columns;
// `check_cache_integrity` checks the raw columns and the row count;
// `get_stock_fundamentals` returns the loaded table or an empty one. Its
// extraction, validation and strategies are those of FinanceExtract and
// Strategies (with the `Cached` quality variant).

module CachedScreener {
  import opened Py
  import opened Strings
  import opened Tables
  import opened FinanceExtract
  import opened Strategies

  /**
   * `rename(columns=column_mapping)` on one present column: of the fourteen
   * mapped names only current_price, pe_ttm and net_margin change; every
   * other column keeps its name.
   */
  function Renamed(c: string): (r: string)
    ensures r == "pe" <==> c == "pe_ttm" || c == "pe"
    ensures r == "price" <==> c == "current_price" || c == "price"
    ensures r == "net_profit_margin" <==> c == "net_margin" || c == "net_profit_margin"
    ensures c !in {"current_price", "pe_ttm", "net_margin"} ==> r == c
  {
    if c == "current_price" then "price"
    else if c == "pe_ttm" then "pe"
    else if c == "net_margin" then "net_profit_margin"
    else c
  }

  lemma InRenamed(cols: seq<string>, f: string)
    ensures f in Map(cols, Renamed) <==> exists i :: 0 <= i < |cols| && Renamed(cols[i]) == f
  {
    var rc := Map(cols, Renamed);
    if f in rc {
      var i :| 0 <= i < |rc| && rc[i] == f;
      assert Renamed(cols[i]) == f;
    }
    if exists i :: 0 <= i < |cols| && Renamed(cols[i]) == f {
      var i :| 0 <= i < |cols| && Renamed(cols[i]) == f;
      assert rc[i] == f;
    }
  }

  const Required: seq<string> := ["code", "name", "price", "market_cap", "pe", "pb", "roe"]

  predicate HasColumns(cols: seq<string>, fields: seq<string>)
  {
    forall f :: f in fields ==> f in cols
  }

  /** After renaming there is a pe column exactly when the cache has pe_ttm or pe. */
  lemma PeAfterRename(cols: seq<string>)
    ensures "pe" in Map(cols, Renamed) <==> "pe_ttm" in cols || "pe" in cols
  {
    InRenamed(cols, "pe");
    if "pe_ttm" in cols {
      var i :| 0 <= i < |cols| && cols[i] == "pe_ttm";
      assert Renamed(cols[i]) == "pe";
    }
    if "pe" in cols {
      var i :| 0 <= i < |cols| && cols[i] == "pe";
      assert Renamed(cols[i]) == "pe";
    }
  }

  /** After renaming there is a price column exactly when the cache has current_price or price. */
  lemma PriceAfterRename(cols: seq<string>)
    ensures "price" in Map(cols, Renamed) <==> "current_price" in cols || "price" in cols
  {
    InRenamed(cols, "price");
    if "current_price" in cols {
      var i :| 0 <= i < |cols| && cols[i] == "current_price";
      assert Renamed(cols[i]) == "price";
    }
    if "price" in cols {
      var i :| 0 <= i < |cols| && cols[i] == "price";
      assert Renamed(cols[i]) == "price";
    }
  }

  /** Any other name, neither a renamed column nor a new name, is present after renaming exactly when it was before. */
  lemma SameAfterRename(cols: seq<string>, f: string)
    requires f !in {"current_price", "pe_ttm", "net_margin", "price", "pe", "net_profit_margin"}
    ensures f in Map(cols, Renamed) <==> f in cols
  {
    InRenamed(cols, f);
    if f in cols {
      var i :| 0 <= i < |cols| && cols[i] == f;
      assert Renamed(cols[i]) == f;
    }
  }

  /** pandas `isna` on a cell. */
  predicate NA(c: Cell)
  {
    c.CNone? || (c.CNum? && c.f.NaN?)
  }

  /** `dropna(subset=['pe', 'pb', 'roe'])` keeps the row. */
  predicate Filled(cols: seq<string>, row: seq<Cell>)
  {
    !NA(Col(cols, row, "pe")) && !NA(Col(cols, row, "pb")) && !NA(Col(cols, row, "roe"))
  }

  /** Comparing a text cell with 0 raises TypeError, which makes the load return None. */
  predicate HasText(cols: seq<string>, row: seq<Cell>)
  {
    Col(cols, row, "pe").CStr? || Col(cols, row, "pb").CStr? || Col(cols, row, "roe").CStr?
  }

  predicate PositiveCell(c: Cell)
  {
    c.CNum? && c.f.Fin? && c.f.r > 0.0
  }

  /** `(pe > 0) & (pb > 0) & (roe > 0)` */
  predicate PositiveRow(cols: seq<string>, row: seq<Cell>)
  {
    PositiveCell(Col(cols, row, "pe")) && PositiveCell(Col(cols, row, "pb")) && PositiveCell(Col(cols, row, "roe"))
  }

  /** A code or name as text: a code column read as integers gives their decimals. */
  function Text(c: Cell): string
  {
    match c
    case CStr(s) => s
    case CNum(f) => if f.Fin? && f.r.Floor as real == f.r && f.r >= 0.0 then NatToString(f.r.Floor as nat) else ""
    case CNone => ""
  }

  /** The coerced numeric columns of one row as the strategies read them; an absent column reads as NaN. */
  function ToRow(cols: seq<string>, row: seq<Cell>): StockRow
  {
    StockRow(Text(Col(cols, row, "code")), Text(Col(cols, row, "name")),
             CellToNumeric(Col(cols, row, "price")), CellToNumeric(Col(cols, row, "market_cap")),
             CellToNumeric(Col(cols, row, "pe")), CellToNumeric(Col(cols, row, "pb")),
             CellToNumeric(Col(cols, row, "roe")), CellToNumeric(Col(cols, row, "debt_ratio")),
             CellToNumeric(Col(cols, row, "revenue_growth")), CellToNumeric(Col(cols, row, "profit_growth")),
             CellToNumeric(Col(cols, row, "current_ratio")))
  }

  /** The rows `dropna` keeps, in order. */
  function FilledRows(cols: seq<string>, rows: seq<seq<Cell>>): (r: seq<seq<Cell>>)
    ensures |r| <= |rows|
    ensures forall row :: row in r <==> row in rows && Filled(cols, row)
  {
    Filter(rows, (row: seq<Cell>) => Filled(cols, row))
  }

  /** The kept rows with positive pe, pb and roe, as the strategies read them. */
  function PositiveRows(cols: seq<string>, rows: seq<seq<Cell>>): (r: seq<StockRow>)
    ensures |r| <= |rows|
    ensures forall p :: p in r ==> Above(p.pe, 0.0) && Above(p.pb, 0.0) && Above(p.roe, 0.0)
    ensures forall row :: row in rows && PositiveRow(cols, row) ==> ToRow(cols, row) in r
  {
    var pos := Filter(rows, (row: seq<Cell>) => PositiveRow(cols, row));
    var r := Map(pos, (row: seq<Cell>) => ToRow(cols, row));
    assert forall i :: 0 <= i < |pos| ==> pos[i] in pos;
    assert forall row :: row in pos ==> exists i :: 0 <= i < |pos| && pos[i] == row && r[i] == ToRow(cols, row);
    r
  }

  /**
   * `load_cached_fundamentals`: None when the file is missing or unreadable,
   * when a required column is missing after renaming, or when a kept pe, pb
   * or roe is text; otherwise the rows with positive pe, pb and roe.
   */
  function LoadCachedFundamentals(file: Option<Frame>): Option<seq<StockRow>>
  {
    if file.None? then None
    else
      var cols := Map(file.value.columns, Renamed);
      if !HasColumns(cols, Required) then None
      else
        var kept := FilledRows(cols, file.value.rows);
        if exists row :: row in kept && HasText(cols, row) then None
        else Some(PositiveRows(cols, kept))
  }

  /**
   * What a loaded table holds: the required columns were there, and every
   * row is a cache row whose pe, pb and roe are numbers above zero; and
   * every cache row with positive pe, pb and roe is loaded.
   */
  lemma LoadProps(file: Option<Frame>)
    ensures var r := LoadCachedFundamentals(file);
      (r.Some? ==> file.Some? && HasColumns(Map(file.value.columns, Renamed), Required)) &&
      (r.Some? ==> (|r.value| <= |file.value.rows| &&
        forall p :: p in r.value ==> Above(p.pe, 0.0) && Above(p.pb, 0.0) && Above(p.roe, 0.0))) &&
      (r.Some? ==> forall row :: row in file.value.rows && PositiveRow(Map(file.value.columns, Renamed), row) ==>
         ToRow(Map(file.value.columns, Renamed), row) in r.value)
  {
    if file.Some? {
      var cols := Map(file.value.columns, Renamed);
      if HasColumns(cols, Required) {
        PositiveRowsFilled(cols, file.value.rows);
      }
    }
  }

  /** A row with positive pe, pb and roe survives the NA filter. */
  lemma PositiveRowsFilled(cols: seq<string>, rows: seq<seq<Cell>>)
    ensures forall row :: row in rows && PositiveRow(cols, row) ==> row in FilledRows(cols, rows)
  {
    forall row | row in rows && PositiveRow(cols, row)
      ensures row in FilledRows(cols, rows)
    {
      assert Filled(cols, row);
    }
  }

  const RawRequired: seq<string> := ["code", "name", "current_price", "market_cap", "pe_ttm", "pb", "roe"]

  /** `check_cache_integrity`: the raw required columns are present and there are at least ten rows. */
  function CheckCacheIntegrity(file: Option<Frame>): (ok: bool)
  {
    file.Some? && HasColumns(file.value.columns, RawRequired) && |file.value.rows| >= 10
  }

  /** An intact cache also has every column the load requires. */
  lemma IntactCacheLoads(file: Option<Frame>)
    requires CheckCacheIntegrity(file)
    ensures HasColumns(Map(file.value.columns, Renamed), Required)
  {
    var cols := file.value.columns;
    assert "code" in cols && "name" in cols && "current_price" in cols && "market_cap" in cols;
    assert "pe_ttm" in cols && "pb" in cols && "roe" in cols;
    PeAfterRename(cols);
    PriceAfterRename(cols);
    KeptAfterRename(cols);
  }

  /** The other required columns keep their names. */
  lemma KeptAfterRename(cols: seq<string>)
    ensures "code" in Map(cols, Renamed) <==> "code" in cols
    ensures "name" in Map(cols, Renamed) <==> "name" in cols
    ensures "market_cap" in Map(cols, Renamed) <==> "market_cap" in cols
    ensures "pb" in Map(cols, Renamed) <==> "pb" in cols
    ensures "roe" in Map(cols, Renamed) <==> "roe" in cols
  {
    SameAfterRename(cols, "code");
    SameAfterRename(cols, "name");
    SameAfterRename(cols, "market_cap");
    SameAfterRename(cols, "pb");
    SameAfterRename(cols, "roe");
  }

  /** `get_stock_fundamentals`: the loaded cache, or an empty table; nothing is fetched. */
  function GetStockFundamentals(file: Option<Frame>): (r: seq<StockRow>)
    ensures LoadCachedFundamentals(file).Some? ==> r == LoadCachedFundamentals(file).value
    ensures LoadCachedFundamentals(file).None? ==> r == []
  {
    match LoadCachedFundamentals(file)
    case None => []
    case Some(rows) => rows
  }

  /** Every row the screener works on has positive pe, pb and roe. */
  lemma FundamentalsPositive(file: Option<Frame>)
    ensures forall p :: p in GetStockFundamentals(file) ==> Above(p.pe, 0.0) && Above(p.pb, 0.0) && Above(p.roe, 0.0)
  {
    LoadProps(file);
  }
}
