/**
 * What one search computes, as a function of the query and the loaded
 * grids: the matches in the order the search visits them (sheets in load
 * order, then rows, then columns), the Home table rows built from them and
 * the cells they highlight.
 */
module Search {
  import opened Wrappers
  import opened Text
  import opened Labels

  type Grid = seq<seq<Option<string>>>

  /** A loaded sheet as the search sees it: its name and its table's cells. */
  datatype SheetView = SheetView(name: string, grid: Grid)

  /** A matching cell: which sheet (by load position and by name), where, and its text. */
  datatype Match = Match(sheetIndex: nat, sheet: string, row: nat, col: ColumnIndex, text: string)

  /** A row of the Home table: sheet name, cell label, cell content. */
  datatype ResultRow = ResultRow(sheet: string, cell: string, content: string)

  /** A cell whose background has been set to yellow. */
  datatype CellRef = CellRef(sheet: string, row: int, col: int)

  /** `query.lower() in text.lower()`. */
  predicate Hits(query: string, text: string) {
    Contains(Lower(text), Lower(query))
  }

  /** The cell holds an item and the query hits its text. */
  predicate IsMatch(query: string, item: Option<string>) {
    item.Some? && Hits(query, item.value)
  }

  /** No row of any sheet is wider than the format allows. */
  predicate WithinColumns(sheets: seq<SheetView>) {
    forall k, r :: 0 <= k < |sheets| && 0 <= r < |sheets[k].grid| ==> |sheets[k].grid[r]| <= MaxColumns
  }

  /** `a` is visited before `b`: earlier sheet, else earlier row, else earlier column. */
  predicate Precedes(a: Match, b: Match) {
    a.sheetIndex < b.sheetIndex ||
    (a.sheetIndex == b.sheetIndex && (a.row < b.row || (a.row == b.row && a.col < b.col)))
  }

  predicate Ordered(ms: seq<Match>) {
    forall i, j :: 0 <= i < j < |ms| ==> Precedes(ms[i], ms[j])
  }

  lemma OrderedAppend(a: seq<Match>, b: seq<Match>)
    requires Ordered(a) && Ordered(b)
    requires forall x, y :: x in a && y in b ==> Precedes(x, y)
    ensures Ordered(a + b)
  {
  }

  /** The matches among the first `n` cells of row `r` of sheet `k`, column by column. */
  function RowMatches(query: string, k: nat, name: string, cells: seq<Option<string>>, r: nat, n: nat): seq<Match>
    requires n <= |cells| <= MaxColumns
    decreases n
  {
    if n == 0 then []
    else
      RowMatches(query, k, name, cells, r, n - 1) +
      (if IsMatch(query, cells[n - 1]) then [Match(k, name, r, n - 1, cells[n - 1].value)] else [])
  }

  /** The matches in the first `n` rows of sheet `k`, row by row. */
  function GridMatches(query: string, k: nat, name: string, grid: Grid, n: nat): seq<Match>
    requires n <= |grid|
    requires forall r :: 0 <= r < |grid| ==> |grid[r]| <= MaxColumns
    decreases n
  {
    if n == 0 then []
    else GridMatches(query, k, name, grid, n - 1) + RowMatches(query, k, name, grid[n - 1], n - 1, |grid[n - 1]|)
  }

  /** The matches in the first `n` sheets, sheet by sheet. */
  function WorkbookMatches(query: string, sheets: seq<SheetView>, n: nat): seq<Match>
    requires n <= |sheets| && WithinColumns(sheets)
    decreases n
  {
    if n == 0 then []
    else
      WorkbookMatches(query, sheets, n - 1) +
      GridMatches(query, n - 1, sheets[n - 1].name, sheets[n - 1].grid, |sheets[n - 1].grid|)
  }

  /**
   * The scan of one row lists exactly the matching cells among its first `n`,
   * each with its own text.
   */
  lemma {:induction false} RowMatchesSpec(query: string, k: nat, name: string, cells: seq<Option<string>>, r: nat, n: nat)
    requires n <= |cells| <= MaxColumns
    ensures var ms := RowMatches(query, k, name, cells, r, n);
      forall m :: m in ms ==>
        m.sheetIndex == k && m.sheet == name && m.row == r && m.col < n &&
        cells[m.col] == Some(m.text) && Hits(query, m.text)
    ensures var ms := RowMatches(query, k, name, cells, r, n);
      forall c :: 0 <= c < n && IsMatch(query, cells[c]) ==> Match(k, name, r, c, cells[c].value) in ms
    decreases n
  {
    if n > 0 {
      RowMatchesSpec(query, k, name, cells, r, n - 1);
    }
  }

  /** The scan of one row lists its matches from left to right. */
  lemma {:induction false} RowMatchesOrdered(query: string, k: nat, name: string, cells: seq<Option<string>>, r: nat, n: nat)
    requires n <= |cells| <= MaxColumns
    ensures Ordered(RowMatches(query, k, name, cells, r, n))
    decreases n
  {
    if n > 0 {
      RowMatchesOrdered(query, k, name, cells, r, n - 1);
      var before := RowMatches(query, k, name, cells, r, n - 1);
      var here := if IsMatch(query, cells[n - 1]) then [Match(k, name, r, n - 1, cells[n - 1].value)] else [];
      assert forall x, y :: x in before && y in here ==> Precedes(x, y) by {
        RowMatchesSpec(query, k, name, cells, r, n - 1);
      }
      OrderedAppend(before, here);
    }
  }

  /** The scan of a sheet's first `n` rows lists exactly their matching cells, row by row. */
  lemma {:induction false} GridMatchesSpec(query: string, k: nat, name: string, grid: Grid, n: nat)
    requires n <= |grid|
    requires forall r :: 0 <= r < |grid| ==> |grid[r]| <= MaxColumns
    ensures var ms := GridMatches(query, k, name, grid, n);
      forall m :: m in ms ==>
        m.sheetIndex == k && m.sheet == name && m.row < n && m.col < |grid[m.row]| &&
        grid[m.row][m.col] == Some(m.text) && Hits(query, m.text)
    ensures var ms := GridMatches(query, k, name, grid, n);
      forall r, c :: 0 <= r < n && 0 <= c < |grid[r]| && IsMatch(query, grid[r][c]) ==>
        Match(k, name, r, c, grid[r][c].value) in ms
    decreases n
  {
    if n > 0 {
      GridMatchesSpec(query, k, name, grid, n - 1);
      RowMatchesSpec(query, k, name, grid[n - 1], n - 1, |grid[n - 1]|);
    }
  }

  /** The scan of a sheet lists its matches row by row. */
  lemma {:induction false} GridMatchesOrdered(query: string, k: nat, name: string, grid: Grid, n: nat)
    requires n <= |grid|
    requires forall r :: 0 <= r < |grid| ==> |grid[r]| <= MaxColumns
    ensures Ordered(GridMatches(query, k, name, grid, n))
    decreases n
  {
    if n > 0 {
      GridMatchesOrdered(query, k, name, grid, n - 1);
      RowMatchesOrdered(query, k, name, grid[n - 1], n - 1, |grid[n - 1]|);
      var before := GridMatches(query, k, name, grid, n - 1);
      var here := RowMatches(query, k, name, grid[n - 1], n - 1, |grid[n - 1]|);
      assert forall x, y :: x in before && y in here ==> Precedes(x, y) by {
        GridMatchesSpec(query, k, name, grid, n - 1);
        RowMatchesSpec(query, k, name, grid[n - 1], n - 1, |grid[n - 1]|);
      }
      OrderedAppend(before, here);
    }
  }

  /** The scan of the first `n` sheets lists exactly their matching cells, sheet by sheet. */
  lemma {:induction false} WorkbookMatchesSpec(query: string, sheets: seq<SheetView>, n: nat)
    requires n <= |sheets| && WithinColumns(sheets)
    ensures var ms := WorkbookMatches(query, sheets, n);
      forall m :: m in ms ==>
        m.sheetIndex < n && m.sheet == sheets[m.sheetIndex].name &&
        m.row < |sheets[m.sheetIndex].grid| && m.col < |sheets[m.sheetIndex].grid[m.row]| &&
        sheets[m.sheetIndex].grid[m.row][m.col] == Some(m.text) && Hits(query, m.text)
    ensures var ms := WorkbookMatches(query, sheets, n);
      forall k, r, c ::
        (0 <= k < n && 0 <= r < |sheets[k].grid| && 0 <= c < |sheets[k].grid[r]| && IsMatch(query, sheets[k].grid[r][c]))
        ==> Match(k, sheets[k].name, r, c, sheets[k].grid[r][c].value) in ms
    decreases n
  {
    if n > 0 {
      WorkbookMatchesSpec(query, sheets, n - 1);
      GridMatchesSpec(query, n - 1, sheets[n - 1].name, sheets[n - 1].grid, |sheets[n - 1].grid|);
    }
  }

  /** The scan of the workbook lists its matches sheet by sheet, then row by row, then column by column. */
  lemma {:induction false} WorkbookMatchesOrdered(query: string, sheets: seq<SheetView>, n: nat)
    requires n <= |sheets| && WithinColumns(sheets)
    ensures Ordered(WorkbookMatches(query, sheets, n))
    decreases n
  {
    if n > 0 {
      WorkbookMatchesOrdered(query, sheets, n - 1);
      GridMatchesOrdered(query, n - 1, sheets[n - 1].name, sheets[n - 1].grid, |sheets[n - 1].grid|);
      var before := WorkbookMatches(query, sheets, n - 1);
      var here := GridMatches(query, n - 1, sheets[n - 1].name, sheets[n - 1].grid, |sheets[n - 1].grid|);
      assert forall x, y :: x in before && y in here ==> Precedes(x, y) by {
        WorkbookMatchesSpec(query, sheets, n - 1);
        GridMatchesSpec(query, n - 1, sheets[n - 1].name, sheets[n - 1].grid, |sheets[n - 1].grid|);
      }
      OrderedAppend(before, here);
    }
  }

  /** Every match of one search over the whole workbook, in visiting order. */
  function AllMatches(query: string, sheets: seq<SheetView>): seq<Match>
    requires WithinColumns(sheets)
  {
    WorkbookMatches(query, sheets, |sheets|)
  }

  /** The Home table row a match produces. */
  function ResultRowOf(m: Match): ResultRow {
    ResultRow(m.sheet, CellLabel(m.row, m.col), m.text)
  }

  function ResultRows(ms: seq<Match>): seq<ResultRow> {
    seq(|ms|, i requires 0 <= i < |ms| => ResultRowOf(ms[i]))
  }

  lemma ResultRowsConcat(a: seq<Match>, b: seq<Match>)
    ensures ResultRows(a + b) == ResultRows(a) + ResultRows(b)
  {
  }

  /** The cells a list of matches highlights. */
  function MatchedCells(ms: seq<Match>): set<CellRef> {
    set m | m in ms :: CellRef(m.sheet, m.row, m.col)
  }

  lemma MatchedCellsConcat(a: seq<Match>, b: seq<Match>)
    ensures MatchedCells(a + b) == MatchedCells(a) + MatchedCells(b)
  {
  }

  /**
   * Soundness of the Home table: the i-th row names a sheet, labels a cell of
   * it that holds an item, carries exactly that item's text, and the query
   * occurs in that text ignoring case.
   */
  lemma ResultRowIsMatchingCell(query: string, sheets: seq<SheetView>, i: nat)
    requires WithinColumns(sheets)
    requires i < |AllMatches(query, sheets)|
    ensures var m := AllMatches(query, sheets)[i];
      var row := ResultRows(AllMatches(query, sheets))[i];
      m.sheetIndex < |sheets| && row.sheet == sheets[m.sheetIndex].name &&
      m.row < |sheets[m.sheetIndex].grid| && m.col < |sheets[m.sheetIndex].grid[m.row]| &&
      row.cell == CellLabel(m.row, m.col) &&
      sheets[m.sheetIndex].grid[m.row][m.col] == Some(row.content) &&
      Contains(Lower(row.content), Lower(query))
  {
    var ms := AllMatches(query, sheets);
    WorkbookMatchesSpec(query, sheets, |sheets|);
    assert ms[i] in ms;
  }

  /**
   * Completeness and uniqueness: a cell with an item whose text the query hits
   * is listed, and at exactly one position.
   */
  lemma MatchingCellListedOnce(query: string, sheets: seq<SheetView>, k: nat, r: nat, c: nat)
    requires WithinColumns(sheets)
    requires k < |sheets| && r < |sheets[k].grid| && c < |sheets[k].grid[r]|
    requires IsMatch(query, sheets[k].grid[r][c])
    ensures var ms := AllMatches(query, sheets);
      exists j :: 0 <= j < |ms| && ms[j] == Match(k, sheets[k].name, r, c, sheets[k].grid[r][c].value)
    ensures var ms := AllMatches(query, sheets);
      forall j1, j2 ::
        (0 <= j1 < |ms| && 0 <= j2 < |ms| &&
         ms[j1].sheetIndex == ms[j2].sheetIndex == k && ms[j1].row == ms[j2].row == r &&
         ms[j1].col == ms[j2].col == c)
        ==> j1 == j2
  {
    var ms := AllMatches(query, sheets);
    WorkbookMatchesSpec(query, sheets, |sheets|);
    WorkbookMatchesOrdered(query, sheets, |sheets|);
    assert Match(k, sheets[k].name, r, c, sheets[k].grid[r][c].value) in ms;
  }

  /** A cell that is empty, or whose text the query misses, is never listed. */
  lemma NonMatchingCellNotListed(query: string, sheets: seq<SheetView>, k: nat, r: nat, c: nat)
    requires WithinColumns(sheets)
    requires k < |sheets| && r < |sheets[k].grid| && c < |sheets[k].grid[r]|
    requires !IsMatch(query, sheets[k].grid[r][c])
    ensures forall m :: m in AllMatches(query, sheets) ==> !(m.sheetIndex == k && m.row == r && m.col == c)
  {
    WorkbookMatchesSpec(query, sheets, |sheets|);
  }

  /** The empty query is in every text, so every cell holding an item is listed. */
  lemma EmptyQueryListsEveryCell(sheets: seq<SheetView>, k: nat, r: nat, c: nat)
    requires WithinColumns(sheets)
    requires k < |sheets| && r < |sheets[k].grid| && c < |sheets[k].grid[r]|
    requires sheets[k].grid[r][c].Some?
    ensures Match(k, sheets[k].name, r, c, sheets[k].grid[r][c].value) in AllMatches("", sheets)
  {
    assert Lower("") == "";
    WorkbookMatchesSpec("", sheets, |sheets|);
    EmptyIsContained(Lower(sheets[k].grid[r][c].value));
  }

  /**
   * Under the ASCII case mapping, case does not matter: an upper-cased query
   * finds exactly what the query finds.
   */
  lemma SearchIgnoresQueryCase(query: string, sheets: seq<SheetView>)
    requires WithinColumns(sheets)
    ensures AllMatches(Upper(query), sheets) == AllMatches(query, sheets)
  {
    LowerIgnoresCase(query);
    assert forall t :: Hits(Upper(query), t) == Hits(query, t);
    WorkbookIgnoresQueryCase(query, sheets, |sheets|);
  }

  lemma {:induction false} WorkbookIgnoresQueryCase(query: string, sheets: seq<SheetView>, n: nat)
    requires WithinColumns(sheets)
    requires n <= |sheets|
    requires forall t :: Hits(Upper(query), t) == Hits(query, t)
    ensures WorkbookMatches(Upper(query), sheets, n) == WorkbookMatches(query, sheets, n)
    decreases n
  {
    if n > 0 {
      WorkbookIgnoresQueryCase(query, sheets, n - 1);
      GridIgnoresQueryCase(query, n - 1, sheets[n - 1].name, sheets[n - 1].grid, |sheets[n - 1].grid|);
    }
  }

  lemma {:induction false} GridIgnoresQueryCase(query: string, k: nat, name: string, grid: Grid, n: nat)
    requires n <= |grid|
    requires forall r :: 0 <= r < |grid| ==> |grid[r]| <= MaxColumns
    requires forall t :: Hits(Upper(query), t) == Hits(query, t)
    ensures GridMatches(Upper(query), k, name, grid, n) == GridMatches(query, k, name, grid, n)
    decreases n
  {
    if n > 0 {
      GridIgnoresQueryCase(query, k, name, grid, n - 1);
      RowIgnoresQueryCase(query, k, name, grid[n - 1], n - 1, |grid[n - 1]|);
    }
  }

  lemma {:induction false} RowIgnoresQueryCase(query: string, k: nat, name: string, cells: seq<Option<string>>, r: nat, n: nat)
    requires n <= |cells| <= MaxColumns
    requires forall t :: Hits(Upper(query), t) == Hits(query, t)
    ensures RowMatches(Upper(query), k, name, cells, r, n) == RowMatches(query, k, name, cells, r, n)
    decreases n
  {
    if n > 0 {
      RowIgnoresQueryCase(query, k, name, cells, r, n - 1);
    }
  }

  /** The highlighted cells of one search are exactly the matching cells. */
  lemma MatchedCellsAreMatchingCells(query: string, sheets: seq<SheetView>)
    requires WithinColumns(sheets)
    ensures forall k, r, c ::
      (0 <= k < |sheets| && 0 <= r < |sheets[k].grid| && 0 <= c < |sheets[k].grid[r]| &&
       IsMatch(query, sheets[k].grid[r][c]))
      ==> CellRef(sheets[k].name, r, c) in MatchedCells(AllMatches(query, sheets))
    ensures forall x :: x in MatchedCells(AllMatches(query, sheets)) ==>
      exists k :: 0 <= k < |sheets| && sheets[k].name == x.sheet &&
        0 <= x.row < |sheets[k].grid| && 0 <= x.col < |sheets[k].grid[x.row]| &&
        IsMatch(query, sheets[k].grid[x.row][x.col])
  {
    var ms := AllMatches(query, sheets);
    WorkbookMatchesSpec(query, sheets, |sheets|);
    forall x | x in MatchedCells(ms)
      ensures exists k ::
        (0 <= k < |sheets| && sheets[k].name == x.sheet &&
         0 <= x.row < |sheets[k].grid| && 0 <= x.col < |sheets[k].grid[x.row]| &&
         IsMatch(query, sheets[k].grid[x.row][x.col]))
    {
      var m :| m in ms && x == CellRef(m.sheet, m.row, m.col);
      assert sheets[m.sheetIndex].grid[m.row][m.col] == Some(m.text);
    }
  }
}
