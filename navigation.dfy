/**
 * What clicking a row of the Home table selects: the sheet named in the row
 * and the cell its label parses to.
 */
module Navigation {
  import opened Wrappers
  import opened Labels
  import opened Search

  /** The sheet tab to show and the cell to select in it. */
  datatype Target = Target(sheet: string, row: int, col: int)

  /**
   * The target of clicking Home row `row` when the loaded tables are named
   * `tables`; None where the handler raises (no such row, a label that does
   * not parse, a sheet that is not loaded).
   */
  function Navigate(home: seq<ResultRow>, tables: set<string>, row: int): (t: Option<Target>)
    ensures t.Some? ==> 0 <= row < |home| && t.value.sheet == home[row].sheet && t.value.sheet in tables
    ensures t.Some? ==> ParseLabel(home[row].cell) == Some((t.value.row, t.value.col))
    ensures (0 <= row < |home| && ParseLabel(home[row].cell).Some? && home[row].sheet in tables) ==> t.Some?
  {
    if 0 <= row < |home| then
      match ParseLabel(home[row].cell)
      case None => None
      case Some(cell) =>
        if home[row].sheet in tables then Some(Target(home[row].sheet, cell.0, cell.1)) else None
    else None
  }

  /**
   * Clicking the i-th result of a search selects the very cell that matched,
   * in its own sheet, and that cell shows the result's content; this holds for
   * every cell in the first 32 columns.
   */
  lemma NavigateReachesMatch(query: string, sheets: seq<SheetView>, tables: set<string>, i: nat)
    requires WithinColumns(sheets)
    requires forall k :: 0 <= k < |sheets| ==> sheets[k].name in tables
    requires i < |AllMatches(query, sheets)| && AllMatches(query, sheets)[i].col < 32
    ensures var ms := AllMatches(query, sheets);
      var m := ms[i];
      Navigate(ResultRows(ms), tables, i) == Some(Target(m.sheet, m.row, m.col)) &&
      m.sheetIndex < |sheets| && m.sheet == sheets[m.sheetIndex].name &&
      m.row < |sheets[m.sheetIndex].grid| && m.col < |sheets[m.sheetIndex].grid[m.row]| &&
      sheets[m.sheetIndex].grid[m.row][m.col] == Some(ResultRows(ms)[i].content)
  {
    var ms := AllMatches(query, sheets);
    WorkbookMatchesSpec(query, sheets, |sheets|);
    assert ms[i] in ms;
    LabelRoundTrip(ms[i].row, ms[i].col);
  }

  /**
   * A result in columns 32 to 57 selects the cell 32 columns to its left in
   * the same row: the row named in the result is right, the column is not.
   */
  lemma NavigateFoldsLowerCaseColumns(query: string, sheets: seq<SheetView>, tables: set<string>, i: nat)
    requires WithinColumns(sheets)
    requires forall k :: 0 <= k < |sheets| ==> sheets[k].name in tables
    requires i < |AllMatches(query, sheets)| && 32 <= AllMatches(query, sheets)[i].col < 58
    ensures var ms := AllMatches(query, sheets);
      var m := ms[i];
      Navigate(ResultRows(ms), tables, i) == Some(Target(m.sheet, m.row, m.col - 32))
  {
    var ms := AllMatches(query, sheets);
    WorkbookMatchesSpec(query, sheets, |sheets|);
    assert ms[i] in ms;
    LabelFoldsLowerCaseColumns(ms[i].row, ms[i].col);
  }
}
