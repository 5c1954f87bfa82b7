/**
 * The workbook as the spreadsheet reader hands it over: an ordered sequence
 * of sheets, each with its used extent, a sparse map from 1-based (row,
 * column) to the cell's text, and its merged ranges.
 */
module Workbook {
  import opened Wrappers
  import opened Labels

  /** A merged range in the reader's 1-based, inclusive coordinates. */
  datatype MergedRange = MergedRange(minRow: int, minCol: int, maxRow: int, maxCol: int)

  /** A table span: a 0-based anchor and how many rows and columns it covers. */
  datatype Span = Span(row: int, col: int, rowSpan: int, colSpan: int)

  datatype SourceSheet = SourceSheet(
    name: string,
    maxRow: nat,
    maxColumn: nat,
    cells: map<(int, int), string>,
    merged: seq<MergedRange>)

  /** What the reader guarantees: distinct sheet names, widths within the format's limit. */
  predicate WellFormed(workbook: seq<SourceSheet>) {
    (forall i, j :: 0 <= i < j < |workbook| ==> workbook[i].name != workbook[j].name) &&
    (forall i :: 0 <= i < |workbook| ==> workbook[i].maxColumn <= MaxColumns)
  }

  /** The 1-based cell `(row, col)` of the range. */
  predicate InRange(m: MergedRange, row: int, col: int) {
    m.minRow <= row <= m.maxRow && m.minCol <= col <= m.maxCol
  }

  /** The 0-based table cell `(row, col)` lies under the span. */
  predicate Covers(s: Span, row: int, col: int) {
    s.row <= row < s.row + s.rowSpan && s.col <= col < s.col + s.colSpan
  }

  /** The span `setSpan` receives for a merged range. */
  function SpanOf(m: MergedRange): (s: Span)
    ensures s.row == m.minRow - 1 && s.col == m.minCol - 1
    ensures forall row, col :: Covers(s, row, col) <==> InRange(m, row + 1, col + 1)
    ensures s.rowSpan == m.maxRow - m.minRow + 1 && s.colSpan == m.maxCol - m.minCol + 1
    ensures (s.rowSpan >= 1 && s.colSpan >= 1) <==> (m.minRow <= m.maxRow && m.minCol <= m.maxCol)
  {
    var startRow := m.minRow - 1;
    var endRow := m.maxRow - 1;
    var startCol := m.minCol - 1;
    var endCol := m.maxCol - 1;
    Span(startRow, startCol, endRow - startRow + 1, endCol - startCol + 1)
  }

  /** The spans of the ranges, in the order the ranges are listed. */
  function MergeSpans(ranges: seq<MergedRange>): (spans: seq<Span>)
    ensures |spans| == |ranges|
    ensures forall i :: 0 <= i < |ranges| ==> spans[i] == SpanOf(ranges[i])
    decreases |ranges|
  {
    if ranges == [] then [] else MergeSpans(ranges[..|ranges| - 1]) + [SpanOf(ranges[|ranges| - 1])]
  }

  /** The text of the 1-based cell `(row, col)`, or None where the cell holds no value. */
  function CellText(sheet: SourceSheet, row: int, col: int): Option<string> {
    if (row, col) in sheet.cells then Some(sheet.cells[(row, col)]) else None
  }

  /**
   * The grid a sheet is shown as: `maxRow` rows of `maxColumn` cells, the
   * 0-based cell `(r, c)` holding the text of the 1-based cell `(r + 1, c + 1)`.
   */
  function SheetGrid(sheet: SourceSheet): (grid: seq<seq<Option<string>>>)
    ensures |grid| == sheet.maxRow
    ensures forall r :: 0 <= r < |grid| ==> |grid[r]| == sheet.maxColumn
  {
    seq(sheet.maxRow, r requires 0 <= r < sheet.maxRow =>
      seq(sheet.maxColumn, c requires 0 <= c < sheet.maxColumn => CellText(sheet, r + 1, c + 1)))
  }

  /**
   * Placement: the cell at 1-based `(row, col)` of the sheet shows at 0-based
   * `(row - 1, col - 1)`; a cell holding a value shows that value and any
   * other cell shows nothing.
   */
  lemma CellPlacement(sheet: SourceSheet, row: int, col: int)
    requires 1 <= row <= sheet.maxRow && 1 <= col <= sheet.maxColumn
    ensures (row, col) in sheet.cells ==> SheetGrid(sheet)[row - 1][col - 1] == Some(sheet.cells[(row, col)])
    ensures (row, col) !in sheet.cells ==> SheetGrid(sheet)[row - 1][col - 1] == None
  {
  }
}
