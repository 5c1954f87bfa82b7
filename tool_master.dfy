/**
 * The viewer window: one table per sheet, filled once when the workbook is
 * loaded, a Home table that each search rebuilds, and the yellow highlight
 * that searches leave on matching cells.
 */
module ToolMaster {
  import opened Wrappers
  import opened Text
  import opened Labels
  import opened Workbook
  import opened Search
  import opened Navigation

  /** A sheet's table: a fixed grid of optional items and the spans set on it. */
  class SheetTable {
    const items: array2<Option<string>>
    var spans: seq<Span>

    /** A new table sized to `rowCount` by `columnCount`, every cell without an item. */
    constructor (rowCount: nat, columnCount: nat)
      ensures fresh(items) && items.Length0 == rowCount && items.Length1 == columnCount
      ensures forall r, c :: 0 <= r < rowCount && 0 <= c < columnCount ==> items[r, c] == None
      ensures spans == []
    {
      items := new Option<string>[rowCount, columnCount]((r, c) => None);
      spans := [];
    }

    /** The table holds exactly the cells of `grid`, row by row. */
    ghost predicate Shows(grid: Grid)
      reads items
    {
      |grid| == items.Length0 &&
      (forall r :: 0 <= r < |grid| ==> |grid[r]| == items.Length1) &&
      forall r, c :: 0 <= r < items.Length0 && 0 <= c < items.Length1 ==> items[r, c] == grid[r][c]
    }

    /**
     * Copies every cell of `sheet` that holds a value into the table, one row
     * below and one column left of its 1-based position, and sets one span
     * per merged range.
     */
    method LoadData(sheet: SourceSheet)
      requires items.Length0 == sheet.maxRow && items.Length1 == sheet.maxColumn
      modifies this, items
      ensures forall r, c :: 0 <= r < items.Length0 && 0 <= c < items.Length1 ==>
        items[r, c] == if (r + 1, c + 1) in sheet.cells then Some(sheet.cells[(r + 1, c + 1)]) else old(items[r, c])
      ensures spans == old(spans) + MergeSpans(sheet.merged)
    {
      var row := 1;
      while row <= sheet.maxRow
        invariant 1 <= row <= sheet.maxRow + 1
        invariant spans == old(spans)
        invariant forall r, c :: 0 <= r < items.Length0 && 0 <= c < items.Length1 ==>
          items[r, c] == if r < row - 1 && (r + 1, c + 1) in sheet.cells then Some(sheet.cells[(r + 1, c + 1)]) else old(items[r, c])
      {
        var column := 1;
        while column <= sheet.maxColumn
          invariant 1 <= column <= sheet.maxColumn + 1
          invariant spans == old(spans)
          invariant forall r, c :: 0 <= r < items.Length0 && 0 <= c < items.Length1 ==>
            items[r, c] ==
              if (r < row - 1 || (r == row - 1 && c < column - 1)) && (r + 1, c + 1) in sheet.cells
              then Some(sheet.cells[(r + 1, c + 1)])
              else old(items[r, c])
        {
          // A cell without a value is skipped.
          if (row, column) in sheet.cells {
            items[row - 1, column - 1] := Some(sheet.cells[(row, column)]);
          }
          column := column + 1;
        }
        row := row + 1;
      }

      var i := 0;
      while i < |sheet.merged|
        modifies this
        invariant 0 <= i <= |sheet.merged|
        invariant spans == old(spans) + MergeSpans(sheet.merged[..i])
      {
        var range := sheet.merged[i];
        var startRow := range.minRow - 1;
        var endRow := range.maxRow - 1;
        var startCol := range.minCol - 1;
        var endCol := range.maxCol - 1;
        spans := spans + [Span(startRow, startCol, endRow - startRow + 1, endCol - startCol + 1)];
        assert sheet.merged[..i + 1][..i] == sheet.merged[..i];
        i := i + 1;
      }
      assert sheet.merged[..i] == sheet.merged;
    }
  }

  /** The viewer window over one loaded workbook. */
  class Viewer {
    /** The sheet names in the order the tables were loaded. */
    var sheetNames: seq<string>
    var tables: map<string, SheetTable>
    /** The Home table: one row per search result. */
    var results: seq<ResultRow>
    /** The cells whose background is yellow. */
    var highlighted: set<CellRef>

    /** The loaded sheets as the search sees them. */
    ghost var Sheets: seq<SheetView>
    /** The spans set on each sheet's table, in load order. */
    ghost var Spans: seq<seq<Span>>
    /** The tables and their item arrays. */
    ghost var Repr: set<object>

    ghost predicate Valid()
      reads this`sheetNames, this`tables, this`Sheets, this`Spans, this`Repr, Repr
    {
      this !in Repr &&
      |Sheets| == |Spans| == |sheetNames| &&
      (forall i, j :: 0 <= i < j < |sheetNames| ==> sheetNames[i] != sheetNames[j]) &&
      (forall n :: n in tables <==> n in sheetNames) &&
      (forall n :: n in tables ==>
        tables[n] in Repr && tables[n].items in Repr && tables[n].items.Length1 <= MaxColumns) &&
      (forall i :: 0 <= i < |sheetNames| ==>
        Sheets[i].name == sheetNames[i] && tables[sheetNames[i]].Shows(Sheets[i].grid) &&
        Spans[i] == tables[sheetNames[i]].spans)
    }

    /** Opens a workbook: loads every sheet, with an empty Home table and nothing highlighted. */
    constructor (workbook: seq<SourceSheet>)
      requires WellFormed(workbook)
      ensures Valid() && fresh(Repr)
      ensures sheetNames == NamesOf(workbook)
      ensures Sheets == LoadedSheets(workbook)
      ensures Spans == LoadedSpans(workbook)
      ensures results == [] && highlighted == {}
    {
      sheetNames := [];
      tables := map[];
      results := [];
      highlighted := {};
      Sheets := [];
      Spans := [];
      Repr := {};
      new;
      LoadSheets(workbook);
    }

    /** Adds one table per sheet, in workbook order, to a viewer with no tables yet. */
    method LoadSheets(workbook: seq<SourceSheet>)
      requires Valid() && WellFormed(workbook) && sheetNames == []
      modifies this`sheetNames, this`tables, this`Sheets, this`Spans, this`Repr
      ensures Valid() && fresh(Repr - old(Repr))
      ensures sheetNames == NamesOf(workbook)
      ensures Sheets == LoadedSheets(workbook)
      ensures Spans == LoadedSpans(workbook)
    {
      var i := 0;
      while i < |workbook|
        invariant 0 <= i <= |workbook|
        invariant Valid() && fresh(Repr - old(Repr))
        invariant sheetNames == NamesOf(workbook[..i])
        invariant Sheets == LoadedSheets(workbook[..i])
        invariant Spans == LoadedSpans(workbook[..i])
        invariant forall j :: i <= j < |workbook| ==> workbook[j].name !in tables
      {
        AddSheet(workbook[i]);
        LoadedPrefix(workbook, i);
        i := i + 1;
      }
      assert workbook[..i] == workbook;
    }

    /** One step of the load: a table for `sheet`, added under its name. */
    method AddSheet(sheet: SourceSheet)
      requires Valid() && sheet.name !in tables && sheet.maxColumn <= MaxColumns
      modifies this`sheetNames, this`tables, this`Sheets, this`Spans, this`Repr
      ensures Valid() && fresh(Repr - old(Repr))
      ensures sheetNames == old(sheetNames) + [sheet.name]
      ensures tables.Keys == old(tables).Keys + {sheet.name}
      ensures Sheets == old(Sheets) + [SheetView(sheet.name, SheetGrid(sheet))]
      ensures Spans == old(Spans) + [MergeSpans(sheet.merged)]
    {
      var table := NewSheetTable(sheet);
      tables := tables[sheet.name := table];
      sheetNames := sheetNames + [sheet.name];
      Sheets := Sheets + [SheetView(sheet.name, SheetGrid(sheet))];
      Spans := Spans + [table.spans];
      Repr := Repr + {table, table.items};
    }

    /**
     * Runs the search for `text`: the Home table is rebuilt from scratch with
     * every match in visiting order, and every matching cell is highlighted on
     * top of what earlier searches highlighted.
     */
    method Search(text: string)
      requires Valid()
      modifies this`results, this`highlighted
      ensures Valid()
      ensures results == ResultRows(AllMatches(text, Sheets))
      ensures highlighted == old(highlighted) + MatchedCells(AllMatches(text, Sheets))
    {
      results := [];
      ScanSheets(text, sheetNames, tables, Sheets);
    }

    /**
     * The search's pass over the tables in load order; `names`, `tableOf` and
     * `sheets` are the viewer's sheet names, tables and what they show.
     */
    method ScanSheets(text: string, names: seq<string>, tableOf: map<string, SheetTable>, ghost sheets: seq<SheetView>)
      requires |names| == |sheets| && WithinColumns(sheets)
      requires forall j :: 0 <= j < |names| ==>
        names[j] in tableOf && sheets[j].name == names[j] &&
        tableOf[names[j]].Shows(sheets[j].grid) && tableOf[names[j]].items.Length1 <= MaxColumns
      modifies this`results, this`highlighted
      ensures results == old(results) + ResultRows(AllMatches(text, sheets))
      ensures highlighted == old(highlighted) + MatchedCells(AllMatches(text, sheets))
    {
      var i := 0;
      while i < |names|
        invariant 0 <= i <= |names|
        invariant results == old(results) + ResultRows(WorkbookMatches(text, sheets, i))
        invariant highlighted == old(highlighted) + MatchedCells(WorkbookMatches(text, sheets, i))
      {
        ghost var done := WorkbookMatches(text, sheets, i);
        ghost var found := GridMatches(text, i, names[i], sheets[i].grid, |sheets[i].grid|);
        ScanSheet(text, i, names[i], tableOf[names[i]], sheets[i].grid);
        ResultRowsConcat(done, found);
        MatchedCellsConcat(done, found);
        AppendAssociative(old(results), ResultRows(done), ResultRows(found));
        i := i + 1;
      }
    }

    /** The search's pass over the rows of table `table`, loaded as sheet `k` named `name`. */
    method ScanSheet(text: string, k: nat, name: string, table: SheetTable, ghost grid: Grid)
      requires table.Shows(grid) && table.items.Length1 <= MaxColumns
      modifies this`results, this`highlighted
      ensures results == old(results) + ResultRows(GridMatches(text, k, name, grid, |grid|))
      ensures highlighted == old(highlighted) + MatchedCells(GridMatches(text, k, name, grid, |grid|))
    {
      var row := 0;
      while row < table.items.Length0
        invariant 0 <= row <= table.items.Length0
        invariant results == old(results) + ResultRows(GridMatches(text, k, name, grid, row))
        invariant highlighted == old(highlighted) + MatchedCells(GridMatches(text, k, name, grid, row))
      {
        ghost var before := GridMatches(text, k, name, grid, row);
        ghost var found := RowMatches(text, k, name, grid[row], row, |grid[row]|);
        ScanRow(text, k, name, table, grid, row);
        ResultRowsConcat(before, found);
        MatchedCellsConcat(before, found);
        AppendAssociative(old(results), ResultRows(before), ResultRows(found));
        row := row + 1;
      }
    }

    /** The search's pass over the columns of row `row` of table `table`. */
    method ScanRow(text: string, k: nat, name: string, table: SheetTable, ghost grid: Grid, row: nat)
      requires table.Shows(grid) && table.items.Length1 <= MaxColumns && row < |grid|
      modifies this`results, this`highlighted
      ensures results == old(results) + ResultRows(RowMatches(text, k, name, grid[row], row, |grid[row]|))
      ensures highlighted == old(highlighted) + MatchedCells(RowMatches(text, k, name, grid[row], row, |grid[row]|))
    {
      ghost var cells := grid[row];
      ghost var found: seq<Match> := [];
      var col := 0;
      while col < table.items.Length1
        invariant 0 <= col <= table.items.Length1 == |cells|
        invariant found == RowMatches(text, k, name, cells, row, col)
        invariant results == old(results) + ResultRows(found)
        invariant highlighted == old(highlighted) + MatchedCells(found)
      {
        var item := table.items[row, col];
        if item.Some? && Contains(Lower(item.value), Lower(text)) {
          ghost var m := Match(k, name, row, col, item.value);
          ResultRowsConcat(found, [m]);
          MatchedCellsConcat(found, [m]);
          AppendAssociative(old(results), ResultRows(found), [ResultRowOf(m)]);
          results := results + [ResultRow(name, CellLabel(row, col), item.value)];
          highlighted := highlighted + {CellRef(name, row, col)};
          found := found + [m];
        }
        col := col + 1;
      }
    }

    /**
     * The cell selected when Home row `row` is clicked (the clicked column does
     * not matter); None where the handler raises.
     */
    method NavigateToSheet(row: int, column: int) returns (target: Option<Target>)
      ensures target == Navigate(results, tables.Keys, row)
    {
      if !(0 <= row < |results|) {
        return None;
      }
      var sheetName := results[row].sheet;
      var cellLocation := results[row].cell;
      var number := ParseInt(if |cellLocation| == 0 then "" else cellLocation[1..]);
      if number.None? {
        return None;
      }
      var targetRow := number.value - 1;
      var targetCol := UpperChar(cellLocation[0]) as int - 65;
      if sheetName !in tables {
        return None;
      }
      target := Some(Target(sheetName, targetRow, targetCol));
    }
  }

  lemma AppendAssociative<T>(a: seq<T>, b: seq<T>, c: seq<T>)
    ensures (a + b) + c == a + (b + c)
  {
  }

  /** The sheet names of a workbook, in order. */
  function NamesOf(workbook: seq<SourceSheet>): (names: seq<string>)
    ensures |names| == |workbook|
    ensures forall i :: 0 <= i < |workbook| ==> names[i] == workbook[i].name
  {
    seq(|workbook|, i requires 0 <= i < |workbook| => workbook[i].name)
  }

  /** What the search sees of a loaded workbook: each sheet's name and grid, in order. */
  function LoadedSheets(workbook: seq<SourceSheet>): (sheets: seq<SheetView>)
    ensures |sheets| == |workbook|
    ensures forall i :: 0 <= i < |workbook| ==> sheets[i] == SheetView(workbook[i].name, SheetGrid(workbook[i]))
  {
    seq(|workbook|, i requires 0 <= i < |workbook| => SheetView(workbook[i].name, SheetGrid(workbook[i])))
  }

  /** The spans set on each sheet's table, in order. */
  function LoadedSpans(workbook: seq<SourceSheet>): (spans: seq<seq<Span>>)
    ensures |spans| == |workbook|
    ensures forall i :: 0 <= i < |workbook| ==> spans[i] == MergeSpans(workbook[i].merged)
  {
    seq(|workbook|, i requires 0 <= i < |workbook| => MergeSpans(workbook[i].merged))
  }

  /** Loading one more sheet of a workbook appends that sheet's entries. */
  lemma LoadedPrefix(workbook: seq<SourceSheet>, i: nat)
    requires i < |workbook|
    ensures NamesOf(workbook[..i + 1]) == NamesOf(workbook[..i]) + [workbook[i].name]
    ensures LoadedSheets(workbook[..i + 1]) == LoadedSheets(workbook[..i]) + [SheetView(workbook[i].name, SheetGrid(workbook[i]))]
    ensures LoadedSpans(workbook[..i + 1]) == LoadedSpans(workbook[..i]) + [MergeSpans(workbook[i].merged)]
  {
  }

  /** A new table sized to `sheet` and loaded from it. */
  method NewSheetTable(sheet: SourceSheet) returns (table: SheetTable)
    ensures fresh(table) && fresh(table.items)
    ensures table.items.Length0 == sheet.maxRow && table.items.Length1 == sheet.maxColumn
    ensures table.Shows(SheetGrid(sheet))
    ensures table.spans == MergeSpans(sheet.merged)
  {
    table := new SheetTable(sheet.maxRow, sheet.maxColumn);
    table.LoadData(sheet);
  }

}
