# ToolMaster spreadsheet viewer, modelled in Dafny

`ToolMaster.py` is a small desktop window, `ExcelViewerWithHomePage`, that
opens a workbook and shows:

- one read-only table per sheet;
- a "Home" table of search results;
- a search bar.

This project models what happens beneath the widgets, in four parts.

- **Loading** (`load_sheets`, `load_data`):
  - every sheet becomes a table of `max_row × max_column` optional cell texts;
  - each source cell at 1-based `(r, c)` that holds a value is written at 0-based `(r - 1, c - 1)`;
  - every merged range becomes a span.
- **Search** (`search`):
  - the Home table is cleared;
  - the tables are scanned in the order they were loaded, row by row and column by column;
  - each cell holding an item whose lower-cased text contains the lower-cased query adds a Home row `(sheet name, label, content)`, where the label is `chr(65 + col)` followed by `row + 1`;
  - that cell is highlighted.
- **Navigation** (`navigate_to_sheet`): clicking a Home row parses its label back into a row and a column, and selects that cell in the named sheet's table.
- **Text helpers**: ASCII case mapping, substring containment (Python's `in`), decimal formatting and `int()` parsing.

Modules, one per file:

- `wrappers.dfy` (`Wrappers`): `Option`.
- `text.dfy` (`Text`): case mapping, containment, decimal numbers.
- `labels.dfy` (`Labels`): formatting and parsing cell labels.
- `workbook.dfy` (`Workbook`): the workbook as the reader hands it over, the grid a sheet is shown as, and merged range to span arithmetic.
- `search_spec.dfy` (`Search`): what one search computes, as pure functions of the query and the grids, with its soundness, completeness, uniqueness and ordering lemmas.
- `navigation.dfy` (`Navigation`): what a click on a Home row selects.
- `tool_master.dfy` (`ToolMaster`), the imperative model:
  - `SheetTable` stands for a sheet's table widget: a fixed `array2` of optional texts plus the spans set on it.
  - `Viewer` stands for the window. Its fields are the tables keyed by sheet name with their insertion order, the Home table as a sequence of rows, and the highlighted cells as a set.
  - The methods are proved against the pure functions of `Search` and `Workbook`. A ghost `Sheets` field records the grid each table shows.

## Model

| member | source | states |
|---|---|---|
| Text.ContainsIff | ToolMaster.py:86 | the containment test used for `in` holds exactly when the needle occurs at some position of the text |
| Text.EmptyIsContained | ToolMaster.py:86 | the empty string is contained in every text |
| Text.LowerIgnoresCase | ToolMaster.py:86 | under the ASCII case mapping, lower-casing an upper-cased or lower-cased string gives the same as lower-casing it once |
| Text.NatToDecimal | ToolMaster.py:91 | the decimal form of a number is non-empty and all digits, and for a positive number it starts with a non-zero digit, so it has no leading zero |
| Text.ParseInt | ToolMaster.py:99 | parsing succeeds exactly on non-empty all-digit strings and then gives a non-negative number |
| Text.DecimalRoundTrip | ToolMaster.py:91-99 | parsing the decimal form of `n` gives back `n` |
| Labels.ColumnChar | ToolMaster.py:91 | the column character is one of 'A' to 'Z' exactly for the first 26 columns, and, under the ASCII case mapping, upper-casing changes it exactly for columns 32 to 57 (it is then 'a' to 'z') |
| Labels.CellLabel | ToolMaster.py:91 | a label has at least two characters: a first character that is one of 'A' to 'Z' exactly for the first 26 columns, then only digits, the first of them not '0' |
| Labels.LabelsDistinct | ToolMaster.py:91 | two cells with the same label are the same cell, so each Home row names exactly one cell |
| Labels.ParseLabel | ToolMaster.py:99-100 | under the ASCII case mapping, a label parses exactly when it has a first character followed by at least one character, all of them decimal digits; the parsed row is at least -1 (a label numbered 0) |
| Labels.LabelRoundTrip | ToolMaster.py:91-100 | for every row and every column below 32, parsing the label of `(row, col)` gives back `(row, col)` |
| Labels.LabelFoldsLowerCaseColumns | ToolMaster.py:91-100 | for columns 32 to 57 the label differs from the label of column `col - 32` in the same row, yet parses to `(row, col - 32)`, because upper-casing folds its lower-case first letter |
| Workbook.SpanOf | ToolMaster.py:67-72 | the span is anchored at `(minRow - 1, minCol - 1)`, one row up and one column left of the range, covers exactly the 0-based images of the range's cells, and has `rowSpan = maxRow - minRow + 1` and `colSpan = maxCol - minCol + 1`; both are at least 1 exactly when the range is not inverted |
| Workbook.MergeSpans | ToolMaster.py:67-72 | one span per merged range, in the same order, each that range's span |
| Workbook.SheetGrid | ToolMaster.py:46-47 | a sheet is shown as `maxRow` rows of `maxColumn` cells |
| Workbook.CellPlacement | ToolMaster.py:58-64 | the 1-based source cell `(row, col)` in range shows at 0-based `(row - 1, col - 1)`: its value if it holds one, nothing otherwise |
| Search.RowMatchesSpec | ToolMaster.py:84-86 | the scan of a row lists only cells that hold an item whose text the query hits, each with that text, and lists every such cell |
| Search.RowMatchesOrdered | ToolMaster.py:84 | the scan of a row lists its matches from left to right |
| Search.GridMatchesSpec | ToolMaster.py:83-86 | the scan of a sheet lists exactly the matching cells of its rows, each with its text |
| Search.GridMatchesOrdered | ToolMaster.py:83-84 | the scan of a sheet lists matches by row, then by column |
| Search.WorkbookMatchesSpec | ToolMaster.py:82-86 | the scan of the workbook lists exactly the matching cells of every sheet, each with its sheet's name and its text |
| Search.WorkbookMatchesOrdered | ToolMaster.py:82-84 | the scan of the workbook lists matches by sheet load order, then by row, then by column |
| Search.ResultRowIsMatchingCell | ToolMaster.py:86-92 | the i-th Home row names a sheet, labels a cell of it that holds an item, carries exactly that item's text, and the lower-cased query occurs in the lower-cased text |
| Search.MatchingCellListedOnce | ToolMaster.py:82-92 | every cell holding an item whose text the query hits is listed, and at exactly one position |
| Search.NonMatchingCellNotListed | ToolMaster.py:86 | an empty cell, or one whose text the query misses, is never listed |
| Search.EmptyQueryListsEveryCell | ToolMaster.py:86 | the empty query lists every cell that holds an item |
| Search.SearchIgnoresQueryCase | ToolMaster.py:86 | under the ASCII case mapping, an upper-cased query finds exactly the same matches, in the same order, as the query itself |
| Search.MatchedCellsAreMatchingCells | ToolMaster.py:86-93 | the cells one search highlights are exactly the cells holding an item whose text the query hits |
| Navigation.Navigate | ToolMaster.py:95-104 | under the ASCII case mapping, a click selects something exactly when the Home row exists, its label parses and its sheet has a table; it then selects that sheet and the row and column the label parses to |
| Navigation.NavigateReachesMatch | ToolMaster.py:91-104 | clicking the i-th result of a search selects, in the result's sheet, the very cell that matched, and that cell shows the result's content (columns below 32) |
| Navigation.NavigateFoldsLowerCaseColumns | ToolMaster.py:91-104 | clicking a result in columns 32 to 57 selects the cell 32 columns to its left in the same sheet and row |
| ToolMaster.SheetTable.constructor | ToolMaster.py:44-47 | a new table has the requested row and column counts, no items and no spans |
| ToolMaster.SheetTable.LoadData | ToolMaster.py:56-72 | every in-bounds cell whose 1-based source cell holds a value gets that value, every other cell keeps its item, and the spans of the merged ranges are appended in order |
| ToolMaster.NewSheetTable | ToolMaster.py:44-50 | a fresh table sized to the sheet and loaded from it shows exactly the sheet's grid and carries its merged spans |
| ToolMaster.Viewer.constructor | ToolMaster.py:24-31 | opening a workbook loads every sheet in order, with an empty Home table and no highlighted cell |
| ToolMaster.Viewer.LoadSheets | ToolMaster.py:39-54 | after loading, the tables are the workbook's sheets in order, each showing its sheet's grid with its spans |
| ToolMaster.Viewer.AddSheet | ToolMaster.py:41-51 | one load step appends the sheet's name, a table showing its grid and its spans, and keys the table by the name |
| ToolMaster.Viewer.Search | ToolMaster.py:74-93 | after a search the Home table holds exactly the rows of every match of this query, in visiting order, whatever it held before; the highlighted set is the previous set plus the cells of those matches |
| ToolMaster.Viewer.ScanSheets | ToolMaster.py:82-93 | scanning all tables appends the rows, and highlights the cells, of the workbook's matches |
| ToolMaster.Viewer.ScanSheet | ToolMaster.py:83-93 | scanning one table appends the rows, and highlights the cells, of that sheet's matches |
| ToolMaster.Viewer.ScanRow | ToolMaster.py:84-93 | scanning one row appends the rows, and highlights the cells, of that row's matches |
| ToolMaster.Viewer.NavigateToSheet | ToolMaster.py:95-104 | the handler selects what `Navigation.Navigate` prescribes for the current Home table and tables |

## Left out

- Qt presentation is not modelled: windows, tabs, layouts, header labels, alignment, the yellow colour itself, signal wiring, and the actual tab switch and cell selection. Navigation returns the `(sheet, row, column)` it would select.
- Reading the file (`load_workbook`) is not modelled. The workbook is an input value: ordered sheets, each with `max_row`, `max_column`, a sparse map from 1-based coordinates to cell text, and its merged ranges.
- Sheet names are distinct and no sheet is wider than 16384 columns. The spreadsheet format guarantees both, and `Workbook.WellFormed` assumes them.
- Merged ranges are a sequence. The reader's own iteration order over them is not modelled.
- `str(cell.value)` is not modelled: cell values are already text.
- Case mapping is ASCII only. The Unicode mappings of `str.lower` and `str.upper` are not modelled, including multi-character results.
- Text.LowerIgnoresCase: holds only for the ASCII mapping. In Python, `"ß".upper().lower()` is `"ss"`, not `"ß"`.
- Search.SearchIgnoresQueryCase: holds only for the ASCII mapping. In Python, the query "ß" finds a cell "Straße", but its upper-cased form "SS" does not, because "ss" does not occur in "straße".
- Labels.ParseLabel: its "exactly when" holds only for the ASCII mapping. Column 158 is labelled `chr(223)`, which is "ß". Python upper-cases it to "SS", and `ord` then raises, while the model still parses the label. Other characters beyond ASCII upper-case to a different single character (column 116, "µ", becomes "Μ"), so the column Python computes differs from the model's.
- Navigation.Navigate: inherits the ASCII mapping from `Labels.ParseLabel`. For labels whose first character lies beyond ASCII, Python may raise or select another column where the model selects the label's own column.
- `int()` is modelled on plain decimal digits only. Its acceptance of surrounding whitespace, a sign and underscores is not modelled.
- Text.ParseInt: no Home label contains whitespace, a sign or underscores, so this does not change what navigation selects.
- ToolMaster.Viewer.NavigateToSheet: where the handler would raise, the model returns `None` instead. That covers a missing Home row, a label that does not parse, and a sheet without a table.
- Labels.ColumnChar: its statement about upper-casing holds only for the ASCII mapping. Python's `str.upper()` also changes the character of column 116 ('µ' becomes 'Μ'), column 158 ('ß' becomes "SS"), columns 159 to 190 except 182 ('à' to 'ÿ'), and column 880 ('α' becomes 'Α').
- Labels.LabelRoundTrip: stated for columns below 32 only. From column 32 on, the label's first character is a lower-case letter or lies beyond the ASCII letters. `Labels.LabelFoldsLowerCaseColumns` states what happens for columns 32 to 57. Beyond column 57 the Unicode case mapping matters, and it is not modelled.
- The entry point, with its fixed file path, is not modelled.
- Behaviours of the code that a user may not expect, modelled as the code has them:
  - an empty query lists every cell holding an item, because the empty string is in every text;
  - highlights from earlier searches are never removed;
  - navigation parses the label rather than looking the content up;
  - every sheet is shown, hidden ones included; overlapping merged ranges are passed to the table as they come, without an error; coordinates are used as computed, without clamping to the table.
