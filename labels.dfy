/**
 * The "A1"-style cell label written into the Home table by the search, and
 * its parsing back into 0-based coordinates when a result is clicked.
 */
module Labels {
  import opened Wrappers
  import opened Text

  /** An xlsx worksheet has at most 16384 columns (A to XFD). */
  const MaxColumns := 16384

  /** A 0-based column index of such a worksheet. */
  type ColumnIndex = c: nat | c < MaxColumns

  /**
   * `chr(65 + col)`: 'A' for column 0, one code point further per column, so
   * one of 'A' to 'Z' only for the first 26 columns, and a character that
   * the ASCII upper-casing changes exactly for columns 32 to 57 ('a' to 'z').
   */
  function ColumnChar(col: ColumnIndex): (ch: char)
    ensures ch as int == 65 + col
    ensures ('A' <= ch <= 'Z') <==> col < 26
    ensures UpperChar(ch) != ch <==> 32 <= col < 58
  {
    (65 + col) as char
  }

  /**
   * `f"{chr(65 + col)}{row + 1}"`: the column character, then the 1-based
   * row as a decimal numeral without a leading zero.
   */
  function CellLabel(row: nat, col: ColumnIndex): (text: string)
    ensures |text| >= 2 && text[0] as int == 65 + col
    ensures ('A' <= text[0] <= 'Z') <==> col < 26
    ensures AllDigits(text[1..]) && text[1] != '0'
    ensures text[1..] == NatToDecimal(row + 1)
  {
    [ColumnChar(col)] + NatToDecimal(row + 1)
  }

  /**
   * `int(label[1:]) - 1` and `ord(label[0].upper()) - 65` under the ASCII
   * case mapping; None where Python raises (an empty label, or a tail that
   * is not a number).
   */
  function ParseLabel(text: string): (r: Option<(int, int)>)
    ensures r.Some? <==> |text| >= 2 && AllDigits(text[1..])
    ensures r.Some? ==> r.value.0 >= -1
  {
    if |text| == 0 then None
    else
      match ParseInt(text[1..])
      case None => None
      case Some(n) => Some((n - 1, UpperChar(text[0]) as int - 65))
  }

  /**
   * Parsing a label gives back the cell it was written for, for every row and
   * for the columns whose character `upper()` leaves alone ('A'..'Z' and the
   * six characters '[' to '`' that follow them).
   */
  lemma LabelRoundTrip(row: nat, col: nat)
    requires col < 32
    ensures ParseLabel(CellLabel(row, col)) == Some((row, col))
  {
    var text := CellLabel(row, col);
    DecimalRoundTrip(row + 1);
    assert UpperChar(text[0]) == text[0];
  }

  /**
   * Columns 32 to 57 are labelled 'a' to 'z', which `upper()` folds onto 'A' to
   * 'Z': the parsed column is 32 less than the one the label was written for.
   */
  lemma LabelFoldsLowerCaseColumns(row: nat, col: nat)
    requires 32 <= col < 58
    ensures CellLabel(row, col) != CellLabel(row, col - 32)
    ensures ParseLabel(CellLabel(row, col)) == Some((row, col - 32))
  {
    var text := CellLabel(row, col);
    DecimalRoundTrip(row + 1);
    assert UpperChar(text[0]) as int == 65 + col - 32;
    assert CellLabel(row, col)[0] != CellLabel(row, col - 32)[0];
  }

  /** Distinct cells get distinct labels, so each Home row names one cell. */
  lemma LabelsDistinct(r1: nat, c1: ColumnIndex, r2: nat, c2: ColumnIndex)
    ensures CellLabel(r1, c1) == CellLabel(r2, c2) ==> r1 == r2 && c1 == c2
  {
    if CellLabel(r1, c1) == CellLabel(r2, c2) {
      DecimalRoundTrip(r1 + 1);
      DecimalRoundTrip(r2 + 1);
      assert CellLabel(r1, c1)[1..] == CellLabel(r2, c2)[1..];
    }
  }
}
