/** The Danish 7-point grading table as rows of cells, and its rendering as
    the tab-separated text the prompt carries. */
module GradeTable {
  import opened Text
  import opened Decimal

  /** One line of the Danish 7-point grading table. */
  datatype GradeRow = GradeRow(grade: string, name: string, description: string, letter: string)

  /** Numeric value of a grade cell: digits, optionally preceded by '-'. */
  function GradeValue(grade: string): (r: int)
  {
    if |grade| > 0 && grade[0] == '-' && AllDigits(grade[1..]) then 0 - ParseNat(grade[1..])
    else if AllDigits(grade) then ParseNat(grade)
    else 0
  }

  /** A cell of one or two digits reads as its decimal value. */
  lemma ShortDigitsValue(s: string)
    requires 1 <= |s| <= 2 && AllDigits(s)
    ensures ParseNat(s) == if |s| == 1 then DigitValue(s[0]) else DigitValue(s[0]) * 10 + DigitValue(s[1])
  {
    assert s[..|s| - 1][..0] == [];
    if |s| == 2 {
      assert s[..1][0] == s[0];
    }
  }

  /** The values of the seven grade cells. */
  lemma GradeCellValues()
    ensures GradeValue("12") == 12 && GradeValue("10") == 10 && GradeValue("7") == 7
    ensures GradeValue("4") == 4 && GradeValue("02") == 2 && GradeValue("00") == 0
    ensures GradeValue("-3") == -3
  {
    ShortDigitsValue("12");
    ShortDigitsValue("10");
    ShortDigitsValue("7");
    ShortDigitsValue("4");
    ShortDigitsValue("02");
    ShortDigitsValue("00");
    ShortDigitsValue("3");
    assert "-3"[1..] == "3";
  }

  /** Cells of a row are separated by a space and a tab. */
  const CellSeparator := " \t"

  /** Rows are separated by a line break followed by the template's four-space indent. */
  const RowSeparator := Indent

  function RenderRow(row: GradeRow): (r: string)
  {
    row.grade + CellSeparator + row.name + CellSeparator + row.description + CellSeparator + row.letter
  }

  /** The rows joined by `RowSeparator`. */
  function RenderTable(rows: seq<GradeRow>): (r: string)
  {
    if |rows| == 0 then ""
    else if |rows| == 1 then RenderRow(rows[0])
    else RenderRow(rows[0]) + RowSeparator + RenderTable(rows[1..])
  }

  /** Index in `RenderTable(rows)` at which row `k` starts. */
  function RowStart(rows: seq<GradeRow>, k: nat): (r: nat)
    requires k < |rows|
  {
    if k == 0 then 0 else |RenderRow(rows[0])| + |RowSeparator| + RowStart(rows[1..], k - 1)
  }

  /** Consecutive rows are separated by exactly `RowSeparator`. */
  lemma {:induction false} RowStartStep(rows: seq<GradeRow>, k: nat)
    requires k + 1 < |rows|
    ensures OccursAt(RowSeparator, RenderTable(rows), RowStart(rows, k) + |RenderRow(rows[k])|)
    ensures RowStart(rows, k) + |RenderRow(rows[k])| + |RowSeparator| == RowStart(rows, k + 1)
  {
    if k == 0 {
      SliceOfConcat(RenderRow(rows[0]), RowSeparator, RenderTable(rows[1..]));
    } else {
      RowStartStep(rows[1..], k - 1);
      assert rows[1..][k - 1] == rows[k];
      OccursAfterPrefix(RowSeparator, RenderRow(rows[0]) + RowSeparator, RenderTable(rows[1..]),
        RowStart(rows[1..], k - 1) + |RenderRow(rows[k])|);
    }
  }

  /** A character missing from every cell, other than the space and the tab,
      is missing from the rendered row. */
  lemma RowLacks(row: GradeRow, c: char)
    requires c != ' ' && c != '\t'
    requires Lacks(row.grade, c) && Lacks(row.name, c) && Lacks(row.description, c) && Lacks(row.letter, c)
    ensures Lacks(RenderRow(row), c)
  {
    assert Lacks(CellSeparator, c);
    LacksConcat(row.grade, CellSeparator, c);
    LacksConcat(row.grade + CellSeparator, row.name, c);
    LacksConcat(row.grade + CellSeparator + row.name, CellSeparator, c);
    LacksConcat(row.grade + CellSeparator + row.name + CellSeparator, row.description, c);
    LacksConcat(row.grade + CellSeparator + row.name + CellSeparator + row.description, CellSeparator, c);
    LacksConcat(row.grade + CellSeparator + row.name + CellSeparator + row.description + CellSeparator,
      row.letter, c);
  }

  /** If no row has `a` directly followed by `b`, neither has the table, as
      long as the row separator cannot complete such a pair: it starts with a
      line break and ends with a space. */
  lemma {:induction false} TableNoPair(rows: seq<GradeRow>, a: char, b: char)
    requires forall i :: 0 <= i < |rows| ==> NoPair(RenderRow(rows[i]), a, b)
    requires a != '\n' && a != ' ' && b != '\n'
    ensures NoPair(RenderTable(rows), a, b)
  {
    if |rows| > 1 {
      TableNoPair(rows[1..], a, b);
      assert NoPair(RenderRow(rows[0]), a, b);
      assert Lacks(RowSeparator, a);
      LacksNoPair(RowSeparator, a, b);
      NoPairConcat(RenderRow(rows[0]), RowSeparator, a, b);
      NoPairConcat(RenderRow(rows[0]) + RowSeparator, RenderTable(rows[1..]), a, b);
    } else if |rows| == 1 {
      assert NoPair(RenderRow(rows[0]), a, b);
    }
  }

  /** The table text ends where its last row ends: nothing follows the last row. */
  lemma {:induction false} TableEnd(rows: seq<GradeRow>)
    requires |rows| > 0
    ensures |RenderTable(rows)| == RowStart(rows, |rows| - 1) + |RenderRow(rows[|rows| - 1])|
  {
    if |rows| > 1 {
      TableEnd(rows[1..]);
      assert rows[1..][|rows| - 2] == rows[|rows| - 1];
    }
  }

  /** Every row appears in the table at its start index, hence in list order. */
  lemma {:induction false} RowPlacement(rows: seq<GradeRow>, k: nat)
    requires k < |rows|
    ensures OccursAt(RenderRow(rows[k]), RenderTable(rows), RowStart(rows, k))
  {
    if |rows| == 1 {
      OccursAtStart(RenderRow(rows[0]), "");
      assert RenderRow(rows[0]) + "" == RenderTable(rows);
    } else if k == 0 {
      OccursAtStart(RenderRow(rows[0]), RowSeparator + RenderTable(rows[1..]));
      assert RenderRow(rows[0]) + (RowSeparator + RenderTable(rows[1..])) == RenderTable(rows);
    } else {
      RowPlacement(rows[1..], k - 1);
      assert rows[1..][k - 1] == rows[k];
      var pre := RenderRow(rows[0]) + RowSeparator;
      assert RenderTable(rows) == pre + RenderTable(rows[1..]);
      OccursAfterPrefix(RenderRow(rows[k]), pre, RenderTable(rows[1..]), RowStart(rows[1..], k - 1));
    }
  }
}
