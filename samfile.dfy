/** The SAM file `xlsx_to_sam` writes: the station header, the column header
    and one record per table row, in row order, each write appending to the
    text of the file. */
module SamFile {
  import opened Format
  import opened Text
  import opened Dates
  import opened Sam
  import opened LineText

  /** The records of the rows, in row order. */
  function DataLines(rows: seq<Row>): (lines: seq<string>)
    ensures |lines| == |rows|
  {
    Each(DataLine, rows)
  }

  /** There is one record per row, and record `i` is the one of row `i`. */
  lemma DataLinesAt(rows: seq<Row>)
    ensures forall i :: 0 <= i < |rows| ==> DataLines(rows)[i] == DataLine(rows[i])
  {
    EachAt(DataLine, rows);
  }

  /** Writing two tables one after the other gives the records of the first
      followed by those of the second. */
  lemma DataLinesAppend(a: seq<Row>, b: seq<Row>)
    ensures DataLines(a + b) == DataLines(a) + DataLines(b)
  {
    EachAppend(DataLine, a, b);
  }

  /** The lines written, in the order they are written. */
  function SamLines(rows: seq<Row>): (lines: seq<string>) {
    [StationHeader, ColumnHeader()] + DataLines(rows)
  }

  /** Two header lines, then record `i` of row `i` for every row; an empty
      table gives the two headers only. */
  lemma SamLinesShape(rows: seq<Row>)
    ensures |SamLines(rows)| == |rows| + 2
    ensures SamLines(rows)[0] == StationHeader && SamLines(rows)[1] == ColumnHeader()
    ensures forall i :: 0 <= i < |rows| ==> SamLines(rows)[i + 2] == DataLine(rows[i])
    ensures rows == [] ==> SamLines(rows) == [StationHeader, ColumnHeader()]
  {
    TwoFirst(StationHeader, ColumnHeader(), DataLines(rows));
    DataLinesAt(rows);
  }

  /** The contents of the SAM file written for `rows`. */
  function FileText(rows: seq<Row>): (text: string) {
    Concat(SamLines(rows))
  }

  /** A table with one more row gets one more record at the end. */
  lemma SamLinesSnoc(rows: seq<Row>, r: Row)
    ensures SamLines(rows + [r]) == SamLines(rows) + [DataLine(r)]
  {
    EachSnoc(DataLine, rows, r);
    AppendAfter([StationHeader, ColumnHeader()], DataLines(rows), DataLine(r));
  }

  /** Each further row appends its record to the text of the file. */
  lemma FileTextSnoc(rows: seq<Row>, r: Row)
    ensures FileText(rows + [r]) == FileText(rows) + DataLine(r)
  {
    SamLinesSnoc(rows, r);
    var lines := SamLines(rows + [r]);
    assert lines[..|lines| - 1] == SamLines(rows);
  }

  /** Taking one more row from a table. */
  lemma TakeOneMore(rows: seq<Row>, i: nat)
    requires i < |rows|
    ensures rows[..i + 1] == rows[..i] + [rows[i]]
  {
  }

  /** `xlsx_to_sam`'s writes, in the order it makes them: the station header,
      the column header, then the record of each row in table order (laid out
      as `SamLinesShape` states). */
  method XlsxToSam(rows: seq<Row>) returns (lines: seq<string>)
    ensures lines == SamLines(rows)
  {
    lines := [StationHeader];
    lines := lines + [ColumnHeader()];
    assert rows[..0] == [];
    assert lines == SamLines(rows[..0]);
    var i := 0;
    while i < |rows|
      invariant 0 <= i <= |rows|
      invariant lines == SamLines(rows[..i])
    {
      assert SamLines(rows[..i + 1]) == lines + [DataLine(rows[i])] by {
        SamLinesSnoc(rows[..i], rows[i]);
        TakeOneMore(rows, i);
      }
      lines := lines + [DataLine(rows[i])];
      i := i + 1;
    }
    assert rows[..|rows|] == rows;
  }

  /** `n` spaces hold no newline. */
  lemma {:induction false} SpacesNoNewline(n: nat)
    ensures NoNewline(Spaces(n))
    decreases n
  {
    if n > 0 {
      SpacesNoNewline(n - 1);
      assert Spaces(n) == Spaces(n - 1) + " ";
    }
  }

  /** Padding a text without newlines adds none. */
  lemma LeftJustifyNoNewline(s: string, width: nat)
    requires NoNewline(s)
    ensures NoNewline(LeftJustify(s, width))
  {
    if |s| < width {
      SpacesNoNewline(width - |s|);
    }
  }

  /** Joining cells without newlines gives a text without newlines. */
  lemma {:induction false} JoinNoNewline(cells: seq<string>)
    requires forall i :: 0 <= i < |cells| ==> NoNewline(cells[i])
    ensures NoNewline(Join(cells))
    decreases |cells|
  {
    if |cells| > 1 {
      JoinNoNewline(cells[1..]);
      assert Join(cells) == cells[0] + " " + Join(cells[1..]);
    }
  }

  /** Every value written into a record is free of newlines, as the text of
      a number or a timestamp is. */
  predicate SingleLineFields(r: Row) {
    NoNewline(r.date) && NoNewline(r.temperature2m) && NoNewline(r.relativeHumidity2m)
    && NoNewline(r.surfacePressure) && NoNewline(r.cloudCover) && NoNewline(r.windSpeed10m)
    && NoNewline(r.windDirection10m) && NoNewline(r.shortwaveRadiation)
  }

  /** A piece cut from a text without newlines has none. */
  lemma SliceNoNewline(s: string, i: nat, j: nat)
    requires i <= j && NoNewline(s)
    ensures NoNewline(Slice(s, i, j))
  {
    var p := Slice(s, i, j);
    forall k | 0 <= k < |p|
      ensures p[k] != '\n'
    {
      assert p[k] == s[i + k];
    }
  }

  /** The record of a row whose values hold no newline is exactly one line. */
  lemma DataLineIsLine(r: Row)
    requires SingleLineFields(r)
    ensures IsLine(DataLine(r))
  {
    CellsNoNewline(r);
    JoinNoNewline(Cells(r));
    LineOf(Join(Cells(r)));
  }

  /** The placeholders of a record hold no newline. */
  lemma PlaceholdersNoNewline()
    ensures NoNewline(LeftJustify(Columns1To2, 12)) && NoNewline(Columns4To6)
    ensures NoNewline(Missing) && NoNewline(Columns14To21)
  {
    LeftJustifyNoNewline(Columns1To2, 12);
  }

  /** No field of the record of such a row holds a newline. */
  lemma CellsNoNewline(r: Row)
    requires SingleLineFields(r)
    ensures forall i :: 0 <= i < |Cells(r)| ==> NoNewline(Cells(r)[i])
  {
    var p := Decompose(r.date);
    var cells := Cells(r);
    forall i | 0 <= i < |cells|
      ensures NoNewline(cells[i])
    {
      if i == 1 {
        SliceNoNewline(r.date, 2, 4);
        LeftJustifyNoNewline(p.yr, 2);
      } else if i == 2 {
        SliceNoNewline(r.date, 5, 7);
        LeftJustifyNoNewline(p.mo, 2);
      } else if i == 3 {
        SliceNoNewline(r.date, 8, 10);
        LeftJustifyNoNewline(p.da, 2);
      } else if i == 4 {
        SliceNoNewline(r.date, 11, 13);
        LeftJustifyNoNewline(p.hr, 2);
      } else if i == 5 || i == 7 || i == 11 || i == 16 {
        PlaceholdersNoNewline();
      } else if i == 6 {
        LeftJustifyNoNewline(r.shortwaveRadiation, 4);
      } else if i == 8 {
        LeftJustifyNoNewline(r.cloudCover, 4);
      } else if i == 9 {
        LeftJustifyNoNewline(r.cloudCover, 3);
      } else if i == 14 {
        LeftJustifyNoNewline(r.windDirection10m, 5);
      } else if i == 15 {
        LeftJustifyNoNewline(r.windSpeed10m, 5);
      }
    }
  }

  /** The station header is a single line. */
  lemma StationHeaderIsLine()
    ensures IsLine(StationHeader)
  {
    LineOf(StationFields);
  }

  /** The column header is a single line. */
  lemma ColumnHeaderIsLine()
    ensures IsLine(ColumnHeader())
  {
    HeaderLabelsNoNewline();
    MarkedLine(HeaderCells());
  }

  /** No column label holds a newline. */
  lemma HeaderLabelsNoNewline()
    ensures forall i :: 0 <= i < |HeaderCells()| ==> NoNewline(HeaderCells()[i])
  {
    var cells := HeaderCells();
    HeaderLabels();
    assert forall i :: 0 <= i < |cells| ==> NoNewline(cells[i]);
  }

  /** `~` and cells without newlines, then a newline, make one line. */
  lemma MarkedLine(cells: seq<string>)
    requires forall i :: 0 <= i < |cells| ==> NoNewline(cells[i])
    ensures IsLine("~" + Join(cells) + "\n")
  {
    JoinNoNewline(cells);
    LineOf("~" + Join(cells));
  }

  /** Reading the file back line by line gives the two headers and then the
      record of each row, in row order: one line per row. */
  lemma FileLines(rows: seq<Row>)
    requires forall i :: 0 <= i < |rows| ==> SingleLineFields(rows[i])
    ensures Lines(FileText(rows)) == SamLines(rows)
    ensures |Lines(FileText(rows))| == |rows| + 2
  {
    SamLinesAreLines(rows);
    LinesOfConcat(SamLines(rows));
    SamLinesShape(rows);
  }

  /** Each line written is a single line. */
  lemma SamLinesAreLines(rows: seq<Row>)
    requires forall i :: 0 <= i < |rows| ==> SingleLineFields(rows[i])
    ensures forall i :: 0 <= i < |SamLines(rows)| ==> IsLine(SamLines(rows)[i])
  {
    var lines := SamLines(rows);
    SamLinesShape(rows);
    forall i | 0 <= i < |lines|
      ensures IsLine(lines[i])
    {
      if i == 0 {
        StationHeaderIsLine();
      } else if i == 1 {
        ColumnHeaderIsLine();
      } else {
        DataLineIsLine(rows[i - 2]);
      }
    }
  }
}
