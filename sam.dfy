/** The SAM serialiser of `xlsx_to_sam` (main.py): a fixed station header, a
    column header, then one fixed-template record per table row, in row order. */
module Sam {
  import opened Format
  import opened Text
  import opened Dates

  /** One row of the hourly table as the serialiser sees it: the date as the
      text `astype(str)` made of it, and every measurement as the text Python
      renders for it. `precipitation` is carried but never written. */
  datatype Row = Row(
    date: string,
    temperature2m: string,
    relativeHumidity2m: string,
    precipitation: string,
    surfacePressure: string,
    cloudCover: string,
    windSpeed10m: string,
    windDirection10m: string,
    shortwaveRadiation: string)

  /** Station line, the literal of main.py:93 written in pieces: the marker
      `~`, then station id, name, state, UTC offset, latitude, longitude and
      elevation. */
  const StationHeader: string := StationFields + "\n"
  const StationFields: string :=
    "~" + "    1" + " ANCHIETA              " + " ES" + "  -3" + "  S20 48" + "  W040 36" + "    10"

  /** Constant placeholder for columns 1 and 2, padded to 12. */
  const Columns1To2: string := "0 9999 9999"
  /** Constant placeholder for columns 4 to 6. */
  const Columns4To6: string := "?0 9999 ?0 9999 ?0"
  /** Constant placeholder written between temperature and humidity. */
  const Missing: string := "9999."
  /** Constant placeholders for columns 14 to 21, ending every record. */
  const Columns14To21: string :=
    "99999." + " 999999" + " 999999999" + " 9999" + " 99999." + " 9999" + " 999     " + " 0"

  /** The labels of the column-header line, each with its `:<n` width. */
  function HeaderCells(): (cells: seq<string>) {
    [LeftJustify("YR", 2), LeftJustify("MO", 2), LeftJustify("DA", 2), LeftJustify("HR", 2),
     LeftJustify("I", 4), LeftJustify("1", 4), LeftJustify("2", 2), LeftJustify("3", 7),
     LeftJustify("4", 7), LeftJustify("5", 7), LeftJustify("6", 4), LeftJustify("7", 3),
     LeftJustify("8", 4), LeftJustify("9", 5), LeftJustify("10", 2), LeftJustify("11", 6),
     LeftJustify("12", 5), LeftJustify("13", 5), LeftJustify("14", 6), LeftJustify("15", 6),
     LeftJustify("16", 9), LeftJustify("17", 4), LeftJustify("18", 6), LeftJustify("19", 4),
     LeftJustify("20", 8), "21"]
  }

  /** The column-header line: `~` immediately followed by the labels. */
  function ColumnHeader(): (line: string) {
    "~" + Join(HeaderCells()) + "\n"
  }

  /** The 16 replacement fields of the record template, in order (an empty
      leading field, the four date pieces, the placeholders and the row's
      measurements, each with its `:<n` width where the template gives one),
      then the template's literal tail as a last cell. */
  function Cells(r: Row): (cells: seq<string>) {
    var p := Decompose(r.date);
    ["",
     LeftJustify(p.yr, 2), LeftJustify(p.mo, 2), LeftJustify(p.da, 2), LeftJustify(p.hr, 2),
     LeftJustify(Columns1To2, 12),
     LeftJustify(r.shortwaveRadiation, 4),
     Columns4To6,
     LeftJustify(r.cloudCover, 4), LeftJustify(r.cloudCover, 3),
     r.temperature2m, Missing, r.relativeHumidity2m, r.surfacePressure,
     LeftJustify(r.windDirection10m, 5), LeftJustify(r.windSpeed10m, 5),
     Columns14To21]
  }

  /** The record written for one row: the fields separated by single spaces,
      then a newline. It starts with a space (the empty leading field). */
  function DataLine(r: Row): (line: string)
    ensures |line| > 0 && line[0] == ' '
  {
    var cells := Cells(r);
    assert Join(cells) == "" + " " + Join(cells[1..]);
    Join(cells) + "\n"
  }

  /** Every record ends with a separator, the constant tail of columns 14 to
      21 and a newline. */
  lemma DataLineEnd(r: Row)
    ensures |DataLine(r)| > |Columns14To21| + 1
    ensures DataLine(r)[|DataLine(r)| - |Columns14To21| - 2..] == " " + Columns14To21 + "\n"
  {
    JoinEndsWithLast(Cells(r));
  }

  /** Where the first ten cells start, from the widths of the cells before. */
  lemma ColumnsOfWidths(cells: seq<string>, w: nat, c: nat)
    requires |cells| == 17
    requires |cells[0]| == 0 && |cells[1]| == 2 && |cells[2]| == 2 && |cells[3]| == 2
    requires |cells[4]| == 2 && |cells[5]| == 12 && |cells[6]| == w && |cells[7]| == 18
    requires |cells[8]| == c
    ensures Column(cells, 1) == 1 && Column(cells, 2) == 4
    ensures Column(cells, 3) == 7 && Column(cells, 4) == 10
    ensures Column(cells, 5) == 13 && Column(cells, 6) == 26
    ensures Column(cells, 7) == 27 + w && Column(cells, 8) == 46 + w
    ensures Column(cells, 9) == 47 + w + c
  {
  }

  /** Where the first ten cells of a record start. The date pieces are
      always two wide, so everything up to shortwave radiation sits at fixed
      columns; the columns after it move with the widths of the values. */
  lemma CellColumns(r: Row)
    ensures Column(Cells(r), 1) == 1 && Column(Cells(r), 2) == 4
    ensures Column(Cells(r), 3) == 7 && Column(Cells(r), 4) == 10
    ensures Column(Cells(r), 5) == 13 && Column(Cells(r), 6) == 26
    ensures Column(Cells(r), 7) == 27 + |LeftJustify(r.shortwaveRadiation, 4)|
    ensures Column(Cells(r), 8) == 46 + |LeftJustify(r.shortwaveRadiation, 4)|
    ensures Column(Cells(r), 9) == 47 + |LeftJustify(r.shortwaveRadiation, 4)| + |LeftJustify(r.cloudCover, 4)|
  {
    ColumnsOfWidths(Cells(r), |LeftJustify(r.shortwaveRadiation, 4)|, |LeftJustify(r.cloudCover, 4)|);
  }

  /** The first six cells of a record line, from the widths of its cells. */
  lemma LeadingCellsAt(cells: seq<string>, w: nat, c: nat)
    requires |cells| == 17
    requires |cells[0]| == 0 && |cells[1]| == 2 && |cells[2]| == 2 && |cells[3]| == 2
    requires |cells[4]| == 2 && |cells[5]| == 12 && |cells[6]| == w && |cells[7]| == 18
    requires |cells[8]| == c
    ensures var line := Join(cells) + "\n";
      |line| > 26
      && line[1..3] == cells[1] && line[4..6] == cells[2]
      && line[7..9] == cells[3] && line[10..12] == cells[4] && line[13..25] == cells[5]
      && line[3] == ' ' && line[6] == ' ' && line[9] == ' ' && line[12] == ' ' && line[25] == ' '
  {
    ColumnsOfWidths(cells, w, c);
    CellAt(cells, 1, 1);
    CellAt(cells, 2, 4);
    CellAt(cells, 3, 7);
    CellAt(cells, 4, 10);
    CellAt(cells, 5, 13);
  }

  /** The measurement cells that follow them. */
  lemma MiddleCellsAt(cells: seq<string>, w: nat, c: nat)
    requires |cells| == 17
    requires |cells[0]| == 0 && |cells[1]| == 2 && |cells[2]| == 2 && |cells[3]| == 2
    requires |cells[4]| == 2 && |cells[5]| == 12 && |cells[6]| == w && |cells[7]| == 18
    requires |cells[8]| == c
    ensures var line := Join(cells) + "\n";
      |line| > 48 + w + c + |cells[9]|
      && line[26..26 + w] == cells[6] && line[27 + w..45 + w] == cells[7]
      && line[46 + w..46 + w + c] == cells[8]
      && line[47 + w + c..47 + w + c + |cells[9]|] == cells[9]
  {
    ColumnsOfWidths(cells, w, c);
    CellAt(cells, 6, 26);
    CellAt(cells, 7, 27 + w);
    CellAt(cells, 8, 46 + w);
    CellAt(cells, 9, 47 + w + c);
  }

  /** The date pieces occupy columns 1-2, 4-5, 7-8 and 10-11 and the constant
      placeholder of columns 1 and 2 occupies 13-24, whatever the row. */
  lemma DateColumns(r: Row)
    ensures |DataLine(r)| > 26
    ensures DataLine(r)[1..3] == LeftJustify(Decompose(r.date).yr, 2)
    ensures DataLine(r)[4..6] == LeftJustify(Decompose(r.date).mo, 2)
    ensures DataLine(r)[7..9] == LeftJustify(Decompose(r.date).da, 2)
    ensures DataLine(r)[10..12] == LeftJustify(Decompose(r.date).hr, 2)
    ensures DataLine(r)[13..25] == "0 9999 9999 "
    ensures DataLine(r)[3] == ' ' && DataLine(r)[6] == ' ' && DataLine(r)[9] == ' '
    ensures DataLine(r)[12] == ' ' && DataLine(r)[25] == ' '
  {
    LeadingCellsAt(Cells(r), |LeftJustify(r.shortwaveRadiation, 4)|, |LeftJustify(r.cloudCover, 4)|);
    assert LeftJustify(Columns1To2, 12) == "0 9999 9999 ";
  }

  /** Shortwave radiation starts at column 26 in every record, followed by
      the placeholder of columns 4 to 6 and the cloud cover twice, padded to
      4 and then to 3. */
  lemma MeasurementColumns(r: Row)
    ensures var w, c := |LeftJustify(r.shortwaveRadiation, 4)|, |LeftJustify(r.cloudCover, 4)|;
      |DataLine(r)| > 48 + w + c + |LeftJustify(r.cloudCover, 3)|
      && DataLine(r)[26..26 + w] == LeftJustify(r.shortwaveRadiation, 4)
      && DataLine(r)[27 + w..45 + w] == Columns4To6
      && DataLine(r)[46 + w..46 + w + c] == LeftJustify(r.cloudCover, 4)
      && DataLine(r)[47 + w + c..47 + w + c + |LeftJustify(r.cloudCover, 3)|]
         == LeftJustify(r.cloudCover, 3)
  {
    MiddleCellsAt(Cells(r), |LeftJustify(r.shortwaveRadiation, 4)|, |LeftJustify(r.cloudCover, 4)|);
  }

  /** A line of exactly seven cells spelled out. */
  lemma SevenCells(cells: seq<string>)
    requires |cells| == 7
    ensures Join(cells)
         == cells[0] + " " + cells[1] + " " + cells[2] + " " + cells[3] + " " + cells[4]
          + " " + cells[5] + " " + cells[6]
  {
    assert cells[..1] == [cells[0]];
    JoinPrefix(cells, 1);
    JoinPrefix(cells, 2);
    JoinPrefix(cells, 3);
    JoinPrefix(cells, 4);
    JoinPrefix(cells, 5);
    JoinPrefix(cells, 6);
    assert cells[..7] == cells;
  }

  /** The last seven cells of a record line, from the column where the
      temperature starts. */
  lemma TrailingCellsAt(cells: seq<string>)
    requires |cells| == 17
    ensures Column(cells, 10) <= |Join(cells) + "\n"|
    ensures (Join(cells) + "\n")[Column(cells, 10)..]
         == cells[10] + " " + cells[11] + " " + cells[12] + " " + cells[13] + " "
          + cells[14] + " " + cells[15] + " " + cells[16] + "\n"
  {
    JoinFrom(cells, 10);
    SevenCells(cells[10..]);
    var j := Join(cells);
    assert (j + "\n")[Column(cells, 10)..] == j[Column(cells, 10)..] + "\n";
  }

  /** Temperature, humidity and pressure follow the cloud cover at their
      natural width, with the `9999.` placeholder between temperature and
      humidity; then the wind direction and speed padded to 5 and the
      constant tail. */
  lemma MeasurementTail(r: Row)
    ensures var o := 48 + |LeftJustify(r.shortwaveRadiation, 4)| + |LeftJustify(r.cloudCover, 4)|
                        + |LeftJustify(r.cloudCover, 3)|;
      o <= |DataLine(r)|
      && DataLine(r)[o..]
         == r.temperature2m + " " + Missing + " " + r.relativeHumidity2m + " " + r.surfacePressure
          + " " + LeftJustify(r.windDirection10m, 5) + " " + LeftJustify(r.windSpeed10m, 5)
          + " " + Columns14To21 + "\n"
  {
    var cells := Cells(r);
    var w, c := |LeftJustify(r.shortwaveRadiation, 4)|, |LeftJustify(r.cloudCover, 4)|;
    ColumnsOfWidths(cells, w, c);
    TrailingCellsAt(cells);
  }

  /** The values a fixed-column reader takes from the leading columns of a
      record: each column range with its padding stripped. */
  datatype FixedFields = FixedFields(
    yr: string, mo: string, da: string, hr: string,
    shortwave: string, cloudCover: string, cloudCoverAgain: string)

  /** Reads columns 1-2, 4-5, 7-8, 10-11 (the date), 26-29 (shortwave
      radiation), 50-53 and 55-57 (cloud cover), where the template places
      them when every value fits its width. */
  function ReadFixedColumns(line: string): (fields: FixedFields)
    requires |line| >= 58
  {
    FixedFields(
      StripTrailingSpaces(line[1..3]), StripTrailingSpaces(line[4..6]),
      StripTrailingSpaces(line[7..9]), StripTrailingSpaces(line[10..12]),
      StripTrailingSpaces(line[26..30]),
      StripTrailingSpaces(line[50..54]), StripTrailingSpaces(line[55..58]))
  }

  /** Holds when `s` is empty or does not end in a space (padding can then be
      told apart from the value). */
  predicate NoTrailingSpace(s: string) {
    s == [] || s[|s| - 1] != ' '
  }

  /** A value fits its `:<n` field when it is at most `n` wide. */
  predicate FitsWidths(r: Row) {
    |r.shortwaveRadiation| <= 4 && |r.cloudCover| <= 3
  }

  /** Reading back a line whose leading columns hold the padded values. */
  lemma ReadFixedColumnsOf(line: string, p: DateParts, sw: string, cc: string)
    requires |line| >= 58
    requires NoTrailingSpace(p.yr) && NoTrailingSpace(p.mo)
    requires NoTrailingSpace(p.da) && NoTrailingSpace(p.hr)
    requires NoTrailingSpace(sw) && NoTrailingSpace(cc)
    requires line[1..3] == LeftJustify(p.yr, 2) && line[4..6] == LeftJustify(p.mo, 2)
    requires line[7..9] == LeftJustify(p.da, 2) && line[10..12] == LeftJustify(p.hr, 2)
    requires line[26..30] == LeftJustify(sw, 4)
    requires line[50..54] == LeftJustify(cc, 4) && line[55..58] == LeftJustify(cc, 3)
    ensures ReadFixedColumns(line) == FixedFields(p.yr, p.mo, p.da, p.hr, sw, cc, cc)
  {
    assert StripTrailingSpaces(line[1..3]) == p.yr by { StripLeftJustify(p.yr, 2); }
    assert StripTrailingSpaces(line[4..6]) == p.mo by { StripLeftJustify(p.mo, 2); }
    assert StripTrailingSpaces(line[7..9]) == p.da by { StripLeftJustify(p.da, 2); }
    assert StripTrailingSpaces(line[10..12]) == p.hr by { StripLeftJustify(p.hr, 2); }
    assert StripTrailingSpaces(line[26..30]) == sw by { StripLeftJustify(sw, 4); }
    assert StripTrailingSpaces(line[50..54]) == cc by { StripLeftJustify(cc, 4); }
    assert StripTrailingSpaces(line[55..58]) == cc by { StripLeftJustify(cc, 3); }
  }

  /** When shortwave radiation and cloud cover fit their fields, a
      fixed-column reader gets back the date pieces and both values, and
      finds the placeholders of columns 1-2 and 4-6 in their places. */
  lemma ReadBackFixedColumns(r: Row)
    requires FitsWidths(r)
    requires NoTrailingSpace(Decompose(r.date).yr) && NoTrailingSpace(Decompose(r.date).mo)
    requires NoTrailingSpace(Decompose(r.date).da) && NoTrailingSpace(Decompose(r.date).hr)
    requires NoTrailingSpace(r.shortwaveRadiation) && NoTrailingSpace(r.cloudCover)
    ensures |DataLine(r)| >= 59
    ensures ReadFixedColumns(DataLine(r))
         == FixedFields(Decompose(r.date).yr, Decompose(r.date).mo, Decompose(r.date).da,
                        Decompose(r.date).hr, r.shortwaveRadiation, r.cloudCover, r.cloudCover)
    ensures DataLine(r)[13..25] == "0 9999 9999 " && DataLine(r)[31..49] == Columns4To6
  {
    var line := DataLine(r);
    DateColumns(r);
    MeasurementColumns(r);
    assert |LeftJustify(r.shortwaveRadiation, 4)| == 4;
    assert |LeftJustify(r.cloudCover, 4)| == 4 && |LeftJustify(r.cloudCover, 3)| == 3;
    ReadFixedColumnsOf(line, Decompose(r.date), r.shortwaveRadiation, r.cloudCover);
  }

  /** Padding never truncates, so a value wider than its field moves every
      later column: a five-character shortwave radiation (such as `250.0`)
      fills columns 26-30 and pushes the placeholder of columns 4-6 one
      column right. */
  lemma WideValueShiftsColumns(r: Row)
    requires |r.shortwaveRadiation| == 5
    ensures |DataLine(r)| > 50
    ensures DataLine(r)[26..31] == r.shortwaveRadiation
    ensures DataLine(r)[32..50] == Columns4To6
  {
    MeasurementColumns(r);
  }

  /** The length of a record: the fixed columns, the widths of the padded
      values and the natural widths of temperature, humidity and pressure. */
  lemma DataLineLength(r: Row)
    ensures |DataLine(r)|
         == 132 + (Max(4, |r.shortwaveRadiation|) - 4) + (Max(4, |r.cloudCover|) - 4)
          + (Max(3, |r.cloudCover|) - 3)
          + (Max(5, |r.windDirection10m|) - 5) + (Max(5, |r.windSpeed10m|) - 5)
          + |r.temperature2m| + |r.relativeHumidity2m| + |r.surfacePressure|
  {
    MeasurementTail(r);
  }

  /** Temperature is written at its natural width: changing it to a text of
      another width changes the record length by the difference, so the wind
      columns and the constant tail move with it. */
  lemma TemperatureWidthShiftsTail(r: Row, t: string)
    ensures |DataLine(r.(temperature2m := t))| + |r.temperature2m| == |DataLine(r)| + |t|
  {
    DataLineLength(r);
    DataLineLength(r.(temperature2m := t));
  }

  /** Column alignment: two rows whose padded values fit their fields and
      whose temperature, humidity and pressure texts are equally wide give
      records of the same length. */
  lemma EqualLengthRecords(r1: Row, r2: Row)
    requires FitsWidths(r1) && FitsWidths(r2)
    requires |r1.windDirection10m| <= 5 && |r1.windSpeed10m| <= 5
    requires |r2.windDirection10m| <= 5 && |r2.windSpeed10m| <= 5
    requires |r1.temperature2m| == |r2.temperature2m|
    requires |r1.relativeHumidity2m| == |r2.relativeHumidity2m|
    requires |r1.surfacePressure| == |r2.surfacePressure|
    ensures |DataLine(r1)| == |DataLine(r2)|
  {
    DataLineLength(r1);
    DataLineLength(r2);
  }

  /** The first 17 cells of a line spelled out. */
  lemma FirstSeventeenCells(cells: seq<string>)
    requires |cells| >= 17
    ensures Join(cells[..17]) == cells[0] + " " + cells[1] + " " + cells[2] + " " + cells[3]
         + " " + cells[4] + " " + cells[5] + " " + cells[6] + " " + cells[7] + " " + cells[8]
         + " " + cells[9] + " " + cells[10] + " " + cells[11] + " " + cells[12] + " " + cells[13]
         + " " + cells[14] + " " + cells[15] + " " + cells[16]
  {
    assert cells[..1] == [cells[0]];
    JoinPrefix(cells, 1);
    JoinPrefix(cells, 2);
    JoinPrefix(cells, 3);
    JoinPrefix(cells, 4);
    JoinPrefix(cells, 5);
    JoinPrefix(cells, 6);
    JoinPrefix(cells, 7);
    JoinPrefix(cells, 8);
    JoinPrefix(cells, 9);
    JoinPrefix(cells, 10);
    JoinPrefix(cells, 11);
    JoinPrefix(cells, 12);
    JoinPrefix(cells, 13);
    JoinPrefix(cells, 14);
    JoinPrefix(cells, 15);
    JoinPrefix(cells, 16);
  }

  /** A line of exactly 17 cells, the fields of a record, spelled out. */
  lemma SeventeenCells(cells: seq<string>)
    requires |cells| == 17
    ensures Join(cells) == cells[0] + " " + cells[1] + " " + cells[2] + " " + cells[3] + " " + cells[4]
         + " " + cells[5] + " " + cells[6] + " " + cells[7] + " " + cells[8] + " " + cells[9]
         + " " + cells[10] + " " + cells[11] + " " + cells[12] + " " + cells[13] + " " + cells[14]
         + " " + cells[15] + " " + cells[16]
  {
    FirstSeventeenCells(cells);
    assert cells[..17] == cells;
  }

  /** The record is exactly the f-string of `xlsx_to_sam`: an empty field,
      the padded date pieces, the placeholders and the values, each pair
      separated by one space, then a newline. */
  lemma DataLineLayout(r: Row)
    ensures DataLine(r)
         == "" + " " + LeftJustify(Decompose(r.date).yr, 2) + " " + LeftJustify(Decompose(r.date).mo, 2)
          + " " + LeftJustify(Decompose(r.date).da, 2) + " " + LeftJustify(Decompose(r.date).hr, 2)
          + " " + LeftJustify(Columns1To2, 12) + " " + LeftJustify(r.shortwaveRadiation, 4)
          + " " + Columns4To6 + " " + LeftJustify(r.cloudCover, 4) + " " + LeftJustify(r.cloudCover, 3)
          + " " + r.temperature2m + " " + Missing + " " + r.relativeHumidity2m
          + " " + r.surfacePressure + " " + LeftJustify(r.windDirection10m, 5)
          + " " + LeftJustify(r.windSpeed10m, 5) + " " + Columns14To21 + "\n"
  {
    SeventeenCells(Cells(r));
  }

  /** A worked record: an hourly sample of 2024-03-15 08:00 with 250 of
      shortwave radiation and 40 % cloud cover, written out in full. */
  lemma ExampleRecord()
    ensures DataLine(Row("2024-03-15 08:00:00", "25.3", "80", "0", "1013.2", "40", "3.5", "120", "250"))
         == "" + " " + "24" + " " + "03" + " " + "15" + " " + "08" + " " + "0 9999 9999 " + " " + "250 "
          + " " + Columns4To6 + " " + "40  " + " " + "40 " + " " + "25.3" + " " + Missing + " " + "80"
          + " " + "1013.2" + " " + "120  " + " " + "3.5  " + " " + Columns14To21 + "\n"
  {
    var r := Row("2024-03-15 08:00:00", "25.3", "80", "0", "1013.2", "40", "3.5", "120", "250");
    DecomposeExample();
    var p := Decompose(r.date);
    assert p == DateParts("24", "03", "15", "08");
    assert LeftJustify(p.yr, 2) == "24";
    assert LeftJustify(p.mo, 2) == "03";
    assert LeftJustify(p.da, 2) == "15";
    assert LeftJustify(p.hr, 2) == "08";
    assert LeftJustify(Columns1To2, 12) == "0 9999 9999 ";
    assert LeftJustify(r.shortwaveRadiation, 4) == "250 ";
    assert LeftJustify(r.cloudCover, 4) == "40  ";
    assert LeftJustify(r.cloudCover, 3) == "40 ";
    assert LeftJustify(r.windDirection10m, 5) == "120  ";
    assert LeftJustify(r.windSpeed10m, 5) == "3.5  ";
    DataLineLayout(r);
  }

  /** The first 13 cells of a line spelled out. */
  lemma FirstThirteenCells(cells: seq<string>)
    requires |cells| >= 13
    ensures Join(cells[..13]) == cells[0] + " " + cells[1] + " " + cells[2] + " " + cells[3]
         + " " + cells[4] + " " + cells[5] + " " + cells[6] + " " + cells[7] + " " + cells[8]
         + " " + cells[9] + " " + cells[10] + " " + cells[11] + " " + cells[12]
  {
    assert cells[..1] == [cells[0]];
    JoinPrefix(cells, 1);
    JoinPrefix(cells, 2);
    JoinPrefix(cells, 3);
    JoinPrefix(cells, 4);
    JoinPrefix(cells, 5);
    JoinPrefix(cells, 6);
    JoinPrefix(cells, 7);
    JoinPrefix(cells, 8);
    JoinPrefix(cells, 9);
    JoinPrefix(cells, 10);
    JoinPrefix(cells, 11);
    JoinPrefix(cells, 12);
  }

  /** The first 26 cells of a line spelled out. */
  lemma FirstTwentySixCells(cells: seq<string>)
    requires |cells| >= 26
    ensures Join(cells[..26]) == cells[0] + " " + cells[1] + " " + cells[2] + " " + cells[3] + " " + cells[4]
         + " " + cells[5] + " " + cells[6] + " " + cells[7] + " " + cells[8] + " " + cells[9]
         + " " + cells[10] + " " + cells[11] + " " + cells[12] + " " + cells[13] + " " + cells[14]
         + " " + cells[15] + " " + cells[16] + " " + cells[17] + " " + cells[18] + " " + cells[19]
         + " " + cells[20] + " " + cells[21] + " " + cells[22] + " " + cells[23] + " " + cells[24]
         + " " + cells[25]
  {
    FirstThirteenCells(cells);
    JoinPrefix(cells, 13);
    JoinPrefix(cells, 14);
    JoinPrefix(cells, 15);
    JoinPrefix(cells, 16);
    JoinPrefix(cells, 17);
    JoinPrefix(cells, 18);
    JoinPrefix(cells, 19);
    JoinPrefix(cells, 20);
    JoinPrefix(cells, 21);
    JoinPrefix(cells, 22);
    JoinPrefix(cells, 23);
    JoinPrefix(cells, 24);
    JoinPrefix(cells, 25);
  }

  /** A line of exactly 26 cells spelled out. */
  lemma TwentySixCells(cells: seq<string>)
    requires |cells| == 26
    ensures Join(cells) == cells[0] + " " + cells[1] + " " + cells[2] + " " + cells[3] + " " + cells[4]
         + " " + cells[5] + " " + cells[6] + " " + cells[7] + " " + cells[8] + " " + cells[9]
         + " " + cells[10] + " " + cells[11] + " " + cells[12] + " " + cells[13] + " " + cells[14]
         + " " + cells[15] + " " + cells[16] + " " + cells[17] + " " + cells[18] + " " + cells[19]
         + " " + cells[20] + " " + cells[21] + " " + cells[22] + " " + cells[23] + " " + cells[24]
         + " " + cells[25]
  {
    FirstTwentySixCells(cells);
    assert cells[..26] == cells;
  }

  /** The column labels as the header writes them, each padded to its width. */
  const PaddedLabels: seq<string> :=
    ["YR", "MO", "DA", "HR", "I   ", "1   ", "2 ",
     "3      ", "4      ", "5      ", "6   ", "7  ", "8   ", "9    ",
     "10", "11    ", "12   ", "13   ", "14    ", "15    ", "16       ",
     "17  ", "18    ", "19  ", "20      ", "21"]

  /** The labels of the column header after padding: each label followed by
      spaces up to its width, the last one unpadded. */
  lemma HeaderLabels()
    ensures HeaderCells() == PaddedLabels
  {
    PaddedLabelsYRTo2();
    PaddedLabels3To5();
    PaddedLabels6To11();
    PaddedLabels12To16();
    PaddedLabels17To20();
  }

  /** The labels `YR` to `2` after padding. */
  lemma PaddedLabelsYRTo2()
    ensures LeftJustify("YR", 2) == "YR" && LeftJustify("MO", 2) == "MO" && LeftJustify("DA", 2) == "DA"
    ensures LeftJustify("HR", 2) == "HR" && LeftJustify("I", 4) == "I   " && LeftJustify("1", 4) == "1   "
    ensures LeftJustify("2", 2) == "2 "
  {
  }

  /** The labels `3` to `5` after padding. */
  lemma PaddedLabels3To5()
    ensures LeftJustify("3", 7) == "3      " && LeftJustify("4", 7) == "4      " && LeftJustify("5", 7) == "5      "
  {
  }

  /** The labels `6` to `11` after padding. */
  lemma PaddedLabels6To11()
    ensures LeftJustify("6", 4) == "6   " && LeftJustify("7", 3) == "7  " && LeftJustify("8", 4) == "8   "
    ensures LeftJustify("9", 5) == "9    " && LeftJustify("10", 2) == "10" && LeftJustify("11", 6) == "11    "
  {
  }

  /** The labels `12` to `16` after padding. */
  lemma PaddedLabels12To16()
    ensures LeftJustify("12", 5) == "12   " && LeftJustify("13", 5) == "13   " && LeftJustify("14", 6) == "14    "
    ensures LeftJustify("15", 6) == "15    " && LeftJustify("16", 9) == "16       "
  {
  }

  /** The labels `17` to `20` after padding. */
  lemma PaddedLabels17To20()
    ensures LeftJustify("17", 4) == "17  " && LeftJustify("18", 6) == "18    " && LeftJustify("19", 4) == "19  "
    ensures LeftJustify("20", 8) == "20      "
  {
  }

  /** The column-header line as written: `~`, then the labels padded to their
      widths with single spaces between them, then a newline. */
  lemma ColumnHeaderText()
    ensures ColumnHeader()
         == "~" + ("YR" + " " + "MO" + " " + "DA" + " " + "HR" + " " + "I   " + " " + "1   "
              + " " + "2 " + " " + "3      " + " " + "4      " + " " + "5      " + " " + "6   "
              + " " + "7  " + " " + "8   " + " " + "9    " + " " + "10" + " " + "11    " + " " + "12   "
              + " " + "13   " + " " + "14    " + " " + "15    " + " " + "16       " + " " + "17  "
              + " " + "18    " + " " + "19  " + " " + "20      " + " " + "21") + "\n"
  {
    HeaderLabels();
    JoinPaddedLabels();
  }

  /** The padded labels separated by single spaces. */
  lemma JoinPaddedLabels()
    ensures Join(PaddedLabels)
         == "YR" + " " + "MO" + " " + "DA" + " " + "HR" + " " + "I   " + " " + "1   "
            + " " + "2 " + " " + "3      " + " " + "4      " + " " + "5      " + " " + "6   "
            + " " + "7  " + " " + "8   " + " " + "9    " + " " + "10" + " " + "11    " + " " + "12   "
            + " " + "13   " + " " + "14    " + " " + "15    " + " " + "16       " + " " + "17  "
            + " " + "18    " + " " + "19  " + " " + "20      " + " " + "21"
  {
    TwentySixCells(PaddedLabels);
  }

  /** Where the first labels start, from their widths. */
  lemma LabelColumns(h: seq<string>)
    requires |h| == 26
    requires |h[0]| == 2 && |h[1]| == 2 && |h[2]| == 2 && |h[3]| == 2 && |h[4]| == 4 && |h[5]| == 4
    requires |h[6]| == 2 && |h[7]| == 7 && |h[8]| == 7 && |h[9]| == 7 && |h[10]| == 4 && |h[11]| == 3
    requires |h[12]| == 4 && |h[13]| == 5 && |h[14]| == 2 && |h[15]| == 6 && |h[16]| == 5 && |h[17]| == 5
    ensures Column(h, 1) == 3 && Column(h, 2) == 6 && Column(h, 3) == 9
    ensures Column(h, 4) == 12 && Column(h, 7) == 25 && Column(h, 10) == 49 && Column(h, 11) == 54
    ensures Column(h, 12) == 58 && Column(h, 13) == 63 && Column(h, 14) == 69 && Column(h, 15) == 72
    ensures Column(h, 16) == 79 && Column(h, 17) == 85 && Column(h, 18) == 91
  {
    assert Column(h, 1) == 3;
    assert Column(h, 2) == 6;
    assert Column(h, 3) == 9;
    assert Column(h, 4) == 12;
    assert Column(h, 5) == 17;
    assert Column(h, 6) == 22;
    assert Column(h, 7) == 25;
    assert Column(h, 8) == 33;
    assert Column(h, 9) == 41;
    assert Column(h, 10) == 49;
    assert Column(h, 11) == 54;
    assert Column(h, 12) == 58;
    assert Column(h, 13) == 63;
    assert Column(h, 14) == 69;
    assert Column(h, 15) == 72;
    assert Column(h, 16) == 79;
    assert Column(h, 17) == 85;
    assert Column(h, 18) == 91;
  }

  /** The widths of the first 18 padded labels. */
  lemma HeaderWidths()
    ensures var h := HeaderCells();
      |h| == 26
      && |h[0]| == 2 && |h[1]| == 2 && |h[2]| == 2 && |h[3]| == 2 && |h[4]| == 4 && |h[5]| == 4
      && |h[6]| == 2 && |h[7]| == 7 && |h[8]| == 7 && |h[9]| == 7 && |h[10]| == 4 && |h[11]| == 3
      && |h[12]| == 4 && |h[13]| == 5 && |h[14]| == 2 && |h[15]| == 6 && |h[16]| == 5 && |h[17]| == 5
  {
    HeaderLabels();
    FirstLabelWidths(HeaderCells());
    MiddleLabelWidths(HeaderCells());
    LastLabelWidths(HeaderCells());
  }

  /** The widths of the labels `YR` to `1`, as `HeaderLabels` writes them out. */
  lemma FirstLabelWidths(h: seq<string>)
    requires h == PaddedLabels
    ensures |h| == 26
    ensures |h[0]| == 2 && |h[1]| == 2 && |h[2]| == 2 && |h[3]| == 2 && |h[4]| == 4 && |h[5]| == 4
  {
  }

  /** The widths of the labels `2` to `7`. */
  lemma MiddleLabelWidths(h: seq<string>)
    requires h == PaddedLabels
    ensures |h[6]| == 2 && |h[7]| == 7 && |h[8]| == 7 && |h[9]| == 7 && |h[10]| == 4 && |h[11]| == 3
  {
  }

  /** The widths of the labels `8` to `13`. */
  lemma LastLabelWidths(h: seq<string>)
    requires h == PaddedLabels
    ensures |h[12]| == 4 && |h[13]| == 5 && |h[14]| == 2 && |h[15]| == 6 && |h[16]| == 5 && |h[17]| == 5
  {
  }

  /** Whatever the values, `YR` to `HR` stand over the date pieces, `I` over
      the placeholder of columns 1 and 2 (`I`, `1` and `2` span its 12
      characters) and `3` over shortwave radiation. */
  lemma HeaderAlignsWithPrefix(r: Row)
    ensures 1 + Column(HeaderCells(), 0) == Column(Cells(r), 1)
    ensures 1 + Column(HeaderCells(), 1) == Column(Cells(r), 2)
    ensures 1 + Column(HeaderCells(), 2) == Column(Cells(r), 3)
    ensures 1 + Column(HeaderCells(), 3) == Column(Cells(r), 4)
    ensures 1 + Column(HeaderCells(), 4) == Column(Cells(r), 5)
    ensures 1 + Column(HeaderCells(), 7) == Column(Cells(r), 6)
  {
    HeaderWidths();
    LabelColumns(HeaderCells());
    CellColumns(r);
  }

  /** In every record whose padded values fit, `6` and `7` also stand over
      the two cloud covers and `8` over the temperature. */
  lemma HeaderAlignsWithRecord(r: Row)
    requires FitsWidths(r)
    ensures 1 + Column(HeaderCells(), 10) == Column(Cells(r), 8)
    ensures 1 + Column(HeaderCells(), 11) == Column(Cells(r), 9)
    ensures 1 + Column(HeaderCells(), 12) == Column(Cells(r), 10)
  {
    HeaderWidths();
    LabelColumns(HeaderCells());
    CellColumns(r);
    var cells := Cells(r);
    assert |cells[6]| == 4 && |cells[8]| == 4 && |cells[9]| == 3;
    assert Column(cells, 10) == Column(cells, 9) + |cells[9]| + 1;
  }

  /** With a four-character temperature, a two-character humidity and a
      six-character pressure, and wind values that fit, labels `9` to `14`
      also sit over `9999.`, humidity, pressure, the two winds and the
      constant tail. */
  lemma HeaderAlignsWithMeasurements(r: Row)
    requires FitsWidths(r)
    requires |r.temperature2m| == 4 && |r.relativeHumidity2m| == 2 && |r.surfacePressure| == 6
    requires |r.windDirection10m| <= 5 && |r.windSpeed10m| <= 5
    ensures 1 + Column(HeaderCells(), 13) == Column(Cells(r), 11)
    ensures 1 + Column(HeaderCells(), 14) == Column(Cells(r), 12)
    ensures 1 + Column(HeaderCells(), 15) == Column(Cells(r), 13)
    ensures 1 + Column(HeaderCells(), 16) == Column(Cells(r), 14)
    ensures 1 + Column(HeaderCells(), 17) == Column(Cells(r), 15)
    ensures 1 + Column(HeaderCells(), 18) == Column(Cells(r), 16)
  {
    HeaderWidths();
    LabelColumns(HeaderCells());
    CellColumns(r);
    var cells := Cells(r);
    assert |cells[6]| == 4 && |cells[8]| == 4 && |cells[9]| == 3;
    assert Column(cells, 10) == 59;
    assert Column(cells, 11) == 64;
    assert Column(cells, 12) == 70;
    assert Column(cells, 13) == 73;
    assert Column(cells, 14) == 80;
    assert |cells[14]| == 5 && |cells[15]| == 5;
    assert Column(cells, 15) == 86;
    assert Column(cells, 16) == 92;
  }
}
