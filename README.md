# SAM weather-file serialiser, modelled in Dafny

This project models `xlsx_to_sam` in `main.py`. The function turns an hourly
weather table into a SAM text file. The file has three parts:

- a fixed station-header line;
- a fixed column-header line;
- one fixed-template record per table row, in row order.

Each record is a single Python f-string. Its fields are separated by single
spaces:

- the two-digit year, month, day and hour, cut from the date text with the
  slices `[2:4]`, `[5:7]`, `[8:10]` and `[11:13]`;
- the constant placeholders `0 9999 9999`, `?0 9999 ?0 9999 ?0` and `9999.`;
- the eight measurements, some left-justified with `:<n`;
- the constant tail of columns 14 to 21.

The model has six modules:

- `Format` (`format.dfy`): Python's `:<n` left-justification, which pads
  with spaces and never truncates. It also has the trailing-space strip that
  undoes the padding.
- `Dates` (`dates.dfy`): Python slices with their clamping, and how a date
  text splits into the YR/MO/DA/HR pieces. It also covers the text
  `astype(str)` makes of a timestamp.
- `Text` (`text.dfy`): a line made of cells separated by single spaces, and
  the column where each cell starts.
- `Sam` (`sam.dfy`):
  - the row datatype and the constant literals;
  - the column-header line and the record template;
  - the column layout of a record, its length, the fixed-column read-back,
    and a worked example;
  - where the column-header labels stand over the record fields.
- `LineText` (`lines.dfy`) and `SamFile` (`samfile.dfy`):
  - the lines written, in order, and the resulting file text;
  - reading the file back line by line;
  - the loop method `SamFile.XlsxToSam`, which appends the lines one write at
    a time, as the source does.

Every measurement enters the model as the text Python renders for it. The
date enters as the text `df['date'].astype(str)` produced.

Where the code departs from a strict fixed-column SAM layout, the model
follows the code:

- `:<n` never truncates. The code only pads, so a value wider than its field
  stays whole and moves every later column (`Sam.WideValueShiftsColumns`).
- Temperature, humidity and pressure are written at their natural width,
  with no `:<n`. Wind direction, wind speed and the constant tail therefore
  move with the widths of those texts, and records are not equal-length in
  general (`Sam.DataLineLength`, `Sam.TemperatureWidthShiftsTail`).
- The column header lines up with the records as far as the values fit.
  `I`, `1` and `2` together are 12 characters wide, like the padded
  `0 9999 9999`. So in every record, `YR`, `MO`, `DA`, `HR`, `I` and `3`
  start in the columns of the date pieces, the placeholder and shortwave
  radiation (`Sam.HeaderAlignsWithPrefix`). When shortwave radiation and
  cloud cover also fit their widths, `6`, `7` and `8` start over both cloud
  covers and temperature (`Sam.HeaderAlignsWithRecord`). When, in addition
  to that fit, temperature, humidity and pressure are 4, 2 and 6 characters
  wide and the winds fit, labels `9` to `14` sit over `9999.`, humidity,
  pressure, both winds and the tail (`Sam.HeaderAlignsWithMeasurements`).
  Other widths move the later fields but not the labels.
- The code pads `250` to `250 ` and then adds a separator, so a record holds
  `9999  250  ?0`, with two spaces on each side of the value, not single
  spaces. `Sam.ExampleRecord` states the line the code writes.
- The code never raises an error for a malformed sample. Every date text,
  even an empty one, is sliced with Python's clamping and written.

The station header is the constant `Sam.StationHeader`, the main.py:93
literal written as concatenated pieces; `SamFile.StationHeaderIsLine` states
that it is one line.

## Model

| member | source | states |
|---|---|---|
| Dates.TimestampText | main.py:80 | the `YYYY-MM-DD HH:MM:SS` text `astype(str)` gives a timestamp: 19 characters with `-`, `-`, a space, `:` and `:` at positions 4, 7, 10, 13 and 16 |
| Dates.Slice | main.py:84-87 | Python `s[i:j]` with both bounds clamped to the length: the piece is empty when `s` is no longer than `i`, and otherwise has length `min(j, \|s\|) - i`; its `k`-th character is `s[i + k]` |
| Dates.Decompose | main.py:84-87 | YR, MO, DA and HR are each at most two characters long, whatever the date text, including short or empty ones |
| Dates.DecomposeLong | main.py:84-87 | on a date text of 13 characters or more, the pieces are exactly the substrings `[2..4]`, `[5..7]`, `[8..10]` and `[11..13]` |
| Dates.DecomposeDateOnly | main.py:80-87 | a date-only text `YYYY-MM-DD` keeps year, month and day and gives an empty hour |
| Dates.LastTwoYearDigits | main.py:84 | the characters `[2..4]` of a four-digit year are the year modulo 100 in two digits |
| Dates.DecomposeTimestamp | main.py:80-87 | cutting the `YYYY-MM-DD HH:MM:SS` text of any valid timestamp gives its year modulo 100, month, day and hour, each in two digits |
| Dates.Year2024 | main.py:84 | 2024 gives `24` |
| Dates.Year1999 | main.py:84 | 1999 gives `99` |
| Dates.DecomposeExample | main.py:84-87 | `2024-03-15 08:00:00` cuts into `24`, `03`, `15`, `08` |
| Format.LeftJustify | main.py:98 | the padded field has length `max(n, \|s\|)` |
| Format.LeftJustifyShape | main.py:98 | the padded field begins with `s` and all characters after `s` are spaces |
| Format.NoTruncation | main.py:98 | a value at least as wide as its field is emitted unchanged |
| Format.StripLeftJustify | main.py:98 | stripping trailing spaces undoes the padding of any value that does not end in a space, for every width |
| Sam.HeaderCells | main.py:94 | the 26 column labels in order, each padded to its `:<n` width, the last one (`21`) unpadded |
| Sam.ColumnHeader | main.py:94 | the column-header line: `~` immediately followed by the labels separated by single spaces, then a newline |
| Sam.Cells | main.py:98 | the 16 replacement fields of the record f-string in order (the empty leading field, the four date pieces, the placeholders and the measurements, each padded where the template gives a width), then its literal tail as a 17th cell |
| Sam.HeaderLabels | main.py:94 | after padding, the labels are `YR`, `MO`, `DA`, `HR`, `I` and `1` padded to 4, `2` to 2, `3`-`5` to 7, and so on up to `20` padded to 8, then `21` |
| Sam.ColumnHeaderText | main.py:94 | the column-header line is `~` followed by the 26 labels, each padded to its width and separated by single spaces, then a newline |
| Sam.HeaderWidths | main.py:94 | the first 18 padded labels are 2, 2, 2, 2, 4, 4, 2, 7, 7, 7, 4, 3, 4, 5, 2, 6, 5 and 5 characters wide, of 26 |
| Sam.LabelColumns | main.py:94 | with those widths, `MO`, `DA`, `HR`, `I`, `3` and `6` to `14` start at columns 3, 6, 9, 12, 25 and 49, 54, 58, 63, 69, 72, 79, 85, 91 of the joined labels (`YR` at 0) |
| Sam.HeaderAlignsWithPrefix | main.py:94-98 | for every row, each of `YR`, `MO`, `DA`, `HR`, `I` and `3` starts, after the `~`, in the column where the date pieces, the `0 9999 9999` placeholder and shortwave radiation start |
| Sam.HeaderAlignsWithRecord | main.py:94-98 | for every row whose shortwave radiation and cloud cover fit their widths, `6`, `7` and `8` start, after the `~`, where the two cloud covers and temperature start |
| Sam.HeaderAlignsWithMeasurements | main.py:94-98 | when in addition temperature, humidity and pressure are 4, 2 and 6 characters wide and the winds fit, labels `9` to `14` start where `9999.`, humidity, pressure, the two winds and the constant tail start |
| Sam.DataLine | main.py:98 | every record starts with a space (the empty leading field and its separator) |
| Sam.DataLineEnd | main.py:98 | every record ends with ` ` + the tail of columns 14-21 + newline |
| Sam.DataLineLayout | main.py:98 | a record is exactly the f-string: its 16 replacement fields, each padded to its width where the template gives one, then its literal tail, separated by single spaces, then a newline |
| Sam.CellColumns | main.py:98 | the fields start at columns 1, 4, 7, 10, 13 and 26 whatever the row; the later field starts move with the widths of shortwave radiation and cloud cover |
| Sam.DateColumns | main.py:98 | YR, MO, DA and HR occupy columns 1-2, 4-5, 7-8 and 10-11, and the padded `0 9999 9999` occupies 13-24, with spaces between them, for every row |
| Sam.MeasurementColumns | main.py:98 | shortwave radiation starts at column 26 in every record; then come `?0 9999 ?0 9999 ?0` and the cloud cover twice, padded to 4 and then to 3 |
| Sam.MeasurementTail | main.py:98 | after the second cloud cover, the record is temperature, `9999.`, humidity and pressure at natural width, wind direction and speed padded to 5, then the constant tail, separated by single spaces |
| Sam.ReadBackFixedColumns | main.py:98 | when shortwave radiation and cloud cover fit their widths and none of them ends in a space, a fixed-column reader gets back the date pieces and both values, and finds the placeholders in their columns |
| Sam.WideValueShiftsColumns | main.py:98 | any five-character shortwave radiation is written whole in columns 26-30 and moves the next placeholder one column to the right |
| Sam.DataLineLength | main.py:98 | a record is 132 characters long, plus the excess of each padded value over its width, plus the natural widths of temperature, humidity and pressure |
| Sam.TemperatureWidthShiftsTail | main.py:98 | changing the temperature text changes the record length by the difference in width, so the later columns move |
| Sam.EqualLengthRecords | main.py:98 | two rows whose padded values fit and whose unpadded values are equally wide give records of equal length |
| Sam.ExampleRecord | main.py:98 | the sample of 2024-03-15 08:00 with the value texts `"25.3"`, `"80"`, `"0"`, `"1013.2"`, `"40"`, `"3.5"`, `"120"` and `"250"` (as given, not a float rendering such as `250.0`) gives the record ` 24 03 15 08 0 9999 9999  250  ?0 9999 ?0 9999 ?0 40   40  25.3 9999. 80 1013.2 120   3.5   ` followed by the tail and a newline |
| SamFile.DataLines | main.py:96-98 | there is one record per row |
| SamFile.DataLinesAt | main.py:96-98 | record `i` is the record of row `i` |
| SamFile.DataLinesAppend | main.py:96-98 | the records of two tables written one after the other are those of the first followed by those of the second |
| SamFile.SamLines | main.py:93-98 | the lines the code writes, in write order: the station header, the column header, then the record of each row |
| SamFile.SamLinesShape | main.py:93-98 | the file has `\|rows\| + 2` lines: the station header, the column header, then the record of row `i` at position `i + 2`; an empty table gives the two headers only |
| SamFile.FileText | main.py:91-98 | the file text is the written lines concatenated in write order |
| SamFile.SamLinesSnoc | main.py:96-98 | one more row adds one more line, its record, at the end |
| SamFile.FileTextSnoc | main.py:96-98 | each further row appends its record to the text of the file |
| SamFile.XlsxToSam | main.py:91-98 | the loop writes exactly `SamLines(rows)`, in order: the two headers, then one record per row in table order, laid out as `SamFile.SamLinesShape` states |
| SamFile.StationHeaderIsLine | main.py:93 | the station header is a single newline-terminated line |
| SamFile.ColumnHeaderIsLine | main.py:94 | the column header is a single newline-terminated line |
| SamFile.DataLineIsLine | main.py:98 | the record of a row whose values contain no newline is exactly one line |
| SamFile.SamLinesAreLines | main.py:93-98 | when no value holds a newline, every line written is a single newline-terminated line |
| SamFile.FileLines | main.py:91-98 | reading the file back line by line gives the two headers and then one record per row, in row order |

## Left out

- The Open-Meteo request, the cached session and the retry policy (main.py:19-37) are left out. They are network I/O through foreign libraries.
- The diagnostic prints (main.py:41-44) are left out. They are console output.
- The extraction of the response variables and the time-zone conversion of `pd.date_range` (main.py:47-72) are left out. They are pandas and numpy calls. The model takes the date as text.
- The Excel round trip (main.py:78-80, 101-103) is left out: `to_excel` with `float_format='%.1f'`, `read_excel`, the column-name strip and `astype(str)`. These are library serialisation. Every measurement enters as the text Python renders for it, and float formatting is not modelled. `Dates.TimestampText` gives the usual `YYYY-MM-DD HH:MM:SS` form of a date; pandas also produces the date-only form (`Dates.DecomposeDateOnly`).
- `df.drop(columns=['date'])` (main.py:88) is not modelled. The record never reads the date column after the slicing.
- The folder creation, the file open and the `FileResponse` / FastAPI routing (main.py:91, 106-121) are left out. They are filesystem and HTTP. The file is modelled as the sequence of lines written to it, and its text as their concatenation. Overwrite semantics and the file handle are not modelled. `open(sam_file, 'w')` opens in text mode, which translates each `\n` to the platform line separator and encodes with the locale encoding; the model's file text is the character-level concatenation only.
- `precipitation` is carried in `Sam.Row` but never written, as in the code.
- Sam.ExampleRecord: the expected line is stated as its fields joined by single spaces rather than as one flat literal. Comparing one flat 144-character literal is too costly for the verifier.
