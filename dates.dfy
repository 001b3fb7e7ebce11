/** Cutting the text of a timestamp into the two-digit year, month, day and
    hour columns of a SAM record (main.py, the `str.slice` calls of
    `xlsx_to_sam`). */
module Dates {

  function Min(a: int, b: int): int { if a < b then a else b }

  /** Python's `s[i:j]` for `0 <= i <= j`: both bounds are clamped to the
      length of `s`, so a string too short for the slice yields a shorter
      piece, or the empty string, and never an error. */
  function Slice(s: string, i: nat, j: nat): (r: string)
    requires i <= j
    ensures |r| == if |s| <= i then 0 else Min(j, |s|) - i
    ensures forall k :: 0 <= k < |r| ==> r[k] == s[i + k]
  {
    s[Min(i, |s|)..Min(j, |s|)]
  }

  /** The YR, MO, DA and HR columns cut from one date text. */
  datatype DateParts = DateParts(yr: string, mo: string, da: string, hr: string)

  /** `date[2:4]`, `date[5:7]`, `date[8:10]` and `date[11:13]`. No piece is
      longer than two characters, whatever the text. */
  function Decompose(date: string): (p: DateParts)
    ensures |p.yr| <= 2 && |p.mo| <= 2 && |p.da| <= 2 && |p.hr| <= 2
  {
    DateParts(Slice(date, 2, 4), Slice(date, 5, 7), Slice(date, 8, 10), Slice(date, 11, 13))
  }

  /** On a text of 13 characters or more every piece is the full two-character
      substring at its fixed position. */
  lemma DecomposeLong(date: string)
    requires |date| >= 13
    ensures Decompose(date) == DateParts(date[2..4], date[5..7], date[8..10], date[11..13])
  {
  }

  /** A date without a time part, `YYYY-MM-DD`, keeps year, month and day and
      yields an empty hour. */
  lemma DecomposeDateOnly(date: string)
    requires |date| == 10
    ensures Decompose(date) == DateParts(date[2..4], date[5..7], date[8..10], "")
  {
  }

  /** A civil date-time without time zone, as a pandas `Timestamp` holds it. */
  datatype Timestamp = Timestamp(year: nat, month: nat, day: nat, hour: nat, minute: nat, second: nat)

  predicate ValidTimestamp(t: Timestamp) {
    t.year < 10000 && 1 <= t.month <= 12 && 1 <= t.day <= 31
    && t.hour < 24 && t.minute < 60 && t.second < 60
  }

  function Digit(d: nat): (c: char)
    requires d < 10
    ensures '0' <= c <= '9'
  {
    (48 + d) as char
  }

  /** `n` in two decimal digits, with a leading zero below 10. */
  function TwoDigits(n: nat): (s: string)
    requires n < 100
    ensures |s| == 2
  {
    [Digit(n / 10), Digit(n % 10)]
  }

  /** `n` in four decimal digits, with leading zeros. */
  function FourDigits(n: nat): (s: string)
    requires n < 10000
    ensures |s| == 4
  {
    [Digit(n / 1000), Digit(n / 100 % 10), Digit(n / 10 % 10), Digit(n % 10)]
  }

  /** The text `astype(str)` gives a timestamp: `YYYY-MM-DD HH:MM:SS`. */
  function TimestampText(t: Timestamp): (s: string)
    requires ValidTimestamp(t)
    ensures |s| == 19 && s[4] == '-' && s[7] == '-' && s[10] == ' '
    ensures s[13] == ':' && s[16] == ':'
  {
    FourDigits(t.year) + "-" + TwoDigits(t.month) + "-" + TwoDigits(t.day) + " "
    + TwoDigits(t.hour) + ":" + TwoDigits(t.minute) + ":" + TwoDigits(t.second)
  }

  /** The last two of the four year digits are the year modulo 100. */
  lemma LastTwoYearDigits(y: nat)
    requires y < 10000
    ensures FourDigits(y)[2..4] == TwoDigits(y % 100)
  {
    var q, r := y / 100, y % 100;
    assert y == 100 * q + r;
    assert y / 10 == 10 * q + r / 10;
    assert y / 10 % 10 == r / 10;
    assert y % 10 == r % 10;
  }

  /** Decomposing the text of a timestamp gives the last two digits of its
      year and its month, day and hour, each in two digits. */
  lemma DecomposeTimestamp(t: Timestamp)
    requires ValidTimestamp(t)
    ensures Decompose(TimestampText(t))
         == DateParts(TwoDigits(t.year % 100), TwoDigits(t.month), TwoDigits(t.day), TwoDigits(t.hour))
  {
    var y, mo, da, hr := FourDigits(t.year), TwoDigits(t.month), TwoDigits(t.day), TwoDigits(t.hour);
    var tail := ":" + TwoDigits(t.minute) + ":" + TwoDigits(t.second);
    var s := TimestampText(t);
    assert s == y + "-" + mo + "-" + da + " " + hr + tail;
    assert |s| == 19;
    DecomposeLong(s);
    LastTwoYearDigits(t.year);
    assert s[2..4] == y[2..4];
    assert s[5..7] == mo;
    assert s[8..10] == da;
    assert s[11..13] == hr;
  }

  /** The year is truncated to its last two digits: 2024 gives "24". */
  lemma Year2024()
    ensures Decompose(TimestampText(Timestamp(2024, 3, 15, 8, 0, 0))).yr == "24"
  {
    DecomposeTimestamp(Timestamp(2024, 3, 15, 8, 0, 0));
  }

  /** 1999 gives "99". */
  lemma Year1999()
    ensures Decompose(TimestampText(Timestamp(1999, 12, 31, 23, 0, 0))).yr == "99"
  {
    DecomposeTimestamp(Timestamp(1999, 12, 31, 23, 0, 0));
  }

  /** `"2024-03-15 08:00:00"` cuts into "24", "03", "15" and "08". */
  lemma DecomposeExample()
    ensures Decompose("2024-03-15 08:00:00") == DateParts("24", "03", "15", "08")
  {
    DecomposeLong("2024-03-15 08:00:00");
  }
}
