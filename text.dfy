/** Lines made of cells separated by single spaces, and where each cell of
    such a line sits. */
module Text {

  /** The cells in order, with exactly one space between neighbours. */
  function Join(cells: seq<string>): (line: string)
    decreases |cells|
  {
    if |cells| == 0 then ""
    else if |cells| == 1 then cells[0]
    else cells[0] + " " + Join(cells[1..])
  }

  /** The 0-based column at which cell `k` starts in `Join(cells)`: the
      widths of the cells before it, each with its separator. */
  function Column(cells: seq<string>, k: nat): (col: nat)
    requires k <= |cells|
  {
    if k == 0 then 0 else Column(cells, k - 1) + |cells[k - 1]| + 1
  }

  /** Counted without the first cell, every column moves left by the first
      cell's width and its separator. */
  lemma {:induction false} ColumnOfRest(cells: seq<string>, k: nat)
    requires 0 < k <= |cells|
    ensures Column(cells, k) == |cells[0]| + 1 + Column(cells[1..], k - 1)
  {
    if k > 1 {
      ColumnOfRest(cells, k - 1);
    }
  }

  /** Cell `k` occupies the columns from `Column(cells, k)` on, is followed by
      a single space unless it is the last cell, and the last cell ends the
      line. */
  lemma {:induction false} JoinCellAt(cells: seq<string>, k: nat)
    requires k < |cells|
    ensures Column(cells, k) + |cells[k]| <= |Join(cells)|
    ensures Join(cells)[Column(cells, k)..Column(cells, k) + |cells[k]|] == cells[k]
    ensures k + 1 < |cells| ==> Column(cells, k) + |cells[k]| < |Join(cells)|
    ensures k + 1 < |cells| ==> Join(cells)[Column(cells, k) + |cells[k]|] == ' '
    ensures k + 1 == |cells| ==> |Join(cells)| == Column(cells, k) + |cells[k]|
    decreases k
  {
    if |cells| > 1 {
      var rest := Join(cells[1..]);
      assert Join(cells) == cells[0] + " " + rest;
      if k > 0 {
        JoinCellAt(cells[1..], k - 1);
        var c := Column(cells[1..], k - 1);
        ColumnOfRest(cells, k);
        assert Join(cells)[Column(cells, k)..Column(cells, k) + |cells[k]|]
            == rest[c..c + |cells[k]|];
      }
    }
  }

  /** `JoinCellAt` for a line terminated by a newline, at a known column. */
  lemma CellAt(cells: seq<string>, k: nat, col: nat)
    requires k + 1 < |cells| && Column(cells, k) == col
    ensures col + |cells[k]| < |Join(cells) + "\n"|
    ensures (Join(cells) + "\n")[col..col + |cells[k]|] == cells[k]
    ensures (Join(cells) + "\n")[col + |cells[k]|] == ' '
  {
    JoinCellAt(cells, k);
    var j := Join(cells);
    assert (j + "\n")[col..col + |cells[k]|] == j[col..col + |cells[k]|];
  }

  /** A line of two or more cells ends with a separator and its last cell. */
  lemma {:induction false} JoinEndsWithLast(cells: seq<string>)
    requires |cells| >= 2
    ensures |Join(cells)| >= |cells[|cells| - 1]| + 1
    ensures Join(cells)[|Join(cells)| - |cells[|cells| - 1]| - 1..] == " " + cells[|cells| - 1]
    decreases |cells|
  {
    var rest := Join(cells[1..]);
    assert Join(cells) == cells[0] + " " + rest;
    if |cells| > 2 {
      JoinEndsWithLast(cells[1..]);
    } else {
      assert rest == cells[1];
    }
  }

  /** From the column where cell `k` starts, the line is the join of cells
      `k`, `k + 1`, .... */
  lemma {:induction false} JoinFrom(cells: seq<string>, k: nat)
    requires k < |cells|
    ensures Column(cells, k) <= |Join(cells)|
    ensures Join(cells)[Column(cells, k)..] == Join(cells[k..])
    decreases k
  {
    if k > 0 {
      JoinFrom(cells[1..], k - 1);
      ColumnOfRest(cells, k);
      assert cells[1..][k - 1..] == cells[k..];
      var rest := Join(cells[1..]);
      assert Join(cells) == cells[0] + " " + rest;
      assert Join(cells)[|cells[0]| + 1..] == rest;
    } else {
      assert cells[0..] == cells;
    }
  }

  /** Appending a cell adds a separator and the cell. */
  lemma {:induction false} JoinAppend(cells: seq<string>, c: string)
    requires |cells| > 0
    ensures Join(cells + [c]) == Join(cells) + " " + c
    decreases |cells|
  {
    if |cells| == 1 {
      assert (cells + [c])[1..] == [c];
    } else {
      assert (cells + [c])[1..] == cells[1..] + [c];
      JoinAppend(cells[1..], c);
    }
  }

  /** The join of the first `k + 1` cells extends the join of the first `k`. */
  lemma JoinPrefix(cells: seq<string>, k: nat)
    requires 0 < k < |cells|
    ensures Join(cells[..k + 1]) == Join(cells[..k]) + " " + cells[k]
  {
    assert cells[..k + 1] == cells[..k] + [cells[k]];
    JoinAppend(cells[..k], cells[k]);
  }
}
