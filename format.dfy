/** The `:<n` format specification of Python's f-strings on text values:
    left-justify in a field of width `n`, padding with spaces on the right.
    A value longer than the field is emitted whole; it is never truncated. */
module Format {

  function Max(a: int, b: int): int { if a < b then b else a }

  /** Every character of `s` is a space. */
  predicate IsBlank(s: string) {
    forall k :: 0 <= k < |s| ==> s[k] == ' '
  }

  /** `n` spaces. */
  function Spaces(n: nat): (r: string)
    ensures |r| == n
    ensures IsBlank(r)
  {
    if n == 0 then "" else Spaces(n - 1) + " "
  }

  /** `f"{s:<width}"`: `s` followed by as many spaces as it takes to reach
      `width`; `s` itself when it is already that wide or wider. */
  function LeftJustify(s: string, width: nat): (r: string)
    ensures |r| == Max(width, |s|)
  {
    if |s| >= width then s else s + Spaces(width - |s|)
  }

  /** A padded value begins with the value and continues with spaces only. */
  lemma LeftJustifyShape(s: string, width: nat)
    ensures LeftJustify(s, width)[..|s|] == s
    ensures IsBlank(LeftJustify(s, width)[|s|..])
  {
    if |s| < width {
      var r := LeftJustify(s, width);
      assert r[|s|..] == Spaces(width - |s|);
    }
  }

  /** `s` with its trailing spaces removed (Python's `s.rstrip(' ')`). */
  function StripTrailingSpaces(s: string): (r: string)
    ensures r <= s
    ensures IsBlank(s[|r|..])
    ensures r == [] || r[|r| - 1] != ' '
  {
    if s != [] && s[|s| - 1] == ' ' then StripTrailingSpaces(s[..|s| - 1]) else s
  }

  /** Padding never truncates: a value at least as wide as its field is
      emitted unchanged. */
  lemma NoTruncation(s: string, width: nat)
    requires |s| >= width
    ensures LeftJustify(s, width) == s
  {
  }

  /** Stripping trailing spaces undoes the padding of any value that does not
      itself end in a space, whatever the width. */
  lemma StripLeftJustify(s: string, width: nat)
    requires s == [] || s[|s| - 1] != ' '
    ensures StripTrailingSpaces(LeftJustify(s, width)) == s
  {
    var r := LeftJustify(s, width);
    var t := StripTrailingSpaces(r);
    LeftJustifyShape(s, width);
    assert r[..|s|] == s;
    assert |t| == |s|;
    assert t == r[..|t|];
  }
}
