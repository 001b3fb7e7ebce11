/** Text files as sequences of lines: writing lines one after the other, and
    reading a text back line by line. */
module LineText {

  /** No character of `s` is a newline. */
  predicate NoNewline(s: string) {
    '\n' !in s
  }

  /** One line of text: a newline at the end and nowhere else. */
  predicate IsLine(s: string) {
    |s| > 0 && s[|s| - 1] == '\n' && NoNewline(s[..|s| - 1])
  }

  /** A text without newlines, terminated by one, is a line. */
  lemma LineOf(s: string)
    requires NoNewline(s)
    ensures IsLine(s + "\n")
  {
    assert (s + "\n")[..|s|] == s;
  }

  /** The lines written for the items `xs`, one per item, in order. */
  function Each<T>(line: T -> string, xs: seq<T>): (lines: seq<string>)
    ensures |lines| == |xs|
    decreases |xs|
  {
    if |xs| == 0 then [] else Each(line, xs[..|xs| - 1]) + [line(xs[|xs| - 1])]
  }

  /** There is one line per item, and line `i` is the one of item `i`. */
  lemma {:induction false} EachAt<T>(line: T -> string, xs: seq<T>)
    ensures forall i :: 0 <= i < |xs| ==> Each(line, xs)[i] == line(xs[i])
    decreases |xs|
  {
    if |xs| > 0 {
      var init := xs[..|xs| - 1];
      EachAt(line, init);
      assert forall i :: 0 <= i < |init| ==> init[i] == xs[i];
    }
  }

  /** One more item adds its line at the end. */
  lemma EachSnoc<T>(line: T -> string, xs: seq<T>, x: T)
    ensures Each(line, xs + [x]) == Each(line, xs) + [line(x)]
  {
    assert (xs + [x])[..|xs|] == xs;
  }

  /** The lines of two runs of items are those of the first, then those of
      the second. */
  lemma EachAppend<T>(line: T -> string, a: seq<T>, b: seq<T>)
    ensures Each(line, a + b) == Each(line, a) + Each(line, b)
  {
    EachAt(line, a + b);
    EachAt(line, a);
    EachAt(line, b);
    var l, r := Each(line, a + b), Each(line, a) + Each(line, b);
    assert |l| == |r|;
    forall i | 0 <= i < |l|
      ensures l[i] == r[i]
    {
      if i < |a| {
        assert (a + b)[i] == a[i];
      } else {
        assert (a + b)[i] == b[i - |a|];
      }
    }
  }

  /** Where two lines are written before the others. */
  lemma TwoFirst(a: string, b: string, rest: seq<string>)
    ensures |[a, b] + rest| == |rest| + 2 && ([a, b] + rest)[0] == a && ([a, b] + rest)[1] == b
    ensures forall i :: 0 <= i < |rest| ==> ([a, b] + rest)[i + 2] == rest[i]
    ensures rest == [] ==> [a, b] + rest == [a, b]
  {
  }

  /** A line appended after a run of lines that follows others. */
  lemma AppendAfter(first: seq<string>, rest: seq<string>, line: string)
    ensures first + (rest + [line]) == first + rest + [line]
  {
  }

  /** The text of a file written line after line. */
  function Concat(lines: seq<string>): (text: string)
    decreases |lines|
  {
    if |lines| == 0 then "" else Concat(lines[..|lines| - 1]) + lines[|lines| - 1]
  }

  /** The text is the first line followed by the text of the others. */
  lemma {:induction false} ConcatCons(lines: seq<string>)
    requires |lines| > 0
    ensures Concat(lines) == lines[0] + Concat(lines[1..])
    decreases |lines|
  {
    if |lines| > 1 {
      var init := lines[..|lines| - 1];
      ConcatCons(init);
      assert init[1..] == lines[1..][..|lines| - 2];
    }
  }

  /** The length of the first line of a non-empty text, with its newline; the
      whole text when it has no newline. */
  function LineEnd(text: string): (k: nat)
    requires text != ""
    ensures 0 < k <= |text|
    decreases |text|
  {
    if text[0] == '\n' || |text| == 1 then 1 else 1 + LineEnd(text[1..])
  }

  /** The text cut after each newline, every piece keeping its newline, as a
      reader of the file going line by line sees it. */
  function Lines(text: string): (lines: seq<string>)
    decreases |text|
  {
    if text == "" then [] else [text[..LineEnd(text)]] + Lines(text[LineEnd(text)..])
  }

  /** A line followed by more text ends where its newline is. */
  lemma {:induction false} LineEndOfLine(a: string, b: string)
    requires IsLine(a)
    ensures LineEnd(a + b) == |a|
    decreases |a|
  {
    if |a| > 1 {
      assert a[..|a| - 1][1..] == a[1..][..|a| - 2];
      assert (a + b)[1..] == a[1..] + b;
      LineEndOfLine(a[1..], b);
    }
  }

  /** Reading back a text made of whole lines gives those lines. */
  lemma {:induction false} LinesOfConcat(lines: seq<string>)
    requires forall i :: 0 <= i < |lines| ==> IsLine(lines[i])
    ensures Lines(Concat(lines)) == lines
    decreases |lines|
  {
    if |lines| > 0 {
      var a, b := lines[0], Concat(lines[1..]);
      ConcatCons(lines);
      LineEndOfLine(a, b);
      assert (a + b)[..|a|] == a;
      assert (a + b)[|a|..] == b;
      LinesOfConcat(lines[1..]);
    }
  }
}
