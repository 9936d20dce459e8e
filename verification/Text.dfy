/** Text as lists of lines, the way the patch writer reads and prints it. */
module Text {

  /** No line break: what one line of a text can hold. */
  predicate OneLine(s: string) {
    '\n' !in s
  }

  predicate OneLineEach(lines: seq<string>) {
    forall k :: 0 <= k < |lines| ==> OneLine(lines[k])
  }

  /** Go's strings.Split(text, "\n"). */
  function Split(text: string): (pieces: seq<string>)
    ensures |pieces| >= 1
    ensures OneLineEach(pieces)
  {
    if text == "" then [""]
    else
      var rest := Split(text[1..]);
      if text[0] == '\n' then [""] + rest else [[text[0]] + rest[0]] + rest[1..]
  }

  /** Go's strings.Join(pieces, "\n"). */
  function Join(pieces: seq<string>): string
    requires |pieces| >= 1
  {
    if |pieces| == 1 then pieces[0] else pieces[0] + "\n" + Join(pieces[1..])
  }

  /** Every line followed by its line break. */
  function Unlines(lines: seq<string>): string {
    if lines == [] then "" else lines[0] + "\n" + Unlines(lines[1..])
  }

  /** The lines of a text, without the empty entry a final line break leaves. */
  function Lines(text: string): (lines: seq<string>)
    ensures OneLineEach(lines)
  {
    var pieces := Split(text);
    if pieces[|pieces| - 1] == "" then pieces[..|pieces| - 1] else pieces
  }

  /** Splitting forgets nothing. */
  lemma {:induction false} JoinSplit(text: string)
    ensures Join(Split(text)) == text
  {
    if text != "" {
      JoinSplit(text[1..]);
      assert text == [text[0]] + text[1..];
    }
  }

  /** A line, its line break and what follows it split after the line. */
  lemma {:induction false} SplitLine(line: string, rest: string)
    requires OneLine(line)
    ensures Split(line + "\n" + rest) == [line] + Split(rest)
  {
    var text := line + "\n" + rest;
    if line == "" {
      assert text[1..] == rest;
    } else {
      assert text[1..] == line[1..] + "\n" + rest;
      SplitLine(line[1..], rest);
      assert [text[0]] + line[1..] == line;
      assert ([line[1..]] + Split(rest))[1..] == Split(rest);
    }
  }

  lemma {:induction false} SplitOne(line: string)
    requires OneLine(line)
    ensures Split(line) == [line]
  {
    if line != "" {
      SplitOne(line[1..]);
      assert [line[0]] + line[1..] == line;
    }
  }

  /** Whole lines printed before a text come back as its first pieces. */
  lemma {:induction false} SplitUnlines(lines: seq<string>, rest: string)
    requires OneLineEach(lines)
    ensures Split(Unlines(lines) + rest) == lines + Split(rest)
  {
    if lines == [] {
      assert Unlines(lines) + rest == rest;
    } else {
      SplitUnlines(lines[1..], rest);
      SplitLine(lines[0], Unlines(lines[1..]) + rest);
      assert Unlines(lines) + rest == lines[0] + "\n" + (Unlines(lines[1..]) + rest);
    }
  }

  lemma {:induction false} UnlinesConcat(x: seq<string>, y: seq<string>)
    ensures Unlines(x + y) == Unlines(x) + Unlines(y)
  {
    if x == [] {
      assert x + y == y;
    } else {
      assert (x + y)[1..] == x[1..] + y;
      UnlinesConcat(x[1..], y);
    }
  }

  lemma {:induction false} JoinEmptyEnd(pieces: seq<string>)
    requires |pieces| >= 1
    ensures Join(pieces + [""]) == Join(pieces) + "\n"
  {
    var all := pieces + [""];
    assert all[1..] == pieces[1..] + [""];
    if |pieces| == 1 {
      assert pieces[1..] + [""] == [""];
      assert Join(all) == pieces[0] + "\n" + "";
    } else {
      JoinEmptyEnd(pieces[1..]);
    }
  }

  /** The last piece is empty exactly when the text is empty or ends in a line break. */
  lemma {:induction false} LastPiece(text: string)
    ensures Split(text)[|Split(text)| - 1] == "" <==> text == "" || text[|text| - 1] == '\n'
    ensures text != "" && text[|text| - 1] == '\n' ==> |Split(text)| >= 2
  {
    if text != "" {
      LastPiece(text[1..]);
    }
  }

  /** One text is the other with a final line break added to its last line. */
  predicate EndsLine(x: string, y: string) {
    x != "" && x[|x| - 1] != '\n' && y == x + "\n"
  }

  /** What Lines forgets: exactly whether a last line that is not empty ends in
      a line break. */
  lemma LinesForget(x: string, y: string)
    ensures Lines(x) == Lines(y) <==> x == y || EndsLine(x, y) || EndsLine(y, x)
  {
    if EndsLine(x, y) { EndsLineSame(x); }
    if EndsLine(y, x) { EndsLineSame(y); }
    if Lines(x) == Lines(y) { SameLines(x, y); }
  }

  lemma FrontOfMore(pieces: seq<string>)
    ensures (pieces + [""])[..|pieces|] == pieces
  {
  }

  lemma LinesAddBreak(x: string, y: string)
    requires Split(y) == Split(x) + [""] && Split(x)[|Split(x)| - 1] != ""
    ensures Lines(y) == Lines(x)
  {
    FrontOfMore(Split(x));
  }

  lemma EndsLineSame(x: string)
    requires x != "" && x[|x| - 1] != '\n'
    ensures Split(x + "\n") == Split(x) + [""]
    ensures Lines(x + "\n") == Lines(x)
  {
    SplitAddBreak(x);
    LastPiece(x);
    LinesAddBreak(x, x + "\n");
  }

  lemma {:induction false} SplitAddBreak(x: string)
    ensures Split(x + "\n") == Split(x) + [""]
  {
    if x != "" {
      SplitAddBreak(x[1..]);
      assert (x + "\n")[1..] == x[1..] + "\n";
    } else {
      assert Split("\n"[1..]) == [""];
    }
  }

  /** What a text is, from its lines and whether its last piece is empty. */
  lemma TextOfLines(text: string, pieces: seq<string>, last: string)
    requires pieces + [last] == Split(text)
    ensures last != "" ==> Lines(text) == pieces + [last] && text == Join(pieces + [last])
    ensures last == "" ==> Lines(text) == pieces && text == if pieces == [] then "" else Join(pieces) + "\n"
    ensures last == "" <==> text == "" || text[|text| - 1] == '\n'
  {
    JoinSplit(text);
    LastPiece(text);
    if last == "" && pieces != [] {
      JoinEmptyEnd(pieces);
    }
  }

  lemma SameLines(x: string, y: string)
    requires Lines(x) == Lines(y)
    ensures x == y || EndsLine(x, y) || EndsLine(y, x)
  {
    var px, py := Split(x), Split(y);
    assert px[..|px| - 1] + [px[|px| - 1]] == px && py[..|py| - 1] + [py[|py| - 1]] == py;
    TextOfLines(x, px[..|px| - 1], px[|px| - 1]);
    TextOfLines(y, py[..|py| - 1], py[|py| - 1]);
  }
}
