/** What the diff of two files is, from the files alone: whatever they share at both
    ends stays out of the comparison, however it is found. */
module DiffTrim {
  import opened Lcs
  import opened Diff

  // ----- what two lists share at both ends

  /** The lists share p at the start and s at the end; x and y lie between. */
  predicate Shares(a: seq<string>, b: seq<string>, p: seq<string>, x: seq<string>, y: seq<string>, s: seq<string>) {
    a == p + x + s && b == p + y + s
  }

  /** No longer start is shared. */
  predicate LongestHead(a: seq<string>, b: seq<string>, p: seq<string>) {
    p <= a && p <= b && (|p| == |a| || |p| == |b| || a[|p|] != b[|p|])
  }

  predicate EndsWith(a: seq<string>, s: seq<string>) {
    |s| <= |a| && a[|a| - |s|..] == s
  }

  /** No longer end is shared. */
  predicate LongestTail(a: seq<string>, b: seq<string>, s: seq<string>) {
    EndsWith(a, s) && EndsWith(b, s) && (|s| == |a| || |s| == |b| || a[|a| - 1 - |s|] != b[|b| - 1 - |s|])
  }

  lemma {:induction false} HeadAtLeast(a: seq<string>, b: seq<string>, p: seq<string>)
    requires p <= a && p <= b
    ensures CommonHead(a, b) >= |p|
  {
    if p != [] {
      assert p[0] == a[0] == b[0];
      HeadAtLeast(a[1..], b[1..], p[1..]);
    }
  }

  lemma {:induction false} HeadIs(a: seq<string>, b: seq<string>, p: seq<string>)
    requires LongestHead(a, b, p)
    ensures CommonHead(a, b) == |p|
  {
    if p != [] {
      assert p[0] == a[0] == b[0];
      HeadIs(a[1..], b[1..], p[1..]);
    }
  }

  lemma CutLast(x: seq<string>, s: seq<string>, s': seq<string>)
    requires s != [] && s' == s[..|s| - 1]
    ensures x + s != [] && (x + s)[|x + s| - 1] == s[|s| - 1] && (x + s)[..|x + s| - 1] == x + s'
  {
  }

  lemma TailOneMore(a: seq<string>, b: seq<string>, a': seq<string>, b': seq<string>)
    requires a != [] && b != [] && a[|a| - 1] == b[|b| - 1] && a' == a[..|a| - 1] && b' == b[..|b| - 1]
    ensures CommonTail(a, b) == CommonTail(a', b') + 1
  {
  }

  lemma NoTail(x: seq<string>, y: seq<string>)
    requires x == [] || y == [] || x[|x| - 1] != y[|y| - 1]
    ensures CommonTail(x, y) == 0
  {
  }

  /** An end that is shared lengthens the common tail by itself. */
  lemma {:induction false} TailFrom(x: seq<string>, y: seq<string>, s: seq<string>)
    ensures CommonTail(x + s, y + s) == CommonTail(x, y) + |s|
    decreases |s|
  {
    if s == [] {
      assert x + s == x && y + s == y;
    } else {
      var s' := s[..|s| - 1];
      TailFrom(x, y, s');
      CutLast(x, s, s');
      CutLast(y, s, s');
      TailOneMore(x + s, y + s, x + s', y + s');
    }
  }

  lemma TailAtLeast(a: seq<string>, b: seq<string>, s: seq<string>)
    requires EndsWith(a, s) && EndsWith(b, s)
    ensures CommonTail(a, b) >= |s|
  {
    var x, y := a[..|a| - |s|], b[..|b| - |s|];
    TailFrom(x, y, s);
    assert a == x + s && b == y + s;
  }

  lemma BeforeTail(x: seq<string>, s: seq<string>)
    requires x != []
    ensures (x + s)[|x + s| - 1 - |s|] == x[|x| - 1]
  {
  }

  lemma TailIs(x: seq<string>, y: seq<string>, s: seq<string>)
    requires LongestTail(x + s, y + s, s)
    ensures CommonTail(x + s, y + s) == |s|
  {
    if x != [] && y != [] {
      BeforeTail(x, s);
      BeforeTail(y, s);
    }
    NoTail(x, y);
    TailFrom(x, y, s);
  }

  /** The end of a list's end. */
  lemma EndOfRest(a: seq<string>, s: seq<string>, h: nat, n: nat)
    requires EndsWith(a, s) && h <= |a| && n <= |s| && n <= |a| - h
    ensures EndsWith(a[h..], s[|s| - n..])
  {
    assert a[h..][|a| - h - n..] == a[|a| - n..];
    assert a[|a| - n..] == a[|a| - |s|..][|s| - n..];
  }

  lemma SharesEnds(a: seq<string>, p: seq<string>, x: seq<string>, s: seq<string>)
    requires a == p + x + s
    ensures p <= a && EndsWith(a, s) && |a| == |p| + |x| + |s|
  {
  }

  /** After any start that is shared, what follows shares the end too, as far as there
      is room. */
  lemma TailAfter(a: seq<string>, b: seq<string>, s: seq<string>, head: nat, n: nat)
    requires EndsWith(a, s) && EndsWith(b, s) && head <= |a| && head <= |b|
    requires n <= |s| && n <= |a| - head && n <= |b| - head
    ensures CommonTail(a[head..], b[head..]) >= n
  {
    EndOfRest(a, s, head, n);
    EndOfRest(b, s, head, n);
    TailAtLeast(a[head..], b[head..], s[|s| - n..]);
  }

  /** What is trimmed is no shorter than any start and end the lists share. */
  lemma TrimsMost(a: seq<string>, b: seq<string>, p: seq<string>, x: seq<string>, y: seq<string>, s: seq<string>)
    requires Shares(a, b, p, x, y, s)
    ensures |Trimmed(a, b).a| <= |x| && |Trimmed(a, b).b| <= |y|
  {
    var head := CommonHead(a, b);
    SharesEnds(a, p, x, s);
    SharesEnds(b, p, y, s);
    HeadAtLeast(a, b, p);
    var room := if |a| <= |b| then |a| - head else |b| - head;
    TailAfter(a, b, s, head, if |s| <= room then |s| else room);
  }

  // ----- what the diff is then

  /** However two files share a start and an end: if what lies between makes at most
      four million pairs of lines, no common subsequence of the whole files is longer
      than what the diff keeps. */
  lemma KeepsMostBetween(a: seq<string>, b: seq<string>, p: seq<string>, x: seq<string>, y: seq<string>, s: seq<string>, c: seq<string>)
    requires Shares(a, b, p, x, y, s) && |x| * |y| <= 4_000_000 && Common(c, a, b)
    ensures |c| <= |Kept(DiffOps(a, b))|
  {
    TrimsMost(a, b, p, x, y, s);
    SmallerProduct(|Trimmed(a, b).a|, |Trimmed(a, b).b|, |x|, |y|);
    DiffKeepsMost(a, b, c);
  }

  lemma SmallerProduct(i: nat, j: nat, m: nat, n: nat)
    requires i <= m && j <= n
    ensures i * j <= m * n
  {
    assert i * j <= m * j <= m * n;
  }

  lemma CutApart(p: seq<string>, x: seq<string>, s: seq<string>)
    ensures var a := p + x + s;
            && a[..|p|] == p && a[|p|..|p| + |x|] == x && a[|p| + |x|..] == s && a[|p|..] == x + s
  {
  }

  lemma TrimmedIs(a: seq<string>, b: seq<string>, p: seq<string>, x: seq<string>, y: seq<string>, s: seq<string>)
    requires Shares(a, b, p, x, y, s) && LongestHead(a, b, p) && LongestTail(x + s, y + s, s)
    ensures Trimmed(a, b) == Middle(p, x, y, s)
  {
    HeadIs(a, b, p);
    CutApart(p, x, s);
    CutApart(p, y, s);
    TailIs(x, y, s);
    CutsAre(a, b, p, x, y, s);
  }

  lemma CutsAre(a: seq<string>, b: seq<string>, p: seq<string>, x: seq<string>, y: seq<string>, s: seq<string>)
    requires CommonHead(a, b) == |p| && CommonTail(a[|p|..], b[|p|..]) == |s|
    requires |a| == |p| + |x| + |s| && |b| == |p| + |y| + |s|
    requires a[..|p|] == p && a[|p|..|p| + |x|] == x && a[|p| + |x|..] == s && b[|p|..|p| + |y|] == y
    ensures Trimmed(a, b) == Middle(p, x, y, s)
  {
  }

  /** The diff keeps the longest start the files share and the longest end of what
      follows, and between them compares by the table or, past four million pairs of
      lines, removes and adds everything. */
  lemma DiffIs(a: seq<string>, b: seq<string>, p: seq<string>, x: seq<string>, y: seq<string>, s: seq<string>)
    requires Shares(a, b, p, x, y, s) && LongestHead(a, b, p) && LongestTail(x + s, y + s, s)
    ensures DiffOps(a, b) ==
            Each(Keep, p) + (if |x| * |y| <= 4_000_000 then Walk(x, y) else Each(Remove, x) + Each(Add, y)) + Each(Keep, s)
  {
    TrimmedIs(a, b, p, x, y, s);
  }

  /** There is always such a start and end. */
  lemma TrimExists(a: seq<string>, b: seq<string>) returns (p: seq<string>, x: seq<string>, y: seq<string>, s: seq<string>)
    ensures Shares(a, b, p, x, y, s) && LongestHead(a, b, p) && LongestTail(x + s, y + s, s)
  {
    p := LongestStart(a, b);
    s := LongestEnd(a[|p|..], b[|p|..]);
    x, y := a[|p|..|a| - |s|], b[|p|..|b| - |s|];
    FromParts(a, p, x, s);
    FromParts(b, p, y, s);
    assert x + s == a[|p|..] && y + s == b[|p|..];
  }

  lemma FromParts(a: seq<string>, p: seq<string>, x: seq<string>, s: seq<string>)
    requires p <= a && EndsWith(a[|p|..], s) && x == a[|p|..|a| - |s|]
    ensures a == p + x + s && x + s == a[|p|..]
  {
    assert a[|p|..][|a| - |p| - |s|..] == a[|a| - |s|..];
  }

  lemma {:induction false} LongestStart(a: seq<string>, b: seq<string>) returns (p: seq<string>)
    ensures LongestHead(a, b, p)
  {
    p := [];
    while |p| < |a| && |p| < |b| && a[|p|] == b[|p|]
      invariant p <= a && p <= b
    {
      p := p + [a[|p|]];
    }
  }

  lemma {:induction false} LongestEnd(a: seq<string>, b: seq<string>) returns (s: seq<string>)
    ensures LongestTail(a, b, s)
  {
    var n := 0;
    while n < |a| && n < |b| && a[|a| - 1 - n] == b[|b| - 1 - n]
      invariant n <= |a| && n <= |b| && a[|a| - n..] == b[|b| - n..]
    {
      assert a[|a| - 1 - n..] == [a[|a| - 1 - n]] + a[|a| - n..];
      assert b[|b| - 1 - n..] == [b[|b| - 1 - n]] + b[|b| - n..];
      n := n + 1;
    }
    s := a[|a| - n..];
  }

  /** A small change in a large file: with one line changed at the start, all others are
      kept. */
  lemma OneLineChanged(x: string, y: string, rest: seq<string>)
    requires x != y
    ensures DiffOps([x] + rest, [y] + rest) == [Op(Remove, x), Op(Add, y)] + Each(Keep, rest)
  {
    var a, b := [x] + rest, [y] + rest;
    OneShared(x, y, rest, a, b);
    DiffIs(a, b, [], [x], [y], rest);
    OneWalk(x, y);
    OneJoined(Op(Remove, x), Op(Add, y), rest);
  }

  lemma OneShared(x: string, y: string, rest: seq<string>, a: seq<string>, b: seq<string>)
    requires x != y && a == [x] + rest && b == [y] + rest
    ensures Shares(a, b, [], [x], [y], rest) && LongestHead(a, b, []) && LongestTail([x] + rest, [y] + rest, rest)
  {
    assert a == [] + [x] + rest && b == [] + [y] + rest;
    assert a[|a| - |rest|..] == rest && b[|b| - |rest|..] == rest;
  }

  lemma OneJoined(removed: Op, added: Op, rest: seq<string>)
    ensures Each(Keep, []) + [removed, added] + Each(Keep, rest) == [removed, added] + Each(Keep, rest)
  {
    assert Each(Keep, []) == [];
  }

  lemma OneWalk(x: string, y: string)
    requires x != y
    ensures Walk([x], [y]) == [Op(Remove, x), Op(Add, y)]
  {
    assert [x][1..] == [] && [y][1..] == [];
    assert Walk([], [y]) == [Op(Add, y)] + Walk([], []) == [Op(Add, y)];
  }
}
