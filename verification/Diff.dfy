/** The line diff: common head and tail, a longest-common-subsequence table for
    the middle, and a greedy walk over it. */
module Diff {
  import opened Lcs

  /** What happens to one line. */
  datatype Kind = Keep | Remove | Add

  datatype Op = Op(kind: Kind, line: string)

  /** Larger changed regions are diffed as one replaced block. */
  const MAX_DIFF_CELLS := 4_000_000

  /** A table entry of the original's width; every operation on it is checked
      to stay in range. */
  newtype uint32 = x: int | 0 <= x < 0x1_0000_0000

  // ----- what a list of operations stands for

  /** The lines before the change. */
  function Old(ops: seq<Op>): seq<string> {
    if ops == [] then []
    else (if ops[0].kind == Add then [] else [ops[0].line]) + Old(ops[1..])
  }

  /** The lines after the change. */
  function New(ops: seq<Op>): seq<string> {
    if ops == [] then []
    else (if ops[0].kind == Remove then [] else [ops[0].line]) + New(ops[1..])
  }

  /** The lines that stay. */
  function Kept(ops: seq<Op>): seq<string> {
    if ops == [] then []
    else (if ops[0].kind == Keep then [ops[0].line] else []) + Kept(ops[1..])
  }

  predicate AllKept(ops: seq<Op>) {
    forall k :: 0 <= k < |ops| ==> ops[k].kind == Keep
  }

  /** Every line of the list under one kind. */
  function Each(kind: Kind, lines: seq<string>): (ops: seq<Op>)
    ensures |ops| == |lines|
    ensures forall k :: 0 <= k < |ops| ==> ops[k] == Op(kind, lines[k])
  {
    seq(|lines|, k requires 0 <= k < |lines| => Op(kind, lines[k]))
  }

  lemma {:induction false} OldConcat(x: seq<Op>, y: seq<Op>)
    ensures Old(x + y) == Old(x) + Old(y)
  {
    if x == [] {
      assert x + y == y;
    } else {
      assert (x + y)[1..] == x[1..] + y;
      OldConcat(x[1..], y);
    }
  }

  lemma {:induction false} NewConcat(x: seq<Op>, y: seq<Op>)
    ensures New(x + y) == New(x) + New(y)
  {
    if x == [] {
      assert x + y == y;
    } else {
      assert (x + y)[1..] == x[1..] + y;
      NewConcat(x[1..], y);
    }
  }

  lemma {:induction false} KeptConcat(x: seq<Op>, y: seq<Op>)
    ensures Kept(x + y) == Kept(x) + Kept(y)
  {
    if x == [] {
      assert x + y == y;
    } else {
      assert (x + y)[1..] == x[1..] + y;
      KeptConcat(x[1..], y);
    }
  }

  lemma {:induction false} SidesOfEach(kind: Kind, lines: seq<string>)
    ensures Old(Each(kind, lines)) == if kind == Add then [] else lines
    ensures New(Each(kind, lines)) == if kind == Remove then [] else lines
    ensures Kept(Each(kind, lines)) == if kind == Keep then lines else []
  {
    if lines != [] {
      assert Each(kind, lines)[1..] == Each(kind, lines[1..]);
      SidesOfEach(kind, lines[1..]);
    }
  }

  /** Operations that change nothing read the same on both sides. */
  lemma {:induction false} AllKeptSame(ops: seq<Op>)
    requires AllKept(ops)
    ensures Old(ops) == New(ops)
  {
    if ops != [] {
      AllKeptSame(ops[1..]);
    }
  }

  /** The kept lines are left in place on both sides. */
  lemma {:induction false} KeptIsCommon(ops: seq<Op>)
    ensures Common(Kept(ops), Old(ops), New(ops))
  {
    if ops != [] {
      var op, rest := ops[0], ops[1..];
      KeptIsCommon(rest);
      if op.kind == Keep {
        assert Kept(ops)[1..] == Kept(rest) && Old(ops)[1..] == Old(rest) && New(ops)[1..] == New(rest);
      } else if op.kind == Remove {
        assert Kept(ops) == Kept(rest) && Old(ops)[1..] == Old(rest) && New(ops) == New(rest);
      } else {
        assert Kept(ops) == Kept(rest) && New(ops)[1..] == New(rest) && Old(ops) == Old(rest);
      }
    }
  }

  // ----- the walk

  /** The operations the walk over the table writes. */
  function Walk(a: seq<string>, b: seq<string>): seq<Op>
    decreases |a| + |b|
  {
    if a == [] && b == [] then []
    else if a != [] && b != [] && a[0] == b[0] then [Op(Keep, a[0])] + Walk(a[1..], b[1..])
    else if a != [] && (b == [] || Length(a[1..], b) >= Length(a, b[1..])) then
      [Op(Remove, a[0])] + Walk(a[1..], b)
    else [Op(Add, b[0])] + Walk(a, b[1..])
  }

  /** The walk turns a into b and keeps as many lines as the table promises. */
  lemma {:induction false} WalkSides(a: seq<string>, b: seq<string>)
    ensures Old(Walk(a, b)) == a
    ensures New(Walk(a, b)) == b
    ensures |Kept(Walk(a, b))| == Length(a, b)
    decreases |a| + |b|
  {
    if a == [] && b == [] {
    } else if a != [] && b != [] && a[0] == b[0] {
      WalkSides(a[1..], b[1..]);
    } else if a != [] && (b == [] || Length(a[1..], b) >= Length(a, b[1..])) {
      WalkSides(a[1..], b);
    } else {
      WalkSides(a, b[1..]);
    }
  }

  /** Removals come before additions: no added line directly before a removed one. */
  predicate RemovalsFirst(ops: seq<Op>) {
    forall k :: 0 <= k && k + 1 < |ops| ==> !(ops[k].kind == Add && ops[k + 1].kind == Remove)
  }

  /** A shorter list has no more in common. */
  lemma LengthMonotone(a: seq<string>, b: seq<string>)
    requires b != []
    ensures Length(a, b[1..]) <= Length(a, b)
  {
    var kept := Kept(Walk(a, b[1..]));
    KeptIsCommon(Walk(a, b[1..]));
    WalkSides(a, b[1..]);
    NoneLonger(kept, a, b);
  }

  /** After an added line the walk adds or keeps; it does not go back to removing. */
  lemma {:induction false} WalkRemovalsFirst(a: seq<string>, b: seq<string>)
    ensures RemovalsFirst(Walk(a, b))
    decreases |a| + |b|
  {
    if a == [] && b == [] {
    } else if a != [] && b != [] && a[0] == b[0] {
      WalkRemovalsFirst(a[1..], b[1..]);
    } else if a != [] && (b == [] || Length(a[1..], b) >= Length(a, b[1..])) {
      WalkRemovalsFirst(a[1..], b);
    } else {
      WalkRemovalsFirst(a, b[1..]);
      if a != [] && b[1..] != [] && a[0] != b[1] {
        LengthMonotone(a[1..], b);
        assert Walk(a, b[1..])[0].kind == Add;
      }
    }
  }

  // ----- the table

  /** Where row p, column q of a table of width w sits in the flat array. */
  function Cell(p: nat, q: nat, w: nat): nat {
    p * w + q
  }

  lemma CellInRange(p: nat, q: nat, rows: nat, w: nat)
    requires p < rows && q < w
    ensures Cell(p, q, w) < rows * w
  {
    assert (p + 1) * w <= rows * w;
  }

  lemma CellsApart(p: nat, q: nat, i: nat, j: nat, w: nat)
    requires q < w && j < w && (p, q) != (i, j)
    ensures Cell(p, q, w) != Cell(i, j, w)
  {
    if p < i {
      assert (p + 1) * w <= i * w;
    } else if i < p {
      assert (i + 1) * w <= p * w;
    }
  }

  /** The entries below row i, those right of column j in row i, and the last
      column hold the lengths they stand for. */
  ghost predicate Filled(table: seq<uint32>, a: seq<string>, b: seq<string>, i: int, j: int) {
    var w := |b| + 1;
    |table| == (|a| + 1) * w &&
    forall p: nat, q: nat :: p <= |a| && q <= |b| && (p > i || (p == i && q > j) || q == |b|) ==>
      Cell(p, q, w) < |table| && table[Cell(p, q, w)] as int == Length(a[p..], b[q..])
  }

  /** One filled entry, under the index the program reads it with. */
  lemma Entry(table: seq<uint32>, a: seq<string>, b: seq<string>, i: int, j: int, p: nat, q: nat)
    requires Filled(table, a, b, i, j)
    requires p <= |a| && q <= |b| && (p > i || (p == i && q > j) || q == |b|)
    ensures p * (|b| + 1) + q < |table| && table[p * (|b| + 1) + q] as int == Length(a[p..], b[q..])
  {
    assert Cell(p, q, |b| + 1) == p * (|b| + 1) + q;
  }

  /** Writing the next entry extends the filled part and disturbs none of it. */
  lemma FillEntry(table: seq<uint32>, a: seq<string>, b: seq<string>, i: nat, j: nat, v: uint32)
    requires i < |a| && j < |b|
    requires Filled(table, a, b, i, j)
    requires v as int == Length(a[i..], b[j..])
    ensures i * (|b| + 1) + j < |table|
    ensures Filled(table[i * (|b| + 1) + j := v], a, b, i, j - 1)
  {
    var w := |b| + 1;
    var at := Cell(i, j, w);
    CellInRange(i, j, |a| + 1, w);
    assert at == i * w + j;
    var after := table[at := v];
    forall p: nat, q: nat | p <= |a| && q <= |b| && (p > i || (p == i && q > j - 1) || q == |b|)
      ensures Cell(p, q, w) < |after| && after[Cell(p, q, w)] as int == Length(a[p..], b[q..])
    {
      if (p, q) != (i, j) {
        CellsApart(p, q, i, j, w);
      }
    }
  }

  lemma EmptyTable(table: seq<uint32>, a: seq<string>, b: seq<string>)
    requires |table| == (|a| + 1) * (|b| + 1)
    requires forall k :: 0 <= k < |table| ==> table[k] == 0
    ensures Filled(table, a, b, |a| - 1, |b|)
  {
    var w := |b| + 1;
    forall p: nat, q: nat | p <= |a| && q <= |b| && (p > |a| - 1 || (p == |a| - 1 && q > |b|) || q == |b|)
      ensures Cell(p, q, w) < |table| && table[Cell(p, q, w)] as int == Length(a[p..], b[q..])
    {
      CellInRange(p, q, |a| + 1, w);
    }
  }

  /** A table small enough to be built holds no entry its width cannot. */
  lemma EntryFits(a: seq<string>, b: seq<string>, i: nat, j: nat)
    requires |a| * |b| <= MAX_DIFF_CELLS
    requires i <= |a| && j <= |b|
    ensures Length(a[i..], b[j..]) <= MAX_DIFF_CELLS
  {
    LengthBound(a[i..], b[j..]);
    if j < |b| {
      assert |a| <= |a| * |b|;
    }
  }

  /** Reads one filled entry. */
  method ReadEntry(table: array<uint32>, a: seq<string>, b: seq<string>, ghost i: int, ghost j: int, p: nat, q: nat)
    returns (v: uint32)
    requires Filled(table[..], a, b, i, j)
    requires p <= |a| && q <= |b| && (p > i || (p == i && q > j) || q == |b|)
    ensures v as int == Length(a[p..], b[q..])
  {
    Entry(table[..], a, b, i, j, p, q);
    v := table[p * (|b| + 1) + q];
  }

  /** Fills the entry for lines i and j from its neighbours below, right, and
      below right. */
  method FillCell(table: array<uint32>, a: seq<string>, b: seq<string>, i: nat, j: nat)
    requires |a| * |b| <= MAX_DIFF_CELLS
    requires i < |a| && j < |b|
    requires Filled(table[..], a, b, i, j)
    modifies table
    ensures Filled(table[..], a, b, i, j - 1)
  {
    ghost var was := table[..];
    EntryFits(a, b, i, j);
    assert a[i..][1..] == a[i + 1..] && b[j..][1..] == b[j + 1..];
    var v: uint32;
    if a[i] == b[j] {
      var diagonal := ReadEntry(table, a, b, i, j, i + 1, j + 1);
      v := diagonal + 1;
    } else {
      var down := ReadEntry(table, a, b, i, j, i + 1, j);
      var right := ReadEntry(table, a, b, i, j, i, j + 1);
      v := if down >= right then down else right;
    }
    FillEntry(was, a, b, i, j, v);
    table[i * (|b| + 1) + j] := v;
    assert table[..] == was[i * (|b| + 1) + j := v];
  }

  /** Fills the whole table, last row and last column first. */
  method FillTable(table: array<uint32>, a: seq<string>, b: seq<string>)
    requires |a| * |b| <= MAX_DIFF_CELLS
    requires Filled(table[..], a, b, |a| - 1, |b|)
    modifies table
    ensures Filled(table[..], a, b, -1, |b|)
  {
    var i := |a| - 1;
    while i >= 0
      invariant -1 <= i < |a|
      invariant Filled(table[..], a, b, i, |b|)
    {
      var j := |b| - 1;
      assert Filled(table[..], a, b, i, j);
      while j >= 0
        invariant -1 <= j < |b|
        invariant Filled(table[..], a, b, i, j)
      {
        FillCell(table, a, b, i, j);
        j := j - 1;
      }
      i := i - 1;
    }
  }

  /** One step of the walk, at lines i and j. */
  lemma WalkAt(a: seq<string>, b: seq<string>, i: nat, j: nat)
    requires i <= |a| && j <= |b|
    ensures Walk(a[i..], b[j..]) ==
            if i == |a| && j == |b| then []
            else if i < |a| && j < |b| && a[i] == b[j] then [Op(Keep, a[i])] + Walk(a[i + 1..], b[j + 1..])
            else if i < |a| && (j == |b| || Length(a[i + 1..], b[j..]) >= Length(a[i..], b[j + 1..])) then
              [Op(Remove, a[i])] + Walk(a[i + 1..], b[j..])
            else [Op(Add, b[j])] + Walk(a[i..], b[j + 1..])
  {
    if i < |a| {
      assert a[i..][1..] == a[i + 1..] && a[i..][0] == a[i];
    }
    if j < |b| {
      assert b[j..][1..] == b[j + 1..] && b[j..][0] == b[j];
    }
  }

  lemma Append<T>(done: seq<T>, x: T, rest: seq<T>)
    ensures done + ([x] + rest) == done + [x] + rest
  {
  }

  /** Reads the operations off a filled table. */
  method WalkTable(table: array<uint32>, a: seq<string>, b: seq<string>) returns (ops: seq<Op>)
    requires Filled(table[..], a, b, -1, |b|)
    ensures ops == Walk(a, b)
  {
    ops := [];
    var i, j := 0, 0;
    while i < |a| || j < |b|
      invariant 0 <= i <= |a| && 0 <= j <= |b|
      invariant ops + Walk(a[i..], b[j..]) == Walk(a, b)
      decreases |a| - i + |b| - j
    {
      WalkAt(a, b, i, j);
      var op := if i < |a| then Op(Remove, a[i]) else Op(Add, b[j]);
      if i < |a| && j < |b| {
        if a[i] == b[j] {
          op := Op(Keep, a[i]);
        } else {
          var down := ReadEntry(table, a, b, -1, |b|, i + 1, j);
          var right := ReadEntry(table, a, b, -1, |b|, i, j + 1);
          op := if down >= right then Op(Remove, a[i]) else Op(Add, b[j]);
        }
      }
      Append(ops, op, Walk(a[if op.kind == Add then i else i + 1..], b[if op.kind == Remove then j else j + 1..]));
      ops := ops + [op];
      if op.kind != Add { i := i + 1; }
      if op.kind != Remove { j := j + 1; }
    }
    WalkAt(a, b, i, j);
  }

  /** Fills the table backwards, then walks it from the start. */
  method LcsOps(a: seq<string>, b: seq<string>) returns (ops: seq<Op>)
    requires |a| * |b| <= MAX_DIFF_CELLS
    ensures ops == Walk(a, b)
  {
    var table := new uint32[(|a| + 1) * (|b| + 1)](_ => 0);
    EmptyTable(table[..], a, b);
    FillTable(table, a, b);
    ops := WalkTable(table, a, b);
  }

  // ----- the whole diff

  /** How many lines two lists start with in common. */
  function CommonHead(a: seq<string>, b: seq<string>): (n: nat)
    ensures n <= |a| && n <= |b|
  {
    if a != [] && b != [] && a[0] == b[0] then 1 + CommonHead(a[1..], b[1..]) else 0
  }

  /** How many lines two lists end with in common. */
  function CommonTail(a: seq<string>, b: seq<string>): (n: nat)
    ensures n <= |a| && n <= |b|
  {
    if a != [] && b != [] && a[|a| - 1] == b[|b| - 1] then 1 + CommonTail(a[..|a| - 1], b[..|b| - 1]) else 0
  }

  lemma {:induction false} HeadCommon(a: seq<string>, b: seq<string>)
    ensures a[..CommonHead(a, b)] == b[..CommonHead(a, b)]
  {
    if a != [] && b != [] && a[0] == b[0] {
      HeadCommon(a[1..], b[1..]);
      var n := CommonHead(a, b);
      assert a[..n] == [a[0]] + a[1..][..n - 1] && b[..n] == [b[0]] + b[1..][..n - 1];
    }
  }

  lemma TailMore<T>(a: seq<T>, p: seq<T>, n: nat)
    requires a != [] && p == a[..|a| - 1] && n <= |p|
    ensures a[|a| - 1 - n..] == p[|p| - n..] + [a[|a| - 1]]
  {
  }

  lemma {:induction false} TailCommon(a: seq<string>, b: seq<string>)
    ensures a[|a| - CommonTail(a, b)..] == b[|b| - CommonTail(a, b)..]
  {
    if a != [] && b != [] && a[|a| - 1] == b[|b| - 1] {
      var p, q := a[..|a| - 1], b[..|b| - 1];
      TailCommon(p, q);
      var n := CommonTail(p, q);
      TailMore(a, p, n);
      TailMore(b, q, n);
    }
  }

  lemma {:induction false} HeadOfSame(a: seq<string>)
    ensures CommonHead(a, a) == |a|
  {
    if a != [] {
      HeadOfSame(a[1..]);
    }
  }

  /** Two lists without their common head and tail. */
  datatype Middle = Middle(head: seq<string>, a: seq<string>, b: seq<string>, tail: seq<string>)

  function Trimmed(a: seq<string>, b: seq<string>): Middle {
    var head := CommonHead(a, b);
    var tail := CommonTail(a[head..], b[head..]);
    Middle(a[..head], a[head..|a| - tail], b[head..|b| - tail], a[|a| - tail..])
  }

  /** The tail of what follows the head is the tail of the whole. */
  lemma TailOfRest<T>(s: seq<T>, head: nat, tail: nat)
    requires head + tail <= |s|
    ensures s[head..][|s| - head - tail..] == s[|s| - tail..]
  {
  }

  lemma SameTails<T>(a: seq<T>, b: seq<T>, p: seq<T>, q: seq<T>, head: nat, tail: nat)
    requires head + tail <= |a| && head + tail <= |b| && p == a[head..] && q == b[head..]
    requires p[|p| - tail..] == q[|q| - tail..]
    ensures a[|a| - tail..] == b[|b| - tail..]
  {
    TailOfRest(a, head, tail);
    TailOfRest(b, head, tail);
  }

  lemma TrimmedTails(a: seq<string>, b: seq<string>, p: seq<string>, q: seq<string>, head: nat)
    requires head <= |a| && head <= |b| && p == a[head..] && q == b[head..]
    ensures head + CommonTail(p, q) <= |a| && head + CommonTail(p, q) <= |b|
    ensures a[|a| - CommonTail(p, q)..] == b[|b| - CommonTail(p, q)..]
  {
    TailCommon(p, q);
    SameTails(a, b, p, q, head, CommonTail(p, q));
  }

  lemma TrimmedWhole(a: seq<string>, b: seq<string>)
    ensures var m := Trimmed(a, b);
            a == m.head + m.a + m.tail && b == m.head + m.b + m.tail
  {
    var head := CommonHead(a, b);
    var tail := CommonTail(a[head..], b[head..]);
    HeadCommon(a, b);
    TrimmedTails(a, b, a[head..], b[head..], head);
    InThree(a, head, |a| - tail);
    InThree(b, head, |b| - tail);
  }

  lemma InThree<T>(s: seq<T>, i: nat, j: nat)
    requires i <= j <= |s|
    ensures s == s[..i] + s[i..j] + s[j..]
  {
  }

  /** Whether the changed region is small enough for the table. */
  predicate Tabled(a: seq<string>, b: seq<string>) {
    |Trimmed(a, b).a| * |Trimmed(a, b).b| <= MAX_DIFF_CELLS
  }

  function MiddleOps(a: seq<string>, b: seq<string>): seq<Op> {
    if |a| * |b| <= MAX_DIFF_CELLS then Walk(a, b) else Each(Remove, a) + Each(Add, b)
  }

  function TrimmedOps(m: Middle): seq<Op> {
    Each(Keep, m.head) + MiddleOps(m.a, m.b) + Each(Keep, m.tail)
  }

  /** The operations Diff returns. */
  function DiffOps(a: seq<string>, b: seq<string>): seq<Op> {
    TrimmedOps(Trimmed(a, b))
  }

  lemma MiddleSides(a: seq<string>, b: seq<string>)
    ensures Old(MiddleOps(a, b)) == a && New(MiddleOps(a, b)) == b
    ensures |a| * |b| <= MAX_DIFF_CELLS ==> |Kept(MiddleOps(a, b))| == Length(a, b)
  {
    WalkSides(a, b);
    SidesOfEach(Remove, a);
    SidesOfEach(Add, b);
    OldConcat(Each(Remove, a), Each(Add, b));
    NewConcat(Each(Remove, a), Each(Add, b));
  }

  lemma TrimmedSides(m: Middle)
    ensures Old(TrimmedOps(m)) == m.head + m.a + m.tail
    ensures New(TrimmedOps(m)) == m.head + m.b + m.tail
    ensures |Kept(TrimmedOps(m))| == |m.head| + |Kept(MiddleOps(m.a, m.b))| + |m.tail|
  {
    var head, middle, tail := Each(Keep, m.head), MiddleOps(m.a, m.b), Each(Keep, m.tail);
    MiddleSides(m.a, m.b);
    SidesOfEach(Keep, m.head);
    SidesOfEach(Keep, m.tail);
    OldConcat(head + middle, tail);
    OldConcat(head, middle);
    NewConcat(head + middle, tail);
    NewConcat(head, middle);
    KeptConcat(head + middle, tail);
    KeptConcat(head, middle);
  }

  /** The diff reads as the first list on its old side and as the second on
      its new side, in both modes. */
  lemma DiffSides(a: seq<string>, b: seq<string>)
    ensures Old(DiffOps(a, b)) == a
    ensures New(DiffOps(a, b)) == b
  {
    TrimmedWhole(a, b);
    TrimmedSides(Trimmed(a, b));
  }

  /** Whenever the middle goes through the table, the lines the diff keeps are
      a common subsequence of the whole lists and none is longer, although only
      the middles are compared. */
  lemma DiffKeepsMost(a: seq<string>, b: seq<string>, c: seq<string>)
    ensures Common(Kept(DiffOps(a, b)), a, b)
    ensures Tabled(a, b) && Common(c, a, b) ==> |c| <= |Kept(DiffOps(a, b))|
  {
    DiffSides(a, b);
    KeptIsCommon(DiffOps(a, b));
    if Tabled(a, b) && Common(c, a, b) {
      var m := Trimmed(a, b);
      TrimmedWhole(a, b);
      TrimmedSides(m);
      MiddleSides(m.a, m.b);
      TrimmedNoneLonger(c, m.head, m.a, m.b, m.tail);
    }
  }

  /** The diff has no changed line exactly when the lists are equal. */
  lemma DiffUnchanged(a: seq<string>, b: seq<string>)
    ensures AllKept(DiffOps(a, b)) <==> a == b
  {
    DiffSides(a, b);
    if AllKept(DiffOps(a, b)) {
      AllKeptSame(DiffOps(a, b));
    }
    if a == b {
      HeadOfSame(a);
      assert MiddleOps([], []) == [];
    }
  }

  /** In the whole diff, too, no added line stands directly before a removed one. */
  lemma DiffRemovalsFirst(a: seq<string>, b: seq<string>)
    ensures RemovalsFirst(DiffOps(a, b))
  {
    var m := Trimmed(a, b);
    MiddleRemovalsFirst(m.a, m.b);
    KeptAround(m.head, MiddleOps(m.a, m.b), m.tail);
  }

  lemma MiddleRemovalsFirst(a: seq<string>, b: seq<string>)
    ensures RemovalsFirst(MiddleOps(a, b))
  {
    WalkRemovalsFirst(a, b);
  }

  lemma KeptAround(head: seq<string>, ops: seq<Op>, tail: seq<string>)
    requires RemovalsFirst(ops)
    ensures RemovalsFirst(Each(Keep, head) + ops + Each(Keep, tail))
  {
    var all := Each(Keep, head) + ops + Each(Keep, tail);
    forall k | 0 <= k && k + 1 < |all| ensures !(all[k].kind == Add && all[k + 1].kind == Remove) {
      if |head| <= k && k + 1 < |head| + |ops| {
        assert all[k] == ops[k - |head|] && all[k + 1] == ops[k + 1 - |head|];
      }
    }
  }

  /** Appends each line of a list under one kind. */
  method AppendEach(ops: seq<Op>, kind: Kind, lines: seq<string>) returns (all: seq<Op>)
    ensures all == ops + Each(kind, lines)
  {
    all := ops;
    for k := 0 to |lines|
      invariant all == ops + Each(kind, lines[..k])
    {
      all := all + [Op(kind, lines[k])];
    }
    assert lines[..|lines|] == lines;
  }

  lemma HeadStep(a: seq<string>, b: seq<string>, k: nat)
    requires k < |a| && k < |b|
    ensures CommonHead(a[k..], b[k..]) == if a[k] == b[k] then 1 + CommonHead(a[k + 1..], b[k + 1..]) else 0
  {
    assert a[k..][1..] == a[k + 1..] && b[k..][1..] == b[k + 1..];
  }

  /** Counts the common head the way the program does. */
  method CountHead(a: seq<string>, b: seq<string>) returns (head: nat)
    ensures head == CommonHead(a, b)
  {
    head := 0;
    while head < |a| && head < |b| && a[head] == b[head]
      invariant head <= |a| && head <= |b|
      invariant head + CommonHead(a[head..], b[head..]) == CommonHead(a, b)
    {
      HeadStep(a, b, head);
      head := head + 1;
    }
    if head < |a| && head < |b| {
      HeadStep(a, b, head);
    }
  }

  lemma FrontOfFront<T>(s: seq<T>, n: nat)
    requires n < |s|
    ensures s[..n + 1][..n] == s[..n] && s[..n + 1][n] == s[n]
  {
  }

  lemma TailStep(a: seq<string>, b: seq<string>, k: nat)
    requires k < |a| && k < |b|
    ensures CommonTail(a[..|a| - k], b[..|b| - k]) ==
            if a[|a| - 1 - k] == b[|b| - 1 - k] then 1 + CommonTail(a[..|a| - k - 1], b[..|b| - k - 1]) else 0
  {
    FrontOfFront(a, |a| - k - 1);
    FrontOfFront(b, |b| - k - 1);
  }

  /** Counts the common tail of what follows the head. */
  method CountTail(a: seq<string>, b: seq<string>, head: nat) returns (tail: nat)
    requires head <= |a| && head <= |b|
    ensures tail == CommonTail(a[head..], b[head..])
  {
    ghost var p, q := a[head..], b[head..];
    assert p[..|p|] == p && q[..|q|] == q;
    tail := 0;
    while tail < |a| - head && tail < |b| - head && a[|a| - 1 - tail] == b[|b| - 1 - tail]
      invariant tail <= |p| && tail <= |q|
      invariant tail + CommonTail(p[..|p| - tail], q[..|q| - tail]) == CommonTail(p, q)
    {
      TailStep(p, q, tail);
      tail := tail + 1;
    }
    if tail < |p| && tail < |q| {
      TailStep(p, q, tail);
    }
  }

  /** Appends the diff of the middles: through the table, or as one replaced
      block when they are too large for it. */
  method AppendMiddle(ops: seq<Op>, a: seq<string>, b: seq<string>) returns (all: seq<Op>)
    ensures all == ops + MiddleOps(a, b)
  {
    if |a| * |b| <= MAX_DIFF_CELLS {
      var middle := LcsOps(a, b);
      all := ops + middle;
    } else {
      all := AppendEach(ops, Remove, a);
      all := AppendEach(all, Add, b);
    }
  }

  /** Compares two line lists. */
  method Diff(a: seq<string>, b: seq<string>) returns (ops: seq<Op>)
    ensures ops == DiffOps(a, b)
  {
    var head := CountHead(a, b);
    var tail := CountTail(a, b, head);
    ghost var m := Trimmed(a, b);
    ops := AppendEach([], Keep, a[..head]);
    assert ops == Each(Keep, m.head);
    ops := AppendMiddle(ops, a[head..|a| - tail], b[head..|b| - tail]);
    assert ops == Each(Keep, m.head) + MiddleOps(m.a, m.b);
    ops := AppendEach(ops, Keep, a[|a| - tail..]);
  }
}
