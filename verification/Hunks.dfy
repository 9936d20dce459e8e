/** Grouping a diff's changed lines into hunks with context, and what replaying
    the hunks does to the file. */
module Hunks {
  import opened Options
  import opened Diff

  /** The first and the last changed operation of a hunk. */
  datatype Hunk = Hunk(first: nat, last: nat)

  /** Changes this close share a hunk. */
  const MERGE_GAP := 6

  /** Lines of context around a hunk. */
  const CONTEXT := 3

  // ----- grouping

  /** What the changed operation at index i does to the hunks before it: it
      moves the last one's end when it is close, and opens one otherwise. */
  function Extend(hunks: seq<Hunk>, i: nat): seq<Hunk> {
    var n := |hunks|;
    if n > 0 && i - hunks[n - 1].last <= MERGE_GAP then hunks[n - 1 := Hunk(hunks[n - 1].first, i)]
    else hunks + [Hunk(i, i)]
  }

  /** The hunks of the operations before index n. */
  function Group(ops: seq<Op>, n: nat): seq<Hunk>
    requires n <= |ops|
  {
    if n == 0 then []
    else if ops[n - 1].kind == Keep then Group(ops, n - 1)
    else Extend(Group(ops, n - 1), n - 1)
  }

  predicate Changed(ops: seq<Op>, i: int) {
    0 <= i < |ops| && ops[i].kind != Keep
  }

  predicate Within(h: Hunk, i: int) {
    h.first <= i <= h.last
  }

  ghost predicate Covered(hunks: seq<Hunk>, i: int) {
    exists k :: 0 <= k < |hunks| && Within(hunks[k], i)
  }

  predicate Proper(ops: seq<Op>, n: nat, h: Hunk) {
    h.first <= h.last < n && Changed(ops, h.first) && Changed(ops, h.last)
  }

  predicate Before(h: Hunk, g: Hunk) {
    h.last + MERGE_GAP < g.first
  }

  ghost predicate InOrder(hunks: seq<Hunk>) {
    forall j, k :: 0 <= j < k < |hunks| ==> Before(hunks[j], hunks[k])
  }

  /** What a grouping of the first n operations is: hunks start and end with a
      change, lie in order more than the merge gap apart, and hold every change. */
  ghost predicate Grouped(ops: seq<Op>, n: nat, hunks: seq<Hunk>) {
    && (forall k :: 0 <= k < |hunks| ==> Proper(ops, n, hunks[k]))
    && InOrder(hunks)
    && (forall i {:trigger Covered(hunks, i)} :: 0 <= i < n && Changed(ops, i) ==> Covered(hunks, i))
  }

  lemma {:induction false} GroupIsGrouped(ops: seq<Op>, n: nat)
    requires n <= |ops|
    ensures Grouped(ops, n, Group(ops, n))
  {
    if n > 0 {
      GroupIsGrouped(ops, n - 1);
      if ops[n - 1].kind != Keep {
        ExtendGrouped(ops, n - 1, Group(ops, n - 1));
      }
    }
  }

  lemma ExtendGrouped(ops: seq<Op>, i: nat, hunks: seq<Hunk>)
    requires Changed(ops, i) && Grouped(ops, i, hunks)
    ensures Grouped(ops, i + 1, Extend(hunks, i))
  {
    var after := Extend(hunks, i);
    ExtendShape(ops, i, hunks);
    forall j | 0 <= j < i + 1 && Changed(ops, j) ensures Covered(after, j) {
      ExtendCovers(ops, i, hunks, j);
    }
  }

  lemma ExtendShape(ops: seq<Op>, i: nat, hunks: seq<Hunk>)
    requires Changed(ops, i) && Grouped(ops, i, hunks)
    ensures InOrder(Extend(hunks, i))
    ensures forall k :: 0 <= k < |Extend(hunks, i)| ==> Proper(ops, i + 1, Extend(hunks, i)[k])
  {
    var after, m := Extend(hunks, i), |Extend(hunks, i)| - 1;
    forall k | 0 <= k < |after| ensures Proper(ops, i + 1, after[k]) {
      if k < |hunks| {
        assert Proper(ops, i, hunks[k]);
      }
    }
    forall j, k | 0 <= j < k < |after| ensures Before(after[j], after[k]) {
      assert after[j] == hunks[j];
      if k < |hunks| {
        assert Before(hunks[j], hunks[k]);
      } else if j < |hunks| - 1 {
        assert Before(hunks[j], hunks[|hunks| - 1]) && Proper(ops, i, hunks[|hunks| - 1]);
      }
    }
  }

  lemma ExtendCovers(ops: seq<Op>, i: nat, hunks: seq<Hunk>, j: nat)
    requires Grouped(ops, i, hunks) && j <= i && Changed(ops, j)
    ensures Covered(Extend(hunks, i), j)
  {
    var after := Extend(hunks, i);
    if j == i {
      assert |hunks| > 0 ==> Proper(ops, i, hunks[|hunks| - 1]);
      assert Within(after[|after| - 1], i);
    } else {
      assert Covered(hunks, j);
      var k :| 0 <= k < |hunks| && Within(hunks[k], j);
      assert Within(after[k], j);
    }
  }

  /** Some change follows index i closely enough to share its hunk. */
  ghost predicate ChangeFollows(ops: seq<Op>, i: int) {
    exists j :: i < j <= i + MERGE_GAP && Changed(ops, j)
  }

  /** No stretch without change longer than the merge gap lies inside a hunk. */
  lemma {:induction false} HunksTight(ops: seq<Op>, n: nat, h: Hunk, i: int)
    requires n <= |ops| && h in Group(ops, n) && Within(h, i) && i < h.last
    ensures ChangeFollows(ops, i)
  {
    var before := Group(ops, n - 1);
    if h in before {
      HunksTight(ops, n - 1, h, i);
    } else {
      assert Changed(ops, n - 1);
      var last := before[|before| - 1];
      assert h == Hunk(last.first, n - 1);
      if i < last.last {
        HunksTight(ops, n - 1, last, i);
      }
    }
  }

  lemma {:induction false} NoHunks(ops: seq<Op>, n: nat)
    requires n <= |ops|
    ensures Group(ops, n) == [] <==> forall i :: 0 <= i < n ==> ops[i].kind == Keep
  {
    if n > 0 {
      NoHunks(ops, n - 1);
    }
  }

  lemma TogetherNear(ops: seq<Op>, h: Hunk, i: nat, j: nat)
    requires h in Group(ops, |ops|) && Within(h, i) && Within(h, j)
    requires i < j && forall k :: i < k < j ==> !Changed(ops, k)
    ensures j - i <= 6
  {
    HunksTight(ops, |ops|, h, i);
    var k :| i < k <= i + MERGE_GAP && Changed(ops, k);
    assert k >= j;
  }

  lemma ApartFar(hunks: seq<Hunk>, m: nat, n: nat, i: nat, j: nat)
    requires InOrder(hunks) && m < |hunks| && n < |hunks| && m != n && Within(hunks[m], i) && Within(hunks[n], j) && i < j
    ensures j - i > 6
  {
    var first, second := if m < n then m else n, if m < n then n else m;
    assert Before(hunks[first], hunks[second]);
  }

  /** Two changes with none between them print as one hunk exactly when at most six
      operations lie between the one and the other's end. */
  lemma TogetherExactlyWhen(ops: seq<Op>, i: nat, j: nat)
    requires i < j && Changed(ops, i) && Changed(ops, j) && forall k :: i < k < j ==> !Changed(ops, k)
    ensures (exists h :: h in Group(ops, |ops|) && Within(h, i) && Within(h, j)) <==> j - i <= 6
  {
    var hunks := Group(ops, |ops|);
    GroupIsGrouped(ops, |ops|);
    assert Covered(hunks, i) && Covered(hunks, j);
    var m, n :| 0 <= m < |hunks| && Within(hunks[m], i) && 0 <= n < |hunks| && Within(hunks[n], j);
    if m != n {
      ApartFar(hunks, m, n, i, j);
    }
    forall h | h in hunks && Within(h, i) && Within(h, j) ensures j - i <= 6 {
      TogetherNear(ops, h, i, j);
    }
  }

  // ----- slices

  function Lo(h: Hunk): nat {
    if h.first < CONTEXT then 0 else h.first - CONTEXT
  }

  function Hi(ops: seq<Op>, h: Hunk): nat {
    if h.last + CONTEXT + 1 < |ops| then h.last + CONTEXT + 1 else |ops|
  }

  predicate InSlice(ops: seq<Op>, h: Hunk, i: int) {
    Lo(h) <= i < Hi(ops, h)
  }

  /** The hunks of a whole diff. */
  function HunksOf(ops: seq<Op>): seq<Hunk> {
    Group(ops, |ops|)
  }

  ghost predicate OnlyIn(ops: seq<Op>, hunks: seq<Hunk>, k: nat, i: int) {
    k < |hunks| && InSlice(ops, hunks[k], i) &&
    forall j :: 0 <= j < |hunks| && InSlice(ops, hunks[j], i) ==> j == k
  }

  /** The slice of h ends before the slice of g starts. */
  predicate SliceBefore(ops: seq<Op>, h: Hunk, g: Hunk) {
    Hi(ops, h) <= Lo(g)
  }

  /** The slice is a range of the diff and not empty. */
  predicate Sliced(ops: seq<Op>, h: Hunk) {
    Lo(h) < Hi(ops, h) <= |ops|
  }

  /** The slices hunks print are ranges of the diff, none of them empty, in
      strict order and apart from each other. */
  ghost predicate SlicesApart(ops: seq<Op>, hunks: seq<Hunk>) {
    && (forall k :: 0 <= k < |hunks| ==> Sliced(ops, hunks[k]))
    && (forall j, k :: 0 <= j < k < |hunks| ==> SliceBefore(ops, hunks[j], hunks[k]))
  }

  lemma HunksSlicedApart(ops: seq<Op>)
    ensures SlicesApart(ops, HunksOf(ops))
  {
    var hunks := HunksOf(ops);
    GroupIsGrouped(ops, |ops|);
    forall k | 0 <= k < |hunks| ensures Sliced(ops, hunks[k]) {
      assert Proper(ops, |ops|, hunks[k]);
    }
    forall j, k | 0 <= j < k < |hunks| ensures SliceBefore(ops, hunks[j], hunks[k]) {
      assert Before(hunks[j], hunks[k]);
    }
  }

  /** Update's slices are non-empty, ordered and disjoint, and every changed
      line of the diff is in exactly one of them. */
  lemma SlicesCover(ops: seq<Op>, i: int)
    ensures SlicesApart(ops, HunksOf(ops))
    ensures Changed(ops, i) ==> exists k: nat :: OnlyIn(ops, HunksOf(ops), k, i)
  {
    var hunks := HunksOf(ops);
    HunksSlicedApart(ops);
    GroupIsGrouped(ops, |ops|);
    if Changed(ops, i) {
      assert Covered(hunks, i);
      var k :| 0 <= k < |hunks| && Within(hunks[k], i);
      forall j | 0 <= j < |hunks| && InSlice(ops, hunks[j], i) ensures j == k {
        assert j < k ==> SliceBefore(ops, hunks[j], hunks[k]);
        assert k < j ==> SliceBefore(ops, hunks[k], hunks[j]);
      }
      assert OnlyIn(ops, hunks, k, i);
    }
  }

  /** Each slice is the hunk's changes with up to three kept lines before and
      after, three wherever the file has that many. */
  lemma SliceContext(ops: seq<Op>, k: nat)
    requires k < |HunksOf(ops)|
    ensures var h := HunksOf(ops)[k];
            && Sliced(ops, h) && Changed(ops, h.first) && Changed(ops, h.last)
            && h.first - Lo(h) == (if h.first < 3 then h.first else 3)
            && Hi(ops, h) - 1 - h.last == (if |ops| - 1 - h.last < 3 then |ops| - 1 - h.last else 3)
            && AllKept(ops[Lo(h)..h.first]) && AllKept(ops[h.last + 1..Hi(ops, h)])
  {
    var hunks := HunksOf(ops);
    var h := hunks[k];
    GroupIsGrouped(ops, |ops|);
    HunksSlicedApart(ops);
    assert Proper(ops, |ops|, h) && Sliced(ops, h);
    forall i | Lo(h) <= i < h.first || h.last < i < Hi(ops, h) ensures !Changed(ops, i) {
      if Changed(ops, i) {
        NearHunk(ops, hunks, k, i);
      }
    }
    KeptRange(ops, Lo(h), h.first);
    KeptRange(ops, h.last + 1, Hi(ops, h));
  }

  lemma KeptRange(ops: seq<Op>, start: nat, end: nat)
    requires start <= end <= |ops|
    requires forall i :: start <= i < end ==> !Changed(ops, i)
    ensures AllKept(ops[start..end])
  {
    forall k | 0 <= k < end - start ensures ops[start..end][k].kind == Keep {
      assert !Changed(ops, start + k);
    }
  }

  lemma NearHunk(ops: seq<Op>, hunks: seq<Hunk>, k: nat, i: nat)
    requires Grouped(ops, |ops|, hunks) && k < |hunks| && Changed(ops, i)
    ensures Within(hunks[k], i) || i + MERGE_GAP < hunks[k].first || hunks[k].last + MERGE_GAP < i
  {
    assert Covered(hunks, i);
    var j :| 0 <= j < |hunks| && Within(hunks[j], i);
    assert j < k ==> Before(hunks[j], hunks[k]);
    assert k < j ==> Before(hunks[k], hunks[j]);
  }

  /** The operations the first n hunks print. */
  function SlicesOf(ops: seq<Op>, hunks: seq<Hunk>, n: nat): (slices: seq<seq<Op>>)
    requires n <= |hunks|
    requires forall k :: 0 <= k < |hunks| ==> Sliced(ops, hunks[k])
    ensures |slices| == n
    ensures forall k :: 0 <= k < n ==> Sliced(ops, hunks[k]) && slices[k] == ops[Lo(hunks[k])..Hi(ops, hunks[k])]
  {
    if n == 0 then [] else SlicesOf(ops, hunks, n - 1) + [ops[Lo(hunks[n - 1])..Hi(ops, hunks[n - 1])]]
  }

  /** What an Update document of this diff prints. */
  function Slices(ops: seq<Op>): seq<seq<Op>> {
    HunksSlicedApart(ops);
    SlicesOf(ops, HunksOf(ops), |HunksOf(ops)|)
  }

  // ----- replay

  /** One hunk as a change to the file: at a line, these lines become those. */
  datatype Edit = Edit(at: nat, before: seq<string>, after: seq<string>)

  /** The change the slice lo..hi of a diff makes, at the line it starts on. */
  function EditOf(ops: seq<Op>, lo: nat, hi: nat): Edit
    requires lo <= hi <= |ops|
  {
    Edit(|Old(ops[..lo])|, Old(ops[lo..hi]), New(ops[lo..hi]))
  }

  /** The changes of the first n hunks. */
  function EditsOf(ops: seq<Op>, hunks: seq<Hunk>, n: nat): seq<Edit>
    requires n <= |hunks|
    requires forall k :: 0 <= k < |hunks| ==> Sliced(ops, hunks[k])
  {
    if n == 0 then [] else EditsOf(ops, hunks, n - 1) + [EditOf(ops, Lo(hunks[n - 1]), Hi(ops, hunks[n - 1]))]
  }

  lemma {:induction false} EditsCarrySlices(ops: seq<Op>, hunks: seq<Hunk>, n: nat)
    requires n <= |hunks|
    requires forall k :: 0 <= k < |hunks| ==> Sliced(ops, hunks[k])
    ensures |EditsOf(ops, hunks, n)| == n
    ensures forall k :: 0 <= k < n ==>
              EditsOf(ops, hunks, n)[k].before == Old(SlicesOf(ops, hunks, n)[k]) &&
              EditsOf(ops, hunks, n)[k].after == New(SlicesOf(ops, hunks, n)[k])
  {
    if n > 0 {
      EditsCarrySlices(ops, hunks, n - 1);
    }
  }

  /** Applies changes given in file order, each where it says and only where
      the old lines are what it says and the change before it has ended. */
  function Replay(lines: seq<string>, edits: seq<Edit>): Option<seq<string>>
    decreases |edits|
  {
    if edits == [] then Some(lines)
    else
      var e := edits[|edits| - 1];
      if e.at + |e.before| <= |lines| && lines[e.at..e.at + |e.before|] == e.before then
        match Replay(lines[..e.at], edits[..|edits| - 1])
        case Some(start) => Some(start + e.after + lines[e.at + |e.before|..])
        case None => None
      else None
  }

  /** Where the first n hunks' slices end. */
  function EndOf(ops: seq<Op>, hunks: seq<Hunk>, n: nat): nat
    requires n <= |hunks|
  {
    if n == 0 then 0 else Hi(ops, hunks[n - 1])
  }

  /** Between slices nothing changes. */
  lemma GapKept(ops: seq<Op>, hunks: seq<Hunk>, n: nat, end: nat)
    requires Grouped(ops, |ops|, hunks) && SlicesApart(ops, hunks) && n <= |hunks|
    requires end == if n == |hunks| then |ops| else Lo(hunks[n])
    ensures EndOf(ops, hunks, n) <= end <= |ops| && AllKept(ops[EndOf(ops, hunks, n)..end])
  {
    var start := EndOf(ops, hunks, n);
    if n < |hunks| {
      assert Sliced(ops, hunks[n]);
    }
    if n > 0 {
      assert Sliced(ops, hunks[n - 1]);
    }
    if 0 < n < |hunks| {
      assert SliceBefore(ops, hunks[n - 1], hunks[n]);
    }
    forall i | start <= i < end ensures !Changed(ops, i) {
      if Changed(ops, i) {
        NotInGap(ops, hunks, n, i);
      }
    }
    KeptRange(ops, start, end);
  }

  lemma NotInGap(ops: seq<Op>, hunks: seq<Hunk>, n: nat, i: nat)
    requires Grouped(ops, |ops|, hunks) && SlicesApart(ops, hunks) && n <= |hunks|
    requires Changed(ops, i)
    ensures i < EndOf(ops, hunks, n) || (n < |hunks| && Lo(hunks[n]) <= i)
  {
    assert Covered(hunks, i);
    var k :| 0 <= k < |hunks| && Within(hunks[k], i);
    if k < n - 1 {
      assert Before(hunks[k], hunks[n - 1]) && Proper(ops, |ops|, hunks[n - 1]);
    } else if n < k {
      assert Before(hunks[n], hunks[k]) && Proper(ops, |ops|, hunks[n]);
    }
  }

  /** Lines kept after the last change stay after replaying it. */
  lemma {:induction false} ReplayUpTo(ops: seq<Op>, hunks: seq<Hunk>, n: nat, end: nat)
    requires SlicesApart(ops, hunks) && Grouped(ops, |ops|, hunks) && n <= |hunks|
    requires EndOf(ops, hunks, n) <= end <= |ops| && AllKept(ops[EndOf(ops, hunks, n)..end])
    ensures Replay(Old(ops[..end]), EditsOf(ops, hunks, n)) == Some(New(ops[..end]))
  {
    if n == 0 {
      assert ops[0..end] == ops[..end];
      AllKeptSame(ops[..end]);
    } else {
      var lo, hi := Lo(hunks[n - 1]), Hi(ops, hunks[n - 1]);
      assert Sliced(ops, hunks[n - 1]);
      GapKept(ops, hunks, n - 1, lo);
      ReplayUpTo(ops, hunks, n - 1, lo);
      OneReplay(ops, lo, hi, end, EditsOf(ops, hunks, n - 1));
    }
  }

  lemma OneReplay(ops: seq<Op>, lo: nat, hi: nat, end: nat, edits: seq<Edit>)
    requires lo <= hi <= end <= |ops|
    requires AllKept(ops[hi..end])
    requires Replay(Old(ops[..lo]), edits) == Some(New(ops[..lo]))
    ensures Replay(Old(ops[..end]), edits + [EditOf(ops, lo, hi)]) == Some(New(ops[..end]))
  {
    var x, y, z := ops[..lo], ops[lo..hi], ops[hi..end];
    assert ops[..end] == x + y + z;
    OldConcat(x + y, z);
    OldConcat(x, y);
    NewConcat(x + y, z);
    NewConcat(x, y);
    AllKeptSame(z);
    var all := edits + [EditOf(ops, lo, hi)];
    assert all[..|all| - 1] == edits;
    var lines := Old(x) + Old(y) + Old(z);
    assert lines[..|Old(x)|] == Old(x);
    assert lines[|Old(x)|..|Old(x)| + |Old(y)|] == Old(y);
    assert lines[|Old(x)| + |Old(y)|..] == Old(z);
  }

  /** The changes an Update document of this diff carries. */
  function Edits(ops: seq<Op>): seq<Edit> {
    HunksSlicedApart(ops);
    EditsOf(ops, HunksOf(ops), |HunksOf(ops)|)
  }

  /** Replacing each hunk's old lines by its new lines, where it stands, turns
      the old file into the new one. */
  lemma ReplayTurnsOldIntoNew(ops: seq<Op>)
    ensures Replay(Old(ops), Edits(ops)) == Some(New(ops))
  {
    var hunks := HunksOf(ops);
    HunksSlicedApart(ops);
    GroupIsGrouped(ops, |ops|);
    GapKept(ops, hunks, |hunks|, |ops|);
    ReplayUpTo(ops, hunks, |hunks|, |ops|);
    assert ops[..|ops|] == ops;
  }

  lemma ReplayDiff(before: seq<string>, after: seq<string>)
    ensures Replay(before, Edits(DiffOps(before, after))) == Some(after)
  {
    DiffSides(before, after);
    ReplayTurnsOldIntoNew(DiffOps(before, after));
  }

  /** No hunk at all exactly when the two files have the same lines. */
  lemma NoHunksWhenSame(before: seq<string>, after: seq<string>)
    ensures var ops := DiffOps(before, after);
            HunksOf(ops) == [] <==> before == after
  {
    var ops := DiffOps(before, after);
    NoHunks(ops, |ops|);
    DiffUnchanged(before, after);
  }

  /** Groups the changed operations in one pass. */
  method FindHunks(ops: seq<Op>) returns (hunks: seq<Hunk>)
    ensures hunks == HunksOf(ops)
  {
    hunks := [];
    for i := 0 to |ops|
      invariant hunks == Group(ops, i)
    {
      if ops[i].kind == Keep {
        continue;
      }
      var n := |hunks|;
      if n > 0 && i - hunks[n - 1].last <= MERGE_GAP {
        hunks := hunks[n - 1 := Hunk(hunks[n - 1].first, i)];
      } else {
        hunks := hunks + [Hunk(i, i)];
      }
    }
  }
}
