/** A file that counts: calls that write one number after another to it. Their
    documents apply only in the order they were decided, so handing over a message's
    calls in any other order, or not each of them once, fails for some contents. */
module CountingFile {
  import opened Options
  import opened Text
  import opened Diff
  import opened Hunks
  import opened PatchDocument
  import opened PatchWriter
  import opened FileEdits
  import opened EditCalls
  import opened EditOrder

  // ----- replacing a file's only line

  function Swap(x: string, y: string): seq<Op> {
    [Op(Remove, x), Op(Add, y)]
  }

  lemma SwapSides(x: string, y: string)
    ensures Old(Swap(x, y)) == [x] && New(Swap(x, y)) == [y]
  {
    var ops := Swap(x, y);
    assert ops[1..] == [Op(Add, y)] && ops[1..][1..] == [];
    assert Old(ops[1..]) == Old(ops[1..][1..]) && New(ops[1..]) == [y] + New(ops[1..][1..]);
  }

  lemma SwapWalk(x: string, y: string)
    requires x != y
    ensures Walk([x], [y]) == Swap(x, y)
  {
    assert [x][1..] == [] && [y][1..] == [];
    assert Walk([], [y]) == [Op(Add, y)] + Walk([], []) == [Op(Add, y)];
  }

  lemma SwapTrimmed(x: string, y: string)
    requires x != y
    ensures Trimmed([x], [y]) == Middle([], [x], [y], [])
  {
    assert CommonHead([x], [y]) == 0;
    assert [x][0..] == [x] && [y][0..] == [y];
    assert CommonTail([x], [y]) == 0;
  }

  lemma SwapMiddle(x: string, y: string)
    requires x != y
    ensures TrimmedOps(Middle([], [x], [y], [])) == Swap(x, y)
  {
    SwapWalk(x, y);
    assert |[x]| * |[y]| == 1;
    assert MiddleOps([x], [y]) == Swap(x, y);
    assert Each(Keep, []) == [];
  }

  lemma SwapDiff(x: string, y: string)
    requires x != y
    ensures DiffOps([x], [y]) == Swap(x, y)
  {
    SwapTrimmed(x, y);
    SwapMiddle(x, y);
  }

  lemma SwapHunk(x: string, y: string)
    ensures var ops := Swap(x, y); Slices(ops) == [ops] && Edits(ops) == [Edit(0, [x], [y])]
  {
    var ops := Swap(x, y);
    assert Group(ops, 0) == [];
    assert Group(ops, 1) == [Hunk(0, 0)];
    assert HunksOf(ops) == [Hunk(0, 1)];
    HunksSlicedApart(ops);
    SwapSides(x, y);
    assert ops[0..2] == ops && ops[..0] == [] && Old(ops[..0]) == [];
    assert Lo(Hunk(0, 1)) == 0 && Hi(ops, Hunk(0, 1)) == 2;
    assert EditsOf(ops, [Hunk(0, 1)], 0) == [];
    assert EditsOf(ops, [Hunk(0, 1)], 1) == [EditOf(ops, 0, 2)];
  }

  lemma SwapReplays(w: string, x: string, y: string)
    ensures Replay([w], [Edit(0, [x], [y])]) == if w == x then Some([y]) else None
  {
    var edits := [Edit(0, [x], [y])];
    assert edits[..0] == [] && [w][..0] == [] && [w][0..1] == [w] && [w][1..] == [];
    assert Replay([w][..0], edits[..0]) == Some([]);
    assert [] + [y] + [] == [y];
  }

  // ----- the calls

  /** The text after k + 1 calls, and its one line. */
  function Mark(k: nat): (s: string)
    ensures |s| == k + 1 && OneLine(s)
  {
    seq(k + 1, _ => 'a')
  }

  function Counting(k: nat): Call {
    Call(Mark(k), FileCall(WriteFile, "/f", "", "", false, Mark(k)), true)
  }

  function CountTo(n: nat): (calls: seq<Call>)
    ensures |calls| == n && forall k :: 0 <= k < n ==> calls[k] == Counting(k)
  {
    seq(n, k requires 0 <= k < n => Counting(k))
  }

  function NoFiles(path: string): FileRead {
    Missing
  }

  /** The view once the count is at n, and its lines. */
  function CountView(n: nat): map<string, string> {
    if n == 0 then map[] else map["/f" := Mark(n - 1)]
  }

  function CountFiles(n: nat): map<string, seq<string>> {
    if n == 0 then map[] else map["/f" := [Mark(n - 1)]]
  }

  /** The decision's document applies exactly where the count is at k, and takes it
      one further. */
  ghost predicate CountsFrom(d: Decision, k: nat) {
    d.Patch? && forall m: nat {:trigger Apply(NoFiles, CountFiles(m), d)} ::
      Apply(NoFiles, CountFiles(m), d) == if m == k then Some(CountFiles(m + 1)) else None
  }

  ghost predicate Counts(ds: seq<Decision>) {
    forall k :: 0 <= k < |ds| ==> CountsFrom(ds[k], k)
  }

  lemma MarkLines(k: nat)
    ensures Lines(Mark(k)) == [Mark(k)]
  {
    SplitOne(Mark(k));
  }

  lemma CountDiff(k: nat)
    requires k > 0
    ensures Lines(Mark(k - 1)) != Lines(Mark(k)) && TextDiff(Mark(k - 1), Mark(k)) == Swap(Mark(k - 1), Mark(k))
  {
    MarkLines(k - 1);
    MarkLines(k);
    assert |Mark(k - 1)| != |Mark(k)|;
    SwapDiff(Mark(k - 1), Mark(k));
  }

  // ----- what becomes of them

  lemma SwapReads(x: string, y: string)
    requires OneLine(x) && OneLine(y)
    ensures Read(UpdateDoc("/f", [Swap(x, y)])) == Some([UpdateFile("/f", [Swap(x, y)])])
  {
    UpdateReadsBack("/f", [Swap(x, y)]);
  }

  lemma CountUpdateApplies(m: nat, k: nat)
    requires k > 0
    ensures var x, y := Mark(k - 1), Mark(k);
            ApplyUpdate(NoFiles, CountFiles(m), "/f", [Swap(x, y)], [Edit(0, [x], [y])])
            == if m == k then Some(CountFiles(m + 1)) else None
  {
    var x, y := Mark(k - 1), Mark(k);
    SwapSides(x, y);
    assert PlaceHunks([Swap(x, y)], [Edit(0, [x], [y])]) == [Edit(0, [x], [y])];
    if m > 0 {
      SwapReplays(Mark(m - 1), x, y);
      assert m != k ==> |Mark(m - 1)| != |x|;
      assert CountFiles(m)["/f" := [y]] == map["/f" := [y]];
    }
  }

  /** What the call that counts from k > 0 on becomes. */
  lemma CountUpdate(desk: Desk, k: nat)
    requires k > 0 && desk.virtual == CountView(k)
    ensures var x, y := Mark(k - 1), Mark(k);
            Fresh(desk, NoFiles, Counting(k)) == Patch(UpdateDoc("/f", [Swap(x, y)]), Change("/f", x, true, y))
  {
    CountDiff(k);
    SwapHunk(Mark(k - 1), Mark(k));
    ChangesFile(Counting(k).file, Mark(k - 1), Mark(k));
    FreshShape(desk, NoFiles, Counting(k));
  }

  /** What was read applies exactly where the count is at k, and takes it one
      further. */
  ghost predicate Takes(parsed: Option<seq<Section>>, at: seq<Edit>, k: nat) {
    forall m: nat {:trigger ApplyParsed(NoFiles, CountFiles(m), parsed, at)} ::
      ApplyParsed(NoFiles, CountFiles(m), parsed, at) == if m == k then Some(CountFiles(m + 1)) else None
  }

  lemma UpdateTakes(k: nat, parsed: Option<seq<Section>>, at: seq<Edit>)
    requires k > 0
    requires var x, y := Mark(k - 1), Mark(k);
             parsed == Some([UpdateFile("/f", [Swap(x, y)])]) && at == [Edit(0, [x], [y])]
    ensures Takes(parsed, at, k)
  {
    forall m: nat {:trigger ApplyParsed(NoFiles, CountFiles(m), parsed, at)}
      ensures ApplyParsed(NoFiles, CountFiles(m), parsed, at) == if m == k then Some(CountFiles(m + 1)) else None
    {
      CountUpdateApplies(m, k);
      assert ApplyParsed(NoFiles, CountFiles(m), parsed, at) ==
             ApplyUpdate(NoFiles, CountFiles(m), "/f", [Swap(Mark(k - 1), Mark(k))], at);
    }
  }

  lemma TakesCounts(d: Decision, parsed: Option<seq<Section>>, at: seq<Edit>, k: nat)
    requires d.Patch? && Takes(parsed, at, k)
    requires Read(d.doc) == parsed && Edits(TextDiff(d.change.before, d.change.after)) == at
    ensures CountsFrom(d, k)
  {
    forall m: nat ensures Apply(NoFiles, CountFiles(m), d) == if m == k then Some(CountFiles(m + 1)) else None {
      assert Apply(NoFiles, CountFiles(m), d) == ApplyParsed(NoFiles, CountFiles(m), parsed, at);
    }
  }

  /** What the first call becomes. */
  lemma CountAdd(desk: Desk)
    requires desk.virtual == map[]
    ensures Fresh(desk, NoFiles, Counting(0)) == Patch(AddDoc("/f", Mark(0)), Change("/f", "", false, Mark(0)))
  {
  }

  lemma AddReads(content: string)
    ensures Read(AddDoc("/f", content)) == Some([AddFile("/f", Lines(content))])
  {
    AddReadsBack("/f", content);
  }

  lemma AddTakes(at: seq<Edit>)
    ensures Takes(Some([AddFile("/f", [Mark(0)])]), at, 0)
  {
    assert CountFiles(0)["/f" := [Mark(0)]] == CountFiles(1);
  }

  lemma AddCounts(desk: Desk, d: Decision)
    requires desk.virtual == map[] && d == Fresh(desk, NoFiles, Counting(0))
    ensures CountsFrom(d, 0) && d.change.path == "/f" && d.change.after == Mark(0)
  {
    CountAdd(desk);
    MarkLines(0);
    AddReads(Mark(0));
    var at := Edits(TextDiff(d.change.before, d.change.after));
    AddTakes(at);
    TakesCounts(d, Some([AddFile("/f", [Mark(0)])]), at, 0);
  }

  lemma UpdateCounts(desk: Desk, k: nat, d: Decision)
    requires k > 0 && desk.virtual == CountView(k) && d == Fresh(desk, NoFiles, Counting(k))
    ensures CountsFrom(d, k) && d.change.path == "/f" && d.change.after == Mark(k)
  {
    var x, y := Mark(k - 1), Mark(k);
    CountUpdate(desk, k);
    CountDiff(k);
    SwapHunk(x, y);
    SwapReads(x, y);
    var parsed, at := Some([UpdateFile("/f", [Swap(x, y)])]), [Edit(0, [x], [y])];
    UpdateTakes(k, parsed, at);
    TakesCounts(d, parsed, at, k);
  }

  /** The call that counts from k on is accepted, and its document does so. */
  lemma CountFresh(desk: Desk, k: nat, d: Decision)
    requires desk.virtual == CountView(k) && d == Fresh(desk, NoFiles, Counting(k))
    ensures CountsFrom(d, k) && d.change.path == "/f" && d.change.after == Mark(k)
  {
    if k == 0 {
      AddCounts(desk, d);
    } else {
      UpdateCounts(desk, k, d);
    }
  }

  lemma CountEligible(n: nat)
    ensures Eligible(CountTo(n))
  {
    assert forall k :: 0 <= k < n ==> |CountTo(n)[k].id| == k + 1;
  }

  lemma CountStep(desk: Desk, call: Call, d: Decision, n: nat)
    requires desk.virtual == CountView(n) && call.id != "" && !Cached(desk, call.id)
    requires d == Fresh(desk, NoFiles, call) && d.Patch? && d.change.path == "/f" && d.change.after == Mark(n)
    ensures Step(desk, NoFiles, Called(call)).virtual == CountView(n + 1)
  {
    CalledOne(desk, NoFiles, call);
    assert CountView(n)["/f" := Mark(n)] == CountView(n + 1);
  }

  /** What the first n calls of the count come to. */
  ghost predicate Counted(n: nat) {
    CalledDesk(NoFiles, CountTo(n)).virtual == CountView(n) && Counts(DecisionsOf(NoFiles, CountTo(n)))
  }

  lemma CountAccepted(n: nat)
    requires Counted(n)
    ensures AllAccepted(NoFiles, CountTo(n))
  {
    CountEligible(n);
    var ds := DecisionsOf(NoFiles, CountTo(n));
    assert forall k :: 0 <= k < |ds| ==> CountsFrom(ds[k], k);
  }

  lemma CalledMore(disk: Disk, calls: seq<Call>)
    requires calls != []
    ensures var before, last := calls[..|calls| - 1], calls[|calls| - 1];
            && CalledDesk(disk, calls) == Step(CalledDesk(disk, before), disk, Called(last))
            && DecisionsOf(disk, calls) == DecisionsOf(disk, before) + [Fresh(CalledDesk(disk, before), disk, last)]
  {
    DeskOneMore(START, disk, CallAll(calls[..|calls| - 1]), Called(calls[|calls| - 1]));
  }

  lemma CountOneMore(n: nat, desk: Desk, last: Call, d: Decision)
    requires Counted(n) && desk == CalledDesk(NoFiles, CountTo(n)) && last == Counting(n) && d == Fresh(desk, NoFiles, last)
    ensures CountsFrom(d, n)
    ensures Step(desk, NoFiles, Called(last)).virtual == CountView(n + 1)
  {
    assert CountTo(n + 1)[..n] == CountTo(n);
    CountEligible(n + 1);
    CountAccepted(n);
    CalledHolds(NoFiles, CountTo(n));
    NotYetHeld(desk, CountTo(n + 1), DecisionsOf(NoFiles, CountTo(n)));
    CountFresh(desk, n, d);
    CountStep(desk, last, d, n);
  }

  lemma CountsMore(ds: seq<Decision>, d: Decision)
    requires Counts(ds) && CountsFrom(d, |ds|)
    ensures Counts(ds + [d])
  {
  }

  lemma CountedMore(n: nat, calls: seq<Call>, desk: Desk, last: Call)
    requires Counted(n) && desk == CalledDesk(NoFiles, CountTo(n)) && last == Counting(n)
    requires |calls| == n + 1 && calls[..n] == CountTo(n) && calls[n] == last
    ensures CalledDesk(NoFiles, calls).virtual == CountView(n + 1) && Counts(DecisionsOf(NoFiles, calls))
  {
    var d := Fresh(desk, NoFiles, last);
    CountOneMore(n, desk, last, d);
    CalledMore(NoFiles, calls);
    CountsMore(DecisionsOf(NoFiles, CountTo(n)), d);
  }

  lemma {:induction false} CountCalled(n: nat)
    ensures Counted(n)
  {
    if n > 0 {
      CountCalled(n - 1);
      assert CountTo(n)[..n - 1] == CountTo(n - 1);
      CountedMore(n - 1, CountTo(n), CalledDesk(NoFiles, CountTo(n - 1)), Counting(n - 1));
    }
  }

  // ----- what applies

  lemma UptoMore(h: seq<nat>)
    requires h != []
    ensures var m := |h| - 1; h == Upto(m + 1) <==> h[..m] == Upto(m) && h[m] == m
  {
    assert h == h[..|h| - 1] + [h[|h| - 1]];
  }

  lemma CountReplayOne(ns: seq<Noted>, last: Noted, m: nat, k: nat)
    requires CountsFrom(last.decision, k) && (ApplyAll(NoFiles, ns) == None || ApplyAll(NoFiles, ns) == Some(CountFiles(m)))
    ensures ApplyAll(NoFiles, ns + [last]) ==
            if ApplyAll(NoFiles, ns) != None && m == k then Some(CountFiles(m + 1)) else None
  {
    ApplyOneMore(NoFiles, ns, last);
  }

  lemma CountReplayMore(ns: seq<Noted>, last: Noted, all: seq<Noted>, h: seq<nat>)
    requires h != [] && all == ns + [last] && CountsFrom(last.decision, h[|h| - 1])
    requires var m := |h| - 1; ApplyAll(NoFiles, ns) == if h[..m] == Upto(m) then Some(CountFiles(m)) else None
    ensures ApplyAll(NoFiles, all) == if h == Upto(|h|) then Some(CountFiles(|h|)) else None
  {
    UptoMore(h);
    CountReplayOne(ns, last, |h| - 1, h[|h| - 1]);
  }

  /** The documents count from the places in h. */
  ghost predicate CountFrom(ns: seq<Noted>, h: seq<nat>) {
    |ns| == |h| && forall k :: 0 <= k < |ns| ==> CountsFrom(ns[k].decision, h[k])
  }

  lemma CountFromBefore(ns: seq<Noted>, h: seq<nat>)
    requires CountFrom(ns, h) && h != []
    ensures var m := |h| - 1; CountFrom(ns[..m], h[..m]) && CountsFrom(ns[m].decision, h[m]) && ns == ns[..m] + [ns[m]]
  {
  }

  /** Documents of the count, in order h, apply exactly when h counts up. */
  lemma {:induction false} CountReplay(ns: seq<Noted>, h: seq<nat>)
    requires CountFrom(ns, h)
    ensures ApplyAll(NoFiles, ns) == if h == Upto(|h|) then Some(CountFiles(|h|)) else None
    decreases |h|
  {
    if h != [] {
      var m := |h| - 1;
      CountFromBefore(ns, h);
      CountReplay(ns[..m], h[..m]);
      CountReplayMore(ns[..m], ns[m], ns, h);
    }
  }

  lemma NotedCount(calls: seq<Call>, ds: seq<Decision>, h: seq<nat>)
    requires |ds| == |calls| && Picks(h, |calls|) && Counts(ds)
    ensures CountFrom(NotedFor(calls, ds, h), h)
  {
  }

  lemma CountViewLines(n: nat)
    ensures ViewLines(CountView(n)) == CountFiles(n)
  {
    if n > 0 {
      MarkLines(n - 1);
    }
  }

  lemma CountFilesTold(m: nat, n: nat)
    requires CountFiles(m) == CountFiles(n)
    ensures m == n
  {
    if m > 0 && n > 0 {
      assert CountFiles(m)["/f"] == [Mark(m - 1)] && CountFiles(n)["/f"] == [Mark(n - 1)];
      assert |Mark(m - 1)| == m && |Mark(n - 1)| == n;
    } else {
      assert m > 0 ==> "/f" in CountFiles(m);
      assert n > 0 ==> "/f" in CountFiles(n);
    }
  }

  lemma CountGivesView(ways: seq<Way>, open: bool)
    requires Numbered(ways) && GivesView(NoFiles, CountTo(Came(ways)), ways, open)
    ensures Brought(ways) == Upto(Came(ways)) && (open || Came(ways) == 0)
  {
    var n := Came(ways);
    CountCalled(n);
    CountAccepted(n);
    HandsOver(NoFiles, CountTo(n), ways);
    CountViewLines(n);
    if open {
      NotedCount(CountTo(n), DecisionsOf(NoFiles, CountTo(n)), Brought(ways));
      CountReplay(NotedFor(CountTo(n), DecisionsOf(NoFiles, CountTo(n)), Brought(ways)), Brought(ways));
      CountFilesTold(|Brought(ways)|, n);
    } else {
      CountFilesTold(0, n);
      BroughtCame(ways);
    }
  }

  // ----- the condition

  /** Whatever the calls say and whatever is on disk, so long as each is accepted. */
  ghost predicate AlwaysGivesView(ways: seq<Way>, open: bool)
    requires Numbered(ways)
  {
    forall disk: Disk, calls: seq<Call> | |calls| == Came(ways) && AllAccepted(disk, calls) :: GivesView(disk, calls, ways, open)
  }

  lemma AlwaysInOrder(ways: seq<Way>, open: bool)
    requires Numbered(ways) && AlwaysGivesView(ways, open)
    ensures Brought(ways) == Upto(Came(ways)) && (open || Came(ways) == 0)
  {
    CountCalled(Came(ways));
    CountAccepted(Came(ways));
    CountGivesView(ways, open);
  }

  lemma InOrderAlways(ways: seq<Way>, open: bool)
    requires Numbered(ways) && Brought(ways) == Upto(Came(ways)) && (open || Came(ways) == 0)
    ensures AlwaysGivesView(ways, open)
  {
    forall disk: Disk, calls: seq<Call> | |calls| == Came(ways) && AllAccepted(disk, calls) ensures GivesView(disk, calls, ways, open) {
      InOrderGivesView(disk, calls, ways, open);
    }
  }

  /** When the stream and MCP bring calls in any order, replaying what Codex gets when
      the message ends always leaves the files of the view exactly when the stream
      brings each call once, in the order they were decided, and a Codex request is
      open then or no call came. */
  lemma HandedOverExactlyWhen(ways: seq<Way>, open: bool)
    requires Numbered(ways)
    ensures AlwaysGivesView(ways, open) <==> Brought(ways) == Upto(Came(ways)) && (open || Came(ways) == 0)
  {
    if AlwaysGivesView(ways, open) {
      AlwaysInOrder(ways, open);
    } else if Brought(ways) == Upto(Came(ways)) && (open || Came(ways) == 0) {
      InOrderAlways(ways, open);
    }
  }

  /** The count is the failing input otherwise: two calls the other way round, one left
      out, one brought twice, or all of them dropped. */
  lemma OutOfOrder(ways: seq<Way>, open: bool)
    requires Numbered(ways) && !(Brought(ways) == Upto(Came(ways)) && (open || Came(ways) == 0))
    ensures AllAccepted(NoFiles, CountTo(Came(ways))) && !GivesView(NoFiles, CountTo(Came(ways)), ways, open)
  {
    CountCalled(Came(ways));
    CountAccepted(Came(ways));
    if GivesView(NoFiles, CountTo(Came(ways)), ways, open) {
      CountGivesView(ways, open);
    }
  }
}
