/** Edit and Write calls as they come in: from Claude's stream and over MCP, in
    whatever order, each decided once and seen by those after it; what the view of
    the files is then, what goes to Codex when the message ends, and when replaying
    that gives the view. */
module EditCalls {
  import opened Options
  import opened Text
  import opened Substrings
  import opened Diff
  import opened Hunks
  import opened PatchDocument
  import opened PatchWriter
  import opened FileEdits

  /** A call, with what the patch engine would answer. */
  datatype Call = Call(id: string, file: FileCall, checkPasses: bool)

  /** A call under its id, with its decision. */
  datatype Noted = Noted(id: string, decision: Decision)

  /** Decisions held, by call id; files as earlier edits leave them; and the calls
      noted for Codex on the message being streamed. */
  datatype Desk = Desk(decisions: map<string, Decision>, virtual: map<string, string>, message: Option<seq<Noted>>)

  /** What happens to a call: Claude's stream brings it, an MCP call brings it, or
      its decision is dropped because it was answered or cancelled. An MCP call
      whose result is queued is called and dropped in one. */
  datatype Arrival = Recorded(call: Call) | Called(call: Call) | Dropped(id: string)

  function ReadFile(desk: Desk, disk: Disk, path: string): FileRead {
    if path in desk.virtual then Text(desk.virtual[path]) else disk(path)
  }

  predicate Cached(desk: Desk, id: string) {
    id in desk.decisions && id != ""
  }

  /** What a call that has no decision becomes. */
  function Fresh(desk: Desk, disk: Disk, call: Call): Decision {
    var d := Decide(call.file, ReadFile(desk, disk, call.file.path));
    if d.Patch? then CheckPatch(d, call.checkPasses) else d
  }

  /** The decision on a call, taken now unless one is held. */
  function DecideStep(desk: Desk, disk: Disk, call: Call): (Decision, Desk) {
    if Cached(desk, call.id) then (desk.decisions[call.id], desk)
    else
      var d := Fresh(desk, disk, call);
      (d, desk.(decisions := if call.id != "" then desk.decisions[call.id := d] else desk.decisions,
                virtual := if d.Patch? then desk.virtual[d.change.path := d.change.after] else desk.virtual))
  }

  function DropStep(desk: Desk, id: string): Desk {
    desk.(decisions := desk.decisions - {id})
  }

  /** From the stream: an accepted call is noted on the message, if one is open. */
  function RecordedStep(desk: Desk, disk: Disk, call: Call): Desk {
    var (d, desk') := DecideStep(desk, disk, call);
    if d.Patch? && desk'.message.Some? then desk'.(message := Some(desk'.message.value + [Noted(call.id, d)])) else desk'
  }

  /** Over MCP: a rejection is told at once, and dropped. */
  function CalledStep(desk: Desk, disk: Disk, call: Call): Desk {
    var (d, desk') := DecideStep(desk, disk, call);
    if d.Reject? then DropStep(desk', call.id) else desk'
  }

  function Step(desk: Desk, disk: Disk, a: Arrival): Desk {
    match a
    case Recorded(call) => RecordedStep(desk, disk, call)
    case Called(call) => CalledStep(desk, disk, call)
    case Dropped(id) => DropStep(desk, id)
  }

  function DeskAfter(desk: Desk, disk: Disk, arrivals: seq<Arrival>): Desk {
    if arrivals == [] then desk
    else Step(DeskAfter(desk, disk, arrivals[..|arrivals| - 1]), disk, arrivals[|arrivals| - 1])
  }

  /** Whether the arrival brings a call that is decided now, and accepted. */
  predicate Accepts(desk: Desk, disk: Disk, a: Arrival) {
    !a.Dropped? && !Cached(desk, a.call.id) && Fresh(desk, disk, a.call).Patch?
  }

  /** What an arrival adds to the accepted calls. */
  function Adds(desk: Desk, disk: Disk, a: Arrival): seq<Noted> {
    if Accepts(desk, disk, a) then [Noted(a.call.id, Fresh(desk, disk, a.call))] else []
  }

  /** The calls accepted, in the order they were decided. */
  function Accepted(desk: Desk, disk: Disk, arrivals: seq<Arrival>): seq<Noted> {
    if arrivals == [] then []
    else
      var earlier := arrivals[..|arrivals| - 1];
      Accepted(desk, disk, earlier) + Adds(DeskAfter(desk, disk, earlier), disk, arrivals[|arrivals| - 1])
  }

  class EditDesk {
    var decisions: map<string, Decision>
    var virtual: map<string, string>
    var message: Option<seq<Noted>>

    constructor ()
      ensures View() == Desk(map[], map[], None)
    {
      decisions, virtual, message := map[], map[], None;
    }

    ghost function View(): Desk
      reads this
    {
      Desk(decisions, virtual, message)
    }

    /** A new API message starts from the files on disk. */
    method MessageStart()
      modifies this
      ensures View() == Desk(old(decisions), map[], Some([]))
    {
      virtual, message := map[], Some([]);
    }

    /** Classifies a call once; every later arrival of its id shares the decision
        while it is held. */
    method Decide(disk: Disk, call: Call) returns (d: Decision)
      modifies `decisions, `virtual
      ensures (d, View()) == DecideStep(old(View()), disk, call)
    {
      if call.id in decisions && call.id != "" {
        return decisions[call.id];
      }
      var read := if call.file.path in virtual then Text(virtual[call.file.path]) else disk(call.file.path);
      d := DecideCall(call.file, read);
      if d.Patch? {
        if d.change.existed && !call.checkPasses {
          d := d.(doc := RewriteDoc(d.change.path, d.change.after));
        }
        virtual := virtual[d.change.path := d.change.after];
      }
      if call.id != "" {
        decisions := decisions[call.id := d];
      }
    }

    /** A call from Claude's stream. */
    method RecordCall(disk: Disk, call: Call)
      modifies this
      ensures View() == RecordedStep(old(View()), disk, call)
    {
      var d := Decide(disk, call);
      if d.Patch? && message.Some? {
        message := Some(message.value + [Noted(call.id, d)]);
      }
    }

    /** A call over MCP. */
    method CallTool(disk: Disk, call: Call) returns (d: Decision)
      modifies this
      ensures View() == CalledStep(old(View()), disk, call) && d == DecideStep(old(View()), disk, call).0
    {
      d := Decide(disk, call);
      if d.Reject? {
        decisions := decisions - {call.id};
      }
    }

    /** The message ends: its calls go to Codex if a request is open. */
    method MessageStop(open: bool) returns (handed: seq<Noted>)
      modifies `message
      ensures handed == HandedOver(old(View()), open) && View() == FlushDesk(old(View()))
    {
      handed := if open && message.Some? then message.value else [];
      message := None;
    }

    /** A call was answered or cancelled. */
    method Drop(id: string)
      modifies `decisions
      ensures View() == DropStep(old(View()), id)
    {
      decisions := decisions - {id};
    }
  }

  // ----- replaying accepted calls

  /** The files after applying every document in order, if each applies. */
  function ApplyAll(disk: Disk, ns: seq<Noted>): Option<map<string, seq<string>>> {
    if ns == [] then Some(map[]) else ApplyNext(disk, ApplyAll(disk, ns[..|ns| - 1]), ns[|ns| - 1].decision)
  }

  function ApplyNext(disk: Disk, patched: Option<map<string, seq<string>>>, d: Decision): Option<map<string, seq<string>>> {
    if patched.Some? && d.Patch? then Apply(disk, patched.value, d) else None
  }

  /** The lines of every text in the view. */
  function ViewLines(virtual: map<string, string>): map<string, seq<string>> {
    map path | path in virtual :: Lines(virtual[path])
  }

  lemma SeesPatched(desk: Desk, disk: Disk, path: string)
    ensures FileLines(disk, ViewLines(desk.virtual), path) ==
            match ReadFile(desk, disk, path) case Text(text) => Some(Lines(text)) case _ => None
  {
  }

  /** The document a change is given, by what was there and what the check said. */
  function DocumentOf(c: Change, checkPasses: bool): string {
    if !c.existed then AddDoc(c.path, c.after)
    else if checkPasses then UpdateDoc(c.path, Slices(TextDiff(c.before, c.after)))
    else RewriteDoc(c.path, c.after)
  }

  /** What an accepted call's decision holds. */
  lemma FreshShape(desk: Desk, disk: Disk, call: Call)
    requires Fresh(desk, disk, call).Patch?
    ensures var d := Fresh(desk, disk, call); var c := d.change; var read := ReadFile(desk, disk, call.file.path);
            && c.path == call.file.path
            && (c.existed ==> read == Text(c.before) && Lines(c.before) != Lines(c.after)) && (!c.existed ==> read == Missing)
            && d.doc == DocumentOf(c, call.checkPasses)
  {
  }

  lemma ApplyDocument(disk: Disk, patched: map<string, seq<string>>, c: Change, checkPasses: bool)
    requires OneLine(c.path)
    requires FileLines(disk, patched, c.path) == if c.existed then Some(Lines(c.before)) else None
    ensures Apply(disk, patched, Patch(DocumentOf(c, checkPasses), c)) == Some(patched[c.path := Lines(c.after)])
  {
    if !c.existed {
      ApplyAdd(disk, patched, c);
    } else if checkPasses {
      ApplyHunks(disk, patched, c);
    } else {
      ApplyRewrite(disk, patched, c);
    }
  }

  lemma ApplyOneLine(desk: Desk, disk: Disk, call: Call)
    requires OneLine(call.file.path) && Fresh(desk, disk, call).Patch?
    ensures var d := Fresh(desk, disk, call);
            Apply(disk, ViewLines(desk.virtual), d) == Some(ViewLines(desk.virtual[d.change.path := d.change.after]))
  {
    var d := Fresh(desk, disk, call);
    FreshShape(desk, disk, call);
    SeesPatched(desk, disk, d.change.path);
    ApplyDocument(disk, ViewLines(desk.virtual), d.change, call.checkPasses);
    assert d == Patch(DocumentOf(d.change, call.checkPasses), d.change);
    ViewAfter(desk.virtual, d.change.path, d.change.after);
  }

  lemma ViewAfter(virtual: map<string, string>, path: string, text: string)
    ensures ViewLines(virtual[path := text]) == ViewLines(virtual)[path := Lines(text)]
  {
  }

  /** An accepted document applies to the files as the view shows them, and
      leaves the file as the view then shows it, whichever form the patch check
      gave it, exactly when its path holds no line break. */
  lemma ApplyFresh(desk: Desk, disk: Disk, call: Call)
    requires Fresh(desk, disk, call).Patch?
    ensures var d := Fresh(desk, disk, call);
            Apply(disk, ViewLines(desk.virtual), d) == Some(ViewLines(desk.virtual[d.change.path := d.change.after]))
            <==> OneLine(d.change.path)
  {
    var d := Fresh(desk, disk, call);
    var c, patched := d.change, ViewLines(desk.virtual);
    FreshShape(desk, disk, call);
    if OneLine(c.path) {
      ApplyOneLine(desk, disk, call);
    } else if Apply(disk, patched, d) != None {
      ApplyKeeps(disk, patched, d, c.path);
      ViewChanges(desk, disk, c);
    }
  }

  /** An accepted change is one the view did not show. */
  lemma ViewChanges(desk: Desk, disk: Disk, c: Change)
    requires var read := ReadFile(desk, disk, c.path);
             (c.existed ==> read == Text(c.before) && Lines(c.before) != Lines(c.after)) && (!c.existed ==> read == Missing)
    ensures !SameAt(ViewLines(desk.virtual), ViewLines(desk.virtual[c.path := c.after]), c.path)
  {
  }

  /** What one arrival does to the view. */
  lemma StepView(desk: Desk, disk: Disk, a: Arrival)
    ensures Step(desk, disk, a).virtual ==
            if Accepts(desk, disk, a)
            then var c := Fresh(desk, disk, a.call).change; desk.virtual[c.path := c.after] else desk.virtual
  {
  }

  predicate OneLinePaths(ns: seq<Noted>) {
    forall k :: 0 <= k < |ns| ==> ns[k].decision.Patch? && OneLine(ns[k].decision.change.path)
  }

  lemma OneLinePathsMore(x: seq<Noted>, y: seq<Noted>)
    ensures OneLinePaths(x + y) <==> OneLinePaths(x) && OneLinePaths(y)
  {
    assert forall k :: 0 <= k < |x| ==> (x + y)[k] == x[k];
    assert forall k :: 0 <= k < |y| ==> (x + y)[|x| + k] == y[k];
  }

  lemma ReplayOneMore(desk: Desk, disk: Disk, accepted: seq<Noted>, a: Arrival)
    requires ApplyAll(disk, accepted) == Some(ViewLines(desk.virtual)) && OneLinePaths(Adds(desk, disk, a))
    ensures ApplyAll(disk, accepted + Adds(desk, disk, a)) == Some(ViewLines(Step(desk, disk, a).virtual))
  {
    StepView(desk, disk, a);
    if Accepts(desk, disk, a) {
      assert Adds(desk, disk, a)[0].decision == Fresh(desk, disk, a.call);
      ApplyFresh(desk, disk, a.call);
      ApplyOneMore(disk, accepted, Noted(a.call.id, Fresh(desk, disk, a.call)));
    } else {
      assert accepted + [] == accepted;
    }
  }

  lemma {:induction false} OneLineReplays(start: Desk, disk: Disk, arrivals: seq<Arrival>)
    requires start.virtual == map[] && OneLinePaths(Accepted(start, disk, arrivals))
    ensures ApplyAll(disk, Accepted(start, disk, arrivals)) == Some(ViewLines(DeskAfter(start, disk, arrivals).virtual))
  {
    if arrivals == [] {
      assert ViewLines(start.virtual) == map[];
    } else {
      var earlier, a := arrivals[..|arrivals| - 1], arrivals[|arrivals| - 1];
      OneLinePathsMore(Accepted(start, disk, earlier), Adds(DeskAfter(start, disk, earlier), disk, a));
      OneLineReplays(start, disk, earlier);
      ReplayOneMore(DeskAfter(start, disk, earlier), disk, Accepted(start, disk, earlier), a);
    }
  }

  /** Replaying documents gives no file a path with a line break. */
  lemma {:induction false} ReplayPaths(disk: Disk, ns: seq<Noted>, path: string)
    requires !OneLine(path) && ApplyAll(disk, ns) != None
    ensures path !in ApplyAll(disk, ns).value
  {
    if ns != [] {
      var before := ns[..|ns| - 1];
      ReplayPaths(disk, before, path);
      ApplyKeeps(disk, ApplyAll(disk, before).value, ns[|ns| - 1].decision, path);
    }
  }

  predicate InView(virtual: map<string, string>, ns: seq<Noted>) {
    forall k :: 0 <= k < |ns| ==> ns[k].decision.Patch? && ns[k].decision.change.path in virtual
  }

  lemma InViewMore(desk: Desk, disk: Disk, accepted: seq<Noted>, a: Arrival)
    requires InView(desk.virtual, accepted)
    ensures InView(Step(desk, disk, a).virtual, accepted + Adds(desk, disk, a))
  {
    StepView(desk, disk, a);
  }

  /** The view holds every file an accepted call changed. */
  lemma {:induction false} ViewHolds(start: Desk, disk: Disk, arrivals: seq<Arrival>)
    ensures InView(DeskAfter(start, disk, arrivals).virtual, Accepted(start, disk, arrivals))
  {
    if arrivals != [] {
      var earlier := arrivals[..|arrivals| - 1];
      ViewHolds(start, disk, earlier);
      InViewMore(DeskAfter(start, disk, earlier), disk, Accepted(start, disk, earlier), arrivals[|arrivals| - 1]);
    }
  }

  /** Replaying the accepted documents in the order they were decided succeeds and
      leaves exactly the files the view holds, line for line as it holds them,
      exactly when no path among them holds a line break. */
  lemma ReplayMatchesView(start: Desk, disk: Disk, arrivals: seq<Arrival>)
    requires start.virtual == map[]
    ensures ApplyAll(disk, Accepted(start, disk, arrivals)) == Some(ViewLines(DeskAfter(start, disk, arrivals).virtual))
            <==> OneLinePaths(Accepted(start, disk, arrivals))
  {
    var accepted := Accepted(start, disk, arrivals);
    if OneLinePaths(accepted) {
      OneLineReplays(start, disk, arrivals);
    } else {
      ViewHolds(start, disk, arrivals);
      var k :| 0 <= k < |accepted| && !OneLine(accepted[k].decision.change.path);
      if ApplyAll(disk, accepted) != None {
        ReplayPaths(disk, accepted, accepted[k].decision.change.path);
      }
    }
  }

  lemma ApplyOneMore(disk: Disk, ns: seq<Noted>, last: Noted)
    ensures ApplyAll(disk, ns + [last]) == ApplyNext(disk, ApplyAll(disk, ns), last.decision)
  {
    assert (ns + [last])[..|ns|] == ns;
  }

  // ----- what goes to Codex

  /** The calls noted on the message. */
  function NotedCalls(desk: Desk): seq<Noted> {
    if desk.message.Some? then desk.message.value else []
  }

  /** What goes to Codex when the message ends: the calls noted, if a Codex request is
      open then, and nothing otherwise. */
  function HandedOver(desk: Desk, open: bool): seq<Noted> {
    if open then NotedCalls(desk) else []
  }

  function FlushDesk(desk: Desk): Desk {
    desk.(message := None)
  }

  /** An accepted call is noted at once when the stream brought it first, and a call
      is noted only then. */
  predicate NotedAtOnce(desk: Desk, disk: Disk, a: Arrival) {
    match a
    case Recorded(call) => Cached(desk, call.id) ==> desk.decisions[call.id].Reject?
    case Called(call) => !Accepts(desk, disk, a)
    case Dropped(_) => true
  }

  lemma StepNotes(desk: Desk, disk: Disk, a: Arrival)
    requires desk.message.Some?
    ensures var noted := NotedCalls(Step(desk, disk, a));
            && Step(desk, disk, a).message.Some?
            && NotedCalls(desk) <= noted
            && (NotedAtOnce(desk, disk, a) <==> noted == NotedCalls(desk) + Adds(desk, disk, a))
  {
    var noted := NotedCalls(Step(desk, disk, a));
    assert |noted| == |NotedCalls(desk)| || |noted| == |NotedCalls(desk)| + 1;
  }

  predicate InStep(start: Desk, disk: Disk, arrivals: seq<Arrival>) {
    NotedCalls(DeskAfter(start, disk, arrivals)) == Accepted(start, disk, arrivals)
  }

  /** After each of the arrivals what is noted is what was accepted. */
  predicate InStepAllAlong(start: Desk, disk: Disk, arrivals: seq<Arrival>) {
    InStep(start, disk, arrivals) && (arrivals == [] || InStepAllAlong(start, disk, arrivals[..|arrivals| - 1]))
  }

  predicate EachNotedAtOnce(start: Desk, disk: Disk, arrivals: seq<Arrival>) {
    arrivals == []
    || (var earlier := arrivals[..|arrivals| - 1];
        EachNotedAtOnce(start, disk, earlier)
        && NotedAtOnce(DeskAfter(start, disk, earlier), disk, arrivals[|arrivals| - 1]))
  }

  lemma {:induction false} MessageStaysOpen(start: Desk, disk: Disk, arrivals: seq<Arrival>)
    requires start.message.Some?
    ensures DeskAfter(start, disk, arrivals).message.Some?
  {
    if arrivals != [] {
      MessageStaysOpen(start, disk, arrivals[..|arrivals| - 1]);
    }
  }

  /** What is noted is, all along the message, exactly what was accepted, in the
      order it was decided, exactly when each call is noted at once: when Claude's
      stream brings each before an MCP call has it accepted, and brings none that
      is accepted already again. */
  lemma {:induction false} NotedExactlyWhen(start: Desk, disk: Disk, arrivals: seq<Arrival>)
    requires start.message == Some([])
    ensures InStepAllAlong(start, disk, arrivals) <==> EachNotedAtOnce(start, disk, arrivals)
  {
    if arrivals != [] {
      var earlier := arrivals[..|arrivals| - 1];
      NotedExactlyWhen(start, disk, earlier);
      MessageStaysOpen(start, disk, earlier);
      StepNotes(DeskAfter(start, disk, earlier), disk, arrivals[|arrivals| - 1]);
      InStepBefore(start, disk, earlier);
    }
  }

  lemma InStepBefore(start: Desk, disk: Disk, arrivals: seq<Arrival>)
    ensures InStepAllAlong(start, disk, arrivals) ==> InStep(start, disk, arrivals)
  {
  }

  /** Replaying what goes to Codex, when that is the accepted calls all and in the order
      they were decided, leaves the files the view holds exactly when a Codex request
      is open or nothing was accepted, and no path holds a line break. */
  lemma HandedOverMatchesView(start: Desk, disk: Disk, arrivals: seq<Arrival>, open: bool)
    requires start.virtual == map[] && InStep(start, disk, arrivals)
    ensures var desk, accepted := DeskAfter(start, disk, arrivals), Accepted(start, disk, arrivals);
            ApplyAll(disk, HandedOver(desk, open)) == Some(ViewLines(desk.virtual))
            <==> OneLinePaths(accepted) && (open || accepted == [])
  {
    var desk, accepted := DeskAfter(start, disk, arrivals), Accepted(start, disk, arrivals);
    ReplayMatchesView(start, disk, arrivals);
    if !open && accepted != [] {
      ViewHolds(start, disk, arrivals);
      assert accepted[0].decision.change.path in ViewLines(desk.virtual);
    }
  }

  lemma OneArrival(start: Desk, disk: Disk, a: Arrival)
    ensures DeskAfter(start, disk, [a]) == Step(start, disk, a)
  {
    assert [a][..0] == [] && DeskAfter(start, disk, []) == start;
  }

  lemma WritesNew(start: Desk, disk: Disk, id: string)
    requires start == Desk(map[], map[], Some([])) && disk("/f") == Missing
    ensures var call := Call(id, FileCall(WriteFile, "/f", "", "", false, "a"), true); var d := Fresh(start, disk, call);
            d.Patch? && d.change == Change("/f", "", false, "a")
  {
  }

  /** An Edit over MCP without a call id: the view takes it, though the call is
      refused and nothing of it goes to Codex. */
  lemma CallWithoutId(disk: Disk)
    requires disk("/f") == Missing
    ensures var call := Call("", FileCall(WriteFile, "/f", "", "", false, "a"), true);
            var desk := DeskAfter(Desk(map[], map[], Some([])), disk, [Called(call)]);
            desk.virtual == map["/f" := "a"] && HandedOver(desk, true) == []
  {
    var start, call := Desk(map[], map[], Some([])), Call("", FileCall(WriteFile, "/f", "", "", false, "a"), true);
    WritesNew(start, disk, "");
    OneArrival(start, disk, Called(call));
    StepView(start, disk, Called(call));
  }

  /** Codex leaves in mid-message: the stream still brings a Write, noted and in the
      view, and when the message ends nothing goes to Codex. */
  lemma DroppedMessage(disk: Disk, id: string)
    requires disk("/f") == Missing
    ensures var call := Call(id, FileCall(WriteFile, "/f", "", "", false, "a"), true);
            var desk := DeskAfter(Desk(map[], map[], Some([])), disk, [Recorded(call)]);
            && desk.virtual == map["/f" := "a"] && |NotedCalls(desk)| == 1 && NotedCalls(desk)[0].id == id
            && HandedOver(desk, false) == []
  {
    var start, call := Desk(map[], map[], Some([])), Call(id, FileCall(WriteFile, "/f", "", "", false, "a"), true);
    WritesNew(start, disk, id);
    OneArrival(start, disk, Recorded(call));
    StepView(start, disk, Recorded(call));
    StepNotes(start, disk, Recorded(call));
  }

  // ----- repeated calls

  /** A call that comes again changes nothing in the view, and is not accepted
      again, exactly when its decision is still held or it is rejected on the view
      as it is now. Then, while held, it gets the same decision. */
  lemma RepeatChangesNothing(desk: Desk, disk: Disk, again: Arrival)
    requires !again.Dropped?
    ensures Step(desk, disk, again).virtual == desk.virtual <==>
            Cached(desk, again.call.id) || Fresh(desk, disk, again.call).Reject?
    ensures Step(desk, disk, again).virtual == desk.virtual <==> !Accepts(desk, disk, again)
    ensures Cached(desk, again.call.id) ==> DecideStep(desk, disk, again.call) == (desk.decisions[again.call.id], desk)
  {
    StepView(desk, disk, again);
    if Accepts(desk, disk, again) {
      FreshShape(desk, disk, again.call);
      var c := Fresh(desk, disk, again.call).change;
      assert desk.virtual[c.path := c.after][c.path] == c.after;
    }
  }

  /** What has a decision dropped: that its call was answered or cancelled, or that
      a rejection was told over MCP. */
  predicate Drops(a: Arrival, id: string, d: Decision) {
    match a
    case Dropped(i) => i == id
    case Called(call) => d.Reject? && call.id == id
    case Recorded(_) => false
  }

  predicate Holds(desk: Desk, id: string, d: Decision) {
    id in desk.decisions && desk.decisions[id] == d
  }

  predicate HeldAllAlong(desk: Desk, disk: Disk, arrivals: seq<Arrival>, id: string, d: Decision) {
    Holds(DeskAfter(desk, disk, arrivals), id, d)
    && (arrivals == [] || HeldAllAlong(desk, disk, arrivals[..|arrivals| - 1], id, d))
  }

  predicate NoneDrops(arrivals: seq<Arrival>, id: string, d: Decision) {
    forall k :: 0 <= k < |arrivals| ==> !Drops(arrivals[k], id, d)
  }

  /** A decision is held, unchanged, all along a list of arrivals exactly when none
      of them drops it. */
  lemma {:induction false} HeldUntilDropped(desk: Desk, disk: Disk, arrivals: seq<Arrival>, id: string, d: Decision)
    requires id != "" && Holds(desk, id, d)
    ensures HeldAllAlong(desk, disk, arrivals, id, d) <==> NoneDrops(arrivals, id, d)
  {
    if arrivals != [] {
      var earlier, a := arrivals[..|arrivals| - 1], arrivals[|arrivals| - 1];
      HeldUntilDropped(desk, disk, earlier, id, d);
      assert NoneDrops(arrivals, id, d) <==> NoneDrops(earlier, id, d) && !Drops(a, id, d) by {
        assert arrivals == earlier + [a];
      }
      if HeldAllAlong(desk, disk, earlier, id, d) {
        HeldNow(desk, disk, earlier, id, d);
        HeldStep(DeskAfter(desk, disk, earlier), disk, a, id, d);
      }
    }
  }

  lemma HeldNow(desk: Desk, disk: Disk, arrivals: seq<Arrival>, id: string, d: Decision)
    requires HeldAllAlong(desk, disk, arrivals, id, d)
    ensures Holds(DeskAfter(desk, disk, arrivals), id, d)
  {
  }

  lemma HeldStep(desk: Desk, disk: Disk, a: Arrival, id: string, d: Decision)
    requires id != "" && Holds(desk, id, d)
    ensures Holds(Step(desk, disk, a), id, d) <==> !Drops(a, id, d)
  {
  }

  /** So a call that was decided and whose decision nothing dropped is applied once:
      however often it comes again, it gets that decision and changes no file. */
  lemma AppliedOnce(desk: Desk, disk: Disk, arrivals: seq<Arrival>, again: Arrival, d: Decision)
    requires !again.Dropped? && again.call.id != "" && Holds(desk, again.call.id, d)
    requires NoneDrops(arrivals, again.call.id, d)
    ensures var later := DeskAfter(desk, disk, arrivals);
            && DecideStep(later, disk, again.call) == (d, later)
            && Step(later, disk, again).virtual == later.virtual && !Accepts(later, disk, again)
  {
    HeldUntilDropped(desk, disk, arrivals, again.call.id, d);
    HeldNow(desk, disk, arrivals, again.call.id, d);
    RepeatChangesNothing(DeskAfter(desk, disk, arrivals), disk, again);
  }
}
