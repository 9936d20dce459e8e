/** The decisions on Edit and Write calls and the tool-call router's decisions are the
    same ones: each step of the desk is what the router's step does to them. And a
    call whose rejection was told over MCP before Claude's stream brought it. */
module EditRouting {
  import opened Options
  import Session
  import opened Text
  import opened Substrings
  import opened FileEdits
  import opened EditCalls

  // ----- the same decisions

  /** An accepted call is Codex's to run; a rejection is told to Claude. */
  function KindOf(d: Decision): Session.Kind {
    if d.Patch? then Session.Codex else Session.Reject
  }

  function KindsOf(decisions: map<string, Decision>): map<string, Session.Kind> {
    map id | id in decisions :: KindOf(decisions[id])
  }

  function IdsOf(ns: seq<Noted>): (ids: seq<string>)
    ensures |ids| == |ns|
  {
    seq(|ns|, k requires 0 <= k < |ns| => ns[k].id)
  }

  /** The router holds the desk's decisions, and its message the calls noted. */
  predicate Agree(r: Session.Router, desk: Desk) {
    && r.decisions == KindsOf(desk.decisions)
    && r.message == match desk.message case None => None case Some(ns) => Some(IdsOf(ns))
  }

  lemma IdsMore(ns: seq<Noted>, n: Noted)
    ensures IdsOf(ns + [n]) == IdsOf(ns) + [n.id]
  {
  }

  lemma KindsDrop(decisions: map<string, Decision>, ids: set<string>)
    ensures KindsOf(decisions - ids) == KindsOf(decisions) - ids
  {
  }

  lemma DecideAgrees(r: Session.Router, desk: Desk, disk: Disk, call: Call)
    requires Agree(r, desk)
    ensures var (k, r') := Session.Decided(r, call.id, KindOf(Fresh(desk, disk, call)));
            var (d, desk') := DecideStep(desk, disk, call);
            k == KindOf(d) && Agree(r', desk')
  {
    var d := Fresh(desk, disk, call);
    assert KindsOf(desk.decisions[call.id := d]) == KindsOf(desk.decisions)[call.id := KindOf(d)];
  }

  /** A call from the stream. */
  lemma RecordAgrees(r: Session.Router, desk: Desk, disk: Disk, call: Call)
    requires Agree(r, desk)
    ensures Agree(Session.RecordStep(r, call.id, KindOf(Fresh(desk, disk, call))), RecordedStep(desk, disk, call))
  {
    DecideAgrees(r, desk, disk, call);
    var (d, desk') := DecideStep(desk, disk, call);
    if d.Patch? && desk'.message.Some? {
      IdsMore(desk'.message.value, Noted(call.id, d));
    }
  }

  /** A call over MCP; one whose result is queued is called and dropped in one. */
  lemma CallAgrees(r: Session.Router, desk: Desk, disk: Disk, call: Call)
    requires Agree(r, desk)
    ensures var kind := KindOf(Fresh(desk, disk, call)); var called := CalledStep(desk, disk, call);
            Agree(Session.CallStep(r, call.id, kind),
                  if Session.CallReply(r, call.id, kind).Has? then DropStep(called, call.id) else called)
  {
    DecideAgrees(r, desk, disk, call);
    var (d, desk') := DecideStep(desk, disk, call);
    KindsDrop(desk'.decisions, {call.id});
  }

  /** A call answered, and calls cancelled. */
  lemma DropAgrees(r: Session.Router, desk: Desk, c: Session.ChannelId)
    requires Agree(r, desk) && c in r.callers && r.callers[c].Holding?
    ensures Agree(Session.AnswerStep(r, c), DropStep(desk, r.callers[c].id))
  {
    KindsDrop(desk.decisions, {r.callers[c].id});
  }

  lemma CancelAgrees(r: Session.Router, desk: Desk)
    requires Agree(r, desk)
    ensures Agree(Session.CancelPending(r), desk.(decisions := desk.decisions - r.pending.Keys))
  {
    KindsDrop(desk.decisions, r.pending.Keys);
  }

  /** The end of a message: the router hands over exactly the calls the desk does, and
      none of them when no Codex request is open. */
  lemma FlushAgrees(s: Session.State, desk: Desk)
    requires Agree(s.router, desk)
    ensures var s' := Session.FlushStep(s); var ids := IdsOf(HandedOver(desk, s.streams.open.Some?));
            && Agree(s'.router, FlushDesk(desk))
            && s'.router.awaiting == s.router.awaiting + (set id | id in ids)
            && s'.router.marks == s.router.marks + Session.EnteredAll(ids)
            && (ids != [] ==> s'.streams == Session.Complete(s.streams))
  {
    var ids := IdsOf(HandedOver(desk, s.streams.open.Some?));
    if ids == [] {
      assert s.router.awaiting + (set id | id in ids) == s.router.awaiting;
      assert s.router.marks + Session.EnteredAll(ids) == s.router.marks;
    }
  }

  // ----- a rejection that was told

  lemma OneLetter(c: char, e: char, with: string)
    requires c != e
    ensures Count([c], [c]) == 1 && Count([e], [c]) == 0 && ReplaceFirst([c], [c], with) == with
  {
    assert [c][..1] == [c] && [e][..1] == [e] && [c][1..] == [] && [e][1..] == [];
    assert with + [] == with;
  }

  lemma OneLetterLines(c: char)
    requires c != '\n'
    ensures Lines([c]) == [[c]]
  {
    SplitOne([c]);
  }

  /** An Edit of a file's one letter. */
  function LetterEdit(id: string, c: char, d: char): Call {
    Call(id, FileCall(EditFile, "/f", [c], [d], false, ""), true)
  }

  lemma LetterAccepted(desk: Desk, disk: Disk, id: string, c: char, d: char)
    requires c != d && c != '\n' && d != '\n' && ReadFile(desk, disk, "/f") == FileRead.Text([c])
    ensures var f := Fresh(desk, disk, LetterEdit(id, c, d)); f.Patch? && f.change.path == "/f" && f.change.after == [d]
  {
    OneLetter(c, d, [d]);
    OneLetterLines(c);
    OneLetterLines(d);
    ChangesFile(LetterEdit(id, c, d).file, [c], [d]);
  }

  lemma LetterRejected(desk: Desk, disk: Disk, id: string, c: char, d: char, e: char)
    requires c != d && c != e && ReadFile(desk, disk, "/f") == FileRead.Text([e])
    ensures Fresh(desk, disk, LetterEdit(id, c, d)) == Reject(NotFound)
  {
    OneLetter(c, e, [d]);
  }

  /** What an arrival that is accepted does to the view and to what is noted. */
  lemma Takes(desk: Desk, disk: Disk, a: Arrival, path: string, after: string)
    requires Accepts(desk, disk, a)
    requires var c := Fresh(desk, disk, a.call).change; c.path == path && c.after == after
    ensures Step(desk, disk, a).virtual == desk.virtual[path := after]
    ensures desk.message.Some? ==>
              NotedCalls(Step(desk, disk, a)) == NotedCalls(desk) + if a.Recorded? then [Noted(a.call.id, Fresh(desk, disk, a.call))] else []
    ensures forall id :: id != a.call.id ==> (Cached(Step(desk, disk, a), id) <==> Cached(desk, id))
    ensures Step(desk, disk, a).message.Some? <==> desk.message.Some?
  {
  }

  /** A rejection told over MCP leaves no trace. */
  lemma ToldAndGone(desk: Desk, disk: Disk, call: Call)
    requires call.id !in desk.decisions && Fresh(desk, disk, call).Reject?
    ensures Step(desk, disk, Called(call)) == desk
  {
    assert desk.decisions[call.id := Fresh(desk, disk, call)] - {call.id} == desk.decisions;
  }

  /** An Edit is rejected over MCP, and Claude told so; another changes the file; then
      the stream brings the first, and it is decided anew, accepted, noted for Codex
      and in the view. */
  lemma RejectedThenAccepted()
    ensures var disk: Disk := path => if path == "/f" then FileRead.Text("x") else Missing;
            var start := Desk(map[], map[], Some([]));
            var a, b := LetterEdit("a", 'y', 'z'), LetterEdit("b", 'x', 'y');
            var one := Step(start, disk, Called(a)); var two := Step(one, disk, Called(b)); var three := Step(two, disk, Recorded(a));
            && DecideStep(start, disk, a).0 == Reject(NotFound)
            && DecideStep(two, disk, a).0.Patch?
            && two.virtual == map["/f" := "y"] && three.virtual == map["/f" := "z"]
            && |HandedOver(three, true)| == 1 && HandedOver(three, true)[0].id == "a"
  {
    var disk: Disk := path => if path == "/f" then FileRead.Text("x") else Missing;
    var start := Desk(map[], map[], Some([]));
    var a, b := LetterEdit("a", 'y', 'z'), LetterEdit("b", 'x', 'y');
    LetterRejected(start, disk, "a", 'y', 'z', 'x');
    ToldAndGone(start, disk, a);
    LetterAccepted(start, disk, "b", 'x', 'y');
    Takes(start, disk, Called(b), "/f", "y");
    var two := Step(start, disk, Called(b));
    LetterAccepted(two, disk, "a", 'y', 'z');
    Takes(two, disk, Recorded(a), "/f", "z");
  }
}
