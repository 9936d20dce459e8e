/** What every step of a session comes to: how it leaves the open Codex request, what
    Claude is told, whether its turn runs then, and which of its calls are cancelled. */
module StepOutcome {
  import opened Options
  import Seen
  import opened Session
  import opened RouterSafety
  import opened RequestOutcome
  import Mail
  import SessionSafety

  // ----- steps that take a request's items

  /** A request for another effort level, between turns: Claude is restarted first. */
  predicate Switches(s: State, a: Action) {
    a.Serve? && !a.compacts && a.changesEffort && !s.turn.running && s.router.pending == map[]
  }

  /** A request's items are taken now, or once Claude has been restarted for it. */
  predicate TakesItems(s: State, a: Action) {
    || (a.Serve? && !a.compacts && !Switches(s, a))
    || (a.Resume? && a.st in s.streams.switching && a.started && s.streams.open == Some(a.st))
  }

  function RequestItems(s: State, a: Action): seq<Item>
    requires TakesItems(s, a)
  {
    if a.Serve? then a.items else s.streams.switching[a.st]
  }

  /** Claude runs and the message to it gets through. */
  predicate GetsThrough(s: State, a: Action) {
    || (a.Serve? && s.turn.alive && a.sends)
    || (a.Resume? && a.sends)
  }

  lemma ContentSame(s: State, s1: State, env: Env, items: seq<Item>)
    requires s1.router == s.router && s1.disk == s.disk && s1.turn == s.turn.(alive := s1.turn.alive)
    ensures ContentOf(s1, env, items) == ContentOf(s, env, items)
  {
  }

  /** The session that takes the items: its stream is open, and Claude runs if it was
      restarted. */
  function Taking(s: State, a: Action): State
    requires TakesItems(s, a)
  {
    if a.Serve? then s.(streams := During(s.streams, a))
    else s.(streams := s.streams.(switching := s.streams.switching - {a.st}), turn := s.turn.(alive := true))
  }

  lemma ItemsTaken(s: State, env: Env, a: Action)
    requires TakesItems(s, a)
    ensures Next(s, env, a) == TakeRequest(Taking(s, a), env, RequestItems(s, a), a.sends)
    ensures TakenAs(Taking(s, a), Next(s, env, a), ContentOf(s, env, RequestItems(s, a)), GetsThrough(s, a))
  {
    var s1 := Taking(s, a);
    RequestDoes(s1, env, RequestItems(s, a), a.sends);
    ContentSame(s, s1, env, RequestItems(s, a));
  }

  // ----- the open request

  /** How a step leaves the open request: it stays open, completes, fails, or is closed
      without a word because Codex left. */
  datatype Outcome = Stays | Completes | Fails | Left

  /** A compaction asked for in a turn is answered at once, and otherwise waits for
      Claude, if it takes the command. */
  function ServeOutcome(s: State, a: Action): Outcome
    requires a.Serve?
  {
    if a.compacts && s.turn.running then Completes
    else if a.compacts then if GetsThrough(s, a) then Stays else Fails
    else if s.turn.alive then Stays else Fails
  }

  /** A turn that ends completes the open request if it succeeded and fails it if not;
      with a compaction asked for, only the request that asked for it, and a
      compaction carried out completes it either way. */
  function FinishOutcome(s: State, success: bool): Outcome {
    if s.turn.stopping then Stays
    else match s.turn.compaction
      case None => if success then Completes else Fails
      case Some(c) =>
        if s.streams.open != Some(c.stream) then Stays else if success || c.done then Completes else Fails
  }

  function OutcomeOf(s: State, env: Env, a: Action): Outcome {
    if TakesItems(s, a) then
      if KeepsOpen(s.turn, ContentOf(s, env, RequestItems(s, a)), GetsThrough(s, a)) then Stays else Fails
    else match a
      case Serve(_, _, _, _, _) => ServeOutcome(s, a)
      case Resume(st, started, _) => if st in s.streams.switching && !started then Fails else Stays
      case MessageStop => if s.router.message.Some? && s.router.message.value != [] then Completes else Stays
      case FinishTurn(success) => FinishOutcome(s, success)
      case Disconnect(st) => if s.streams.open == Some(st) then Left else Stays
      case Watchdog => if s.turn.running && s.router.pending == map[] then Fails else Stays
      case ProcessExits => if s.turn.stopping then Stays else Fails
      case Shutdown => Fails
      case _ => Stays
  }

  /** The streams with the request of this step open: a new one replaces the old, which
      is closed without a word. */
  function During(t: Streams, a: Action): Streams {
    if a.Serve? then
      t.(open := Some(a.st), served := t.served + {a.st}, output := 0, reasoning := 0,
         finished := if t.open.Some? then t.finished + {t.open.value} else t.finished)
    else t
  }

  /** A request that completes is told the counts, one that fails that it failed, unless
      its connection had broken; nothing else is told. */
  predicate ComesTo(t: Streams, t': Streams, o: Outcome) {
    match t.open
    case None => t'.open == None && t'.reports == t.reports && t'.failures == t.failures
    case Some(st) =>
      && t'.open == (if o.Stays? then Some(st) else None)
      && (!o.Stays? ==> st in t'.finished)
      && t'.reports == t.reports + (if o.Completes? && st !in t.finished then [Report(st, t.output, t.reasoning)] else [])
      && t'.failures == t.failures + (if o.Fails? && st !in t.finished then [st] else [])
  }

  lemma TakenComes(s: State, s': State, c: Content, takes: bool)
    requires TakenAs(s, s', c, takes)
    ensures ComesTo(s.streams, s'.streams, if KeepsOpen(s.turn, c, takes) then Stays else Fails)
  {
  }

  lemma ServeComes(s: State, env: Env, a: Action)
    requires a.Serve? && !TakesItems(s, a)
    ensures ComesTo(During(s.streams, a), Next(s, env, a).streams, ServeOutcome(s, a))
  {
    assert OpenStream(s.streams, a.st) == During(s.streams, a);
  }

  lemma FinishComes(s: State, success: bool)
    ensures ComesTo(s.streams, FinishStep(s, success).streams, FinishOutcome(s, success))
  {
  }

  lemma OthersCome(s: State, env: Env, a: Action)
    requires !a.Serve? && !a.FinishTurn? && !TakesItems(s, a)
    ensures ComesTo(s.streams, Next(s, env, a).streams, OutcomeOf(s, env, a))
  {
  }

  /** Every step leaves the open request as this says, and no other: it completes, fails
      or is closed on exactly these grounds, and stays open otherwise. */
  lemma EndsExactlyWhen(s: State, env: Env, a: Action)
    ensures ComesTo(During(s.streams, a), Next(s, env, a).streams, OutcomeOf(s, env, a))
  {
    if TakesItems(s, a) {
      var s1, c := Taking(s, a), ContentOf(s, env, RequestItems(s, a));
      ItemsTaken(s, env, a);
      TakenComes(s1, Next(s, env, a), c, GetsThrough(s, a));
    } else if a.Serve? {
      ServeComes(s, env, a);
    } else if a.FinishTurn? {
      FinishComes(s, a.success);
    } else {
      OthersCome(s, env, a);
    }
  }

  // ----- Claude's turn

  /** What goes out to Claude in a step, whether or not it gets there. */
  function GoesIn(s: State, env: Env, a: Action): Option<ToClaude> {
    if TakesItems(s, a) then Goes(s.turn, ContentOf(s, env, RequestItems(s, a)))
    else if a.Serve? && a.compacts && !s.turn.running then Some(Command("/compact"))
    else None
  }

  /** The end of a turn, as far as it is acted on. */
  predicate TurnEnds(s: State, a: Action) {
    a.FinishTurn? && !s.turn.stopping
  }

  /** A compaction of Codex's has been answered: at once in a running turn, or at the end
      of one unless it failed on the request that waits for it. */
  predicate Compacts(s: State, a: Action) {
    || (a.Serve? && a.compacts && s.turn.running)
    || (TurnEnds(s, a) && s.turn.compaction.Some?
        && !(s.streams.open == Some(s.turn.compaction.value.stream) && !s.turn.compaction.value.done && !a.success))
  }

  /** Claude is told at most one thing in a step. Its turn runs from then on until it
      ends, so what runs is known from what was told. */
  predicate TurnFollows(s: State, t': Turn, env: Env, a: Action) {
    var t, out := s.turn, GoesIn(s, env, a);
    var told := out.Some? && GetsThrough(s, a);
    && t'.sent == t.sent + (if told then [out.value] else [])
    && (t'.running <==> told || (t.running && !TurnEnds(s, a)))
    && (t'.strict <==> Compacts(s, a) || (t.strict && !TakesItems(s, a)))
    && (t'.interrupted <==> t.interrupted && (out == None || out.value.Command?))
    && t'.nudges == t.nudges + (if out == Some(Nudge) then 1 else 0)
    && (t'.stopping <==> t.stopping || a.Shutdown?)
  }

  /** Blocks are held back behind a command, and go, with those held before, with the next
      blocks that go out. */
  predicate HoldsBack(s: State, t': Turn, env: Env, a: Action) {
    var blocks := if TakesItems(s, a) then ContentOf(s, env, RequestItems(s, a)).blocks else [];
    var out := GoesIn(s, env, a);
    t'.held == if out.Some? && out.value.Blocks? then [] else s.turn.held + blocks
  }

  /** Claude compacts for a request from when it takes the command until its turn ends,
      and has done so once it says so. */
  predicate CompactionFollows(s: State, t': Turn, a: Action) {
    t'.compaction ==
    if a.Serve? && a.compacts && !s.turn.running then if GetsThrough(s, a) then Some(Compaction(a.st, false)) else None
    else if TurnEnds(s, a) then None
    else if a.Compacted? && s.turn.compaction.Some? then Some(Compaction(s.turn.compaction.value.stream, true))
    else s.turn.compaction
  }

  /** Claude runs until it exits, is closed, or is stopped for another effort level; and
      again once it has been restarted. */
  predicate RunsFollow(s: State, t': Turn, a: Action) {
    t'.alive <==>
      || (a.Resume? && a.st in s.streams.switching && a.started)
      || (s.turn.alive && !Switches(s, a) && !a.ProcessExits? && !a.Close?)
  }

  predicate Follows(s: State, t': Turn, env: Env, a: Action) {
    TurnFollows(s, t', env, a) && HoldsBack(s, t', env, a) && CompactionFollows(s, t', a) && RunsFollow(s, t', a)
  }

  lemma HeldSame(held: seq<string>)
    ensures held + [] == held
  {
  }

  lemma TakenFollows(s: State, t': Turn, env: Env, a: Action)
    requires TakesItems(s, a)
    requires t' == TurnThen(Taking(s, a).turn, ContentOf(s, env, RequestItems(s, a)), GetsThrough(s, a))
    ensures Follows(s, t', env, a)
  {
    HeldSame(s.turn.held);
  }

  lemma CompactFollows(s: State, env: Env, a: Action)
    requires a.Serve? && !TakesItems(s, a)
    ensures Follows(s, Next(s, env, a).turn, env, a)
  {
    HeldSame(s.turn.held);
    assert s.turn.sent + [] == s.turn.sent;
  }

  lemma FinishFollows(s: State, env: Env, a: Action)
    requires a.FinishTurn?
    ensures Follows(s, Next(s, env, a).turn, env, a)
  {
    HeldSame(s.turn.held);
    assert s.turn.sent + [] == s.turn.sent;
  }

  /** Steps that leave Claude's turn to itself. */
  predicate OfRouter(a: Action) {
    || a.MessageStart? || a.RecordCall? || a.CallTool? || a.Receive? || a.Answer? || a.HangUp? || a.Leave?
    || a.MessageDelta? || a.WriteFails?
  }

  /** Steps that end a message or close a request, but leave Claude's turn as it is. */
  predicate OfStreams(a: Action) {
    a.Disconnect? || a.MessageStop? || a.Watchdog?
  }

  lemma SameTurn(s: State, env: Env, a: Action)
    requires OfRouter(a) || OfStreams(a)
    ensures Next(s, env, a).turn == s.turn
  {
  }

  lemma LeftAlone(s: State, t': Turn, env: Env, a: Action)
    requires (OfRouter(a) || OfStreams(a)) && t' == s.turn
    ensures Follows(s, t', env, a)
  {
    HeldSame(s.turn.held);
    assert s.turn.sent + [] == s.turn.sent;
  }

  lemma OthersFollow(s: State, env: Env, a: Action)
    requires a.Resume? || a.Compacted? || a.ProcessExits? || a.Close? || a.Shutdown?
    requires !TakesItems(s, a)
    ensures Follows(s, Next(s, env, a).turn, env, a)
  {
    HeldSame(s.turn.held);
    assert s.turn.sent + [] == s.turn.sent;
  }

  /** What every step makes of Claude's turn, from what it brings. */
  lemma TurnExactly(s: State, env: Env, a: Action)
    ensures Follows(s, Next(s, env, a).turn, env, a)
  {
    if TakesItems(s, a) {
      ItemsTaken(s, env, a);
      TakenFollows(s, Next(s, env, a).turn, env, a);
    } else if a.Serve? {
      CompactFollows(s, env, a);
    } else if a.FinishTurn? {
      FinishFollows(s, env, a);
    } else if OfRouter(a) || OfStreams(a) {
      SameTurn(s, env, a);
      LeftAlone(s, Next(s, env, a).turn, env, a);
    } else {
      OthersFollow(s, env, a);
    }
  }

  // ----- cancelled calls

  /** The pending call's channel holds the error, for the call to take, and the call is
      pending no more. */
  predicate CancelledBy(r: Router, r': Router, id: string)
    requires id in r.pending
  {
    id !in r'.pending && r.pending[id] in r'.channels && r'.channels[r.pending[id]] == Channel(id, [CANCELLED], 1)
  }

  /** New messages cancel the calls when no result comes with them; the user's stop, the
      watchdog, an exit and a close cancel them too. */
  predicate Cancels(s: State, env: Env, a: Action) {
    if TakesItems(s, a) then var c := ContentOf(s, env, RequestItems(s, a)); c.spoken != [] && !c.resumed
    else match a
      case Disconnect(st) => s.streams.open == Some(st) && s.turn.running
      case ProcessExits => !s.turn.stopping
      case Close => true
      case _ => false
  }

  /** Routing gives a pending call its own result or leaves it pending. */
  lemma RoutingCancelsNone(r: Router, running: bool, outputs: seq<Item>, carrier: int, mail: seq<string>, id: string)
    requires Sound(r) && id in r.pending
    ensures var r' := DeliverAll(r, running, outputs, |outputs|, carrier, mail);
            && Sound(r') && !CancelledBy(r, r', id)
            && (Carrier(r, running, outputs) < 0 ==> id in r'.pending && r'.pending[id] == r.pending[id])
  {
    var n := |outputs|;
    DeliverAllSound(r, running, outputs, n, carrier, mail);
    Mail.AfterRouting(r, running, outputs, n, carrier, mail, id);
    Mail.CarrierIsLast(r, running, outputs);
    if id in r.awaiting && !Mail.IsFirst(outputs, n, id) {
      var i := FirstAnswer(outputs, n, id);
      assert Resumes(r, running, outputs[i].callId);
      Mail.FirstResultArrives(r, running, outputs, i, carrier, mail);
    }
  }

  lemma FirstAnswer(outputs: seq<Item>, n: nat, id: string) returns (i: nat)
    requires n <= |outputs| && !Mail.IsFirst(outputs, n, id)
    ensures i < n && outputs[i].callId == id && Mail.IsFirst(outputs, i, id)
  {
    if Mail.IsFirst(outputs, n - 1, id) {
      i := n - 1;
    } else {
      i := FirstAnswer(outputs, n - 1, id);
    }
  }

  lemma PassOnRouters(s: State, env: Env, messages: seq<Item>, orphans: seq<Item>, resumed: bool, sends: bool)
    ensures PassOn(s, env, messages, orphans, resumed, sends).router ==
            if messages != [] && !resumed && s.router.pending != map[] then CancelPending(s.router) else s.router
  {
  }

  lemma PassOnCancels(s: State, q: Mail.Routed, env: Env, sends: bool, id: string)
    requires Sound(s.router) && Sound(q.session.router) && id in s.router.pending
    requires !CancelledBy(s.router, q.session.router, id)
    requires q.carrier < 0 ==> id in q.session.router.pending && q.session.router.pending[id] == s.router.pending[id]
    ensures CancelledBy(s.router, PassOn(q.session, env, q.rest, q.orphans, q.carrier >= 0, sends).router, id)
            <==> q.rest != [] && q.carrier < 0
  {
    PassOnRouters(q.session, env, q.rest, q.orphans, q.carrier >= 0, sends);
    if q.rest != [] && q.carrier < 0 {
      CancelAnswersAll(q.session.router, id);
    }
  }

  lemma RouteCancels(s: State, env: Env, messages: seq<Item>, outputs: seq<Item>, sends: bool, q: Mail.Routed, id: string)
    requires Sound(s.router) && id in s.router.pending && q == Mail.RoutedBy(s, env, messages, outputs)
    ensures CancelledBy(s.router, RouteRequest(s, env, messages, outputs, sends).router, id) <==> q.rest != [] && q.carrier < 0
  {
    Mail.RouteThenPass(s, env, messages, outputs, sends, q);
    RoutedParts(s, env, messages, outputs, q);
    RoutingCancelsNone(s.router, s.turn.running, outputs, q.carrier, q.mail, id);
    PassOnCancels(s, q, env, sends, id);
  }

  lemma ContentRest(env: Env, resumed: bool, rest: seq<Item>, orphans: seq<Item>)
    ensures ContentFrom(env, resumed, rest, orphans).spoken == rest && ContentFrom(env, resumed, rest, orphans).resumed == resumed
  {
  }

  lemma TakenCancels(s: State, env: Env, items: seq<Item>, sends: bool, id: string)
    requires Sound(s.router) && id in s.router.pending
    ensures var c := ContentOf(s, env, items);
            CancelledBy(s.router, TakeRequest(s, env, items, sends).router, id) <==> c.spoken != [] && !c.resumed
  {
    var s1 := LookedAt(s, env, items).(turn := s.turn.(strict := false));
    var messages, outputs := MessagesOf(s, env, items), OutputsOf(items);
    FirstLooks(s, env, items, sends, s1, messages, outputs);
    var q, q1 := Mail.RoutedBy(s, env, messages, outputs), Mail.RoutedBy(s1, env, messages, outputs);
    ContentParts(s, env, items, messages, outputs, q);
    ContentRest(env, q.carrier >= 0, q.rest, q.orphans);
    RoutedSame(s, s1, env, messages, outputs);
    RouteCancels(s1, env, messages, outputs, sends, q1, id);
  }

  lemma KeepsCancelNone(s: State, env: Env, a: Action, id: string)
    requires Sound(s.router) && id in s.router.pending && !TakesItems(s, a) && !OfRouter(a) && !Cancels(s, env, a)
    ensures !CancelledBy(s.router, Next(s, env, a).router, id)
  {
    assert WaitsOn(s.router, id, s.router.pending[id]);
  }

  lemma RouterCancelsNone(s: State, env: Env, a: Action, id: string)
    requires Sound(s.router) && id in s.router.pending && OfRouter(a)
    ensures !CancelledBy(s.router, Next(s, env, a).router, id)
  {
    RouterOnly(s, env, a);
    StepCancelsNone(s.router, a, id);
  }

  lemma StepCancelsNone(r: Router, a: Action, id: string)
    requires Sound(r) && id in r.pending
    ensures !CancelledBy(r, RouterStep(r, a), id)
  {
    assert WaitsOn(r, id, r.pending[id]);
  }

  lemma OthersCancel(s: State, env: Env, a: Action, id: string)
    requires Sound(s.router) && id in s.router.pending && !TakesItems(s, a) && Cancels(s, env, a)
    ensures CancelledBy(s.router, Next(s, env, a).router, id)
  {
    CancelAnswersAll(s.router, id);
  }

  /** A pending call is cancelled in a step exactly on these grounds. */
  lemma CancelsExactlyWhen(s: State, env: Env, a: Action, id: string)
    requires Sound(s.router) && id in s.router.pending
    ensures CancelledBy(s.router, Next(s, env, a).router, id) <==> Cancels(s, env, a)
  {
    if TakesItems(s, a) {
      var s1 := Taking(s, a);
      ItemsTaken(s, env, a);
      ContentSame(s, s1, env, RequestItems(s, a));
      TakenCancels(s1, env, RequestItems(s, a), a.sends, id);
    } else if OfRouter(a) {
      RouterCancelsNone(s, env, a, id);
    } else if Cancels(s, env, a) {
      OthersCancel(s, env, a, id);
    } else {
      KeepsCancelNone(s, env, a, id);
    }
  }

  // ----- awaited calls

  predicate Brings(items: seq<Item>, id: string) {
    exists k :: 0 <= k < |items| && items[k].IsToolOutput() && items[k].callId == id
  }

  /** The user's stop and the watchdog interrupt a running turn, and a close whatever
      there is: then Claude waits for no call any more. */
  predicate Interrupts(s: State, a: Action) {
    match a
    case Disconnect(st) => s.streams.open == Some(st) && s.turn.running
    case Watchdog => s.streams.open.Some? && s.turn.running && s.router.pending == map[]
    case Close => true
    case _ => false
  }

  /** Claude stops waiting for a call's result exactly when a request brings it, the
      pending call is cancelled, or the turn is interrupted. */
  lemma WaitEndsExactlyWhen(s: State, env: Env, a: Action, id: string)
    requires id in s.router.awaiting
    ensures id !in Next(s, env, a).router.awaiting <==>
            || (TakesItems(s, a) && Brings(RequestItems(s, a), id))
            || (Cancels(s, env, a) && id in s.router.pending)
            || Interrupts(s, a)
  {
    if TakesItems(s, a) {
      var s1 := Taking(s, a);
      ItemsTaken(s, env, a);
      ContentSame(s, s1, env, RequestItems(s, a));
      TakenWaits(s1, env, RequestItems(s, a), a.sends, id);
    } else if OfRouter(a) {
      RouterWaits(s, env, a, id);
    } else {
      OthersWait(s, env, a, id);
    }
  }

  lemma RouterWaits(s: State, env: Env, a: Action, id: string)
    requires OfRouter(a)
    ensures id in Next(s, env, a).router.awaiting <==> id in s.router.awaiting
  {
    RouterStepWaits(s.router, a);
    RouterOnly(s, env, a);
  }

  lemma RouterOnly(s: State, env: Env, a: Action)
    requires OfRouter(a)
    ensures Next(s, env, a).router == RouterStep(s.router, a)
  {
  }

  lemma OthersWait(s: State, env: Env, a: Action, id: string)
    requires id in s.router.awaiting && !TakesItems(s, a) && !OfRouter(a)
    ensures id !in Next(s, env, a).router.awaiting <==> (Cancels(s, env, a) && id in s.router.pending) || Interrupts(s, a)
  {
  }

  lemma BroughtAnswers(items: seq<Item>, id: string)
    ensures Brings(items, id) <==> !Mail.IsFirst(Brought(items, |items|), |Brought(items, |items|)|, id)
  {
    var outputs := Brought(items, |items|);
    if Brings(items, id) {
      var k :| 0 <= k < |items| && items[k].IsToolOutput() && items[k].callId == id;
      BroughtAt(items, |items|, k);
    }
    if !Mail.IsFirst(outputs, |outputs|, id) {
      var j := FirstAnswer(outputs, |outputs|, id);
      var i := BroughtFrom(items, |items|, j);
    }
  }

  /** The router once the outputs are routed, for one call that is awaited. */
  lemma PassOnWaits(s: State, q: Mail.Routed, env: Env, sends: bool, id: string, answered: bool)
    requires id in s.router.awaiting
    requires id in q.session.router.awaiting <==> !answered
    requires !answered ==> (id in q.session.router.pending <==> id in s.router.pending)
    ensures id !in PassOn(q.session, env, q.rest, q.orphans, q.carrier >= 0, sends).router.awaiting
            <==> answered || (q.rest != [] && q.carrier < 0 && id in s.router.pending)
  {
    PassOnRouters(q.session, env, q.rest, q.orphans, q.carrier >= 0, sends);
  }

  lemma TakenWaits(s: State, env: Env, items: seq<Item>, sends: bool, id: string)
    requires id in s.router.awaiting
    ensures var c := ContentOf(s, env, items);
            id !in TakeRequest(s, env, items, sends).router.awaiting
            <==> Brings(items, id) || (c.spoken != [] && !c.resumed && id in s.router.pending)
  {
    var s1 := LookedAt(s, env, items).(turn := s.turn.(strict := false));
    var messages, outputs := MessagesOf(s, env, items), OutputsOf(items);
    FirstLooks(s, env, items, sends, s1, messages, outputs);
    var q, q1 := Mail.RoutedBy(s, env, messages, outputs), Mail.RoutedBy(s1, env, messages, outputs);
    ContentParts(s, env, items, messages, outputs, q);
    ContentRest(env, q.carrier >= 0, q.rest, q.orphans);
    RoutedSame(s, s1, env, messages, outputs);
    Mail.RouteThenPass(s1, env, messages, outputs, sends, q1);
    OutputsAreBrought(items, |items|);
    BroughtAnswers(items, id);
    Mail.AfterRouting(s.router, s.turn.running, outputs, |outputs|, q.carrier, q.mail, id);
    PassOnWaits(s1, q1, env, sends, id, Brings(items, id));
  }

  // ----- saves

  /** A save follows each message Claude takes, each end of a turn, and each hand-over of
      calls. */
  predicate Saves(s: State, env: Env, a: Action) {
    || (GoesIn(s, env, a).Some? && GetsThrough(s, a))
    || TurnEnds(s, a)
    || (a.MessageStop? && s.router.message.Some? && s.router.message.value != [] && s.streams.open.Some?)
  }

  /** What is on disk is the turn, the awaited calls and what has been seen as they are
      after the last such step. */
  predicate SavedThen(s: State, s': State, saves: bool) {
    var seen := s'.disk.seen;
    && s'.disk.saved == (if saves
                         then Saved(s'.turn.running, s'.router.awaiting, Seen.Newest(seen.ids, 20_000), Seen.Newest(seen.hashes, 20_000))
                         else s.disk.saved)
    && (s'.disk.savedHere <==> s.disk.savedHere || saves)
  }

  lemma PassOnSaves(s: State, env: Env, messages: seq<Item>, orphans: seq<Item>, c: Content, sends: bool)
    requires Matches(env, messages, orphans, c)
    ensures var s' := PassOn(s, env, messages, orphans, c.resumed, sends);
            SavedThen(s, s', Goes(s.turn, c).Some? && s.turn.alive && sends) && s'.disk.seen == s.disk.seen
  {
    GoesOut(s.turn, env, messages, orphans, c);
  }

  lemma TakenSaves(s: State, env: Env, items: seq<Item>, sends: bool)
    ensures SavedThen(s, TakeRequest(s, env, items, sends), Goes(s.turn, ContentOf(s, env, items)).Some? && s.turn.alive && sends)
  {
    var s1 := LookedAt(s, env, items).(turn := s.turn.(strict := false));
    var messages, outputs := MessagesOf(s, env, items), OutputsOf(items);
    FirstLooks(s, env, items, sends, s1, messages, outputs);
    var q, q1 := Mail.RoutedBy(s, env, messages, outputs), Mail.RoutedBy(s1, env, messages, outputs);
    ContentParts(s, env, items, messages, outputs, q);
    RoutedSame(s, s1, env, messages, outputs);
    Mail.RouteThenPass(s1, env, messages, outputs, sends, q1);
    FromMatches(env, q.carrier >= 0, q.rest, q.orphans);
    PassOnSaves(q1.session, env, q1.rest, q1.orphans, ContentOf(s, env, items), sends);
  }

  lemma OthersSave(s: State, env: Env, a: Action)
    requires !TakesItems(s, a)
    ensures SavedThen(s, Next(s, env, a), Saves(s, env, a))
  {
  }

  /** In every step what is on disk stays, or is saved on exactly these grounds. */
  lemma SavesExactlyWhen(s: State, env: Env, a: Action)
    ensures SavedThen(s, Next(s, env, a), Saves(s, env, a))
  {
    if TakesItems(s, a) {
      var s1 := Taking(s, a);
      ItemsTaken(s, env, a);
      ContentSame(s, s1, env, RequestItems(s, a));
      TakenSaves(s1, env, RequestItems(s, a), a.sends);
    } else {
      OthersSave(s, env, a);
    }
  }

  /** What Codex sends counts as seen exactly when its items are taken, or it is a request
      to compact. */
  lemma SeenExactlyWhen(s: State, env: Env, a: Action)
    ensures var items := if TakesItems(s, a) then RequestItems(s, a) else if a.Serve? && a.compacts then a.items else [];
            Next(s, env, a).disk.seen == Seen.SeenAfter(env.hash, items, |items|, s.disk.seen)
  {
    if TakesItems(s, a) {
      ItemsTaken(s, env, a);
      SessionSafety.TakeRequestSeen(Taking(s, a), env, RequestItems(s, a), a.sends);
    }
  }
}
