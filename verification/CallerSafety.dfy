/** What holds of the MCP calls that wait, in every run: each is tied to a result or
    to the place its result will come to, unless another call took its place. */
module CallerSafety {
  import opened Options
  import opened Session
  import opened RouterSafety

  /** The channel whose call loses its place when another MCP call comes under the
      same id. */
  function Displaced(r: Router, a: Action): set<ChannelId> {
    match a
    case CallTool(id, kind) => if CallReply(r, id, kind).WaitsFor? && id in r.pending then {r.pending[id]} else {}
    case _ => {}
  }

  /** The channels that lost their place in a run. */
  function LostPlace(saved: Saved, env: Env, actions: seq<Action>): set<ChannelId> {
    if actions == [] then {}
    else
      var before := actions[..|actions| - 1];
      LostPlace(saved, env, before) + Displaced(Run(saved, env, before).router, actions[|actions| - 1])
  }

  /** A waiting call's channel is its own, and holds its result or is the one its
      result will come on, unless it lost its place. */
  predicate Tied(r: Router, lost: set<ChannelId>, c: ChannelId)
    requires c in r.callers
  {
    && c in r.channels
    && (r.callers[c].Waiting? ==>
          r.channels[c].owner == r.callers[c].id && (c in lost || |r.channels[c].holds| == 1 || PendingOn(r, c)))
  }

  /** Nothing was ever sent on the channel, and nothing will be. */
  predicate Dead(r: Router, c: ChannelId) {
    c in r.channels && r.channels[c].sends == 0 && r.channels[c].holds == [] && !PendingOn(r, c)
  }

  predicate CallersTied(r: Router, lost: set<ChannelId>) {
    (forall c :: c in r.callers ==> Tied(r, lost, c)) && (forall c :: c in lost ==> Dead(r, c))
  }

  predicate GotResult(c: Channel, c': Channel) {
    c'.owner == c.owner && |c'.holds| == 1
  }

  /** Callers stay tied where each channel still pending stays so, and each that is
      not any more got its result. */
  predicate Moves(r: Router, r': Router) {
    && r'.callers == r.callers && r'.channels.Keys == r.channels.Keys
    && (forall c :: c in r.channels ==>
          || (r'.channels[c] == r.channels[c] && (PendingOn(r', c) <==> PendingOn(r, c)))
          || (PendingOn(r, c) && !PendingOn(r', c) && GotResult(r.channels[c], r'.channels[c])))
  }

  lemma MovesTied(r: Router, r': Router, lost: set<ChannelId>)
    requires CallersTied(r, lost) && Moves(r, r')
    ensures CallersTied(r', lost)
  {
    forall c | c in r'.callers ensures Tied(r', lost, c) {
      assert Tied(r, lost, c);
    }
    forall c | c in lost ensures Dead(r', c) {
      assert Dead(r, c);
    }
  }

  lemma DeliverMoves(r: Router, running: bool, id: string, result: Result)
    requires Sound(r)
    ensures Moves(r, Deliver(r, running, id, result))
  {
    if Destination(r, running, id) == Delivered {
      DeliversOnOwnChannel(r, running, id, result);
    }
  }

  lemma {:induction false} DeliverAllTied(r: Router, running: bool, outputs: seq<Item>, n: nat, carrier: int, mail: seq<string>, lost: set<ChannelId>)
    requires n <= |outputs| && Sound(r) && CallersTied(r, lost)
    ensures CallersTied(DeliverAll(r, running, outputs, n, carrier, mail), lost)
  {
    if n > 0 {
      var before := DeliverAll(r, running, outputs, n - 1, carrier, mail);
      var id, result := outputs[n - 1].callId, ResultOf(outputs, n - 1, carrier, mail);
      DeliverAllTied(r, running, outputs, n - 1, carrier, mail, lost);
      DeliverAllSound(r, running, outputs, n - 1, carrier, mail);
      DeliverMoves(before, running, id, result);
      MovesTied(before, Deliver(before, running, id, result), lost);
    }
  }

  lemma CancelTied(r: Router, lost: set<ChannelId>)
    requires Sound(r) && CallersTied(r, lost)
    ensures CallersTied(CancelPending(r), lost) && CallersTied(Interrupt(r), lost)
  {
    forall c | c in r.channels && PendingOn(r, c) ensures |CancelPending(r).channels[c].holds| == 1 {
      assert WaitsOn(r, r.channels[c].owner, c);
    }
    MovesTied(r, CancelPending(r), lost);
    MovesTied(CancelPending(r), Interrupt(r), lost);
  }

  lemma SameTied(r: Router, r': Router, lost: set<ChannelId>)
    requires CallersTied(r, lost) && SameCalls(r, r')
    ensures CallersTied(r', lost)
  {
    MovesTied(r, r', lost);
  }

  /** A call that starts to wait takes the place of an earlier one under its id. */
  lemma RegisterTied(r: Router, id: string, lost: set<ChannelId>)
    requires Sound(r) && CallersTied(r, lost)
    ensures CallersTied(Register(r, id), lost + if id in r.pending then {r.pending[id]} else {})
  {
    var r', lost' := Register(r, id), lost + if id in r.pending then {r.pending[id]} else {};
    if id in r.pending {
      assert WaitsOn(r, id, r.pending[id]);
    }
    forall c | c in r'.callers ensures Tied(r', lost', c) {
      if c != r.nextChannel {
        assert Tied(r, lost, c);
      }
    }
    forall c | c in lost' ensures Dead(r', c) {
      if c in lost {
        assert Dead(r, c);
      }
    }
  }

  /** An MCP call registers, or leaves all calls as they are. */
  lemma CallCases(r: Router, id: string, kind: Kind)
    ensures var r1, r' := Decided(r, id, kind).1, CallStep(r, id, kind);
            if CallReply(r, id, kind).WaitsFor? then r' == Register(r1, id) else SameCalls(r1, r')
  {
  }

  lemma RecordSame(r: Router, id: string, kind: Kind)
    ensures SameCalls(r, RecordStep(r, id, kind))
  {
    DecidedSame(r, id, kind);
  }

  lemma CallTied(r: Router, id: string, kind: Kind, lost: set<ChannelId>)
    requires Sound(r) && CallersTied(r, lost)
    ensures CallersTied(CallStep(r, id, kind), lost + Displaced(r, CallTool(id, kind)))
  {
    var r1 := Decided(r, id, kind).1;
    DecidedSame(r, id, kind);
    SameCallsSound(r, r1);
    SameTied(r, r1, lost);
    CallCases(r, id, kind);
    if CallReply(r, id, kind).WaitsFor? {
      RegisterTied(r1, id, lost);
    } else {
      assert lost + {} == lost;
      SameTied(r1, CallStep(r, id, kind), lost);
    }
  }

  lemma ReceiveTied(r: Router, c: ChannelId, lost: set<ChannelId>)
    requires CallersTied(r, lost)
    ensures CallersTied(ReceiveStep(r, c), lost)
  {
    forall c' | c' in r.callers ensures Tied(ReceiveStep(r, c), lost, c') {
      assert Tied(r, lost, c');
    }
    forall c' | c' in lost ensures Dead(ReceiveStep(r, c), c') {
      assert Dead(r, c');
    }
  }

  lemma AnswerTied(r: Router, c: ChannelId, lost: set<ChannelId>)
    requires CallersTied(r, lost)
    ensures CallersTied(AnswerStep(r, c), lost)
  {
    forall c' | c' in r.callers ensures Tied(AnswerStep(r, c), lost, c') {
      assert Tied(r, lost, c');
    }
    forall c' | c' in lost ensures Dead(AnswerStep(r, c), c') {
      assert Dead(r, c');
    }
  }

  lemma HangUpTied(r: Router, c: ChannelId, lost: set<ChannelId>)
    requires CallersTied(r, lost)
    ensures CallersTied(HangUpStep(r, c), lost)
  {
    forall c' | c' in r.callers ensures Tied(HangUpStep(r, c), lost, c') {
      assert Tied(r, lost, c');
    }
    forall c' | c' in lost ensures Dead(HangUpStep(r, c), c') {
      assert Dead(r, c');
    }
  }

  lemma LeaveTied(r: Router, c: ChannelId, lost: set<ChannelId>)
    requires CallersTied(r, lost)
    ensures CallersTied(LeaveStep(r, c), lost)
  {
    var r' := LeaveStep(r, c);
    forall c' | c' in r'.callers ensures Tied(r', lost, c') {
      assert Tied(r, lost, c');
    }
    forall c' | c' in lost ensures Dead(r', c') {
      assert Dead(r, c');
    }
  }

  lemma RouterStepTied(r: Router, a: Action, lost: set<ChannelId>)
    requires Sound(r) && CallersTied(r, lost)
    ensures CallersTied(RouterStep(r, a), lost + Displaced(r, a))
  {
    assert lost + {} == lost;
    match a
    case CallTool(id, kind) => CallTied(r, id, kind, lost);
    case RecordCall(id, kind) =>
      RecordSame(r, id, kind);
      SameTied(r, RecordStep(r, id, kind), lost);
    case MessageStart => SameTied(r, r.(message := Some([])), lost);
    case Receive(c) => ReceiveTied(r, c, lost);
    case Answer(c) => AnswerTied(r, c, lost);
    case HangUp(c) => HangUpTied(r, c, lost);
    case Leave(c) => LeaveTied(r, c, lost);
    case _ =>
  }

  lemma PassOnTied(s: State, env: Env, messages: seq<Item>, orphans: seq<Item>, resumed: bool, sends: bool, lost: set<ChannelId>)
    requires Sound(s.router) && CallersTied(s.router, lost)
    ensures CallersTied(PassOn(s, env, messages, orphans, resumed, sends).router, lost)
  {
    CancelTied(s.router, lost);
  }

  lemma TakeRequestTied(s: State, env: Env, items: seq<Item>, sends: bool, lost: set<ChannelId>)
    requires Sound(s.router) && CallersTied(s.router, lost)
    ensures CallersTied(TakeRequest(s, env, items, sends).router, lost)
  {
    var looked := LookedAt(s, env, items);
    var s1 := looked.(turn := looked.turn.(strict := false));
    var outputs, r, running := OutputsOf(items), s.router, s.turn.running;
    var carrier := Carrier(r, running, outputs);
    var mail := if carrier >= 0 then MailOf(env, MessagesOf(s, env, items)) else [];
    DeliverAllSound(r, running, outputs, |outputs|, carrier, mail);
    DeliverAllTied(r, running, outputs, |outputs|, carrier, mail, lost);
    PassOnTied(s1.(router := DeliverAll(r, running, outputs, |outputs|, carrier, mail)), env,
               if carrier >= 0 then WithoutMail(MessagesOf(s, env, items)) else MessagesOf(s, env, items),
               Orphans(r, running, outputs, |outputs|, carrier, mail), carrier >= 0, sends, lost);
  }

  lemma RequestsTied(s: State, env: Env, a: Action, lost: set<ChannelId>)
    requires Sound(s.router) && CallersTied(s.router, lost) && (a.Serve? || a.Resume?)
    ensures CallersTied(Next(s, env, a).router, lost)
  {
    match a
    case Serve(_, _, _, _, _) => TakeRequestTied(s.(streams := OpenStream(s.streams, a.st)), env, a.items, a.sends, lost);
    case Resume(_, _, _) =>
      if a.st in s.streams.switching {
        TakeRequestTied(
          s.(streams := s.streams.(switching := s.streams.switching - {a.st}), turn := s.turn.(alive := true)),
          env, s.streams.switching[a.st], a.sends, lost);
      }
  }

  lemma InterruptsTied(s: State, env: Env, a: Action, lost: set<ChannelId>)
    requires Sound(s.router) && CallersTied(s.router, lost)
    requires Cancels(a)
    ensures CallersTied(Next(s, env, a).router, lost)
  {
    CancelTied(s.router, lost);
  }

  lemma NextTied(s: State, env: Env, a: Action, lost: set<ChannelId>)
    requires Sound(s.router) && CallersTied(s.router, lost)
    ensures CallersTied(Next(s, env, a).router, lost + Displaced(s.router, a))
  {
    assert lost + {} == lost;
    if a.Serve? || a.Resume? {
      RequestsTied(s, env, a, lost);
    } else if a.MessageStop? {
      SameTied(s.router, FlushStep(s).router, lost);
    } else if Cancels(a) {
      InterruptsTied(s, env, a, lost);
    } else {
      OtherRouter(s, env, a);
      RouterStepTied(s.router, a, lost);
    }
  }

  lemma {:induction false} RunTied(saved: Saved, env: Env, actions: seq<Action>)
    ensures CallersTied(Run(saved, env, actions).router, LostPlace(saved, env, actions))
  {
    if actions != [] {
      var before := actions[..|actions| - 1];
      RunTied(saved, env, before);
      RunKeeps(saved, env, before);
      NextTied(Run(saved, env, before), env, actions[|actions| - 1], LostPlace(saved, env, before));
    }
  }

  /** In every run a waiting MCP call has its one result on its channel, or is the
      pending call of its id and will get the next, exactly unless a later call
      under the same id took its place. */
  lemma WaitingCallsTied(saved: Saved, env: Env, actions: seq<Action>, c: ChannelId)
    requires var r := Run(saved, env, actions).router; c in r.callers && r.callers[c].Waiting?
    ensures var r := Run(saved, env, actions).router; var id := r.callers[c].id;
            && c in r.channels && r.channels[c].owner == id
            && ((|r.channels[c].holds| == 1 || (id in r.pending && r.pending[id] == c))
                <==> c !in LostPlace(saved, env, actions))
  {
    var r, lost := Run(saved, env, actions).router, LostPlace(saved, env, actions);
    RunTied(saved, env, actions);
    assert Tied(r, lost, c);
    assert c in lost ==> Dead(r, c);
  }

  lemma {:induction false} LostStays(saved: Saved, env: Env, actions: seq<Action>, more: seq<Action>)
    ensures LostPlace(saved, env, actions) <= LostPlace(saved, env, actions + more)
  {
    if more == [] {
      assert actions + more == actions;
    } else {
      assert (actions + more)[..|actions + more| - 1] == actions + more[..|more| - 1];
      LostStays(saved, env, actions, more[..|more| - 1]);
    }
  }

  /** A call that lost its place is sent nothing in any continuation, not even the
      error of a cancel: it waits until Claude hangs up. */
  lemma LostWaitsForever(saved: Saved, env: Env, actions: seq<Action>, more: seq<Action>, c: ChannelId)
    requires c in LostPlace(saved, env, actions)
    ensures var r := Run(saved, env, actions + more).router; c in r.channels && r.channels[c].sends == 0
  {
    LostStays(saved, env, actions, more);
    RunTied(saved, env, actions + more);
    assert Dead(Run(saved, env, actions + more).router, c);
  }

  /** Two MCP calls under one id, then an interrupt: the second gets the error, the
      first goes on waiting with nothing that could answer it. */
  lemma SecondCallStrands(id: string)
    requires id != ""
    ensures var r := Interrupt(CallStep(CallStep(NO_CALLS, id, Codex), id, Codex));
            && r.pending == map[] && r.callers == map[0 := Waiting(id), 1 := Waiting(id)]
            && r.channels == map[0 := Channel(id, [], 0), 1 := Channel(id, [CANCELLED], 1)]
  {
    var one := CallStep(NO_CALLS, id, Codex);
    var two := CallStep(one, id, Codex);
    assert one == NO_CALLS.(decisions := map[id := Codex], pending := map[id := 0], nextChannel := 1,
                            channels := map[0 := Channel(id, [], 0)], callers := map[0 := Waiting(id)]);
    assert two.channels == map[0 := Channel(id, [], 0), 1 := Channel(id, [], 0)] && two.pending == map[id := 1];
    assert Send(Channel(id, [], 0), CANCELLED) == Channel(id, [CANCELLED], 1);
    assert PendingOn(two, 1) && !PendingOn(two, 0);
  }
}
