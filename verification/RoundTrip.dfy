/** A tool call's way through the router: from the message that asks for it, by
    whichever of Claude's MCP call and Codex's result comes first, to its answer. */
module RoundTrip {
  import opened Options
  import opened Session
  import opened RouterSafety
  import opened CallerSafety
  import opened Mail

  /** Claude is about to call the tool: it awaits the call, no result came yet, and
      no other kind of call was decided under its id. */
  predicate Expected(r: Router, id: string) {
    id != "" && id in r.awaiting && id !in r.pending && id !in r.queued && (id in r.decisions ==> r.decisions[id] == Codex)
  }

  /** The call first: it waits, and takes the result from its channel. */
  function CallFirst(r: Router, id: string, result: Result): Router {
    AnswerStep(ReceiveStep(Deliver(CallStep(r, id, Codex), true, id, result), r.nextChannel), r.nextChannel)
  }

  /** The result first: it is queued, and the call takes it at once. */
  function ResultFirst(r: Router, id: string, result: Result): Router {
    CallStep(Deliver(r, true, id, result), id, Codex)
  }

  lemma CallRegisters(r: Router, id: string)
    requires Expected(r, id)
    ensures CallReply(r, id, Codex) == WaitsFor(r.nextChannel)
    ensures CallStep(r, id, Codex) == Register(r.(decisions := r.decisions[id := Codex]), id)
  {
    assert id in r.decisions ==> r.decisions[id := Codex] == r.decisions;
  }

  lemma CallWaits(r: Router, id: string, result: Result)
    requires Sound(r) && Expected(r, id)
    ensures CallReply(r, id, Codex) == WaitsFor(r.nextChannel)
    ensures var r' := Deliver(CallStep(r, id, Codex), true, id, result);
            && r.nextChannel in r'.channels && r'.channels[r.nextChannel] == Channel(id, [result], 1)
            && r'.callers == r.callers[r.nextChannel := Waiting(id)]
            && r'.awaiting == r.awaiting - {id} && r'.pending == r.pending && r'.queued == r.queued
            && r'.decisions == r.decisions[id := Codex]
  {
    CallRegisters(r, id);
    CallSound(r, id, Codex);
    DeliversOnOwnChannel(CallStep(r, id, Codex), true, id, result);
    assert r.pending[id := r.nextChannel] - {id} == r.pending;
  }

  lemma ResultQueues(r: Router, id: string, result: Result)
    requires Expected(r, id)
    ensures CallReply(Deliver(r, true, id, result), id, Codex) == Has(result)
    ensures var r' := ResultFirst(r, id, result);
            && r'.awaiting == r.awaiting - {id} && r'.pending == r.pending && r'.queued == r.queued
            && r'.decisions == r.decisions - {id}
  {
    var early := Deliver(r, true, id, result);
    assert early == r.(awaiting := r.awaiting - {id}, marks := r.marks + [Came(id, Queued)], queued := r.queued[id := result]);
    assert ResultFirst(r, id, result) == TakeQueued(Decided(early, id, Codex).1, id);
    assert r.queued[id := result] - {id} == r.queued;
    assert r.decisions[id := Codex] - {id} == r.decisions - {id};
  }

  /** In a running turn Claude's MCP call and Codex's result may come in either
      order: the call is answered with that result, and nothing is left of it in the
      router, which is the same both ways. */
  lemma EitherOrder(r: Router, id: string, result: Result)
    requires Sound(r) && Expected(r, id)
    ensures CallReply(r, id, Codex) == WaitsFor(r.nextChannel)
    ensures var waiting := Deliver(CallStep(r, id, Codex), true, id, result);
            r.nextChannel in waiting.channels && waiting.channels[r.nextChannel].holds == [result]
    ensures CallReply(Deliver(r, true, id, result), id, Codex) == Has(result)
    ensures var late, early := CallFirst(r, id, result), ResultFirst(r, id, result);
            && late.awaiting == early.awaiting == r.awaiting - {id}
            && late.pending == early.pending == r.pending
            && late.queued == early.queued == r.queued
            && late.decisions == early.decisions == r.decisions - {id}
  {
    CallWaits(r, id, result);
    ResultQueues(r, id, result);
    var c, waiting := r.nextChannel, Deliver(CallStep(r, id, Codex), true, id, result);
    var received := ReceiveStep(waiting, c);
    assert received == waiting.(callers := waiting.callers[c := Holding(id)], channels := waiting.channels[c := Channel(id, [], 1)]);
    assert CallFirst(r, id, result) == Undecide(received.(callers := received.callers[c := Answered]), id);
    assert r.decisions[id := Codex] - {id} == r.decisions - {id};
  }

  /** The calls of a message that ends while a request is open are handed to Codex
      on it, all at once, and stay awaited on disk. */
  lemma FlushHandsOver(s: State, id: string)
    requires s.streams.open.Some? && s.router.message.Some? && id in s.router.message.value
    ensures var s' := FlushStep(s);
            && s'.streams == Complete(s.streams) && id in s'.router.awaiting && id in s'.disk.saved.awaiting
            && s'.turn == s.turn && s'.router.pending == s.router.pending
  {
  }

  /** The first result Codex then sends for such a call, while the turn runs, is
      where the call takes it, whatever else comes with it. */
  lemma ResultComesBack(s: State, env: Env, messages: seq<Item>, outputs: seq<Item>, i: nat, sends: bool)
    requires Sound(s.router) && s.turn.running && s.streams.open.Some?
    requires i < |outputs| && IsFirst(outputs, i, outputs[i].callId)
    requires s.router.message.Some? && outputs[i].callId in s.router.message.value
    ensures var asked := FlushStep(s); var r' := RouteRequest(asked, env, messages, outputs, sends).router;
            var c := Carrier(asked.router, true, outputs); var mail := MailOf(env, messages);
            && i <= c && Arrived(asked.router, r', outputs[i].callId, ResultOf(outputs, i, c, mail))
            && outputs[i].callId !in r'.awaiting
  {
    var asked, id := FlushStep(s), outputs[i].callId;
    var r := asked.router;
    FlushHandsOver(s, id);
    AwaitSound(s.router.(message := None), s.router.message.value);
    CarrierIsLast(r, true, outputs);
    var c, mail := Carrier(r, true, outputs), MailOf(env, messages);
    FirstResultArrives(r, true, outputs, i, c, mail);
    PassOnRouter(asked.(router := DeliverAll(r, true, outputs, |outputs|, c, mail)), env, WithoutMail(messages),
                 Orphans(r, true, outputs, |outputs|, c, mail), sends);
  }

  lemma AwaitSound(r: Router, ids: seq<string>)
    requires Sound(r)
    ensures Sound(Await(r, ids))
  {
    SameCallsSound(r, Await(r, ids));
  }

  /** When the user stops a running turn, every pending call is answered with an
      error, and any result Codex sends for one of its calls afterwards, with
      whatever else, is history. */
  lemma StopEndsCalls(s: State, st: StreamId, id: string, running: bool, outputs: seq<Item>, i: nat, carrier: int, mail: seq<string>)
    requires Sound(s.router) && s.turn.running && s.streams.open == Some(st) && i < |outputs|
    ensures var r := DisconnectStep(s, st).router;
            && r.pending == map[]
            && (id in s.router.pending ==>
                  s.router.pending[id] in r.channels && r.channels[s.router.pending[id]] == Channel(id, [CANCELLED], 1))
            && Carrier(r, running, outputs) == -1
            && WentTo(r, running, outputs, i, carrier, mail) == History
  {
    var r := DisconnectStep(s, st).router;
    assert r == Interrupt(s.router);
    CancelSound(s.router);
    if id in s.router.pending {
      CancelAnswersAll(s.router, id);
    }
    CarrierIsLast(r, running, outputs);
    GoesWhereItWould(r, running, outputs, i, carrier, mail);
  }

  /** In every run, when the user stops a running turn, each MCP call that waits has
      an answer on its channel, the result it already had or the error, exactly
      unless a later call under its id took its place. */
  lemma StopAnswersWaiting(saved: Saved, env: Env, actions: seq<Action>, st: StreamId, c: ChannelId)
    requires var s := Run(saved, env, actions);
             && s.turn.running && s.streams.open == Some(st)
             && c in s.router.callers && s.router.callers[c].Waiting?
    ensures var r, r' := Run(saved, env, actions).router, Next(Run(saved, env, actions), env, Disconnect(st)).router;
            && c in r.channels && c in r'.channels && r'.callers == r.callers
            && (|r'.channels[c].holds| == 1 <==> c !in LostPlace(saved, env, actions))
            && (r.channels[c].holds != [] ==> r'.channels[c] == r.channels[c])
            && (|r'.channels[c].holds| == 1 && r.channels[c].holds == [] ==> r'.channels[c].holds == [CANCELLED])
  {
    var r := Run(saved, env, actions).router;
    var id := r.callers[c].id;
    RunKeeps(saved, env, actions);
    WaitingCallsTied(saved, env, actions, c);
    RunTied(saved, env, actions);
    if PendingOn(r, c) {
      CancelAnswersAll(r, id);
    }
  }
}
