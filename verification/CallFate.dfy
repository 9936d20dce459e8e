/** What becomes of a tool call that Claude's stream or MCP brings: when Codex is asked
    for it, when it is dropped, and what an MCP call for it can get meanwhile. */
module CallFate {
  import opened Options
  import opened Session
  import opened RouterSafety
  import opened Mail

  /** A message ends with the call on it while a Codex request is open: Codex is asked. */
  predicate HandsOver(s: State, a: Action, id: string) {
    a.MessageStop? && s.streams.open.Some? && s.router.message.Some? && id in s.router.message.value
  }

  predicate OnMessage(r: Router, id: string) {
    r.message.Some? && id in r.message.value
  }

  /** Claude's stream brings a call for Codex. */
  predicate Brings(s: State, a: Action, id: string) {
    a.RecordCall? && a.id == id && Decided(s.router, id, a.kind).0 == Codex
  }

  /** A call Codex is never asked for: its message ends with no Codex request open, or
      another message starts before it does, or there is no message. */
  predicate DropsCall(s: State, a: Action, id: string) {
    || (a.MessageStop? && OnMessage(s.router, id) && s.streams.open == None)
    || (a.MessageStart? && OnMessage(s.router, id))
    || (Brings(s, a, id) && s.router.message == None)
  }

  // ----- what routing a request does to one call

  predicate Shrinks(r: Router, r': Router) {
    r'.awaiting <= r.awaiting && r'.message == r.message
  }

  lemma {:induction false} DeliverAllShrinks(r: Router, running: bool, outputs: seq<Item>, n: nat, carrier: int, mail: seq<string>)
    requires n <= |outputs|
    ensures Shrinks(r, DeliverAll(r, running, outputs, n, carrier, mail))
  {
    if n > 0 {
      DeliverAllShrinks(r, running, outputs, n - 1, carrier, mail);
    }
  }

  lemma CancelShrinks(r: Router)
    ensures Shrinks(r, CancelPending(r)) && Shrinks(r, Interrupt(r))
  {
  }

  lemma PassOnRouting(s: State, env: Env, messages: seq<Item>, orphans: seq<Item>, resumed: bool, sends: bool)
    ensures var r := PassOn(s, env, messages, orphans, resumed, sends).router;
            r == s.router || r == CancelPending(s.router)
  {
  }

  /** The router a request leaves: its outputs routed, then perhaps a cancel. */
  ghost predicate RequestRouter(r: Router, r': Router) {
    r' == r || exists running, outputs: seq<Item>, carrier, mail, all {:trigger Cancelled(all, r'), DeliverAll(r, running, outputs, |outputs|, carrier, mail)} ::
      all == DeliverAll(r, running, outputs, |outputs|, carrier, mail) && Cancelled(all, r')
  }

  predicate Cancelled(all: Router, r': Router) {
    r' == all || r' == CancelPending(all)
  }

  lemma TakeRequestRouter(s: State, env: Env, items: seq<Item>, sends: bool)
    ensures RequestRouter(s.router, TakeRequest(s, env, items, sends).router)
  {
    var looked := LookedAt(s, env, items);
    var s1 := looked.(turn := looked.turn.(strict := false));
    var outputs, r, running := OutputsOf(items), s.router, s.turn.running;
    var carrier := Carrier(r, running, outputs);
    var mail := if carrier >= 0 then MailOf(env, MessagesOf(s, env, items)) else [];
    var all := DeliverAll(r, running, outputs, |outputs|, carrier, mail);
    PassOnRouting(s1.(router := all), env,
                  if carrier >= 0 then WithoutMail(MessagesOf(s, env, items)) else MessagesOf(s, env, items),
                  Orphans(r, running, outputs, |outputs|, carrier, mail), carrier >= 0, sends);
    assert Cancelled(all, TakeRequest(s, env, items, sends).router);
  }

  lemma RequestsRouter(s: State, env: Env, a: Action)
    requires a.Serve? || a.Resume?
    ensures RequestRouter(s.router, Next(s, env, a).router)
  {
    match a
    case Serve(_, _, _, _, _) => TakeRequestRouter(s.(streams := OpenStream(s.streams, a.st)), env, a.items, a.sends);
    case Resume(_, _, _) =>
      if a.st in s.streams.switching {
        TakeRequestRouter(
          s.(streams := s.streams.(switching := s.streams.switching - {a.st}), turn := s.turn.(alive := true)),
          env, s.streams.switching[a.st], a.sends);
      }
  }

  lemma RequestShrinks(r: Router, r': Router)
    requires RequestRouter(r, r')
    ensures Shrinks(r, r')
  {
    if r' != r {
      var running, outputs: seq<Item>, carrier, mail, all :|
        all == DeliverAll(r, running, outputs, |outputs|, carrier, mail) && Cancelled(all, r');
      DeliverAllShrinks(r, running, outputs, |outputs|, carrier, mail);
      CancelShrinks(all);
    }
  }

  // ----- what is awaited

  lemma RouterStepMessage(r: Router, a: Action, id: string)
    ensures OnMessage(r, id) && !a.MessageStart? ==> OnMessage(RouterStep(r, a), id)
  {
    match a
    case CallTool(i, kind) => DecidedMessage(r, i, kind);
    case RecordCall(i, kind) => DecidedMessage(r, i, kind);
    case _ =>
  }

  lemma DecidedMessage(r: Router, id: string, kind: Kind)
    ensures Decided(r, id, kind).1.message == r.message && CallStep(r, id, kind).message == r.message
    ensures var r' := RecordStep(r, id, kind);
            r'.message == r.message || (r.message.Some? && r'.message == Some(r.message.value + [id]))
    ensures Decided(r, id, kind).0 == Codex && r.message.Some? ==> RecordStep(r, id, kind).message == Some(r.message.value + [id])
  {
  }

  lemma FlushAwaits(s: State, id: string)
    ensures id in FlushStep(s).router.awaiting <==> id in s.router.awaiting || HandsOver(s, MessageStop, id)
    ensures FlushStep(s).router.message == None
  {
  }

  lemma CancelsShrink(s: State, env: Env, a: Action)
    requires Cancels(a)
    ensures Shrinks(s.router, Next(s, env, a).router)
  {
    CancelShrinks(s.router);
  }

  /** Steps that end no message: none adds to what is awaited, and only the router's own
      change the message. */
  lemma OthersShrink(s: State, env: Env, a: Action)
    requires !a.MessageStop?
    ensures Next(s, env, a).router.awaiting <= s.router.awaiting
    ensures Shrinks(s.router, Next(s, env, a).router) || Next(s, env, a).router == RouterStep(s.router, a)
  {
    if a.Serve? || a.Resume? {
      RequestsRouter(s, env, a);
      RequestShrinks(s.router, Next(s, env, a).router);
    } else if Cancels(a) {
      CancelsShrink(s, env, a);
    } else {
      OtherRouter(s, env, a);
      RouterStepWaits(s.router, a);
    }
  }

  /** The calls on the open message after a step: none once one starts, no message once one
      ends, and one more exactly when the stream brings a call that is for Codex by the
      decision already taken on it, or else by the one taken now. */
  lemma MessageExactly(s: State, env: Env, a: Action)
    ensures Next(s, env, a).router.message ==
            match a
            case MessageStart => Some([])
            case MessageStop => None
            case RecordCall(id, kind) =>
              var decided := if id != "" && id in s.router.decisions then s.router.decisions[id] else kind;
              if decided == Codex && s.router.message.Some? then Some(s.router.message.value + [id]) else s.router.message
            case _ => s.router.message
  {
    match a
    case MessageStart =>
    case MessageStop => FlushAwaits(s, "");
    case RecordCall(id, kind) => RecordMessage(s.router, id, kind);
    case CallTool(id, kind) => DecidedMessage(s.router, id, kind);
    case _ =>
      OthersShrink(s, env, a);
      OtherMessage(s.router, a);
  }

  lemma RecordMessage(r: Router, id: string, kind: Kind)
    ensures RecordStep(r, id, kind).message ==
            if Decided(r, id, kind).0 == Codex && r.message.Some? then Some(r.message.value + [id]) else r.message
  {
  }

  lemma OtherMessage(r: Router, a: Action)
    requires !a.MessageStart? && !a.RecordCall? && !a.CallTool?
    ensures RouterStep(r, a).message == r.message
  {
  }

  /** Codex is asked for a call exactly when its message ends while a request is open:
      in no other step does a call come to be awaited. */
  lemma AwaitedExactlyWhen(s: State, env: Env, a: Action, id: string)
    requires id !in s.router.awaiting
    ensures id in Next(s, env, a).router.awaiting <==> HandsOver(s, a, id)
  {
    if a.MessageStop? {
      FlushAwaits(s, id);
    } else {
      OthersShrink(s, env, a);
    }
  }

  // ----- what becomes of a call the stream brought

  /** Codex was asked and the call is awaited no more: its result came, or it was
      cancelled. */
  predicate EndsWait(s: State, env: Env, a: Action, id: string) {
    id in s.router.awaiting && id !in Next(s, env, a).router.awaiting
  }

  /** Asked for, or to be asked for when the message ends. */
  predicate Alive(r: Router, id: string) {
    id in r.awaiting || OnMessage(r, id)
  }

  lemma OthersKeepMessage(s: State, env: Env, a: Action, id: string)
    requires OnMessage(s.router, id) && !a.MessageStop? && !a.MessageStart?
    ensures OnMessage(Next(s, env, a).router, id)
  {
    OthersShrink(s, env, a);
    RouterStepMessage(s.router, a, id);
  }

  lemma StaysAlive(s: State, env: Env, a: Action, id: string)
    requires Alive(s.router, id) && !DropsCall(s, a, id) && !EndsWait(s, env, a, id)
    ensures Alive(Next(s, env, a).router, id)
  {
    if id !in s.router.awaiting {
      if a.MessageStop? {
        FlushAwaits(s, id);
      } else if !a.MessageStart? {
        OthersKeepMessage(s, env, a, id);
      }
    }
  }

  lemma BroughtAlive(s: State, env: Env, a: Action, id: string)
    requires Brings(s, a, id)
    ensures s.router.message == None || Alive(Next(s, env, a).router, id)
  {
    DecidedMessage(s.router, id, a.kind);
  }

  /** Some step from j on dropped the call or ended its wait. */
  ghost predicate Over(saved: Saved, env: Env, actions: seq<Action>, j: nat, id: string) {
    exists k :: j <= k < |actions| && OverAt(saved, env, actions, k, id)
  }

  predicate OverAt(saved: Saved, env: Env, actions: seq<Action>, k: int, id: string) {
    && 0 <= k < |actions|
    && var s := Run(saved, env, actions[..k]);
       DropsCall(s, actions[k], id) || EndsWait(s, env, actions[k], id)
  }

  lemma OverBefore(saved: Saved, env: Env, actions: seq<Action>, j: nat, id: string)
    requires actions != [] && Over(saved, env, actions[..|actions| - 1], j, id)
    ensures Over(saved, env, actions, j, id)
  {
    var before := actions[..|actions| - 1];
    var k :| j <= k < |before| && OverAt(saved, env, before, k, id);
    assert before[..k] == actions[..k] && before[k] == actions[k];
    assert OverAt(saved, env, actions, k, id);
  }

  lemma OverNow(saved: Saved, env: Env, actions: seq<Action>, j: nat, id: string)
    requires j < |actions|
    requires var n := |actions| - 1; var s := Run(saved, env, actions[..n]);
             DropsCall(s, actions[n], id) || EndsWait(s, env, actions[n], id)
    ensures Over(saved, env, actions, j, id)
  {
    assert OverAt(saved, env, actions, |actions| - 1, id);
  }

  lemma FateMore(saved: Saved, env: Env, actions: seq<Action>, j: nat, id: string, s: State, a: Action)
    requires j < |actions| - 1 && s == Run(saved, env, actions[..|actions| - 1]) && a == actions[|actions| - 1]
    requires Alive(s.router, id)
    ensures Alive(Next(s, env, a).router, id) || Over(saved, env, actions, j, id)
  {
    if DropsCall(s, a, id) || EndsWait(s, env, a, id) {
      OverNow(saved, env, actions, j, id);
    } else {
      StaysAlive(s, env, a, id);
    }
  }

  lemma FateFirst(saved: Saved, env: Env, actions: seq<Action>, id: string, s: State, a: Action)
    requires actions != [] && s == Run(saved, env, actions[..|actions| - 1]) && a == actions[|actions| - 1]
    requires Brings(s, a, id)
    ensures Alive(Next(s, env, a).router, id) || Over(saved, env, actions, |actions| - 1, id)
  {
    BroughtAlive(s, env, a, id);
    if s.router.message == None {
      OverNow(saved, env, actions, |actions| - 1, id);
    }
  }

  /** In every run a call for Codex that the stream brought is awaited, or still on the
      open message; or its message was dropped, so that Codex was not asked for it, or
      its wait is over. */
  lemma {:induction false} BroughtCallFate(saved: Saved, env: Env, actions: seq<Action>, j: nat, id: string)
    requires j < |actions| && Brings(Run(saved, env, actions[..j]), actions[j], id)
    ensures Alive(Run(saved, env, actions).router, id) || Over(saved, env, actions, j, id)
    decreases |actions|
  {
    var before, last := actions[..|actions| - 1], actions[|actions| - 1];
    if j == |before| {
      FateFirst(saved, env, actions, id, Run(saved, env, before), last);
    } else {
      assert before[..j] == actions[..j];
      BroughtCallFate(saved, env, before, j, id);
      if Alive(Run(saved, env, before).router, id) {
        FateMore(saved, env, actions, j, id, Run(saved, env, before), last);
      } else {
        OverBefore(saved, env, actions, j, id);
      }
    }
  }

  // ----- what an MCP call for it gets meanwhile

  /** The channel is the call's, and holds nothing or the error of a cancel. */
  predicate NoResult(r: Router, c: ChannelId, id: string) {
    && c in r.channels && r.channels[c].owner == id
    && forall k :: 0 <= k < |r.channels[c].holds| ==> r.channels[c].holds[k] == CANCELLED
  }

  lemma CancelNoResult(r: Router, c: ChannelId, id: string)
    requires NoResult(r, c, id)
    ensures NoResult(CancelPending(r), c, id) && NoResult(Interrupt(r), c, id)
  {
  }

  lemma RequestNoResult(r: Router, r': Router, c: ChannelId, id: string)
    requires Sound(r) && NoResult(r, c, id) && id !in r.awaiting && RequestRouter(r, r')
    ensures NoResult(r', c, id)
  {
    if r' != r {
      var running, outputs: seq<Item>, carrier, mail, all :|
        all == DeliverAll(r, running, outputs, |outputs|, carrier, mail) && Cancelled(all, r');
      assert DeliverAll(r, running, outputs, 0, carrier, mail) == r;
      OnceDone(r, running, outputs, 0, |outputs|, carrier, mail, id);
      CancelNoResult(all, c, id);
    }
  }

  lemma RouterStepNoResult(r: Router, a: Action, c: ChannelId, id: string)
    requires Sound(r) && NoResult(r, c, id)
    ensures NoResult(RouterStep(r, a), c, id)
  {
    match a
    case CallTool(i, kind) => CallNoResult(r, i, kind, c, id);
    case RecordCall(i, kind) => CallNoResult(r, i, kind, c, id);
    case _ =>
  }

  lemma CallNoResult(r: Router, i: string, kind: Kind, c: ChannelId, id: string)
    requires Sound(r) && NoResult(r, c, id)
    ensures NoResult(CallStep(r, i, kind), c, id) && NoResult(RecordStep(r, i, kind), c, id)
  {
    DecidedSame(r, i, kind);
    assert c < r.nextChannel;
  }

  lemma CancelsNoResult(s: State, env: Env, a: Action, c: ChannelId, id: string)
    requires NoResult(s.router, c, id) && Cancels(a)
    ensures NoResult(Next(s, env, a).router, c, id)
  {
    CancelNoResult(s.router, c, id);
  }

  lemma FlushNoResult(s: State, c: ChannelId, id: string)
    requires NoResult(s.router, c, id)
    ensures NoResult(FlushStep(s).router, c, id)
  {
  }

  lemma NextNoResult(s: State, env: Env, a: Action, c: ChannelId, id: string)
    requires Sound(s.router) && NoResult(s.router, c, id) && id !in s.router.awaiting
    ensures NoResult(Next(s, env, a).router, c, id)
  {
    if a.Serve? || a.Resume? {
      RequestsRouter(s, env, a);
      RequestNoResult(s.router, Next(s, env, a).router, c, id);
    } else if Cancels(a) {
      CancelsNoResult(s, env, a, c, id);
    } else if a.MessageStop? {
      FlushNoResult(s, c, id);
    } else {
      RouterStepNoResult(s.router, a, c, id);
      OtherRouter(s, env, a);
    }
  }

  /** No step from n on asks Codex for the call. */
  predicate NeverHandedOver(saved: Saved, env: Env, actions: seq<Action>, n: nat, id: string) {
    forall k :: n <= k < |actions| ==> !HandsOver(Run(saved, env, actions[..k]), actions[k], id)
  }

  lemma NeverBefore(saved: Saved, env: Env, actions: seq<Action>, n: nat, id: string)
    requires n < |actions| && NeverHandedOver(saved, env, actions, n, id)
    ensures NeverHandedOver(saved, env, actions[..|actions| - 1], n, id)
    ensures !HandsOver(Run(saved, env, actions[..|actions| - 1]), actions[|actions| - 1], id)
  {
    var before := actions[..|actions| - 1];
    forall k | n <= k < |before| ensures !HandsOver(Run(saved, env, before[..k]), before[k], id) {
      assert before[..k] == actions[..k] && before[k] == actions[k];
    }
  }

  /** In every run an MCP call that is pending while Codex is not awaited to answer it
      gets nothing but the error of a cancel, however often Codex sends a result for
      it, until a message that has the call ends with a Codex request open. */
  lemma {:induction false} UnaskedGetsNoResult(saved: Saved, env: Env, actions: seq<Action>, n: nat, id: string)
    requires n <= |actions| && NeverHandedOver(saved, env, actions, n, id)
    requires var r := Run(saved, env, actions[..n]).router; id in r.pending && id !in r.awaiting
    ensures var c, r := Run(saved, env, actions[..n]).router.pending[id], Run(saved, env, actions).router;
            id !in r.awaiting && NoResult(r, c, id)
    decreases |actions|
  {
    var c := Run(saved, env, actions[..n]).router.pending[id];
    RunKeeps(saved, env, actions[..n]);
    if n == |actions| {
      assert actions[..n] == actions;
      assert WaitsOn(Run(saved, env, actions).router, id, c);
    } else {
      var before, a := actions[..|actions| - 1], actions[|actions| - 1];
      assert before[..n] == actions[..n];
      NeverBefore(saved, env, actions, n, id);
      UnaskedGetsNoResult(saved, env, before, n, id);
      RunKeeps(saved, env, before);
      AwaitedExactlyWhen(Run(saved, env, before), env, a, id);
      NextNoResult(Run(saved, env, before), env, a, c, id);
    }
  }

  /** A message dropped: Codex leaves while it is streamed, so that when it ends none of
      its calls is awaited, whichever of them MCP calls wait for. */
  lemma DisconnectDrops(s: State, env: Env, st: StreamId, id: string)
    requires s.streams.open == Some(st) && OnMessage(s.router, id) && id !in s.router.awaiting
    ensures var left := Next(s, env, Disconnect(st));
            && OnMessage(left.router, id) && DropsCall(left, MessageStop, id)
            && id !in Next(left, env, MessageStop).router.awaiting && Next(left, env, MessageStop).router.message == None
  {
    CancelShrinks(s.router);
    var left := Next(s, env, Disconnect(st));
    FlushAwaits(left, id);
  }
}
