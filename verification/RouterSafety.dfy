/** What holds of a session's tool-call router in every run, however message ends,
    MCP calls, results, cancels, interrupts and hang-ups take turns. */
module RouterSafety {
  import opened Options
  import Seen
  import opened Session

  // ----- channels

  /** A call is never both waiting for a result and holding one back. */
  predicate Apart(r: Router) {
    forall id :: id in r.pending ==> id !in r.queued
  }

  /** The call waits on a channel of its own that was never sent to, and has not
      been answered. */
  predicate WaitsOn(r: Router, id: string, c: ChannelId) {
    && c in r.channels && r.channels[c] == Channel(id, [], 0)
    && c in r.callers && (r.callers[c] == Waiting(id) || r.callers[c] == Leaving(id))
  }

  predicate PendingWaits(r: Router) {
    forall id :: id in r.pending ==> WaitsOn(r, id, r.pending[id])
  }

  /** A channel is sent to at most once, and so never holds more than its one
      slot takes. */
  predicate SentOnce(c: Channel) {
    c.sends <= 1 && |c.holds| <= c.sends
  }

  predicate ChannelsOnce(r: Router) {
    forall c :: c in r.channels ==> c < r.nextChannel && SentOnce(r.channels[c])
  }

  predicate Sound(r: Router) {
    Apart(r) && PendingWaits(r) && ChannelsOnce(r)
  }

  // ----- deliveries

  predicate Answers(m: Mark, id: string) {
    m.Came? && m.id == id && m.delivery != History
  }

  /** Claude began to await the call after mark i, within the first n. */
  predicate EnteredAfter(marks: seq<Mark>, i: nat, n: nat, id: string)
    requires n <= |marks|
  {
    exists k :: i < k < n && marks[k] == Entered(id)
  }

  ghost predicate Unanswered(marks: seq<Mark>, id: string) {
    forall i :: 0 <= i < |marks| && Answers(marks[i], id) ==> EnteredAfter(marks, i, |marks|, id)
  }

  /** Between two deliveries of results for a call that are not history, Claude
      began to await the call anew. */
  ghost predicate OncePerWait(marks: seq<Mark>) {
    forall i, j, id :: 0 <= i < j < |marks| && Answers(marks[i], id) && Answers(marks[j], id) ==> EnteredAfter(marks, i, j, id)
  }

  ghost predicate Fair(r: Router) {
    OncePerWait(r.marks) && forall id :: id in r.awaiting ==> Unanswered(r.marks, id)
  }

  lemma OneMoreMark(marks: seq<Mark>, m: Mark)
    requires OncePerWait(marks) && forall id :: Answers(m, id) ==> Unanswered(marks, id)
    ensures OncePerWait(marks + [m])
  {
    forall i, j, id | 0 <= i < j <= |marks| && Answers((marks + [m])[i], id) && Answers((marks + [m])[j], id)
      ensures EnteredAfter(marks + [m], i, j, id)
    {
      if j < |marks| {
        assert EnteredAfter(marks, i, j, id);
        var k :| i < k < j && marks[k] == Entered(id);
        assert (marks + [m])[k] == Entered(id);
      } else {
        assert EnteredAfter(marks, i, |marks|, id);
        var k :| i < k < |marks| && marks[k] == Entered(id);
        assert (marks + [m])[k] == Entered(id);
      }
    }
  }

  lemma StaysUnanswered(marks: seq<Mark>, m: Mark, id: string)
    requires (Unanswered(marks, id) && !Answers(m, id)) || m == Entered(id)
    ensures Unanswered(marks + [m], id)
  {
    forall i | 0 <= i <= |marks| && Answers((marks + [m])[i], id)
      ensures EnteredAfter(marks + [m], i, |marks| + 1, id)
    {
      if m == Entered(id) {
        assert (marks + [m])[|marks|] == Entered(id);
      } else {
        assert EnteredAfter(marks, i, |marks|, id);
        var k :| i < k < |marks| && marks[k] == Entered(id);
        assert (marks + [m])[k] == Entered(id);
      }
    }
  }

  // ----- routing results

  /** The call an output is for stops waiting, on a channel sent to once. */
  lemma HandOverSound(r: Router, r': Router, id: string, result: Result)
    requires Sound(r) && id in r.pending
    requires var c := r.pending[id];
             && r'.pending == r.pending - {id} && r'.queued == r.queued && r'.callers == r.callers
             && r'.nextChannel == r.nextChannel && c in r.channels
             && r'.channels == r.channels[c := Send(r.channels[c], result)]
    ensures Sound(r')
  {
    assert WaitsOn(r, id, r.pending[id]);
    forall id' | id' in r'.pending ensures WaitsOn(r', id', r'.pending[id']) {
      assert WaitsOn(r, id', r.pending[id']);
    }
  }

  lemma DeliverSound(r: Router, running: bool, id: string, result: Result)
    requires Sound(r)
    ensures Sound(Deliver(r, running, id, result))
  {
    match Destination(r, running, id)
    case Delivered =>
      assert WaitsOn(r, id, r.pending[id]);
      HandOverSound(r, Deliver(r, running, id, result), id, result);
    case _ =>
      forall id' | id' in r.pending ensures WaitsOn(Deliver(r, running, id, result), id', r.pending[id']) {
        assert WaitsOn(r, id', r.pending[id']);
      }
  }

  lemma DeliverFair(r: Router, running: bool, id: string, result: Result)
    requires Fair(r)
    ensures Fair(Deliver(r, running, id, result))
  {
    var m := Came(id, Destination(r, running, id));
    OneMoreMark(r.marks, m);
    forall id' | id' in r.awaiting - {id} ensures Unanswered(r.marks + [m], id') {
      StaysUnanswered(r.marks, m, id');
    }
  }

  /** A result delivered to a waiting call is the only thing ever sent on that
      call's own channel, whose slot is free, so no send under the session's lock
      can block; no other channel sees it. */
  lemma DeliversOnOwnChannel(r: Router, running: bool, id: string, result: Result)
    requires Sound(r) && Destination(r, running, id) == Delivered
    ensures var c := r.pending[id]; var r' := Deliver(r, running, id, result);
            && c in r.channels && r.channels[c].holds == []
            && r'.channels == r.channels[c := Channel(id, [result], 1)]
            && id !in r'.pending
  {
    assert WaitsOn(r, id, r.pending[id]);
    assert Send(Channel(id, [], 0), result) == Channel(id, [result], 1);
  }

  lemma {:induction false} DeliverAllSound(r: Router, running: bool, outputs: seq<Item>, n: nat, carrier: int, mail: seq<string>)
    requires n <= |outputs| && Sound(r)
    ensures Sound(DeliverAll(r, running, outputs, n, carrier, mail))
  {
    if n > 0 {
      DeliverAllSound(r, running, outputs, n - 1, carrier, mail);
      DeliverSound(DeliverAll(r, running, outputs, n - 1, carrier, mail), running, outputs[n - 1].callId,
                   ResultOf(outputs, n - 1, carrier, mail));
    }
  }

  lemma {:induction false} DeliverAllFair(r: Router, running: bool, outputs: seq<Item>, n: nat, carrier: int, mail: seq<string>)
    requires n <= |outputs| && Fair(r)
    ensures Fair(DeliverAll(r, running, outputs, n, carrier, mail))
  {
    if n > 0 {
      DeliverAllFair(r, running, outputs, n - 1, carrier, mail);
      DeliverFair(DeliverAll(r, running, outputs, n - 1, carrier, mail), running, outputs[n - 1].callId,
                  ResultOf(outputs, n - 1, carrier, mail));
    }
  }

  // ----- cancels

  lemma CancelSound(r: Router)
    requires Sound(r)
    ensures Sound(CancelPending(r)) && Sound(Interrupt(r))
  {
    var r' := CancelPending(r);
    forall c | c in r'.channels ensures c < r'.nextChannel && SentOnce(r'.channels[c]) {
      if PendingOn(r, c) {
        assert WaitsOn(r, r.channels[c].owner, c);
      }
    }
  }

  lemma CancelKeeps(r: Router)
    requires Sound(r) && Fair(r)
    ensures Keeps(CancelPending(r)) && Keeps(Interrupt(r))
  {
    CancelSound(r);
  }

  /** Cancelling answers exactly the pending calls, each on a free slot. */
  lemma CancelAnswersAll(r: Router, id: string)
    requires Sound(r) && id in r.pending
    ensures var c := r.pending[id]; c in r.channels && CancelPending(r).channels[c] == Channel(id, [CANCELLED], 1)
  {
    assert WaitsOn(r, id, r.pending[id]);
  }

  // ----- single steps

  /** Nothing that waits, and no channel, is touched. */
  predicate SameCalls(r: Router, r': Router) {
    r'.pending == r.pending && r'.channels == r.channels && r'.callers == r.callers && r'.nextChannel == r.nextChannel
  }

  lemma SameCallsSound(r: Router, r': Router)
    requires Sound(r) && SameCalls(r, r') && r'.queued.Keys <= r.queued.Keys
    ensures Sound(r')
  {
    forall id | id in r'.pending ensures WaitsOn(r', id, r'.pending[id]) {
      assert WaitsOn(r, id, r.pending[id]);
      assert id !in r.queued.Keys;
    }
  }

  lemma RegisterSound(r: Router, id: string)
    requires Sound(r) && id !in r.queued
    ensures Sound(Register(r, id))
  {
    var r' := Register(r, id);
    forall id' | id' in r'.pending ensures WaitsOn(r', id', r'.pending[id']) {
      if id' != id {
        assert WaitsOn(r, id', r.pending[id']);
      }
    }
  }

  lemma DecidedSame(r: Router, id: string, kind: Kind)
    ensures var r' := Decided(r, id, kind).1;
            && SameCalls(r, r') && r'.queued == r.queued && r'.awaiting == r.awaiting && r'.marks == r.marks
  {
  }

  /** An MCP call takes a queued result, or registers on a new channel, or leaves
      all calls as they are. */
  lemma CallSound(r: Router, id: string, kind: Kind)
    requires Sound(r)
    ensures Sound(CallStep(r, id, kind))
  {
    var (k, r1) := Decided(r, id, kind);
    DecidedSame(r, id, kind);
    SameCallsSound(r, r1);
    if k == Codex && id != "" && id !in r1.queued {
      RegisterSound(r1, id);
    } else {
      SameCallsSound(r1, TakeQueued(r1, id));
      SameCallsSound(r1, Undecide(r1, id));
    }
  }

  lemma ReceiveSound(r: Router, c: ChannelId)
    requires Sound(r)
    ensures Sound(ReceiveStep(r, c))
  {
    forall id | id in r.pending ensures WaitsOn(ReceiveStep(r, c), id, r.pending[id]) {
      assert WaitsOn(r, id, r.pending[id]);
    }
  }

  lemma AnswerSound(r: Router, c: ChannelId)
    requires Sound(r)
    ensures Sound(AnswerStep(r, c)) && Sound(HangUpStep(r, c))
  {
    forall id | id in r.pending
      ensures WaitsOn(AnswerStep(r, c), id, r.pending[id])
      ensures WaitsOn(HangUpStep(r, c), id, r.pending[id])
    {
      assert WaitsOn(r, id, r.pending[id]);
    }
  }

  lemma LeaveSound(r: Router, c: ChannelId)
    requires Sound(r)
    ensures Sound(LeaveStep(r, c))
  {
    var r' := LeaveStep(r, c);
    forall id | id in r'.pending ensures WaitsOn(r', id, r'.pending[id]) {
      assert WaitsOn(r, id, r.pending[id]);
    }
  }

  lemma RecordSound(r: Router, id: string, kind: Kind)
    requires Sound(r)
    ensures Sound(RecordStep(r, id, kind))
  {
    var r1 := Decided(r, id, kind).1;
    DecidedSame(r, id, kind);
    SameCallsSound(r, r1);
    SameCallsSound(r1, Undecide(r1, id));
    SameCallsSound(r1, RecordStep(r, id, kind));
  }

  lemma RouterStepSound(r: Router, a: Action)
    requires Sound(r)
    ensures Sound(RouterStep(r, a))
  {
    match a
    case CallTool(id, kind) => CallSound(r, id, kind);
    case RecordCall(id, kind) => RecordSound(r, id, kind);
    case MessageStart => SameCallsSound(r, r.(message := Some([])));
    case Receive(c) => ReceiveSound(r, c);
    case Answer(c) => AnswerSound(r, c);
    case HangUp(c) => AnswerSound(r, c);
    case Leave(c) => LeaveSound(r, c);
    case _ =>
  }

  predicate SameWaits(r: Router, r': Router) {
    r'.awaiting == r.awaiting && r'.marks == r.marks
  }

  lemma CallWaits(r: Router, id: string, kind: Kind)
    ensures SameWaits(r, CallStep(r, id, kind)) && SameWaits(r, RecordStep(r, id, kind))
  {
    var (k, r1) := Decided(r, id, kind);
    DecidedSame(r, id, kind);
    assert SameWaits(r1, TakeQueued(r1, id)) && SameWaits(r1, Undecide(r1, id)) && SameWaits(r1, Register(r1, id));
  }

  lemma RouterStepWaits(r: Router, a: Action)
    ensures SameWaits(r, RouterStep(r, a))
  {
    match a
    case CallTool(id, kind) => CallWaits(r, id, kind);
    case RecordCall(id, kind) => CallWaits(r, id, kind);
    case _ =>
  }

  lemma RouterStepKeeps(r: Router, a: Action)
    requires Sound(r) && Fair(r)
    ensures Sound(RouterStep(r, a)) && Fair(RouterStep(r, a))
  {
    RouterStepSound(r, a);
    RouterStepWaits(r, a);
  }

  lemma {:induction false} AwaitMarks(marks: seq<Mark>, ids: seq<string>, id: string)
    requires OncePerWait(marks) && (Unanswered(marks, id) || id in ids)
    ensures OncePerWait(marks + EnteredAll(ids)) && Unanswered(marks + EnteredAll(ids), id)
  {
    if ids == [] {
      assert marks + EnteredAll(ids) == marks;
    } else {
      var earlier, last := ids[..|ids| - 1], ids[|ids| - 1];
      assert ids == earlier + [last];
      assert marks + EnteredAll(ids) == marks + EnteredAll(earlier) + [Entered(last)];
      if id == last {
        AwaitOnce(marks, earlier);
      } else {
        AwaitMarks(marks, earlier, id);
      }
      OneMoreMark(marks + EnteredAll(earlier), Entered(last));
      StaysUnanswered(marks + EnteredAll(earlier), Entered(last), id);
    }
  }

  lemma {:induction false} AwaitOnce(marks: seq<Mark>, ids: seq<string>)
    requires OncePerWait(marks)
    ensures OncePerWait(marks + EnteredAll(ids))
  {
    if ids == [] {
      assert marks + EnteredAll(ids) == marks;
    } else {
      var earlier, last := ids[..|ids| - 1], ids[|ids| - 1];
      assert marks + EnteredAll(ids) == marks + EnteredAll(earlier) + [Entered(last)];
      AwaitOnce(marks, earlier);
      OneMoreMark(marks + EnteredAll(earlier), Entered(last));
    }
  }

  lemma AwaitKeeps(r: Router, ids: seq<string>)
    requires Sound(r) && Fair(r)
    ensures Sound(Await(r, ids)) && Fair(Await(r, ids))
  {
    AwaitOnce(r.marks, ids);
    forall id | id in Await(r, ids).awaiting ensures Unanswered(Await(r, ids).marks, id) {
      AwaitMarks(r.marks, ids, id);
    }
  }

  // ----- runs

  ghost predicate Keeps(r: Router) {
    Sound(r) && Fair(r)
  }

  lemma PassOnKeeps(s: State, env: Env, messages: seq<Item>, orphans: seq<Item>, resumed: bool, sends: bool)
    requires Keeps(s.router)
    ensures Keeps(PassOn(s, env, messages, orphans, resumed, sends).router)
  {
    CancelKeeps(s.router);
  }

  lemma TakeRequestKeeps(s: State, env: Env, items: seq<Item>, sends: bool)
    requires Keeps(s.router)
    ensures Keeps(TakeRequest(s, env, items, sends).router)
  {
    var looked := LookedAt(s, env, items);
    var s1 := looked.(turn := looked.turn.(strict := false));
    var outputs, r, running := OutputsOf(items), s.router, s.turn.running;
    var carrier := Carrier(r, running, outputs);
    var mail := if carrier >= 0 then MailOf(env, MessagesOf(s, env, items)) else [];
    DeliverAllSound(r, running, outputs, |outputs|, carrier, mail);
    DeliverAllFair(r, running, outputs, |outputs|, carrier, mail);
    PassOnKeeps(s1.(router := DeliverAll(r, running, outputs, |outputs|, carrier, mail)), env,
                if carrier >= 0 then WithoutMail(MessagesOf(s, env, items)) else MessagesOf(s, env, items),
                Orphans(r, running, outputs, |outputs|, carrier, mail), carrier >= 0, sends);
  }

  lemma ServeKeeps(s: State, env: Env, a: Action)
    requires Keeps(s.router) && a.Serve?
    ensures Keeps(ServeStep(s, env, a).router)
  {
    TakeRequestKeeps(s.(streams := OpenStream(s.streams, a.st)), env, a.items, a.sends);
  }

  lemma ResumeKeeps(s: State, env: Env, a: Action)
    requires Keeps(s.router) && a.Resume?
    ensures Keeps(ResumeStep(s, env, a).router)
  {
    if a.st in s.streams.switching {
      TakeRequestKeeps(
        s.(streams := s.streams.(switching := s.streams.switching - {a.st}), turn := s.turn.(alive := true)),
        env, s.streams.switching[a.st], a.sends);
    }
  }

  lemma FlushKeeps(s: State)
    requires Keeps(s.router)
    ensures Keeps(FlushStep(s).router)
  {
    if s.router.message.Some? {
      AwaitKeeps(s.router.(message := None), s.router.message.value);
    }
  }

  predicate Cancels(a: Action) {
    a.Disconnect? || a.Watchdog? || a.ProcessExits? || a.Close?
  }

  lemma CancelsKeep(s: State, env: Env, a: Action)
    requires Keeps(s.router) && Cancels(a)
    ensures Keeps(Next(s, env, a).router)
  {
    CancelKeeps(s.router);
  }

  /** What is left are the router's own steps. */
  lemma OtherRouter(s: State, env: Env, a: Action)
    requires !a.Serve? && !a.Resume? && !a.MessageStop? && !Cancels(a)
    ensures Next(s, env, a).router == RouterStep(s.router, a)
  {
  }

  lemma NextKeeps(s: State, env: Env, a: Action)
    requires Keeps(s.router)
    ensures Keeps(Next(s, env, a).router)
  {
    if a.Serve? {
      ServeKeeps(s, env, a);
    } else if a.Resume? {
      ResumeKeeps(s, env, a);
    } else if a.MessageStop? {
      FlushKeeps(s);
    } else if Cancels(a) {
      CancelsKeep(s, env, a);
    } else {
      OtherRouter(s, env, a);
      RouterStepKeeps(s.router, a);
    }
  }

  lemma {:induction false} RunKeeps(saved: Saved, env: Env, actions: seq<Action>)
    ensures Keeps(Run(saved, env, actions).router)
  {
    if actions != [] {
      var before := actions[..|actions| - 1];
      RunKeeps(saved, env, before);
      NextKeeps(Run(saved, env, before), env, actions[|actions| - 1]);
    }
  }

  /** In every run no call id is both pending and queued, every pending call waits
      on its own empty channel, and every channel is sent to at most once. */
  lemma CallsStayApart(saved: Saved, env: Env, actions: seq<Action>)
    ensures var r := Run(saved, env, actions).router;
            && r.pending.Keys !! r.queued.Keys
            && (forall id :: id in r.pending ==> WaitsOn(r, id, r.pending[id]))
            && (forall c :: c in r.channels ==> r.channels[c].sends <= 1 && |r.channels[c].holds| <= 1)
  {
    RunKeeps(saved, env, actions);
  }

  /** Each time Claude begins to await a call, at most one result for it is
      delivered as anything but history, however often Codex resends it. */
  lemma OneDeliveryPerWait(saved: Saved, env: Env, actions: seq<Action>, i: nat, j: nat, id: string)
    requires i < j < |Run(saved, env, actions).router.marks|
    requires var marks := Run(saved, env, actions).router.marks; Answers(marks[i], id) && Answers(marks[j], id)
    ensures var marks := Run(saved, env, actions).router.marks; exists k :: i < k < j && marks[k] == Entered(id)
  {
    RunKeeps(saved, env, actions);
    assert EnteredAfter(Run(saved, env, actions).router.marks, i, j, id);
  }
}
