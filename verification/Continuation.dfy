/** What a websocket message may build on: the router keeps the last response it
    answered itself, and a message continuing it stands for the whole chain. */
module Continuation {
  import opened Options
  import opened Upstream

  // ----- one response's events

  /** The events of a response, as far as the router reads them. */
  datatype Event =
    | Created(id: string) | ItemDone(item: Item) | Completed(id: string)
    | Failed | Incomplete | ErrorEvent | OtherEvent

  predicate Terminal(e: Event) {
    e.Completed? || e.Failed? || e.Incomplete? || e.ErrorEvent?
  }

  /** What the router has of a response: its id, its output items, the event
      that ended it, and whether writing to Codex failed. */
  datatype Streamed = Streamed(id: string, output: seq<Item>, terminal: Option<Event>, broken: bool)

  const NOTHING := Streamed("", [], None, false)

  /** One event: read, written to Codex if the write works, and the last one if
      it is terminal. */
  function TakeEvent(s: Streamed, e: Event, writes: bool): Streamed {
    var read := match e
      case Created(id) => s.(id := id)
      case ItemDone(item) => s.(output := s.output + [item])
      case Completed(id) => if id != "" then s.(id := id) else s
      case _ => s;
    if !writes then read.(broken := true) else if Terminal(e) then read.(terminal := Some(e)) else read
  }

  /** Whether the n-th write to Codex works. */
  type Writes = nat -> bool

  function TakeEvents(events: seq<Event>, n: nat, writes: Writes): Streamed
    requires n <= |events|
  {
    if n == 0 then NOTHING
    else
      var s := TakeEvents(events, n - 1, writes);
      if s.terminal.Some? || s.broken then s else TakeEvent(s, events[n - 1], writes(n - 1))
  }

  // ----- the session

  /** The last response the router answered itself: its id, and its whole input
      then its output. */
  datatype Cont = Cont(id: string, items: seq<Item>)

  const NO_CONT := Cont("", [])

  /** What becomes of a message's request: an error event for Codex, a failure
      that ends the session, a streamed response, or a compaction's summary. */
  datatype Outcome =
    | Fails
    | Breaks
    | Streams(events: seq<Event>, writes: Writes)
    | Compacts(id: string, output: seq<Item>)

  /** A message from Codex: refused because the router stops, relayed to OpenAI
      (when its socket is there or can be dialed), or the router's own to answer.
      What the router then writes, the frame to OpenAI or an error event to Codex,
      may fail to be written, which ends the session. */
  datatype Message =
    | Refused
    | Relay(dials: bool, writes: bool)
    | Own(body: Body, outcome: Outcome, freshId: string, tells: bool)

  /** What happened, in order: a relayed message, one whose input could not be
      read, or one that was taken, with what it continued, what its request
      said, what the upstream was sent and what came back. */
  datatype Entry =
    | Relayed
    | Unread
    | Turn(prev: string, input: seq<Item>, sent: seq<Item>, output: seq<Item>, id: string, completed: bool)

  datatype State = State(cont: Cont, log: seq<Entry>, ended: bool)

  const START := State(NO_CONT, [], false)

  /** A response that completed can be built on. */
  function Complete(st: State, turn: Entry, id: string, output: seq<Item>): State
    requires turn.Turn?
  {
    st.(cont := Cont(id, turn.sent + output), log := st.log + [turn.(output := output, id := id, completed := true)])
  }

  /** One that did not cannot. */
  function Drop(st: State, turn: Entry, ends: bool): State {
    st.(cont := NO_CONT, log := st.log + [turn], ended := ends)
  }

  /** Whether a message that continues prev is taken. */
  predicate Takes(cont: Cont, prev: string) {
    prev == "" || prev == cont.id
  }

  function Answer(st: State, turn: Entry, m: Message): State
    requires m.Own? && turn.Turn?
  {
    if !Generates(m.body) then
      if m.outcome.Breaks? then Drop(st, turn, true) else Complete(st, turn, m.freshId, [])
    else match m.outcome
      case Fails => Drop(st, turn, !m.tells)
      case Breaks => Drop(st, turn, true)
      case Compacts(id, output) => Complete(st, turn, id, output)
      case Streams(events, writes) =>
        var s := TakeEvents(events, |events|, writes);
        if s.broken then Drop(st, turn, true)
        else if s.terminal.Some? && s.terminal.value.Completed? then Complete(st, turn, s.id, s.output)
        else Drop(st, turn, s.terminal == None && !m.tells)
  }

  function Serve(st: State, m: Message): State
    requires m.Own?
  {
    var prev := PreviousOf(m.body);
    if !Takes(st.cont, prev) then st.(ended := !m.tells)
    else match Standalone(m.body, if prev != "" then st.cont.items else [])
      case None => Drop(st, Unread, !m.tells)
      case Some(request) => Answer(st, Turn(prev, m.body.input.value, request.input.value, [], "", false), m)
  }

  function Next(st: State, m: Message): State {
    if st.ended then st
    else match m
      case Refused => st.(ended := true)
      case Relay(dials, writes) => if dials then Drop(st, Relayed, !writes) else st.(ended := !writes)
      case Own(_, _, _, _) => Serve(st, m)
  }

  function Run(messages: seq<Message>): State {
    if messages == [] then START else Next(Run(messages[..|messages| - 1]), messages[|messages| - 1])
  }

  // ----- the chain a message stands for

  /** A message may build on the entry before it: a response the router itself
      answered, that completed, under the id the message names. */
  predicate BuildsOn(log: seq<Entry>, k: nat, prev: string) {
    k > 0 && k <= |log| && log[k - 1].Turn? && log[k - 1].completed && log[k - 1].id == prev
  }

  /** The whole conversation entry k stands for: in1 ++ out1 ++ ... ++ in_k. */
  function Chain(log: seq<Entry>, k: nat): seq<Item>
    requires k < |log| && log[k].Turn?
  {
    if log[k].prev == "" || k == 0 || !log[k - 1].Turn? then log[k].input
    else Chain(log, k - 1) + log[k - 1].output + log[k].input
  }

  predicate Whole(log: seq<Entry>, k: nat) {
    k < |log| && log[k].Turn? ==>
      log[k].sent == Chain(log, k) && (log[k].prev != "" ==> BuildsOn(log, k, log[k].prev))
  }

  predicate Inv(st: State) {
    && (forall k :: 0 <= k < |st.log| ==> Whole(st.log, k))
    && st.cont == (if st.log != [] && st.log[|st.log| - 1].Turn? && st.log[|st.log| - 1].completed
                   then var last := st.log[|st.log| - 1]; Cont(last.id, last.sent + last.output) else NO_CONT)
  }

  lemma {:induction false} ChainOfPrefix(log: seq<Entry>, e: Entry, k: nat)
    requires k < |log| && log[k].Turn?
    ensures Chain(log + [e], k) == Chain(log, k)
  {
    if !(log[k].prev == "" || k == 0 || !log[k - 1].Turn?) {
      ChainOfPrefix(log, e, k - 1);
    }
  }

  /** One more entry keeps what earlier ones stand for. */
  lemma LogGrows(log: seq<Entry>, e: Entry)
    requires forall k :: 0 <= k < |log| ==> Whole(log, k)
    requires Whole(log + [e], |log|)
    ensures forall k :: 0 <= k < |log + [e]| ==> Whole(log + [e], k)
  {
    forall k | 0 <= k < |log| ensures Whole(log + [e], k) {
      assert Whole(log, k);
      if log[k].Turn? {
        ChainOfPrefix(log, e, k);
      }
    }
  }

  /** The request a taken message stands for is the whole chain. */
  lemma TakenWhole(st: State, e: Entry)
    requires Inv(st) && e.Turn? && Takes(st.cont, e.prev)
    requires e.sent == (if e.prev != "" then st.cont.items else []) + e.input
    ensures Whole(st.log + [e], |st.log|)
  {
    var log := st.log + [e];
    if e.prev != "" {
      var n := |st.log| - 1;
      assert Whole(st.log, n);
      ChainOfPrefix(st.log, e, n);
    }
  }

  lemma AnswerInv(st: State, turn: Entry, m: Message)
    requires Inv(st) && m.Own? && turn.Turn? && !turn.completed && Takes(st.cont, turn.prev)
    requires turn.sent == (if turn.prev != "" then st.cont.items else []) + turn.input
    ensures Inv(Answer(st, turn, m))
    ensures Answer(st, turn, m).log != st.log
  {
    var e := Answer(st, turn, m).log[|st.log|];
    TakenWhole(st, e);
    LogGrows(st.log, e);
  }

  lemma NextInv(st: State, m: Message)
    requires Inv(st)
    ensures Inv(Next(st, m))
  {
    if !st.ended {
      if m.Own? && Takes(st.cont, PreviousOf(m.body)) && m.body.input.Some? {
        var prev := PreviousOf(m.body);
        var request := Standalone(m.body, if prev != "" then st.cont.items else []).value;
        AnswerInv(st, Turn(prev, m.body.input.value, request.input.value, [], "", false), m);
      } else if m.Own? && Takes(st.cont, PreviousOf(m.body)) {
        LogGrows(st.log, Unread);
      } else if m.Relay? && m.dials {
        LogGrows(st.log, Relayed);
      }
    }
  }

  lemma {:induction false} RunInv(messages: seq<Message>)
    ensures Inv(Run(messages))
  {
    if messages != [] {
      RunInv(messages[..|messages| - 1]);
      NextInv(Run(messages[..|messages| - 1]), messages[|messages| - 1]);
    }
  }

  /** Every message the router takes is sent upstream as the whole conversation it
      stands for; one that continues a response builds on a response the router
      answered itself, that completed, and that nothing has come after, so never
      on a failed one, a replaced one or one OpenAI answered. */
  lemma TakenMessagesAreWhole(messages: seq<Message>, k: nat)
    requires k < |Run(messages).log| && Run(messages).log[k].Turn?
    ensures var log := Run(messages).log;
            && log[k].sent == Chain(log, k)
            && (log[k].prev != "" ==> BuildsOn(log, k, log[k].prev))
  {
    RunInv(messages);
    assert Whole(Run(messages).log, k);
  }

  /** A message of the router's own is taken, and answered as a new turn, exactly
      when it continues nothing or names the response that came last. */
  lemma TakenExactlyWhenLast(messages: seq<Message>, m: Message)
    requires m.Own? && m.body.input.Some? && !Run(messages).ended
    ensures var before := Run(messages); var prev := PreviousOf(m.body);
            Next(before, m).log != before.log <==> prev == "" || BuildsOn(before.log, |before.log|, prev)
  {
    var before, prev := Run(messages), PreviousOf(m.body);
    RunInv(messages);
    if Takes(before.cont, prev) {
      var request := Standalone(m.body, if prev != "" then before.cont.items else []).value;
      AnswerInv(before, Turn(prev, m.body.input.value, request.input.value, [], "", false), m);
    }
  }

  /** Turned away: it continues a response that is not the last one, or its socket to
      OpenAI cannot be dialed; and Codex could be told so. */
  predicate TurnedAway(st: State, m: Message) {
    match m
    case Refused => false
    case Relay(dials, writes) => !dials && writes
    case Own(body, _, _, tells) => !Takes(st.cont, PreviousOf(body)) && tells
  }

  lemma TurnedAwayKeeps(st: State, m: Message)
    requires TurnedAway(st, m)
    ensures Next(st, m) == st
  {
  }

  lemma {:induction false} SameFromHere(x: seq<Message>, y: seq<Message>, more: seq<Message>)
    requires Run(x) == Run(y)
    ensures Run(x + more) == Run(y + more)
  {
    if more == [] {
      assert x + more == x && y + more == y;
    } else {
      var n := |more| - 1;
      SameFromHere(x, y, more[..n]);
      assert (x + more)[..|x + more| - 1] == x + more[..n] && (y + more)[..|y + more| - 1] == y + more[..n];
    }
  }

  /** In every run a message that is turned away might as well not have come: whatever
      Codex sends then is taken, sent upstream and kept as it would have been, so the
      response before it can still be continued. */
  lemma TurnedAwayForgotten(messages: seq<Message>, m: Message, more: seq<Message>)
    requires TurnedAway(Run(messages), m)
    ensures Run(messages + [m] + more) == Run(messages + more)
  {
    TurnedAwayKeeps(Run(messages), m);
    assert (messages + [m])[..|messages|] == messages;
    SameFromHere(messages + [m], messages, more);
  }

  lemma AnsweredSent(st: State, turn: Entry, m: Message)
    requires m.Own? && turn.Turn?
    ensures var log := Answer(st, turn, m).log;
            |log| == |st.log| + 1 && log[|st.log|].Turn? && log[|st.log|].sent == turn.sent
            && log[|st.log|].prev == turn.prev && log[|st.log|].input == turn.input && log[..|st.log|] == st.log
  {
  }

  /** In every run a message that is taken goes upstream as a request of its own: one
      that continues nothing, generates and streams, says what the message said, and
      has the whole chain for its input. */
  lemma TakenRequestsStandAlone(messages: seq<Message>, m: Message)
    requires m.Own? && m.body.input.Some? && !Run(messages).ended && Takes(Run(messages).cont, PreviousOf(m.body))
    ensures var before, log := Run(messages), Run(messages + [m]).log;
            var request := Standalone(m.body, if PreviousOf(m.body) != "" then before.cont.items else []);
            && |log| == |before.log| + 1 && log[|before.log|].Turn? && request.Some?
            && request.value.input == Some(Chain(log, |before.log|)) && request.value.input == Some(log[|before.log|].sent)
            && PreviousOf(request.value) == "" && Generates(request.value) && FieldOr(request.value, STREAM, "") == "true"
            && SaysTheRest(m.body, request.value)
  {
    var before, prev := Run(messages), PreviousOf(m.body);
    var items := if prev != "" then before.cont.items else [];
    var request := Standalone(m.body, items).value;
    StandaloneStandsAlone(m.body, items);
    assert (messages + [m])[..|messages|] == messages;
    AnsweredSent(before, Turn(prev, m.body.input.value, request.input.value, [], "", false), m);
    TakenMessagesAreWhole(messages + [m], |before.log|);
  }

  // ----- what a response's output is

  /** The output of a response is the items its events finished, in order, up to
      the event that ended it; that event is the first terminal one. */
  predicate FirstTerminal(events: seq<Event>, t: nat) {
    t < |events| && Terminal(events[t]) && forall k :: 0 <= k < t ==> !Terminal(events[k])
  }

  function ItemsDone(events: seq<Event>): seq<Item> {
    if events == [] then []
    else ItemsDone(events[..|events| - 1]) + match events[|events| - 1] case ItemDone(item) => [item] case _ => []
  }

  lemma {:induction false} StreamedSoFar(events: seq<Event>, n: nat, writes: Writes)
    requires n <= |events| && (forall k :: 0 <= k < n ==> !Terminal(events[k]) && writes(k))
    ensures var s := TakeEvents(events, n, writes);
            s.terminal == None && !s.broken && s.output == ItemsDone(events[..n])
  {
    if n > 0 {
      StreamedSoFar(events, n - 1, writes);
      assert events[..n][..n - 1] == events[..n - 1];
    }
  }

  lemma {:induction false} StaysEnded(events: seq<Event>, n: nat, m: nat, writes: Writes)
    requires n <= m <= |events|
    requires TakeEvents(events, n, writes).terminal.Some? || TakeEvents(events, n, writes).broken
    ensures TakeEvents(events, m, writes) == TakeEvents(events, n, writes)
  {
    if n < m {
      StaysEnded(events, n, m - 1, writes);
    }
  }

  lemma StreamedOutput(events: seq<Event>, t: nat, writes: Writes)
    requires FirstTerminal(events, t) && forall k :: 0 <= k <= t ==> writes(k)
    ensures var s := TakeEvents(events, |events|, writes);
            s.terminal == Some(events[t]) && !s.broken && s.output == ItemsDone(events[..t]) && s.id == IdAt(events, t)
  {
    StreamedSoFar(events, t, writes);
    IdSoFar(events, t, writes);
    var s := TakeEvents(events, t, writes);
    LastTaken(s, events[t]);
    assert TakeEvents(events, t + 1, writes) == TakeEvent(s, events[t], true);
    StaysEnded(events, t + 1, |events|, writes);
  }

  lemma LastTaken(s: Streamed, e: Event)
    requires Terminal(e)
    ensures var s' := TakeEvent(s, e, true);
            s'.terminal == Some(e) && s'.broken == s.broken && s'.output == s.output
            && s'.id == if e.Completed? && e.id != "" then e.id else s.id
  {
  }

  // ----- which responses complete

  /** The stream reaches its first terminal event, and every write up to it works. */
  predicate EndsAt(events: seq<Event>, writes: Writes, t: nat) {
    FirstTerminal(events, t) && forall k :: 0 <= k <= t ==> writes(k)
  }

  /** The first write that fails, before the stream has ended. */
  predicate BreaksAt(events: seq<Event>, writes: Writes, t: nat) {
    t < |events| && !writes(t) && forall k :: 0 <= k < t ==> writes(k) && !Terminal(events[k])
  }

  function LastCreated(events: seq<Event>): string {
    if events == [] then ""
    else match events[|events| - 1] case Created(id) => id case _ => LastCreated(events[..|events| - 1])
  }

  /** The id a response goes by: that of the event that completed it, or else the last
      one it was created with. */
  function IdAt(events: seq<Event>, t: nat): string
    requires t < |events|
  {
    if events[t].Completed? && events[t].id != "" then events[t].id else LastCreated(events[..t])
  }

  lemma {:induction false} IdSoFar(events: seq<Event>, n: nat, writes: Writes)
    requires n <= |events| && (forall k :: 0 <= k < n ==> !Terminal(events[k]) && writes(k))
    ensures TakeEvents(events, n, writes).id == LastCreated(events[..n])
  {
    if n > 0 {
      IdSoFar(events, n - 1, writes);
      StreamedSoFar(events, n - 1, writes);
      assert events[..n][..n - 1] == events[..n - 1];
    }
  }

  lemma BrokenAt(events: seq<Event>, t: nat, writes: Writes)
    requires BreaksAt(events, writes, t)
    ensures TakeEvents(events, |events|, writes).broken && TakeEvents(events, |events|, writes).terminal == None
  {
    StreamedSoFar(events, t, writes);
    var s := TakeEvents(events, t, writes);
    WriteFailed(s, events[t]);
    assert TakeEvents(events, t + 1, writes) == TakeEvent(s, events[t], false);
    StaysEnded(events, t + 1, |events|, writes);
  }

  lemma WriteFailed(s: Streamed, e: Event)
    ensures TakeEvent(s, e, false).broken && TakeEvent(s, e, false).terminal == s.terminal
  {
  }

  /** A stream ends at its first terminal event, breaks at its first failed write, or runs
      out, whichever comes first. */
  lemma {:induction false} HowItEnds(events: seq<Event>, writes: Writes, n: nat) returns (t: nat)
    requires n <= |events|
    ensures EndsAt(events, writes, t) || BreaksAt(events, writes, t)
            || forall k :: 0 <= k < n ==> !Terminal(events[k]) && writes(k)
  {
    if n > 0 {
      t := HowItEnds(events, writes, n - 1);
      if !EndsAt(events, writes, t) && !BreaksAt(events, writes, t) && (Terminal(events[n - 1]) || !writes(n - 1)) {
        t := n - 1;
      }
    } else {
      t := 0;
    }
  }

  lemma EndsOnce(events: seq<Event>, writes: Writes, t: nat, t': nat)
    requires (EndsAt(events, writes, t) || BreaksAt(events, writes, t)) && (EndsAt(events, writes, t') || BreaksAt(events, writes, t'))
    ensures t == t' && !(EndsAt(events, writes, t) && BreaksAt(events, writes, t))
  {
  }

  ghost predicate Ends(events: seq<Event>, writes: Writes) {
    exists t: nat :: EndsAt(events, writes, t)
  }

  ghost predicate IsBroken(events: seq<Event>, writes: Writes) {
    exists t: nat :: BreaksAt(events, writes, t)
  }

  /** What the router has of a streamed response, event by event: it ended exactly where
      the stream ends, with the id and items up to there, and is broken exactly where a
      write fails first. */
  lemma StreamedExactly(events: seq<Event>, writes: Writes)
    ensures var s := TakeEvents(events, |events|, writes);
            && (s.broken <==> IsBroken(events, writes))
            && (s.terminal.Some? <==> Ends(events, writes))
            && forall t: nat :: EndsAt(events, writes, t) ==>
                 s.terminal == Some(events[t]) && s.id == IdAt(events, t) && s.output == ItemsDone(events[..t])
  {
    var t := HowItEnds(events, writes, |events|);
    forall t': nat | (EndsAt(events, writes, t) || BreaksAt(events, writes, t)) && (EndsAt(events, writes, t') || BreaksAt(events, writes, t'))
      ensures t == t' && !(EndsAt(events, writes, t) && BreaksAt(events, writes, t))
    {
      EndsOnce(events, writes, t, t');
    }
    if EndsAt(events, writes, t) {
      StreamedOutput(events, t, writes);
    } else if BreaksAt(events, writes, t) {
      BrokenAt(events, t, writes);
    } else {
      StreamedSoFar(events, |events|, writes);
    }
  }

  // ----- which messages complete

  /** The message asks for no output: its generate field is false, or null, which reads so. */
  predicate Prewarms(b: Body) {
    "generate" in b.fields && b.fields["generate"] in {"false", "null"}
  }

  /** A message that asks for no output is answered unless a write fails; any other is
      answered by a summary, or by a stream that ends with response.completed. */
  ghost predicate Completes(m: Message)
    requires m.Own?
  {
    if Prewarms(m.body) then !m.outcome.Breaks?
    else m.outcome.Compacts?
         || (m.outcome.Streams? && exists t: nat :: EndsAt(m.outcome.events, m.outcome.writes, t) && m.outcome.events[t].Completed?)
  }

  /** The id and the output items of its response. */
  ghost predicate AnsweredWith(m: Message, id: string, output: seq<Item>)
    requires m.Own?
  {
    if Prewarms(m.body) then id == m.freshId && output == []
    else match m.outcome
      case Compacts(i, o) => id == i && output == o
      case Streams(events, writes) =>
        exists t: nat :: EndsAt(events, writes, t) && id == IdAt(events, t) && output == ItemsDone(events[..t])
      case _ => false
  }

  /** It ends the session: what Codex must be sent cannot be written. */
  ghost predicate EndsSession(m: Message)
    requires m.Own?
  {
    if Prewarms(m.body) then m.outcome.Breaks?
    else match m.outcome
      case Fails => !m.tells
      case Breaks => true
      case Compacts(_, _) => false
      case Streams(events, writes) => IsBroken(events, writes) || (!Ends(events, writes) && !m.tells)
  }

  lemma AnswersAsStreamed(st: State, turn: Entry, m: Message)
    requires m.Own? && turn.Turn? && !turn.completed && !st.ended
    ensures var after := Answer(st, turn, m); var last := after.log[|st.log|];
            && (last.completed <==> Completes(m))
            && (last.completed ==> AnsweredWith(m, last.id, last.output))
            && (after.ended <==> EndsSession(m))
  {
    if !Prewarms(m.body) && m.outcome.Streams? {
      StreamedExactly(m.outcome.events, m.outcome.writes);
    }
  }

  /** Taken: nothing or the response kept is continued, and the input could be read. */
  predicate Taken(st: State, m: Message) {
    m.Own? && m.body.input.Some? && !st.ended && Takes(st.cont, PreviousOf(m.body))
  }

  /** In every run a message that is taken counts as completed, with this id and output,
      exactly when its request completes, and ends the session exactly when it must. */
  lemma CompletedExactlyWhen(messages: seq<Message>, m: Message)
    requires Taken(Run(messages), m)
    ensures var before, after := Run(messages), Run(messages + [m]);
            && |after.log| == |before.log| + 1 && after.log[|before.log|].Turn?
            && var last := after.log[|before.log|];
               && (last.completed <==> Completes(m))
               && (last.completed ==> AnsweredWith(m, last.id, last.output))
               && (after.ended <==> EndsSession(m))
  {
    var before, prev := Run(messages), PreviousOf(m.body);
    var request := Standalone(m.body, if prev != "" then before.cont.items else []).value;
    var turn := Turn(prev, m.body.input.value, request.input.value, [], "", false);
    RunOneMore(messages, m);
    AnsweredSent(before, turn, m);
    AnswersAsStreamed(before, turn, m);
  }

  lemma RunOneMore(messages: seq<Message>, m: Message)
    ensures Run(messages + [m]) == Next(Run(messages), m)
  {
    assert (messages + [m])[..|messages|] == messages;
  }

  /** The message after one that was taken can continue it, if it names any response,
      exactly when that one completed, under the id it was answered with. */
  lemma ContinuedExactlyWhen(messages: seq<Message>, m: Message, next: Message)
    requires Taken(Run(messages), m) && !EndsSession(m)
    requires next.Own? && next.body.input.Some? && PreviousOf(next.body) != ""
    ensures Run(messages + [m] + [next]).log != Run(messages + [m]).log <==>
            Completes(m) && exists output :: AnsweredWith(m, PreviousOf(next.body), output)
  {
    var both := messages + [m];
    var log := Run(both).log;
    CompletedExactlyWhen(messages, m);
    TakenExactlyWhenLast(both, next);
    RunOneMore(both, next);
    NamesTheLast(log[|log| - 1], m, PreviousOf(next.body));
  }

  lemma NamesTheLast(last: Entry, m: Message, prev: string)
    requires last.Turn? && m.Own? && (last.completed <==> Completes(m))
    requires last.completed ==> AnsweredWith(m, last.id, last.output)
    ensures last.completed && last.id == prev <==> Completes(m) && exists output :: AnsweredWith(m, prev, output)
  {
    if last.completed {
      forall id, output | AnsweredWith(m, id, output) ensures id == last.id {
        AnsweredOnce(m, id, output, last.id, last.output);
      }
    }
  }

  lemma AnsweredOnce(m: Message, id: string, output: seq<Item>, id': string, output': seq<Item>)
    requires m.Own? && AnsweredWith(m, id, output) && AnsweredWith(m, id', output')
    ensures id == id' && output == output'
  {
    if !Prewarms(m.body) && m.outcome.Streams? {
      var events, writes := m.outcome.events, m.outcome.writes;
      var t: nat :| EndsAt(events, writes, t) && id == IdAt(events, t) && output == ItemsDone(events[..t]);
      var t': nat :| EndsAt(events, writes, t') && id' == IdAt(events, t') && output' == ItemsDone(events[..t']);
      EndsOnce(events, writes, t, t');
    }
  }

  // ----- what is kept after any messages

  /** The id and the output a message that completes is answered with. */
  ghost function AnswerOf(m: Message): (string, seq<Item>)
    requires m.Own? && Completes(m)
  {
    if Prewarms(m.body) then (m.freshId, [])
    else if m.outcome.Compacts? then (m.outcome.id, m.outcome.output)
    else
      var t: nat :| EndsAt(m.outcome.events, m.outcome.writes, t) && m.outcome.events[t].Completed?;
      (IdAt(m.outcome.events, t), ItemsDone(m.outcome.events[..t]))
  }

  /** The response a message names, or none. */
  function Names(b: Body): string {
    if "previous_response_id" in b.fields then b.fields["previous_response_id"] else ""
  }

  /** A message for OpenAI, once its socket is dialed, leaves nothing to continue; one of
      the router's own that names another response than the one kept changes nothing;
      any other leaves its own conversation, or nothing if it does not complete. */
  ghost function KeptAfter(kept: Cont, m: Message): Cont {
    match m
    case Refused => kept
    case Relay(dials, _) => if dials then NO_CONT else kept
    case Own(body, _, _, _) =>
      if Names(body) != "" && Names(body) != kept.id then kept
      else if body.input == None || !Completes(m) then NO_CONT
      else Cont(AnswerOf(m).0, (if Names(body) == "" then [] else kept.items) + body.input.value + AnswerOf(m).1)
  }

  /** The session ends when the router stops, or what Codex or OpenAI must be sent cannot
      be written. */
  ghost predicate EndsWith(kept: Cont, m: Message) {
    match m
    case Refused => true
    case Relay(_, writes) => !writes
    case Own(body, _, _, tells) =>
      if (Names(body) != "" && Names(body) != kept.id) || body.input == None then !tells else EndsSession(m)
  }

  ghost function Kept(messages: seq<Message>): Cont {
    if messages == [] then NO_CONT else KeptAfter(Kept(messages[..|messages| - 1]), messages[|messages| - 1])
  }

  ghost predicate Over(messages: seq<Message>) {
    messages != []
    && (Over(messages[..|messages| - 1]) || EndsWith(Kept(messages[..|messages| - 1]), messages[|messages| - 1]))
  }

  lemma AnswerKeeps(st: State, turn: Entry, m: Message)
    requires m.Own? && turn.Turn? && !turn.completed && !st.ended
    ensures var after := Answer(st, turn, m);
            && (after.ended <==> EndsSession(m))
            && after.cont == if Completes(m) then Cont(AnswerOf(m).0, turn.sent + AnswerOf(m).1) else NO_CONT
  {
    AnswersAsStreamed(st, turn, m);
    if Completes(m) && !Prewarms(m.body) && m.outcome.Streams? {
      StreamedExactly(m.outcome.events, m.outcome.writes);
    }
  }

  lemma OwnKeeps(st: State, m: Message)
    requires m.Own? && !st.ended
    ensures Serve(st, m).cont == KeptAfter(st.cont, m) && (Serve(st, m).ended <==> EndsWith(st.cont, m))
  {
    var prev := PreviousOf(m.body);
    if Takes(st.cont, prev) && m.body.input.Some? {
      var input := m.body.input.value;
      var request := Standalone(m.body, if prev != "" then st.cont.items else []).value;
      AnswerKeeps(st, Turn(prev, input, request.input.value, [], "", false), m);
    }
  }

  /** In every run the session is over, and the response that can be continued is the one
      kept, as the messages themselves say. */
  lemma {:induction false} KeptExactly(messages: seq<Message>)
    ensures Run(messages).ended <==> Over(messages)
    ensures !Over(messages) ==> Run(messages).cont == Kept(messages)
  {
    if messages != [] {
      var before, m := messages[..|messages| - 1], messages[|messages| - 1];
      KeptExactly(before);
      if !Over(before) && m.Own? {
        OwnKeeps(Run(before), m);
      }
    }
  }

  /** And a message that names nothing, or the response kept, is sent upstream with what is
      kept before its own input; any other is not sent. */
  lemma SentExactly(messages: seq<Message>, m: Message)
    requires m.Own? && !Over(messages)
    ensures var before, after := Run(messages).log, Run(messages + [m]).log;
            var taken := m.body.input.Some? && (Names(m.body) == "" || Names(m.body) == Kept(messages).id);
            && (taken <==> |after| > |before| && after[|before|].Turn?)
            && (taken ==> after[|before|].sent == (if Names(m.body) == "" then [] else Kept(messages).items) + m.body.input.value)
  {
    KeptExactly(messages);
    assert (messages + [m])[..|messages|] == messages;
    if Taken(Run(messages), m) {
      TakenRequestsStandAlone(messages, m);
    }
  }
}
