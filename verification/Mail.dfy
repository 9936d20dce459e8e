/** Where the results and new messages of one Codex request end up: which result
    counts when Codex repeats one, which result the agent messages ride on, and
    what is left for Claude's next message. */
module Mail {
  import opened Options
  import Seen
  import opened Session
  import opened RouterSafety

  // ----- which results count

  /** No earlier output answers the same call. */
  predicate IsFirst(outputs: seq<Item>, n: nat, id: string)
    requires n <= |outputs|
  {
    forall k :: 0 <= k < n ==> outputs[k].callId != id
  }

  predicate DistinctCalls(outputs: seq<Item>) {
    forall i, j :: 0 <= i < j < |outputs| ==> outputs[i].callId != outputs[j].callId
  }

  /** The same as far as a call is concerned: its wait, its pending call, its queued
      result and the channels it owns. */
  predicate SameFor(r: Router, r': Router, id: string) {
    && (id in r'.awaiting <==> id in r.awaiting)
    && (id in r'.pending <==> id in r.pending) && (id in r.pending ==> r'.pending[id] == r.pending[id])
    && (id in r'.queued <==> id in r.queued) && (id in r.queued ==> r'.queued[id] == r.queued[id])
    && r'.channels.Keys == r.channels.Keys
    && (forall c :: c in r.channels && r.channels[c].owner == id ==> r'.channels[c] == r.channels[c])
    && (forall c :: c in r.channels ==> r'.channels[c].owner == r.channels[c].owner)
  }

  /** A result for one call changes nothing for another, and none that is history
      changes anything for its own. */
  lemma DeliverToOther(r: Router, running: bool, id: string, other: string, result: Result)
    requires Sound(r) && (id != other || id !in r.awaiting)
    ensures SameFor(r, Deliver(r, running, id, result), other)
  {
    if Destination(r, running, id) == Delivered {
      assert WaitsOn(r, id, r.pending[id]);
    }
  }

  lemma SameForThen(a: Router, b: Router, c: Router, id: string)
    requires SameFor(a, b, id) && SameFor(b, c, id)
    ensures SameFor(a, c, id)
  {
  }

  lemma {:induction false} OthersFirst(r: Router, running: bool, outputs: seq<Item>, n: nat, carrier: int, mail: seq<string>, id: string)
    requires n <= |outputs| && Sound(r) && IsFirst(outputs, n, id)
    ensures SameFor(r, DeliverAll(r, running, outputs, n, carrier, mail), id)
  {
    if n > 0 {
      OthersFirst(r, running, outputs, n - 1, carrier, mail, id);
      DeliverAllSound(r, running, outputs, n - 1, carrier, mail);
      var before := DeliverAll(r, running, outputs, n - 1, carrier, mail);
      DeliverToOther(before, running, outputs[n - 1].callId, id, ResultOf(outputs, n - 1, carrier, mail));
      SameForThen(r, before, DeliverAll(r, running, outputs, n, carrier, mail), id);
    }
  }

  lemma {:induction false} OnceDone(r: Router, running: bool, outputs: seq<Item>, n: nat, m: nat, carrier: int, mail: seq<string>, id: string)
    requires n <= m <= |outputs| && Sound(r) && id !in DeliverAll(r, running, outputs, n, carrier, mail).awaiting
    ensures SameFor(DeliverAll(r, running, outputs, n, carrier, mail), DeliverAll(r, running, outputs, m, carrier, mail), id)
  {
    if n < m {
      OnceDone(r, running, outputs, n, m - 1, carrier, mail, id);
      DeliverAllSound(r, running, outputs, m - 1, carrier, mail);
      var done, before := DeliverAll(r, running, outputs, n, carrier, mail), DeliverAll(r, running, outputs, m - 1, carrier, mail);
      DeliverToOther(before, running, outputs[m - 1].callId, id, ResultOf(outputs, m - 1, carrier, mail));
      SameForThen(done, before, DeliverAll(r, running, outputs, m, carrier, mail), id);
    }
  }

  /** Although earlier outputs change the maps, an output goes where it would have
      gone first, unless an earlier one answers the same call: then it is history. */
  lemma GoesWhereItWould(r: Router, running: bool, outputs: seq<Item>, i: nat, carrier: int, mail: seq<string>)
    requires i < |outputs| && Sound(r)
    ensures WentTo(r, running, outputs, i, carrier, mail) ==
            if IsFirst(outputs, i, outputs[i].callId) then Destination(r, running, outputs[i].callId) else History
  {
    var id := outputs[i].callId;
    if IsFirst(outputs, i, id) {
      OthersFirst(r, running, outputs, i, carrier, mail, id);
    } else {
      var k :| 0 <= k < i && outputs[k].callId == id;
      OnceDone(r, running, outputs, k + 1, i, carrier, mail, id);
    }
  }

  /** The result is where the call will take it: alone on the channel the call
      waits on, or queued. */
  predicate Arrived(r: Router, r': Router, id: string, result: Result) {
    if id in r.pending then
      r.pending[id] in r'.channels && r'.channels[r.pending[id]] == Channel(id, [result], 1)
    else
      id in r'.queued && r'.queued[id] == result
  }

  predicate Reaches(d: Delivery) {
    d == Delivered || d == Queued
  }

  lemma ArrivesAtOnce(r: Router, r1: Router, running: bool, id: string, result: Result)
    requires Sound(r) && Sound(r1) && SameFor(r, r1, id) && Reaches(Destination(r1, running, id))
    ensures Arrived(r, Deliver(r1, running, id, result), id, result)
    ensures id !in Deliver(r1, running, id, result).awaiting
  {
    if id in r1.pending {
      DeliversOnOwnChannel(r1, running, id, result);
    }
  }

  lemma StaysArrived(r: Router, r1: Router, r2: Router, id: string, result: Result)
    requires Arrived(r, r1, id, result) && SameFor(r1, r2, id)
    ensures Arrived(r, r2, id, result)
  {
  }

  /** Once the request is routed, the first result for a call Claude's turn waits
      for is where that call will take it, whatever else the request answers. */
  lemma FirstResultArrives(r: Router, running: bool, outputs: seq<Item>, i: nat, carrier: int, mail: seq<string>)
    requires i < |outputs| && Sound(r)
    requires Resumes(r, running, outputs[i].callId) && IsFirst(outputs, i, outputs[i].callId)
    ensures Arrived(r, DeliverAll(r, running, outputs, |outputs|, carrier, mail), outputs[i].callId,
                    ResultOf(outputs, i, carrier, mail))
    ensures outputs[i].callId !in DeliverAll(r, running, outputs, |outputs|, carrier, mail).awaiting
  {
    var id := outputs[i].callId;
    var before := DeliverAll(r, running, outputs, i, carrier, mail);
    OthersFirst(r, running, outputs, i, carrier, mail, id);
    DeliverAllSound(r, running, outputs, i, carrier, mail);
    ArrivesAtOnce(r, before, running, id, ResultOf(outputs, i, carrier, mail));
    OnceDone(r, running, outputs, i + 1, |outputs|, carrier, mail, id);
    StaysArrived(r, DeliverAll(r, running, outputs, i + 1, carrier, mail),
                 DeliverAll(r, running, outputs, |outputs|, carrier, mail), id, ResultOf(outputs, i, carrier, mail));
  }

  // ----- the carrier

  /** The carrier is the last output that reaches Claude's turn, if any does. */
  lemma {:induction false} CarrierIsLast(r: Router, running: bool, outputs: seq<Item>)
    ensures var c := Carrier(r, running, outputs);
            && (c >= 0 ==> Resumes(r, running, outputs[c].callId))
            && forall j :: c < j < |outputs| ==> !Resumes(r, running, outputs[j].callId)
  {
    if outputs != [] && !Resumes(r, running, outputs[|outputs| - 1].callId) {
      CarrierIsLast(r, running, outputs[..|outputs| - 1]);
    }
  }

  /** With a result that reaches Claude's turn, the new mail reaches it too, exactly
      when no earlier output answers the carrier's call; it then waits there with
      the carrier's output, and no other result brings any mail. Otherwise the
      carrier is history, and the mail goes nowhere. */
  lemma MailRidesOnCarrier(r: Router, running: bool, outputs: seq<Item>, mail: seq<string>)
    requires Sound(r) && Carrier(r, running, outputs) >= 0
    ensures var c := Carrier(r, running, outputs); var id := outputs[c].callId;
            && (Reaches(WentTo(r, running, outputs, c, c, mail)) <==> IsFirst(outputs, c, id))
            && (IsFirst(outputs, c, id) ==>
                  Arrived(r, DeliverAll(r, running, outputs, |outputs|, c, mail), id, Result(outputs[c].raw, mail, false)))
            && (!IsFirst(outputs, c, id) ==> WentTo(r, running, outputs, c, c, mail) == History)
            && forall i :: 0 <= i < |outputs| && i != c ==> ResultOf(outputs, i, c, mail).mail == []
  {
    var c := Carrier(r, running, outputs);
    CarrierIsLast(r, running, outputs);
    GoesWhereItWould(r, running, outputs, c, c, mail);
    if IsFirst(outputs, c, outputs[c].callId) {
      FirstResultArrives(r, running, outputs, c, c, mail);
    }
  }

  /** Mail lost: a request answers one awaited call twice, so the carrier, the later
      answer, is history, and what is queued has no mail. */
  lemma MailLostOnRepeat(out: Item, mail: string)
    ensures var r := NO_CALLS.(awaiting := {out.callId});
            var outputs := [out, out]; var c := Carrier(r, true, outputs);
            && c == 1 && WentTo(r, true, outputs, 1, c, [mail]) == History
            && DeliverAll(r, true, outputs, 2, c, [mail]).queued == map[out.callId := Result(out.raw, [], false)]
  {
    var r := NO_CALLS.(awaiting := {out.callId});
    var one := DeliverAll(r, true, [out, out], 1, 1, [mail]);
    assert DeliverAll(r, true, [out, out], 0, 1, [mail]) == r;
    assert one == Deliver(r, true, out.callId, Result(out.raw, [], false));
  }

  // ----- the other messages

  function CountMail(messages: seq<Item>): nat {
    if messages == [] then 0
    else CountMail(messages[..|messages| - 1]) + if messages[|messages| - 1].kind == Seen.AgentMessage then 1 else 0
  }

  /** A message is piece m of the mail, as text, or piece k of the rest. */
  predicate Goes(env: Env, it: Item, mail: seq<string>, rest: seq<Item>, m: nat, k: int) {
    if it.kind == Seen.AgentMessage then m < |mail| && mail[m] == env.mailText(it) else 0 <= k < |rest| && rest[k] == it
  }

  lemma GoesStill(env: Env, it: Item, mail: seq<string>, rest: seq<Item>, mail': seq<string>, rest': seq<Item>, m: nat, k: int)
    requires mail <= mail' && rest <= rest' && Goes(env, it, mail, rest, m, k)
    ensures Goes(env, it, mail', rest', m, k)
  {
  }

  /** Every new message goes exactly one way, in order: with m pieces of mail before
      it, message i is piece m of the mail, as text, or message i - m of the rest. */
  lemma {:induction false} MessageGoesOneWay(env: Env, messages: seq<Item>, i: nat)
    requires i < |messages|
    ensures var m := CountMail(messages[..i]);
            && |MailOf(env, messages)| == CountMail(messages) && |MailOf(env, messages)| + |WithoutMail(messages)| == |messages|
            && m <= i
            && Goes(env, messages[i], MailOf(env, messages), WithoutMail(messages), m, i - m)
  {
    var before, m := messages[..|messages| - 1], CountMail(messages[..i]);
    MailSplits(env, messages);
    MailSplits(env, before);
    if i < |before| {
      MessageGoesOneWay(env, before, i);
      assert before[..i] == messages[..i];
      GoesStill(env, messages[i], MailOf(env, before), WithoutMail(before), MailOf(env, messages), WithoutMail(messages), m, i - m);
    }
  }

  lemma {:induction false} MailSplits(env: Env, messages: seq<Item>)
    ensures |MailOf(env, messages)| == CountMail(messages) <= |messages|
    ensures |MailOf(env, messages)| + |WithoutMail(messages)| == |messages|
  {
    if messages != [] {
      MailSplits(env, messages[..|messages| - 1]);
    }
  }

  // ----- what goes to Claude

  /** The blocks of all that was sent, in order. */
  function BlocksSent(sent: seq<ToClaude>): seq<string> {
    if sent == [] then []
    else
      var last := sent[|sent| - 1];
      BlocksSent(sent[..|sent| - 1]) + if last.Blocks? then last.blocks else []
  }

  /** The blocks Claude has, then those held back for it. */
  function Conveyed(t: Turn): seq<string> {
    BlocksSent(t.sent) + t.held
  }

  lemma BlocksSentMore(sent: seq<ToClaude>, m: ToClaude)
    ensures BlocksSent(sent + [m]) == BlocksSent(sent) + if m.Blocks? then m.blocks else []
  {
    assert (sent + [m])[..|sent|] == sent;
  }

  lemma ReadiedSame(t: Turn, env: Env, messages: seq<Item>, orphans: seq<Item>, resumed: bool)
    ensures var ready := Readied(t, env, messages, orphans, resumed);
            ready.alive == t.alive && ready.running == t.running && ready.sent == t.sent
  {
  }

  lemma SendUserTurn(s: State, m: ToClaude, sends: bool)
    ensures SendUser(s, m, sends).turn.held == s.turn.held == Failed(s).turn.held
    ensures SendUser(s, m, sends).turn.sent == if Takes(s, sends) then s.turn.sent + [m] else s.turn.sent
    ensures Failed(s).turn.sent == s.turn.sent
  {
  }

  lemma SendOnTurn(s: State, env: Env, messages: seq<Item>, orphans: seq<Item>, resumed: bool, sends: bool)
    ensures var t := SendOn(s, env, messages, orphans, resumed, sends).turn;
            var out, ready := Outgoing(s.turn, env, messages, orphans, resumed), Readied(s.turn, env, messages, orphans, resumed);
            && t.held == ready.held
            && t.sent == if out.Some? && Takes(s, sends) then s.turn.sent + [out.value] else s.turn.sent
  {
    var out := Outgoing(s.turn, env, messages, orphans, resumed);
    ReadiedSame(s.turn, env, messages, orphans, resumed);
    SendUserTurn(s.(turn := Readied(s.turn, env, messages, orphans, resumed)), if out.Some? then out.value else Nudge, sends);
  }

  lemma PassOnTurn(s: State, env: Env, messages: seq<Item>, orphans: seq<Item>, resumed: bool, sends: bool)
    ensures var t := PassOn(s, env, messages, orphans, resumed, sends).turn;
            var out, ready := Outgoing(s.turn, env, messages, orphans, resumed), Readied(s.turn, env, messages, orphans, resumed);
            && t.held == ready.held
            && t.sent == if out.Some? && Takes(s, sends) then s.turn.sent + [out.value] else s.turn.sent
  {
    SendOnTurn(s, env, messages, orphans, resumed, sends);
    SendOnTurn(s.(router := CancelPending(s.router)), env, messages, orphans, resumed, sends);
  }

  /** No block is lost, doubled or moved before an earlier one: those of a request
      come after all that Claude has or that is held back for it. This fails
      exactly when Claude does not take a message that is not a command: then its
      blocks, with those held back, are gone. */
  lemma BlocksConveyed(s: State, env: Env, messages: seq<Item>, orphans: seq<Item>, resumed: bool, sends: bool)
    ensures Conveyed(PassOn(s, env, messages, orphans, resumed, sends).turn)
              == Conveyed(s.turn) + NewBlocks(env, messages, orphans)
            <==> Takes(s, sends) || EndsInCommand(env, messages) || NewBlocks(env, messages, orphans) == []
  {
    var t := PassOn(s, env, messages, orphans, resumed, sends).turn;
    PassOnTurn(s, env, messages, orphans, resumed, sends);
    TurnConveys(s.turn, t, env, messages, orphans, resumed, Takes(s, sends));
  }

  /** What the message that goes out takes along, and what is then held. */
  lemma ReadiedCases(t: Turn, env: Env, messages: seq<Item>, orphans: seq<Item>, resumed: bool)
    ensures var added := NewBlocks(env, messages, orphans);
            var out, held := Outgoing(t, env, messages, orphans, resumed), Readied(t, env, messages, orphans, resumed).held;
            if EndsInCommand(env, messages) then out.Some? && out.value.Command? && held == t.held + added
            else if added != [] then out == Some(Blocks(t.held + added)) && held == []
            else (out == None || out == Some(Nudge)) && held == t.held
  {
  }

  lemma TurnConveys(t: Turn, t': Turn, env: Env, messages: seq<Item>, orphans: seq<Item>, resumed: bool, takes: bool)
    requires var out := Outgoing(t, env, messages, orphans, resumed);
             && t'.held == Readied(t, env, messages, orphans, resumed).held
             && t'.sent == if out.Some? && takes then t.sent + [out.value] else t.sent
    ensures Conveyed(t') == Conveyed(t) + NewBlocks(env, messages, orphans)
            <==> takes || EndsInCommand(env, messages) || NewBlocks(env, messages, orphans) == []
  {
    ReadiedCases(t, env, messages, orphans, resumed);
    ConveysOne(t, t', Outgoing(t, env, messages, orphans, resumed), NewBlocks(env, messages, orphans), takes);
  }

  lemma ConveysOne(t: Turn, t': Turn, out: Option<ToClaude>, added: seq<string>, takes: bool)
    requires t'.sent == if out.Some? && takes then t.sent + [out.value] else t.sent
    requires t'.held == if out.Some? && out.value.Blocks? then [] else t.held + added
    requires out.Some? && out.value.Blocks? ==> added != [] && out.value.blocks == t.held + added
    ensures Conveyed(t') == Conveyed(t) + added <==> takes || !(out.Some? && out.value.Blocks?)
  {
    var sent, goes := BlocksSent(t.sent), out.Some? && out.value.Blocks?;
    if out.Some? {
      BlocksSentMore(t.sent, out.value);
    }
    assert sent + [] == sent;
    SentThenHeld(sent, t.held, added, BlocksSent(t'.sent), t'.held, goes, takes);
  }

  /** Held back and added blocks go out together, are held back together, or are gone. */
  lemma SentThenHeld(sent: seq<string>, held: seq<string>, added: seq<string>, sent': seq<string>, held': seq<string>, goes: bool, takes: bool)
    requires goes ==> added != []
    requires sent' == sent + (if goes && takes then held + added else [])
    requires held' == if goes then [] else held + added
    ensures sent' + held' == sent + held + added <==> takes || !goes
  {
    Append3(sent, held, added);
    assert sent + [] == sent;
    if goes && !takes {
      assert |sent' + held'| == |sent|;
    }
  }

  lemma Append3(a: seq<string>, b: seq<string>, c: seq<string>)
    ensures a + b + c == a + (b + c) && a + b + c + [] == a + b + c && a + b + [] == a + b
  {
  }

  /** Blocks lost: one is held back from before a command, Claude does not run, and a
      request brings a message of one more. */
  lemma BlocksLost(saved: Saved, m: Item)
    ensures var env := Env((_, _) => "", _ => None, _ => ["new"], _ => "", _ => "");
            var s := Load(saved); var before := s.(turn := s.turn.(alive := false, held := ["old"]));
            var after := PassOn(before, env, [m], [], false, true);
            Conveyed(before.turn) == ["old"] && NewBlocks(env, [m], []) == ["new"] && Conveyed(after.turn) == []
  {
    var env := Env((_, _) => "", _ => None, _ => ["new"], _ => "", _ => "");
    var s := Load(saved);
    var before := s.(turn := s.turn.(alive := false, held := ["old"]));
    assert [m][..0] == [] && BlocksOf(env, []) == [];
    assert BlocksOf(env, [m]) == ["new"];
    PassOnTurn(before, env, [m], [], false, true);
    ReadiedCases(before.turn, env, [m], [], false);
  }

  // ----- a whole request

  lemma PassOnRouter(s: State, env: Env, messages: seq<Item>, orphans: seq<Item>, sends: bool)
    ensures PassOn(s, env, messages, orphans, true, sends).router == s.router
  {
  }

  /** What a request comes to: who carries its mail, the mail, the other new messages,
      the orphans, and the session once the outputs are routed. */
  datatype Routed = Routed(carrier: int, mail: seq<string>, rest: seq<Item>, orphans: seq<Item>, session: State)

  function RoutedBy(s: State, env: Env, messages: seq<Item>, outputs: seq<Item>): (q: Routed)
    ensures -1 <= q.carrier < |outputs|
  {
    var r, running := s.router, s.turn.running;
    var c := Carrier(r, running, outputs);
    var mail := if c >= 0 then MailOf(env, messages) else [];
    Routed(c, mail, if c >= 0 then WithoutMail(messages) else messages, Orphans(r, running, outputs, |outputs|, c, mail),
           s.(router := DeliverAll(r, running, outputs, |outputs|, c, mail)))
  }

  lemma RouteThenPass(s: State, env: Env, messages: seq<Item>, outputs: seq<Item>, sends: bool, q: Routed)
    requires q == RoutedBy(s, env, messages, outputs)
    ensures RouteRequest(s, env, messages, outputs, sends) == PassOn(q.session, env, q.rest, q.orphans, q.carrier >= 0, sends)
    ensures q.session.turn == s.turn
  {
  }

  lemma CarriedMail(s: State, env: Env, messages: seq<Item>, outputs: seq<Item>, q: Routed)
    requires Sound(s.router) && DistinctCalls(outputs) && q == RoutedBy(s, env, messages, outputs) && q.carrier >= 0
    ensures Arrived(s.router, q.session.router, outputs[q.carrier].callId, Result(outputs[q.carrier].raw, q.mail, false))
  {
    MailRidesOnCarrier(s.router, s.turn.running, outputs, q.mail);
  }

  /** A request whose outputs answer distinct calls, passed to a Claude that takes
      it: each new agent message arrives with the carrier's result when there is a
      carrier, and all else, and agent messages too when there is none, goes to
      Claude in order as blocks or is the command that ends the request. */
  lemma EverythingNewArrives(s: State, env: Env, messages: seq<Item>, outputs: seq<Item>, sends: bool)
    requires Sound(s.router) && DistinctCalls(outputs) && Takes(s, sends)
    ensures var q, s' := RoutedBy(s, env, messages, outputs), RouteRequest(s, env, messages, outputs, sends);
            && (q.carrier >= 0 ==>
                  Arrived(s.router, s'.router, outputs[q.carrier].callId, Result(outputs[q.carrier].raw, q.mail, false)))
            && Conveyed(s'.turn) == Conveyed(s.turn) + NewBlocks(env, q.rest, q.orphans)
            && (EndsInCommand(env, q.rest) ==>
                  s'.turn.sent == s.turn.sent + [Command(env.command(q.rest[|q.rest| - 1]).value)])
  {
    var q := RoutedBy(s, env, messages, outputs);
    RouteThenPass(s, env, messages, outputs, sends, q);
    if q.carrier >= 0 {
      CarriedMail(s, env, messages, outputs, q);
    }
    RestArrives(s, q, env, sends, outputs);
  }

  lemma RestArrives(s: State, q: Routed, env: Env, sends: bool, outputs: seq<Item>)
    requires Takes(s, sends) && q.session.turn == s.turn && -1 <= q.carrier < |outputs|
    requires q.carrier >= 0 ==>
               Arrived(s.router, q.session.router, outputs[q.carrier].callId, Result(outputs[q.carrier].raw, q.mail, false))
    ensures var s' := PassOn(q.session, env, q.rest, q.orphans, q.carrier >= 0, sends);
            && (q.carrier >= 0 ==>
                  Arrived(s.router, s'.router, outputs[q.carrier].callId, Result(outputs[q.carrier].raw, q.mail, false)))
            && Conveyed(s'.turn) == Conveyed(s.turn) + NewBlocks(env, q.rest, q.orphans)
            && (EndsInCommand(env, q.rest) ==>
                  s'.turn.sent == s.turn.sent + [Command(env.command(q.rest[|q.rest| - 1]).value)])
  {
    if q.carrier >= 0 {
      PassOnRouter(q.session, env, q.rest, q.orphans, sends);
    }
    BlocksConveyed(q.session, env, q.rest, q.orphans, q.carrier >= 0, sends);
    PassOnTurn(q.session, env, q.rest, q.orphans, q.carrier >= 0, sends);
  }

  /** Routing ends the wait for the calls it answers, and takes those that wait for
      their result from the pending ones. */
  lemma {:induction false} AfterRouting(r: Router, running: bool, outputs: seq<Item>, n: nat, carrier: int, mail: seq<string>, id: string)
    requires n <= |outputs|
    ensures var r', answered := DeliverAll(r, running, outputs, n, carrier, mail), !IsFirst(outputs, n, id);
            && (id in r'.awaiting <==> id in r.awaiting && !answered)
            && (id in r'.pending <==> id in r.pending && !(id in r.awaiting && answered))
            && (id in r'.pending ==> r'.pending[id] == r.pending[id])
  {
    if n > 0 {
      AfterRouting(r, running, outputs, n - 1, carrier, mail, id);
    }
  }

  /** The orphans are exactly the first answers to calls Claude awaited in a turn
      that was lost. */
  lemma {:induction false} OrphansAreLost(r: Router, running: bool, outputs: seq<Item>, n: nat, carrier: int, mail: seq<string>)
    requires n <= |outputs|
    ensures Orphans(r, running, outputs, n, carrier, mail) == LostAnswers(r, running, outputs, n)
  {
    if n > 0 {
      OrphansAreLost(r, running, outputs, n - 1, carrier, mail);
      AfterRouting(r, running, outputs, n - 1, carrier, mail, outputs[n - 1].callId);
    }
  }

  /** The first answers among the first n to calls that are awaited by no turn. */
  function LostAnswers(r: Router, running: bool, outputs: seq<Item>, n: nat): seq<Item>
    requires n <= |outputs|
  {
    if n == 0 then []
    else
      var id := outputs[n - 1].callId;
      LostAnswers(r, running, outputs, n - 1)
      + if id in r.awaiting && id !in r.pending && !running && IsFirst(outputs, n - 1, id) then [outputs[n - 1]] else []
  }
}
