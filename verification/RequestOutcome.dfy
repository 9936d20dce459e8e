/** What a Codex request comes to, from what it brings and how the session stands:
    what goes to Claude, which calls are cancelled, and whether the request stays
    open, completes or fails. */
module RequestOutcome {
  import opened Options
  import Seen
  import opened Session
  import opened RouterSafety
  import Mail

  // ----- what a request brings

  /** The tool outputs among the first n items. */
  function Brought(items: seq<Item>, n: nat): seq<Item>
    requires n <= |items|
  {
    if n == 0 then []
    else if items[n - 1].kind == Seen.FunctionOutput || items[n - 1].kind == Seen.CustomOutput then
      Brought(items, n - 1) + [items[n - 1]]
    else Brought(items, n - 1)
  }

  /** Claude's turn waits for the call's result: an MCP call does, or will. */
  predicate Reaches(r: Router, running: bool, id: string) {
    id in r.awaiting && (id in r.pending || running)
  }

  /** A tool output that Claude's turn waits for is among the items. */
  predicate Resumed(r: Router, running: bool, items: seq<Item>) {
    exists k :: 0 <= k < |items| && items[k].IsToolOutput() && Reaches(r, running, items[k].callId)
  }

  /** The new items among the first n; agent messages aside when they ride on a result. */
  function Spoken(env: Env, items: seq<Item>, n: nat, seen: Seen.State, strict: bool, resumed: bool): seq<Item>
    requires n <= |items|
  {
    if n == 0 then []
    else if && Seen.Passes(env.hash, items, n - 1, seen, strict)
            && !(resumed && items[n - 1].kind == Seen.AgentMessage) then
      Spoken(env, items, n - 1, seen, strict, resumed) + [items[n - 1]]
    else Spoken(env, items, n - 1, seen, strict, resumed)
  }

  /** The texts of the new agent messages among the first n items. */
  function Letters(env: Env, items: seq<Item>, n: nat, seen: Seen.State, strict: bool): seq<string>
    requires n <= |items|
  {
    if n == 0 then []
    else if Seen.Passes(env.hash, items, n - 1, seen, strict) && items[n - 1].kind == Seen.AgentMessage then
      Letters(env, items, n - 1, seen, strict) + [env.mailText(items[n - 1])]
    else Letters(env, items, n - 1, seen, strict)
  }

  /** The blocks of the items, one after another. */
  function AllBlocks(env: Env, items: seq<Item>): seq<string> {
    if items == [] then [] else env.blocks(items[0]) + AllBlocks(env, items[1..])
  }

  /** What a request has for Claude: what it says, the slash command that ends it if
      one does, and the results of a lost turn with the blocks before the command. */
  datatype Content = Content(resumed: bool, spoken: seq<Item>, command: Option<string>, blocks: seq<string>)

  function ContentFrom(env: Env, resumed: bool, spoken: seq<Item>, lost: seq<Item>): Content {
    var command := if spoken == [] then None else env.command(spoken[|spoken| - 1]);
    Content(resumed, spoken, command,
            (if lost == [] then [] else [env.orphanText(lost)])
            + AllBlocks(env, if command.Some? then spoken[..|spoken| - 1] else spoken))
  }

  function ContentOf(s: State, env: Env, items: seq<Item>): Content {
    var resumed := Resumed(s.router, s.turn.running, items);
    var outputs := Brought(items, |items|);
    ContentFrom(env, resumed, Spoken(env, items, |items|, s.disk.seen, s.turn.strict, resumed),
                Mail.LostAnswers(s.router, s.turn.running, outputs, |outputs|))
  }

  /** A command goes alone; blocks go with those held back before them; a turn lost in
      a restart is nudged when there is nothing else. */
  function Goes(t: Turn, c: Content): Option<ToClaude> {
    if c.command.Some? then Some(Command(c.command.value))
    else if c.blocks != [] then Some(Blocks(t.held + c.blocks))
    else if !c.resumed && !t.running && t.interrupted then Some(Nudge)
    else None
  }

  /** The turn once the request is taken. */
  function TurnThen(t: Turn, c: Content, takes: bool): Turn {
    var out := Goes(t, c);
    var sends := out.Some? && takes;
    t.(strict := false,
       sent := if sends then t.sent + [out.value] else t.sent,
       running := t.running || sends,
       held := if c.command.Some? then t.held + c.blocks else if c.blocks != [] then [] else t.held,
       interrupted := t.interrupted && (out == None || out.value.Command?),
       nudges := t.nudges + if out == Some(Nudge) then 1 else 0)
  }

  // ----- the session's view of the request

  lemma {:induction false} OutputsAreBrought(items: seq<Item>, n: nat)
    requires n <= |items|
    ensures Seen.PlacesBelow(Seen.Outputs(items, n), |items|) && Seen.At(items, Seen.Outputs(items, n)) == Brought(items, n)
  {
    if n > 0 {
      var places := Seen.Outputs(items, n - 1);
      OutputsAreBrought(items, n - 1);
      Seen.AtMore(items, places, n - 1);
      assert places + [] == places;
    }
  }

  lemma {:induction false} MessagesAreNew(env: Env, items: seq<Item>, n: nat, seen: Seen.State, strict: bool)
    requires n <= |items|
    ensures var places := Seen.Passing(env.hash, items, n, seen, strict);
            Seen.PlacesBelow(places, |items|) && Seen.At(items, places) == Spoken(env, items, n, seen, strict, false)
  {
    if n > 0 {
      MessagesAreNew(env, items, n - 1, seen, strict);
      Seen.AtMore(items, Seen.Passing(env.hash, items, n - 1, seen, strict), n - 1);
    }
  }

  lemma MailMore(env: Env, messages: seq<Item>, last: Item)
    ensures MailOf(env, messages + [last]) == MailOf(env, messages) + if last.kind == Seen.AgentMessage then [env.mailText(last)] else []
    ensures WithoutMail(messages + [last]) == WithoutMail(messages) + if last.kind == Seen.AgentMessage then [] else [last]
  {
    assert (messages + [last])[..|messages|] == messages;
  }

  lemma {:induction false} MailSplits(env: Env, items: seq<Item>, n: nat, seen: Seen.State, strict: bool)
    requires n <= |items|
    ensures var messages := Spoken(env, items, n, seen, strict, false);
            MailOf(env, messages) == Letters(env, items, n, seen, strict) && WithoutMail(messages) == Spoken(env, items, n, seen, strict, true)
  {
    if n > 0 {
      var before := Spoken(env, items, n - 1, seen, strict, false);
      MailSplits(env, items, n - 1, seen, strict);
      MailMore(env, before, items[n - 1]);
    }
  }

  lemma {:induction false} AllBlocksMore(env: Env, items: seq<Item>, last: Item)
    ensures AllBlocks(env, items + [last]) == AllBlocks(env, items) + env.blocks(last)
  {
    if items == [] {
      assert ([last])[1..] == [] && [] + [last] == [last];
      assert AllBlocks(env, [last]) == env.blocks(last) + AllBlocks(env, []);
    } else {
      AllBlocksMore(env, items[1..], last);
      assert (items + [last])[1..] == items[1..] + [last];
    }
  }

  lemma {:induction false} BlocksAreAll(env: Env, items: seq<Item>)
    ensures BlocksOf(env, items) == AllBlocks(env, items)
  {
    if items != [] {
      var before, last := items[..|items| - 1], items[|items| - 1];
      BlocksAreAll(env, before);
      AllBlocksMore(env, before, last);
      assert before + [last] == items;
    }
  }

  /** Output i of the items is among those brought, after the ones before it. */
  lemma {:induction false} BroughtAt(items: seq<Item>, n: nat, i: nat)
    requires i < n <= |items| && items[i].IsToolOutput()
    ensures |Brought(items, i)| < |Brought(items, n)| && Brought(items, n)[|Brought(items, i)|] == items[i]
  {
    if i < n - 1 {
      BroughtAt(items, n - 1, i);
    }
  }

  /** Where the one brought at place k comes from. */
  lemma {:induction false} BroughtFrom(items: seq<Item>, n: nat, k: nat) returns (i: nat)
    requires n <= |items| && k < |Brought(items, n)|
    ensures i < n && items[i].IsToolOutput() && items[i] == Brought(items, n)[k] && |Brought(items, i)| == k
  {
    if k < |Brought(items, n - 1)| {
      i := BroughtFrom(items, n - 1, k);
    } else {
      i := n - 1;
    }
  }

  lemma CarrierPlace(r: Router, running: bool, items: seq<Item>) returns (at: nat)
    requires Carrier(r, running, Brought(items, |items|)) >= 0
    ensures at < |items| && items[at].IsToolOutput() && Reaches(r, running, items[at].callId)
    ensures |Brought(items, at)| == Carrier(r, running, Brought(items, |items|))
  {
    var outputs := Brought(items, |items|);
    Mail.CarrierIsLast(r, running, outputs);
    at := BroughtFrom(items, |items|, Carrier(r, running, outputs));
  }

  /** There is a carrier exactly when a result reaches Claude's turn. */
  lemma CarrierWhenResumed(r: Router, running: bool, items: seq<Item>)
    ensures Carrier(r, running, Brought(items, |items|)) >= 0 <==> Resumed(r, running, items)
  {
    if Carrier(r, running, Brought(items, |items|)) >= 0 {
      var at := CarrierPlace(r, running, items);
    }
    if Resumed(r, running, items) {
      var i :| 0 <= i < |items| && items[i].IsToolOutput() && Reaches(r, running, items[i].callId);
      BroughtAt(items, |items|, i);
      CarrierFrom(r, running, Brought(items, |items|), |Brought(items, i)|);
    }
  }

  lemma {:induction false} CarrierFrom(r: Router, running: bool, outputs: seq<Item>, k: nat)
    requires k < |outputs| && Resumes(r, running, outputs[k].callId)
    ensures k <= Carrier(r, running, outputs)
  {
    if k < |outputs| - 1 {
      CarrierFrom(r, running, outputs[..|outputs| - 1], k);
    }
  }

  // ----- what the request does

  lemma Gathered(s: State, env: Env, items: seq<Item>, messages: seq<Item>, outputs: seq<Item>)
    requires messages == MessagesOf(s, env, items) && outputs == OutputsOf(items)
    ensures var seen, strict := s.disk.seen, s.turn.strict;
            && messages == Spoken(env, items, |items|, seen, strict, false)
            && WithoutMail(messages) == Spoken(env, items, |items|, seen, strict, true)
            && MailOf(env, messages) == Letters(env, items, |items|, seen, strict)
    ensures outputs == Brought(items, |items|)
  {
    OutputsAreBrought(items, |items|);
    MessagesAreNew(env, items, |items|, s.disk.seen, s.turn.strict);
    MailSplits(env, items, |items|, s.disk.seen, s.turn.strict);
  }

  /** A request as it is routed: the carrier's mail, the other messages and the orphans. */
  lemma RoutedParts(s: State, env: Env, messages: seq<Item>, outputs: seq<Item>, q: Mail.Routed)
    requires q == Mail.RoutedBy(s, env, messages, outputs)
    ensures q.carrier == Carrier(s.router, s.turn.running, outputs)
    ensures q.mail == (if q.carrier >= 0 then MailOf(env, messages) else [])
    ensures q.rest == (if q.carrier >= 0 then WithoutMail(messages) else messages)
    ensures q.orphans == Mail.LostAnswers(s.router, s.turn.running, outputs, |outputs|)
  {
    Mail.OrphansAreLost(s.router, s.turn.running, outputs, |outputs|, q.carrier, q.mail);
  }

  /** What is left for Claude once the outputs are routed. */
  lemma ContentParts(s: State, env: Env, items: seq<Item>, messages: seq<Item>, outputs: seq<Item>, q: Mail.Routed)
    requires messages == MessagesOf(s, env, items) && outputs == OutputsOf(items) && q == Mail.RoutedBy(s, env, messages, outputs)
    ensures q.carrier >= 0 <==> Resumed(s.router, s.turn.running, items)
    ensures q.mail == if q.carrier >= 0 then Letters(env, items, |items|, s.disk.seen, s.turn.strict) else []
    ensures ContentOf(s, env, items) == ContentFrom(env, q.carrier >= 0, q.rest, q.orphans)
  {
    Gathered(s, env, items, messages, outputs);
    CarrierWhenResumed(s.router, s.turn.running, items);
    RoutedParts(s, env, messages, outputs, q);
  }

  /** The messages and orphans that are left are this content. */
  predicate Matches(env: Env, messages: seq<Item>, orphans: seq<Item>, c: Content) {
    && (EndsInCommand(env, messages) <==> c.command.Some?)
    && (c.command.Some? ==> c.command == env.command(messages[|messages| - 1]))
    && NewBlocks(env, messages, orphans) == c.blocks
  }

  lemma FromMatches(env: Env, resumed: bool, messages: seq<Item>, orphans: seq<Item>)
    ensures Matches(env, messages, orphans, ContentFrom(env, resumed, messages, orphans))
  {
    BlocksAreAll(env, BeforeCommand(env, messages));
  }

  lemma GoesOut(t: Turn, env: Env, messages: seq<Item>, orphans: seq<Item>, c: Content)
    requires Matches(env, messages, orphans, c)
    ensures Outgoing(t, env, messages, orphans, c.resumed) == Goes(t, c)
    ensures Readied(t, env, messages, orphans, c.resumed) ==
            TurnThen(t, c, true).(strict := t.strict, sent := t.sent, running := t.running)
  {
  }

  /** Whether a request that has taken its turn keeps its stream open: a message goes out
      and Claude takes it; or none does, and Claude has a result to go on with or is
      on a turn. */
  predicate KeepsOpen(t: Turn, c: Content, takes: bool) {
    if Goes(t, c).Some? then takes else c.resumed || t.running
  }

  /** The turn and the streams once a request with this content is taken. */
  predicate TakenAs(s: State, s': State, c: Content, takes: bool) {
    && s'.turn == TurnThen(s.turn, c, takes)
    && s'.streams == if KeepsOpen(s.turn, c, takes) then s.streams else Fail(s.streams)
  }

  lemma PassOnDoes(s: State, env: Env, messages: seq<Item>, orphans: seq<Item>, c: Content, sends: bool)
    requires Matches(env, messages, orphans, c) && !s.turn.strict
    ensures TakenAs(s, PassOn(s, env, messages, orphans, c.resumed, sends), c, s.turn.alive && sends)
  {
    GoesOut(s.turn, env, messages, orphans, c);
  }

  lemma RouteDoes(s: State, env: Env, messages: seq<Item>, outputs: seq<Item>, sends: bool, q: Mail.Routed, c: Content)
    requires q == Mail.RoutedBy(s, env, messages, outputs) && !s.turn.strict
    requires c == ContentFrom(env, q.carrier >= 0, q.rest, q.orphans)
    ensures TakenAs(s, RouteRequest(s, env, messages, outputs, sends), c, s.turn.alive && sends)
  {
    Mail.RouteThenPass(s, env, messages, outputs, sends, q);
    FromMatches(env, q.carrier >= 0, q.rest, q.orphans);
    PassOnDoes(q.session, env, q.rest, q.orphans, c, sends);
  }

  lemma RoutedSame(s: State, s1: State, env: Env, messages: seq<Item>, outputs: seq<Item>)
    requires s1.router == s.router && s1.turn.running == s.turn.running
    ensures var q, q1 := Mail.RoutedBy(s, env, messages, outputs), Mail.RoutedBy(s1, env, messages, outputs);
            q1 == q.(session := s1.(router := q.session.router))
  {
  }

  lemma FirstLooks(s: State, env: Env, items: seq<Item>, sends: bool, s1: State, messages: seq<Item>, outputs: seq<Item>)
    requires s1 == LookedAt(s, env, items).(turn := s.turn.(strict := false))
    requires messages == MessagesOf(s, env, items) && outputs == OutputsOf(items)
    ensures TakeRequest(s, env, items, sends) == RouteRequest(s1, env, messages, outputs, sends)
    ensures s1.router == s.router && s1.turn == s.turn.(strict := false) && s1.streams == s.streams
  {
  }

  lemma TakenStill(s: State, s1: State, s': State, c: Content, takes: bool)
    requires TakenAs(s1, s', c, takes) && s1.turn == s.turn.(strict := false) && s1.streams == s.streams
    ensures TakenAs(s, s', c, takes)
  {
  }

  /** What a request does to Claude's turn and to its stream, from what it brings. */
  lemma RequestDoes(s: State, env: Env, items: seq<Item>, sends: bool)
    ensures TakenAs(s, TakeRequest(s, env, items, sends), ContentOf(s, env, items), s.turn.alive && sends)
  {
    var s1 := LookedAt(s, env, items).(turn := s.turn.(strict := false));
    var messages, outputs := MessagesOf(s, env, items), OutputsOf(items);
    FirstLooks(s, env, items, sends, s1, messages, outputs);
    var q, q1 := Mail.RoutedBy(s, env, messages, outputs), Mail.RoutedBy(s1, env, messages, outputs);
    var c := ContentOf(s, env, items);
    ContentParts(s, env, items, messages, outputs, q);
    RoutedSame(s, s1, env, messages, outputs);
    RouteDoes(s1, env, messages, outputs, sends, q1, c);
    TakenStill(s, s1, RouteRequest(s1, env, messages, outputs, sends), c, s.turn.alive && sends);
  }

  // ----- where the results go

  /** The first output for this call. */
  predicate FirstOutput(items: seq<Item>, i: nat) {
    i < |items| && items[i].IsToolOutput()
    && forall k :: 0 <= k < i && items[k].IsToolOutput() ==> items[k].callId != items[i].callId
  }

  /** No later output reaches Claude's turn. */
  predicate LastReaching(r: Router, running: bool, items: seq<Item>, i: nat) {
    forall k :: i < k < |items| && items[k].IsToolOutput() ==> !Reaches(r, running, items[k].callId)
  }

  lemma FirstBrought(items: seq<Item>, i: nat)
    requires FirstOutput(items, i)
    ensures var outputs, k := Brought(items, |items|), |Brought(items, i)|;
            k < |outputs| && outputs[k] == items[i] && Mail.IsFirst(outputs, k, items[i].callId)
  {
    var outputs, k := Brought(items, |items|), |Brought(items, i)|;
    BroughtAt(items, |items|, i);
    forall j | 0 <= j < k ensures outputs[j].callId != items[i].callId {
      var at := BroughtFrom(items, |items|, j);
      if at > i {
        BroughtAt(items, at, i);
      }
    }
  }

  lemma LaterCarries(r: Router, running: bool, items: seq<Item>, i: nat)
    requires i < |items| && items[i].IsToolOutput() && !LastReaching(r, running, items, i)
    ensures |Brought(items, i)| < Carrier(r, running, Brought(items, |items|))
  {
    var j :| i < j < |items| && items[j].IsToolOutput() && Reaches(r, running, items[j].callId);
    BroughtAt(items, j, i);
    BroughtAt(items, |items|, j);
    CarrierFrom(r, running, Brought(items, |items|), |Brought(items, j)|);
  }

  lemma BroughtBefore(items: seq<Item>, at: nat, i: nat)
    requires at <= i <= |items| && (at < i ==> items[at].IsToolOutput())
    ensures |Brought(items, at)| <= |Brought(items, i)|
  {
    if at < i {
      BroughtAt(items, i, at);
    }
  }

  lemma NoneLater(r: Router, running: bool, items: seq<Item>, i: nat, at: nat)
    requires LastReaching(r, running, items, i)
    requires at < |items| && items[at].IsToolOutput() && Reaches(r, running, items[at].callId)
    ensures at <= i
  {
  }

  lemma LastCarries(r: Router, running: bool, items: seq<Item>, i: nat)
    requires i < |items| && items[i].IsToolOutput() && Reaches(r, running, items[i].callId) && LastReaching(r, running, items, i)
    ensures |Brought(items, i)| == Carrier(r, running, Brought(items, |items|))
  {
    BroughtAt(items, |items|, i);
    CarrierFrom(r, running, Brought(items, |items|), |Brought(items, i)|);
    var at := CarrierPlace(r, running, items);
    NoneLater(r, running, items, i, at);
    BroughtBefore(items, at, i);
  }

  /** A result for a call that Claude's turn waits for arrives there, the first time it
      comes: with the new agent messages when it is the last such result, and with
      none otherwise. */
  lemma ResultArrives(s: State, env: Env, items: seq<Item>, sends: bool, i: nat)
    requires Sound(s.router) && FirstOutput(items, i) && Reaches(s.router, s.turn.running, items[i].callId)
    ensures var r', id := TakeRequest(s, env, items, sends).router, items[i].callId;
            var mail := if LastReaching(s.router, s.turn.running, items, i)
                        then Letters(env, items, |items|, s.disk.seen, s.turn.strict) else [];
            Mail.Arrived(s.router, r', id, Result(items[i].raw, mail, false)) && id !in r'.awaiting
  {
    var s1 := LookedAt(s, env, items).(turn := s.turn.(strict := false));
    var messages, outputs := MessagesOf(s, env, items), OutputsOf(items);
    FirstLooks(s, env, items, sends, s1, messages, outputs);
    var q, q1 := Mail.RoutedBy(s, env, messages, outputs), Mail.RoutedBy(s1, env, messages, outputs);
    ContentParts(s, env, items, messages, outputs, q);
    RoutedSame(s, s1, env, messages, outputs);
    Mail.RouteThenPass(s1, env, messages, outputs, sends, q1);
    OutputsAreBrought(items, |items|);
    RoutedParts(s, env, messages, outputs, q);
    if LastReaching(s.router, s.turn.running, items, i) {
      LastCarries(s.router, s.turn.running, items, i);
    } else {
      LaterCarries(s.router, s.turn.running, items, i);
    }
    RoutedArrives(s, items, outputs, i, q);
    Mail.PassOnRouter(q1.session, env, q1.rest, q1.orphans, sends);
  }

  lemma RoutedArrives(s: State, items: seq<Item>, outputs: seq<Item>, i: nat, q: Mail.Routed)
    requires Sound(s.router) && FirstOutput(items, i) && Reaches(s.router, s.turn.running, items[i].callId)
    requires outputs == Brought(items, |items|) && q.carrier == Carrier(s.router, s.turn.running, outputs)
    requires q.session.router == DeliverAll(s.router, s.turn.running, outputs, |outputs|, q.carrier, q.mail)
    ensures var r', id := q.session.router, items[i].callId;
            && q.carrier >= 0 && id !in r'.awaiting
            && Mail.Arrived(s.router, r', id, Result(items[i].raw, if |Brought(items, i)| == q.carrier then q.mail else [], false))
  {
    FirstBrought(items, i);
    var k := |Brought(items, i)|;
    CarrierFrom(s.router, s.turn.running, outputs, k);
    Mail.FirstResultArrives(s.router, s.turn.running, outputs, k, q.carrier, q.mail);
  }
}
