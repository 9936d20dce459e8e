/** What holds of a session's streams, token counts and saves in every run,
    however Codex requests, Claude's events and MCP calls take turns. */
module SessionSafety {
  import opened Options
  import Seen
  import opened Session

  // ----- what passing a request on does to the streams and the disk

  /** The streams stay, or the open one fails. */
  predicate SameOrFailed(t: Streams, t': Streams) {
    t' == t || t' == Fail(t)
  }

  lemma PassOnStreams(s: State, env: Env, messages: seq<Item>, orphans: seq<Item>, resumed: bool, sends: bool)
    ensures SameOrFailed(s.streams, PassOn(s, env, messages, orphans, resumed, sends).streams)
  {
  }

  lemma TakeRequestStreams(s: State, env: Env, items: seq<Item>, sends: bool)
    ensures SameOrFailed(s.streams, TakeRequest(s, env, items, sends).streams)
  {
    var looked := LookedAt(s, env, items);
    var s1 := looked.(turn := looked.turn.(strict := false));
    var outputs, r, running := OutputsOf(items), s.router, s.turn.running;
    var carrier := Carrier(r, running, outputs);
    var mail := if carrier >= 0 then MailOf(env, MessagesOf(s, env, items)) else [];
    PassOnStreams(s1.(router := DeliverAll(r, running, outputs, |outputs|, carrier, mail)), env,
                  if carrier >= 0 then WithoutMail(MessagesOf(s, env, items)) else MessagesOf(s, env, items),
                  Orphans(r, running, outputs, |outputs|, carrier, mail), carrier >= 0, sends);
  }

  lemma CompactStreams(s: State, env: Env, items: seq<Item>, st: StreamId, sends: bool)
    ensures SameOrFailed(s.streams, Compact(s, env, items, st, sends).streams)
            || Compact(s, env, items, st, sends).streams == Complete(s.streams)
  {
  }

  /** What a step makes of the streams; the requests that wait for another effort
      level aside. */
  predicate StreamStep(t: Streams, t': Streams, a: Action) {
    var u := match a
      case Serve(st, _, _, _, _) => OpenStream(t, st)
      case MessageDelta(output, reasoning) => t.(output := t.output + output, reasoning := t.reasoning + reasoning)
      case WriteFails(st) => t.(finished := t.finished + {st})
      case _ => t;
    var w := u.(switching := t'.switching);
    t' == w || t' == Fail(w) || t' == Complete(w)
    || (a.Disconnect? && w.open.Some? && t' == w.(open := None, finished := w.finished + {w.open.value}))
  }

  lemma ServeStreams(s: State, env: Env, a: Action)
    requires a.Serve?
    ensures StreamStep(s.streams, ServeStep(s, env, a).streams, a)
  {
    var s1 := s.(streams := OpenStream(s.streams, a.st));
    TakeRequestStreams(s1, env, a.items, a.sends);
    CompactStreams(s1, env, a.items, a.st, a.sends);
  }

  lemma ResumeStreams(s: State, env: Env, a: Action)
    requires a.Resume?
    ensures StreamStep(s.streams, ResumeStep(s, env, a).streams, a)
  {
    if a.st in s.streams.switching {
      TakeRequestStreams(
        s.(streams := s.streams.(switching := s.streams.switching - {a.st}), turn := s.turn.(alive := true)),
        env, s.streams.switching[a.st], a.sends);
    }
  }

  lemma EndStreams(s: State, env: Env, a: Action)
    requires a.FinishTurn? || a.MessageStop? || a.Watchdog? || a.ProcessExits? || a.Close? || a.Shutdown? || a.Disconnect?
    ensures StreamStep(s.streams, Next(s, env, a).streams, a)
  {
  }

  lemma NextStreams(s: State, env: Env, a: Action)
    ensures StreamStep(s.streams, Next(s, env, a).streams, a)
  {
    if a.Serve? {
      ServeStreams(s, env, a);
    } else if a.Resume? {
      ResumeStreams(s, env, a);
    } else if a.FinishTurn? || a.MessageStop? || a.Watchdog? || a.ProcessExits? || a.Close? || a.Shutdown? || a.Disconnect? {
      EndStreams(s, env, a);
    }
  }

  // ----- streams

  /** Every stream ever served is the open one or finished. */
  predicate NoneLeftOpen(t: Streams) {
    forall st :: st in t.served ==> st in t.finished || t.open == Some(st)
  }

  lemma {:induction false} NoneIsLeftOpen(saved: Saved, env: Env, actions: seq<Action>)
    ensures NoneLeftOpen(Run(saved, env, actions).streams)
  {
    if actions != [] {
      var before := actions[..|actions| - 1];
      NoneIsLeftOpen(saved, env, before);
      NextStreams(Run(saved, env, before), env, actions[|actions| - 1]);
    }
  }

  ghost predicate Requested(actions: seq<Action>, st: StreamId) {
    exists k :: 0 <= k < |actions| && actions[k].Serve? && actions[k].st == st
  }

  lemma RequestedMore(actions: seq<Action>, a: Action, st: StreamId)
    ensures Requested(actions + [a], st) <==> Requested(actions, st) || (a.Serve? && a.st == st)
  {
    var all := actions + [a];
    if Requested(actions, st) {
      var k :| 0 <= k < |actions| && actions[k].Serve? && actions[k].st == st;
      assert all[k].Serve? && all[k].st == st;
    }
    if a.Serve? && a.st == st {
      assert all[|actions|].Serve? && all[|actions|].st == st;
    }
  }

  /** The streams ever served are exactly those of the requests. */
  lemma {:induction false} ServedAreRequests(saved: Saved, env: Env, actions: seq<Action>, st: StreamId)
    ensures st in Run(saved, env, actions).streams.served <==> Requested(actions, st)
  {
    if actions != [] {
      var before, a := actions[..|actions| - 1], actions[|actions| - 1];
      ServedAreRequests(saved, env, before, st);
      ServedMore(saved, env, before, a);
      RequestedMore(before, a, st);
      assert before + [a] == actions;
    }
  }

  lemma NextServed(s: State, env: Env, a: Action)
    ensures Next(s, env, a).streams.served == s.streams.served + if a.Serve? then {a.st} else {}
  {
    NextStreams(s, env, a);
  }

  lemma ServedMore(saved: Saved, env: Env, actions: seq<Action>, a: Action)
    ensures Run(saved, env, actions + [a]).streams.served ==
            Run(saved, env, actions).streams.served + if a.Serve? then {a.st} else {}
  {
    var s, s' := RunMore(saved, env, actions, a);
    NextServed(s, env, a);
  }

  /** In every run the stream of every request Codex made is the session's open stream
      or finished, across replacement, disconnects, failures and the unlocked effort
      switch. */
  lemma StreamsSettle(saved: Saved, env: Env, actions: seq<Action>, k: nat)
    requires k < |actions| && actions[k].Serve?
    ensures var t, st := Run(saved, env, actions).streams, actions[k].st;
            st in t.served && (st in t.finished || t.open == Some(st))
  {
    NoneIsLeftOpen(saved, env, actions);
    ServedAreRequests(saved, env, actions, actions[k].st);
    assert Requested(actions, actions[k].st);
  }

  // ----- tokens

  /** The counts of message_delta events since the stream was opened. */
  function DeltasSince(actions: seq<Action>, st: StreamId): (int, int) {
    if actions == [] then (0, 0)
    else
      var (output, reasoning) := DeltasSince(actions[..|actions| - 1], st);
      match actions[|actions| - 1]
      case Serve(another, _, _, _, _) => if another == st then (0, 0) else (output, reasoning)
      case MessageDelta(o, r) => (output + o, reasoning + r)
      case _ => (output, reasoning)
  }

  predicate Counted(t: Streams, actions: seq<Action>) {
    t.open.Some? ==> (t.output, t.reasoning) == DeltasSince(actions, t.open.value)
  }

  lemma CountsStep(t: Streams, t': Streams, a: Action, actions: seq<Action>)
    requires Counted(t, actions) && StreamStep(t, t', a)
    ensures Counted(t', actions + [a])
  {
    assert (actions + [a])[..|actions|] == actions;
  }

  lemma NextCounted(s: State, env: Env, a: Action, actions: seq<Action>)
    requires Counted(s.streams, actions)
    ensures Counted(Next(s, env, a).streams, actions + [a])
  {
    var t' := Next(s, env, a).streams;
    NextStreams(s, env, a);
    CountsStep(s.streams, t', a, actions);
  }

  lemma RunMore(saved: Saved, env: Env, actions: seq<Action>, a: Action) returns (s: State, s': State)
    ensures s == Run(saved, env, actions) && s' == Run(saved, env, actions + [a]) && s' == Next(s, env, a)
  {
    s, s' := Run(saved, env, actions), Run(saved, env, actions + [a]);
    assert (actions + [a])[..|actions|] == actions;
  }

  lemma CountedMore(saved: Saved, env: Env, actions: seq<Action>, a: Action)
    requires Counted(Run(saved, env, actions).streams, actions)
    ensures Counted(Run(saved, env, actions + [a]).streams, actions + [a])
  {
    var s, s' := RunMore(saved, env, actions, a);
    NextCounted(s, env, a, actions);
  }

  lemma CountsNone(saved: Saved, env: Env)
    ensures Counted(Run(saved, env, []).streams, [])
  {
    assert Run(saved, env, []).streams == NO_STREAMS;
  }

  lemma SplitLast(actions: seq<Action>) returns (before: seq<Action>, a: Action)
    requires actions != []
    ensures before + [a] == actions && |before| < |actions|
  {
    before, a := actions[..|actions| - 1], actions[|actions| - 1];
  }

  lemma {:induction false} CountsSince(saved: Saved, env: Env, actions: seq<Action>)
    ensures Counted(Run(saved, env, actions).streams, actions)
    decreases |actions|
  {
    if actions == [] {
      CountsNone(saved, env);
    } else {
      var before, a := SplitLast(actions);
      CountsSince(saved, env, before);
      CountedMore(saved, env, before, a);
    }
  }

  lemma ReportOf(t: Streams, t': Streams, a: Action, actions: seq<Action>)
    requires StreamStep(t, t', a) && Counted(t, actions) && t'.reports != t.reports
    ensures && |t'.reports| == |t.reports| + 1 && t'.reports[..|t.reports|] == t.reports
            && var report := t'.reports[|t.reports|];
               && (if a.Serve? then report.stream == a.st else t.open == Some(report.stream))
               && (report.output, report.reasoning) == DeltasSince(actions + [a], report.stream)
  {
    assert (actions + [a])[..|actions|] == actions;
  }

  /** A completion reports exactly the sums of the message_delta counts since its
      stream was opened; a step that is not a request can report only on the
      stream that was open. */
  lemma ReportsAreSums(saved: Saved, env: Env, actions: seq<Action>, a: Action)
    ensures var t := Run(saved, env, actions).streams; var t' := Next(Run(saved, env, actions), env, a).streams;
            t'.reports != t.reports ==>
              && |t'.reports| == |t.reports| + 1 && t'.reports[..|t.reports|] == t.reports
              && var report := t'.reports[|t.reports|];
                 && (if a.Serve? then report.stream == a.st else t.open == Some(report.stream))
                 && (report.output, report.reasoning) == DeltasSince(actions + [a], report.stream)
  {
    var s := Run(saved, env, actions);
    CountsSince(saved, env, actions);
    NextStreams(s, env, a);
    if Next(s, env, a).streams.reports != s.streams.reports {
      ReportOf(s.streams, Next(s, env, a).streams, a, actions);
    }
  }

  // ----- what completes a request

  /** The open request, unless its stream finished early. */
  predicate IsOpen(t: Streams) {
    t.open.Some? && t.open.value !in t.finished
  }

  /** The end of a message with calls; of a turn that succeeded; of a compaction the
      request asked for, which Claude carried out or whose turn succeeded; or a
      request to compact while a turn runs. */
  predicate Completes(s: State, a: Action) {
    match a
    case MessageStop => IsOpen(s.streams) && s.router.message.Some? && s.router.message.value != []
    case FinishTurn(success) =>
      && IsOpen(s.streams) && !s.turn.stopping
      && (match s.turn.compaction
          case None => success
          case Some(c) => s.streams.open == Some(c.stream) && (success || c.done))
    case Serve(_, _, compacts, _, _) => compacts && s.turn.running && IsOpen(OpenStream(s.streams, a.st))
    case _ => false
  }

  lemma OthersReportNothing(s: State, env: Env, a: Action)
    requires !a.MessageStop? && !a.FinishTurn? && !(a.Serve? && a.compacts)
    ensures Next(s, env, a).streams.reports == s.streams.reports
  {
    match a
    case Serve(st, items, _, _, sends) => TakeRequestStreams(s.(streams := OpenStream(s.streams, st)), env, items, sends);
    case Resume(st, _, sends) =>
      if st in s.streams.switching {
        TakeRequestStreams(
          s.(streams := s.streams.(switching := s.streams.switching - {st}), turn := s.turn.(alive := true)),
          env, s.streams.switching[st], sends);
      }
    case _ =>
  }

  lemma CompactReports(s: State, env: Env, items: seq<Item>, st: StreamId, sends: bool)
    ensures Compact(s, env, items, st, sends).streams.reports ==
            if s.turn.running then Complete(s.streams).reports else s.streams.reports
  {
  }

  lemma FinishReports(s: State, success: bool)
    ensures FinishStep(s, success).streams.reports ==
            if Completes(s, FinishTurn(success)) then Complete(s.streams).reports else s.streams.reports
  {
  }

  /** A step completes a Codex request, once, exactly on one of these grounds, and
      then it is the open one. */
  lemma CompletesExactlyWhen(s: State, env: Env, a: Action)
    ensures var t, t' := s.streams, Next(s, env, a).streams;
            && (t'.reports != t.reports <==> Completes(s, a))
            && (Completes(s, a) ==>
                  var open := if a.Serve? then a.st else t.open.value;
                  |t'.reports| == |t.reports| + 1 && t'.reports[|t.reports|].stream == open && open in t'.finished)
  {
    match a
    case Serve(st, items, compacts, _, sends) =>
      if compacts {
        CompactReports(s.(streams := OpenStream(s.streams, st)), env, items, st, sends);
        NextStreams(s, env, a);
      } else {
        OthersReportNothing(s, env, a);
      }
    case FinishTurn(success) =>
      FinishReports(s, success);
      NextStreams(s, env, a);
    case MessageStop =>
    case _ => OthersReportNothing(s, env, a);
  }

  // ----- saves and nudges

  /** Once this process has saved, what is on disk says whether a turn is open;
      and an interrupted turn has not been nudged yet. */
  predicate OnDisk(s: State) {
    && (s.disk.savedHere ==> s.disk.saved.turnOpen == s.turn.running)
    && s.turn.nudges <= 1 && (s.turn.interrupted ==> s.turn.nudges == 0)
  }

  lemma ReadiedOnDisk(s: State, env: Env, messages: seq<Item>, orphans: seq<Item>, resumed: bool)
    requires OnDisk(s)
    ensures OnDisk(s.(turn := Readied(s.turn, env, messages, orphans, resumed)))
  {
  }

  lemma SendUserOnDisk(s: State, m: ToClaude, sends: bool)
    requires OnDisk(s)
    ensures OnDisk(SendUser(s, m, sends)) && OnDisk(Failed(s))
  {
  }

  lemma SendOnOnDisk(s: State, env: Env, messages: seq<Item>, orphans: seq<Item>, resumed: bool, sends: bool)
    requires OnDisk(s)
    ensures OnDisk(SendOn(s, env, messages, orphans, resumed, sends))
  {
    var ready := s.(turn := Readied(s.turn, env, messages, orphans, resumed));
    var out := Outgoing(s.turn, env, messages, orphans, resumed);
    ReadiedOnDisk(s, env, messages, orphans, resumed);
    SendUserOnDisk(ready, if out.Some? then out.value else Nudge, sends);
  }

  lemma PassOnOnDisk(s: State, env: Env, messages: seq<Item>, orphans: seq<Item>, resumed: bool, sends: bool)
    requires OnDisk(s)
    ensures OnDisk(PassOn(s, env, messages, orphans, resumed, sends))
  {
    SendOnOnDisk(s, env, messages, orphans, resumed, sends);
    SendOnOnDisk(s.(router := CancelPending(s.router)), env, messages, orphans, resumed, sends);
  }

  lemma TakeRequestOnDisk(s: State, env: Env, items: seq<Item>, sends: bool)
    requires OnDisk(s)
    ensures OnDisk(TakeRequest(s, env, items, sends))
  {
    var looked := LookedAt(s, env, items);
    var s1 := looked.(turn := looked.turn.(strict := false));
    var outputs, r, running := OutputsOf(items), s.router, s.turn.running;
    var carrier := Carrier(r, running, outputs);
    var mail := if carrier >= 0 then MailOf(env, MessagesOf(s, env, items)) else [];
    PassOnOnDisk(s1.(router := DeliverAll(r, running, outputs, |outputs|, carrier, mail)), env,
                 if carrier >= 0 then WithoutMail(MessagesOf(s, env, items)) else MessagesOf(s, env, items),
                 Orphans(r, running, outputs, |outputs|, carrier, mail), carrier >= 0, sends);
  }

  lemma FinishOnDisk(s: State, success: bool)
    requires OnDisk(s)
    ensures OnDisk(FinishStep(s, success))
  {
  }

  lemma CompactOnDisk(s: State, env: Env, items: seq<Item>, st: StreamId, sends: bool)
    requires OnDisk(s)
    ensures OnDisk(Compact(s, env, items, st, sends))
  {
  }

  lemma ServeOnDisk(s: State, env: Env, a: Action)
    requires OnDisk(s) && a.Serve?
    ensures OnDisk(ServeStep(s, env, a))
  {
    var s1 := s.(streams := OpenStream(s.streams, a.st));
    TakeRequestOnDisk(s1, env, a.items, a.sends);
    CompactOnDisk(s1, env, a.items, a.st, a.sends);
  }

  lemma ResumeOnDisk(s: State, env: Env, a: Action)
    requires OnDisk(s) && a.Resume?
    ensures OnDisk(ResumeStep(s, env, a))
  {
    if a.st in s.streams.switching {
      TakeRequestOnDisk(
        s.(streams := s.streams.(switching := s.streams.switching - {a.st}), turn := s.turn.(alive := true)),
        env, s.streams.switching[a.st], a.sends);
    }
  }

  lemma NextOnDisk(s: State, env: Env, a: Action)
    requires OnDisk(s)
    ensures OnDisk(Next(s, env, a))
  {
    match a
    case Serve(_, _, _, _, _) => ServeOnDisk(s, env, a);
    case Resume(_, _, _) => ResumeOnDisk(s, env, a);
    case FinishTurn(success) => FinishOnDisk(s, success);
    case _ =>
  }

  lemma {:induction false} RunOnDisk(saved: Saved, env: Env, actions: seq<Action>)
    ensures OnDisk(Run(saved, env, actions))
  {
    if actions != [] {
      var before := actions[..|actions| - 1];
      RunOnDisk(saved, env, before);
      NextOnDisk(Run(saved, env, before), env, actions[|actions| - 1]);
    }
  }

  /** A session made again from disk starts interrupted exactly when a Claude turn
      was running when the earlier one stopped, once that one had saved; and each
      nudges Claude at most once. */
  lemma RestartResumesTurn(saved: Saved, env: Env, actions: seq<Action>)
    ensures var s := Run(saved, env, actions);
            && (s.disk.savedHere ==> Load(s.disk.saved).turn.interrupted == s.turn.running)
            && s.turn.nudges <= 1
  {
    RunOnDisk(saved, env, actions);
  }

  // ----- what has been seen

  /** What has been seen stays, or grows by one request. */
  predicate SameOrLookedAt(s: State, s': State, env: Env, items: seq<Item>) {
    s'.disk.seen == s.disk.seen || s'.disk.seen == LookedAt(s, env, items).disk.seen
  }

  lemma PassOnSeen(s: State, env: Env, messages: seq<Item>, orphans: seq<Item>, resumed: bool, sends: bool)
    ensures PassOn(s, env, messages, orphans, resumed, sends).disk.seen == s.disk.seen
  {
  }

  lemma TakeRequestSeen(s: State, env: Env, items: seq<Item>, sends: bool)
    ensures TakeRequest(s, env, items, sends).disk.seen == LookedAt(s, env, items).disk.seen
  {
    var looked := LookedAt(s, env, items);
    var s1 := looked.(turn := looked.turn.(strict := false));
    var outputs, r, running := OutputsOf(items), s.router, s.turn.running;
    var carrier := Carrier(r, running, outputs);
    var mail := if carrier >= 0 then MailOf(env, MessagesOf(s, env, items)) else [];
    PassOnSeen(s1.(router := DeliverAll(r, running, outputs, |outputs|, carrier, mail)), env,
               if carrier >= 0 then WithoutMail(MessagesOf(s, env, items)) else MessagesOf(s, env, items),
               Orphans(r, running, outputs, |outputs|, carrier, mail), carrier >= 0, sends);
  }

  function ItemsOf(s: State, a: Action): seq<Item> {
    match a
    case Serve(_, items, _, _, _) => items
    case Resume(st, _, _) => if st in s.streams.switching then s.streams.switching[st] else []
    case _ => []
  }

  lemma NextSeen(s: State, env: Env, a: Action)
    ensures SameOrLookedAt(s, Next(s, env, a), env, ItemsOf(s, a))
  {
    match a
    case Serve(st, items, _, _, sends) =>
      TakeRequestSeen(s.(streams := OpenStream(s.streams, st)), env, items, sends);
    case Resume(st, _, sends) =>
      if st in s.streams.switching {
        TakeRequestSeen(
          s.(streams := s.streams.(switching := s.streams.switching - {st}), turn := s.turn.(alive := true)),
          env, s.streams.switching[st], sends);
      }
    case _ =>
  }

  lemma {:induction false} SeenStaysValid(saved: Saved, env: Env, actions: seq<Action>)
    ensures Seen.Valid(Run(saved, env, actions).disk.seen)
  {
    if actions == [] {
      Seen.LoadsDistinct(saved.ids);
      Seen.LoadsDistinct(saved.hashes);
    } else {
      var s, a := Run(saved, env, actions[..|actions| - 1]), actions[|actions| - 1];
      SeenStaysValid(saved, env, actions[..|actions| - 1]);
      NextSeen(s, env, a);
      Seen.StaysValid(env.hash, ItemsOf(s, a), |ItemsOf(s, a)|, s.disk.seen);
    }
  }

  /** A session that saves, in any run, and is made again from that save has seen
      exactly what it had seen, so it answers every request alike, exactly while
      neither list has outgrown what is kept on disk; it awaits the same calls. */
  lemma RestartRemembers(saved: Saved, env: Env, actions: seq<Action>)
    ensures var s := Run(saved, env, actions); var again := Load(Save(s).disk.saved);
            && (again.disk.seen == s.disk.seen <==>
                |s.disk.seen.ids| <= Seen.MAX_SEEN && |s.disk.seen.hashes| <= Seen.MAX_SEEN)
            && again.router.awaiting == s.router.awaiting
  {
    SeenStaysValid(saved, env, actions);
    Seen.SavedAndLoaded(Run(saved, env, actions).disk.seen);
  }
}
