/** The session object: every method is one section under the session's lock,
    changes the fields in place, and ends where that step's specification says. */
module SessionObject {
  import opened Options
  import Seen
  import SeenInput
  import ToolRouter
  import CodexStreams
  import opened Session
  import opened RouterSafety
  import Spec = Session

  class ThreadSession {
    const env: Env
    const seen: SeenInput.SeenSets
    const calls: ToolRouter.ToolCalls
    const requests: CodexStreams.OpenRequests
    var alive: bool
    var running: bool
    var interrupted: bool
    var strict: bool
    var stopping: bool
    var compaction: Option<Compaction>
    var held: seq<string>
    var sent: seq<ToClaude>
    var nudges: nat
    var saved: Saved
    var savedHere: bool

    ghost function TurnView(): Turn
      reads this
    {
      Turn(alive, running, interrupted, strict, stopping, compaction, held, sent, nudges)
    }

    ghost function View(): State
      reads this, seen, calls, requests
    {
      State(calls.View(), TurnView(), requests.View(), Disk(seen.View(), saved, savedHere))
    }

    ghost predicate Valid()
      reads this, seen, calls
    {
      seen.Valid() && seen.hash == env.hash && Sound(calls.View())
    }

    constructor (env: Env, saved: Saved)
      ensures Valid() && this.env == env && View() == Load(saved)
      ensures fresh(seen) && fresh(calls) && fresh(requests)
    {
      this.env := env;
      seen := new SeenInput.SeenSets(env.hash, saved.ids, saved.hashes);
      calls := new ToolRouter.ToolCalls(saved.awaiting);
      requests := new CodexStreams.OpenRequests();
      alive, running, interrupted, strict, stopping := true, false, saved.turnOpen, false, false;
      compaction, held, sent, nudges := None, [], [], 0;
      this.saved, savedHere := saved, false;
    }

    // ----- saving and sending

    method Save()
      modifies `saved, `savedHere
      ensures View() == Spec.Save(old(View()))
    {
      var ids := seen.NewestIds(Seen.MAX_SEEN);
      var hashes := seen.NewestHashes(Seen.MAX_SEEN);
      saved, savedHere := Saved(running, calls.awaiting, ids, hashes), true;
    }

    method SendUser(m: ToClaude, sends: bool) returns (ok: bool)
      modifies `running, `sent, `saved, `savedHere
      ensures ok == Takes(old(View()), sends) && View() == Spec.SendUser(old(View()), m, sends)
    {
      if !alive || !sends {
        return false;
      }
      running, sent := true, sent + [m];
      Save();
      return true;
    }

    // ----- one Codex request

    /** Passes new messages on to Claude, or fails the request. */
    method PassOn(messages: seq<Item>, orphans: seq<Item>, resumed: bool, sends: bool)
      requires Valid()
      modifies this, calls, requests
      ensures Valid() && View() == Spec.PassOn(old(View()), env, messages, orphans, resumed, sends)
    {
      ghost var s := View();
      if messages != [] && calls.pending != map[] && !resumed {
        CancelSound(calls.View());
        calls.CancelPending();
        assert View() == s.(router := Spec.CancelPending(s.router));
      }
      SendOn(messages, orphans, resumed, sends);
    }

    /** What goes to Claude, with what was held back for it. */
    method MakeReady(messages: seq<Item>, orphans: seq<Item>, resumed: bool) returns (out: Option<ToClaude>)
      modifies `held, `interrupted, `nudges
      ensures out == Outgoing(old(TurnView()), env, messages, orphans, resumed)
      ensures TurnView() == Readied(old(TurnView()), env, messages, orphans, resumed)
    {
      var blocks, command := SplitCommand(env, messages);
      if orphans != [] {
        blocks := [env.orphanText(orphans)] + blocks;
      }
      assert blocks == NewBlocks(env, messages, orphans);
      if command.Some? {
        held := held + blocks;
        return Some(Command(command.value));
      } else if blocks != [] {
        out := Some(Blocks(held + blocks));
        held, interrupted := [], false;
      } else if resumed || running {
        return None;
      } else if interrupted {
        interrupted, nudges := false, nudges + 1;
        return Some(Nudge);
      } else {
        return None;
      }
    }

    method SendOn(messages: seq<Item>, orphans: seq<Item>, resumed: bool, sends: bool)
      modifies this, requests
      ensures View() == Spec.SendOn(old(View()), env, messages, orphans, resumed, sends)
    {
      ghost var s := View();
      var out := MakeReady(messages, orphans, resumed);
      assert View() == s.(turn := Readied(s.turn, env, messages, orphans, resumed));
      if out.Some? {
        var ok := SendUser(out.value, sends);
        if !ok {
          requests.Fail();
        }
      } else if !resumed && !running {
        requests.Fail();
      }
    }

    method TakeRequest(items: seq<Item>, sends: bool)
      requires Valid()
      modifies this, seen, calls, requests
      ensures Valid() && View() == Spec.TakeRequest(old(View()), env, items, sends)
    {
      ghost var s := View();
      var messages, outputs := seen.NewInput(items, strict);
      strict := false;
      assert messages == MessagesOf(s, env, items) && outputs == OutputsOf(items);
      RouteRequest(messages, outputs, sends);
    }

    method RouteRequest(messages: seq<Item>, outputs: seq<Item>, sends: bool)
      requires Valid()
      modifies this, calls, requests
      ensures Valid() && View() == Spec.RouteRequest(old(View()), env, messages, outputs, sends)
    {
      ghost var s, r := View(), calls.View();
      var carrier := calls.FindCarrier(running, outputs);
      var mail, rest := [], messages;
      if carrier >= 0 {
        mail, rest := SplitAgentMessages(env, messages);
      }
      var orphans := calls.RouteOutputs(running, outputs, carrier, mail);
      DeliverAllSound(r, running, outputs, |outputs|, carrier, mail);
      assert View() == s.(router := DeliverAll(r, running, outputs, |outputs|, carrier, mail));
      PassOn(rest, orphans, carrier >= 0, sends);
    }

    method Compact(items: seq<Item>, st: StreamId, sends: bool)
      requires Valid()
      modifies this, seen, calls, requests
      ensures Valid() && View() == Spec.Compact(old(View()), env, items, st, sends)
    {
      ghost var s := View();
      var _, _ := seen.NewInput(items, false);
      ghost var s1 := LookedAt(s, env, items);
      assert View() == s1;
      if running {
        requests.Complete();
        strict := true;
        return;
      }
      compaction := Some(Compaction(st, false));
      assert View() == s1.(turn := s1.turn.(compaction := Some(Compaction(st, false))));
      var ok := SendUser(Command("/compact"), sends);
      if !ok {
        compaction := None;
        requests.Fail();
      }
    }

    /** Takes one Codex request, up to where another effort level has the lock
        released. */
    method Serve(st: StreamId, items: seq<Item>, compacts: bool, changesEffort: bool, sends: bool)
      requires Valid()
      modifies this, seen, calls, requests
      ensures Valid() && View() == ServeStep(old(View()), env, Action.Serve(st, items, compacts, changesEffort, sends))
    {
      ghost var s := View();
      requests.OpenStream(st);
      ghost var s1 := s.(streams := Spec.OpenStream(s.streams, st));
      assert View() == s1;
      if compacts {
        Compact(items, st, sends);
      } else if changesEffort && !running && calls.pending == map[] {
        if !alive {
          requests.Fail();
        } else {
          alive, requests.switching := false, requests.switching[st := items];
        }
      } else {
        TakeRequest(items, sends);
      }
    }

    /** Goes on with a request once Claude runs at its effort level. */
    method Resume(st: StreamId, started: bool, sends: bool)
      requires Valid() && st in requests.switching
      modifies this, seen, calls, requests
      ensures Valid() && View() == ResumeStep(old(View()), env, Action.Resume(st, started, sends))
    {
      ghost var s := View();
      var items := requests.switching[st];
      requests.switching := requests.switching - {st};
      ghost var s1 := s.(streams := s.streams.(switching := s.streams.switching - {st}));
      assert View() == s1;
      if !started {
        requests.Fail();
        return;
      }
      alive := true;
      assert View() == s1.(turn := s1.turn.(alive := true));
      if requests.stream != Some(st) {
        return;
      }
      TakeRequest(items, sends);
    }

    /** Codex closed the stream early. */
    method Disconnected(st: StreamId)
      requires Valid()
      modifies this, calls, requests
      ensures Valid() && View() == DisconnectStep(old(View()), st)
    {
      if requests.stream != Some(st) {
        return;
      }
      ghost var s := View();
      requests.finished, requests.stream := requests.finished + {st}, None;
      if running {
        calls.Interrupt();
      }
    }

    // ----- Claude's events

    /** Hands the finished message's calls to Codex, all at once. */
    method FlushCalls()
      requires Valid()
      modifies this, calls, requests
      ensures Valid() && View() == FlushStep(old(View()))
    {
      ghost var s := View();
      var flushed := calls.message;
      calls.message := None;
      if flushed == None || flushed.value == [] {
        return;
      }
      if requests.stream == None {
        return;
      }
      calls.AwaitCalls(flushed.value);
      requests.Complete();
      Save();
    }

    method CompactBoundary()
      modifies `compaction
      ensures TurnView() == CompactedStep(old(TurnView()))
    {
      if compaction.Some? {
        compaction := Some(Compaction(compaction.value.stream, true));
      }
    }

    method FinishTurn(success: bool)
      modifies this, calls, requests
      ensures View() == FinishStep(old(View()), success)
    {
      if stopping {
        return;
      }
      ghost var s := View();
      running := false;
      assert View() == s.(turn := s.turn.(running := false));
      Save();
      SettleStream(success);
    }

    method SettleStream(success: bool)
      modifies `compaction, `strict, requests
      ensures View() == SettleTurn(old(View()), success)
    {
      ghost var s := View();
      if compaction.Some? {
        var c := compaction.value;
        compaction := None;
        if requests.stream == Some(c.stream) {
          if !c.done && !success {
            requests.Fail();
            return;
          }
          requests.Complete();
        }
        strict := true;
        return;
      }
      if success {
        requests.Complete();
      } else {
        requests.Fail();
      }
    }

    // ----- the bridge

    /** Stops a turn Claude has gone silent on. */
    method StopSilentTurn()
      requires Valid()
      modifies this, calls, requests
      ensures Valid() && View() == WatchdogStep(old(View()))
    {
      ghost var s := View();
      if requests.stream.Some? && running && calls.pending == map[] {
        calls.Interrupt();
        requests.Fail();
      }
    }

    method ProcessExited()
      requires Valid()
      modifies this, calls, requests
      ensures Valid() && View() == ExitStep(old(View()))
    {
      ghost var s := View();
      alive := false;
      if stopping {
        return;
      }
      requests.Fail();
      CancelSound(calls.View());
      calls.CancelPending();
    }

    method CloseIdle()
      requires Valid()
      modifies this, calls, requests
      ensures Valid() && View() == CloseStep(old(View()))
    {
      ghost var s := View();
      calls.Interrupt();
      alive := false;
    }

    method ShutDown()
      modifies this, calls, requests
      ensures View() == ShutdownStep(old(View()))
    {
      ghost var s := View();
      stopping := true;
      requests.Fail();
    }
  }

  /** A session for a thread, when what is on disk can be read, the prompt can be
      written if the thread is new, and Claude starts; else none. */
  method NewSession(env: Env, loaded: Option<Saved>, ready: bool, starts: bool) returns (s: ThreadSession?)
    ensures s == null <==> loaded == None || !ready || !starts
    ensures s != null ==> fresh(s) && s.Valid() && s.env == env && s.View() == Load(loaded.value)
  {
    if loaded == None || !ready {
      return null;
    }
    s := new ThreadSession(env, loaded.value);
    if !starts {
      return null;
    }
  }

  /** Separates agent messages, as text, from the other new messages. */
  method SplitAgentMessages(env: Env, messages: seq<Item>) returns (mail: seq<string>, rest: seq<Item>)
    ensures mail == MailOf(env, messages) && rest == WithoutMail(messages)
  {
    mail, rest := [], [];
    for i := 0 to |messages|
      invariant mail == MailOf(env, messages[..i]) && rest == WithoutMail(messages[..i])
    {
      assert messages[..i + 1][..i] == messages[..i];
      if messages[i].kind == Seen.AgentMessage {
        mail := mail + [env.mailText(messages[i])];
      } else {
        rest := rest + [messages[i]];
      }
    }
    assert messages[..|messages|] == messages;
  }

  /** Separates a slash command that ends the messages from the blocks of those
      before it. */
  method SplitCommand(env: Env, messages: seq<Item>) returns (blocks: seq<string>, command: Option<string>)
    ensures blocks == BlocksOf(env, BeforeCommand(env, messages))
    ensures command == if EndsInCommand(env, messages) then env.command(messages[|messages| - 1]) else None
  {
    command, blocks := None, [];
    var before := messages;
    if messages != [] && env.command(messages[|messages| - 1]).Some? {
      command, before := env.command(messages[|messages| - 1]), messages[..|messages| - 1];
    }
    for i := 0 to |before|
      invariant blocks == BlocksOf(env, before[..i])
    {
      assert before[..i + 1][..i] == before[..i];
      blocks := blocks + env.blocks(before[i]);
    }
    assert before[..|before|] == before;
  }
}
