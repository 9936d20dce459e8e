/** The websocket session object: counting responses in flight, draining, and
    answering messages, each method as one goroutine runs it undisturbed. */
module WebsocketSession {
  import opened Options
  import Drain
  import opened Upstream
  import opened Continuation

  class Server {
    var inFlight: int

    constructor ()
      ensures inFlight == 0
    {
      inFlight := 0;
    }
  }

  class WsSession {
    const server: Server
    var cont: Cont
    var current: Option<Drain.Token>
    var tokens: nat
    var draining: bool
    var closeIssued: bool
    var ended: bool
    ghost var log: seq<Entry>

    constructor (server: Server)
      ensures this.server == server && Messages() == START && Connection() == Drain.NEW.(stage := Drain.Serving)
    {
      this.server := server;
      cont, log, ended := NO_CONT, [], false;
      current, tokens, draining, closeIssued := None, 0, false, false;
    }

    ghost function Messages(): State
      reads this
    {
      State(cont, log, ended)
    }

    ghost function Connection(): Drain.Session
      reads this
    {
      Drain.Session(Drain.Serving, current, draining, closeIssued, 0, 0, 0)
    }

    /** Counts a response in flight, unless the router is stopping. */
    method Begin() returns (ok: bool)
      modifies this`current, this`tokens, server
      ensures (Connection(), ok) == Drain.Begun(old(Connection()), old(tokens))
      ensures tokens == if ok then old(tokens) + 1 else old(tokens)
      ensures server.inFlight == old(server.inFlight) + if ok && old(current) == None then 1 else 0
    {
      if draining {
        return false;
      }
      if current == None {
        server.inFlight := server.inFlight + 1;
      }
      current, tokens := Some(tokens), tokens + 1;
      return true;
    }

    /** Ends response r, or whichever is in flight: the locked part, then the
        counter, then the close of a draining session. */
    method EndResponse(r: Option<Drain.Token>)
      modifies this`current, this`closeIssued, server
      ensures current == Drain.Ended(old(Connection()), r).current
      ensures var done := old(current).Some? && current == None;
              server.inFlight == old(server.inFlight) - (if done then 1 else 0)
              && closeIssued == (old(closeIssued) || (done && draining))
    {
      var cur := current;
      if r.Some? && r != cur {
        cur := None;
      }
      if cur.Some? {
        current := None;
      }
      if cur == None {
        return;
      }
      server.inFlight := server.inFlight - 1;
      if draining {
        closeIssued := true;
      }
    }

    /** Closes the session once nothing is in flight. */
    method DrainNow()
      modifies this`draining, this`closeIssued
      ensures draining && current == old(current)
      ensures closeIssued == (old(closeIssued) || Drain.Drained(old(Connection())).1)
    {
      draining := true;
      if current == None {
        closeIssued := true;
      }
    }

    /** Passes a response's events on to Codex until its terminal one. */
    method Forward(events: seq<Event>, writes: Writes) returns (s: Streamed)
      ensures s == TakeEvents(events, |events|, writes)
    {
      var id, output, terminal, broken := "", [], None, false;
      for k := 0 to |events|
        invariant Streamed(id, output, terminal, broken) == TakeEvents(events, k, writes)
      {
        if terminal.Some? || broken {
          StaysEnded(events, k, |events|, writes);
          break;
        }
        var e := events[k];
        match e {
          case Created(i) => id := i;
          case ItemDone(item) => output := output + [item];
          case Completed(i) => id := if i != "" then i else id;
          case _ =>
        }
        if !writes(k) {
          broken := true;
        } else if Terminal(e) {
          terminal := Some(e);
        }
      }
      s := Streamed(id, output, terminal, broken);
    }

    /** A message for OpenAI: its socket takes over. Only a message that asks for a
        response is counted; a failed dial ends whatever is in flight. A write that
        fails, of the frame or of the dial's error, ends the session. */
    method RelayMessage(counted: bool, dials: bool, writes: bool)
      requires !ended
      modifies this, server
      ensures old(draining) && counted ==> Messages() == Next(old(Messages()), Refused)
      ensures !(old(draining) && counted) ==> Messages() == Next(old(Messages()), Relay(dials, writes))
      ensures !old(draining) && counted && dials ==> current == Some(old(tokens))
      ensures !(old(draining) && counted) && !dials ==> current == None
    {
      if counted {
        var ok := Begin();
        if !ok {
          ended := true;
          return;
        }
      }
      if !dials {
        TellError(writes);
        return;
      }
      cont, log, ended := NO_CONT, log + [Relayed], !writes;
    }

    /** An error event answers the response in flight, which ends even when the
        event cannot be written; then the session ends too. */
    method TellError(tells: bool)
      requires !ended
      modifies this`current, this`closeIssued, this`ended, server
      ensures ended == !tells && current == None
    {
      ended := !tells;
      EndResponse(None);
    }

    /** A message for a model served outside OpenAI, with what becomes of its
        request, and whether an error event for it can be written. */
    method ServeOther(body: Body, outcome: Outcome, freshId: string, tells: bool)
      requires !ended
      modifies this, server
      ensures old(draining) ==> Messages() == Next(old(Messages()), Refused)
      ensures !old(draining) ==> Messages() == Next(old(Messages()), Own(body, outcome, freshId, tells))
      ensures !old(draining) && !ended ==> current == None
    {
      var ok := Begin();
      if !ok {
        ended := true;
        return;
      }
      var prev, before := PreviousOf(body), [];
      if prev != "" {
        if prev != cont.id {
          TellError(tells);
          return;
        }
        before := cont.items;
      }
      cont := NO_CONT;
      var request := Standalone(body, before);
      if request == None {
        TellError(tells);
        log := log + [Unread];
        return;
      }
      AnswerRequest(body, request.value, prev, outcome, freshId, tells);
    }

    method AnswerRequest(body: Body, request: Body, prev: string, outcome: Outcome, freshId: string, tells: bool)
      requires !ended && body.input.Some? && request.input.Some? && cont == NO_CONT
      modifies this, server
      ensures var turn := Turn(prev, body.input.value, request.input.value, [], "", false);
              Messages() == Answer(old(Messages()), turn, Own(body, outcome, freshId, tells))
      ensures !ended ==> current == None
    {
      ghost var turn := Turn(prev, body.input.value, request.input.value, [], "", false);
      var input := request.input.value;
      if !Generates(body) {
        if outcome.Breaks? {
          ended, log := true, log + [turn];
          return;
        }
        Keep(freshId, input, [], turn);
        return;
      }
      match outcome {
        case Fails =>
          TellError(tells);
          log := log + [turn];
        case Breaks =>
          ended, log := true, log + [turn];
        case Compacts(id, output) =>
          Keep(id, input, output, turn);
        case Streams(events, writes) =>
          var s := Forward(events, writes);
          if s.broken {
            ended, log := true, log + [turn];
          } else if s.terminal.Some? && s.terminal.value.Completed? {
            Keep(s.id, input, s.output, turn);
          } else if s.terminal.Some? {
            EndResponse(None);
            log := log + [turn];
          } else {
            TellError(tells);
            log := log + [turn];
          }
      }
    }

    /** Keeps a completed response for the next message to continue. */
    method Keep(id: string, input: seq<Item>, output: seq<Item>, ghost turn: Entry)
      requires !ended && turn.Turn? && turn.sent == input
      modifies this, server
      ensures Messages() == Complete(old(Messages()), turn, id, output)
      ensures current == None
    {
      cont := Cont(id, input + output);
      log := log + [turn.(output := output, id := id, completed := true)];
      EndResponse(None);
    }
  }
}
