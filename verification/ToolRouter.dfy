/** The tool-call router's fields and the parts of the session's methods that
    change them, in place. */
module ToolRouter {
  import opened Options
  import Seen
  import opened Session
  import opened RouterSafety
  import Spec = Session

  class ToolCalls {
    var awaiting: set<string>
    var pending: map<string, ChannelId>
    var queued: map<string, Result>
    var decisions: map<string, Kind>
    var channels: map<ChannelId, Channel>
    var callers: map<ChannelId, Caller>
    var nextChannel: ChannelId
    var message: Option<seq<string>>
    ghost var marks: seq<Mark>

    ghost function View(): Router
      reads this
    {
      Router(awaiting, pending, queued, decisions, channels, callers, nextChannel, message, marks)
    }

    constructor (saved: set<string>)
      ensures View() == NO_CALLS.(awaiting := saved)
    {
      awaiting, pending, queued, decisions := saved, map[], map[], map[];
      channels, callers, nextChannel, message, marks := map[], map[], 0, None, [];
    }

    /** Answers every waiting MCP call with an error, in whatever order. */
    method CancelPending()
      requires Sound(View())
      modifies `awaiting, `pending, `decisions, `channels
      ensures View() == Spec.CancelPending(old(View()))
    {
      ghost var r, left := View(), pending.Keys;
      CancelNone(r);
      while pending != map[]
        invariant left == pending.Keys <= r.pending.Keys && View() == CancelExcept(r, left)
        decreases left
      {
        var id :| id in pending;
        CancelCall(id, r, left);
        left := left - {id};
      }
      CancelAll(r);
    }

    /** One more of the calls left gets the error. */
    method CancelCall(id: string, ghost r: Router, ghost left: set<string>)
      requires Sound(r) && id in left && left <= r.pending.Keys && View() == CancelExcept(r, left)
      modifies `awaiting, `pending, `decisions, `channels
      ensures View() == CancelExcept(r, left - {id}) && pending.Keys == left - {id}
    {
      CancelOne(r, left, id);
      var c := pending[id];
      channels := channels[c := Send(channels[c], CANCELLED)];
      pending, awaiting, decisions := pending - {id}, awaiting - {id}, decisions - {id};
    }

    method Interrupt()
      requires Sound(View())
      modifies `awaiting, `pending, `decisions, `channels
      ensures Sound(View()) && View() == Spec.Interrupt(old(View()))
    {
      CancelSound(View());
      CancelPending();
      awaiting := {};
    }

    method Resumes(running: bool, id: string) returns (yes: bool)
      ensures yes == Spec.Resumes(View(), running, id)
    {
      yes := id in awaiting && (id in pending || running);
    }

    /** Routes one tool result. */
    method Deliver(running: bool, id: string, result: Result) returns (d: Delivery)
      requires Sound(View())
      modifies `awaiting, `pending, `queued, `channels, `marks
      ensures d == Destination(old(View()), running, id)
      ensures Sound(View()) && View() == Spec.Deliver(old(View()), running, id, result)
    {
      DeliverSound(View(), running, id, result);
      if id !in awaiting {
        marks := marks + [Came(id, History)];
        assert awaiting == awaiting - {id};
        return History;
      }
      awaiting := awaiting - {id};
      if id in pending {
        var c := pending[id];
        assert WaitsOn(old(View()), id, c);
        pending := pending - {id};
        channels := channels[c := Send(channels[c], result)];
        d := Delivered;
      } else if running {
        queued := queued[id := result];
        d := Queued;
      } else {
        d := Orphaned;
      }
      marks := marks + [Came(id, d)];
    }

    method FindCarrier(running: bool, outputs: seq<Item>) returns (carrier: int)
      ensures carrier == Carrier(View(), running, outputs)
    {
      carrier := -1;
      for i := 0 to |outputs|
        invariant carrier == Carrier(View(), running, outputs[..i])
      {
        assert outputs[..i + 1][..i] == outputs[..i];
        var resumes := Resumes(running, outputs[i].callId);
        if resumes {
          carrier := i;
        }
      }
      assert outputs[..|outputs|] == outputs;
    }

    method RouteOutputs(running: bool, outputs: seq<Item>, carrier: int, mail: seq<string>) returns (orphans: seq<Item>)
      requires Sound(View())
      modifies `awaiting, `pending, `queued, `channels, `marks
      ensures Sound(View()) && View() == DeliverAll(old(View()), running, outputs, |outputs|, carrier, mail)
      ensures orphans == Orphans(old(View()), running, outputs, |outputs|, carrier, mail)
    {
      ghost var r := View();
      orphans := [];
      for i := 0 to |outputs|
        invariant Sound(View()) && View() == DeliverAll(r, running, outputs, i, carrier, mail)
        invariant orphans == Orphans(r, running, outputs, i, carrier, mail)
      {
        var d := Deliver(running, outputs[i].callId, Result(outputs[i].raw, if i == carrier then mail else [], false));
        if d == Orphaned {
          orphans := orphans + [outputs[i]];
        }
      }
    }

    /** Classifies a call once; the stream and the MCP call share the decision. */
    method Decide(id: string, classified: Kind) returns (kind: Kind)
      modifies `decisions
      ensures (kind, View()) == Decided(old(View()), id, classified)
    {
      if id in decisions && id != "" {
        return decisions[id];
      }
      kind := classified;
      if id != "" {
        decisions := decisions[id := kind];
      }
    }

    method MessageStarts()
      modifies `message
      ensures View() == old(View()).(message := Some([]))
    {
      message := Some([]);
    }

    method RecordCall(id: string, classified: Kind)
      requires Sound(View())
      modifies `decisions, `message
      ensures Sound(View()) && View() == RecordStep(old(View()), id, classified)
    {
      var kind := Decide(id, classified);
      match kind {
        case Display => decisions := decisions - {id};
        case Internal => decisions := decisions - {id};
        case Codex =>
          if message.Some? {
            message := Some(message.value + [id]);
          }
        case _ =>
      }
    }

    method AwaitCalls(calls: seq<string>)
      requires Sound(View())
      modifies `awaiting, `marks
      ensures Sound(View()) && View() == Await(old(View()), calls)
    {
      ghost var r := View();
      for i := 0 to |calls|
        invariant awaiting == r.awaiting + (set id | id in calls[..i])
        invariant marks == r.marks + EnteredAll(calls[..i])
      {
        assert calls[..i + 1] == calls[..i] + [calls[i]];
        awaiting, marks := awaiting + {calls[i]}, marks + [Entered(calls[i])];
      }
      assert calls[..|calls|] == calls;
    }

    /** The first part of an MCP call. */
    method CallTool(id: string, classified: Kind) returns (reply: Reply)
      requires Sound(View())
      modifies `pending, `queued, `decisions, `channels, `callers, `nextChannel
      ensures Sound(View()) && View() == CallStep(old(View()), id, classified)
      ensures reply == CallReply(old(View()), id, classified)
    {
      CallSound(View(), id, classified);
      var kind := Decide(id, classified);
      match kind {
        case Search =>
          decisions := decisions - {id};
          return WithoutCodex(kind);
        case Reject =>
          decisions := decisions - {id};
          return WithoutCodex(kind);
        case Display => return WithoutCodex(kind);
        case Internal => return WithoutCodex(kind);
        case Codex =>
      }
      reply := CallCodex(id);
    }

    /** A call for Codex: refused without an id, answered with a queued result, or left
        to wait. */
    method CallCodex(id: string) returns (reply: Reply)
      modifies `pending, `queued, `decisions, `channels, `callers, `nextChannel
      ensures View() == CodexCall(old(View()), id)
      ensures reply == CodexReply(old(View()), id)
    {
      if id == "" {
        return NoCallId;
      }
      if id in queued {
        reply := Has(queued[id]);
        queued, decisions := queued - {id}, decisions - {id};
        return;
      }
      reply := WaitsFor(nextChannel);
      StartWaiting(id);
    }

    method StartWaiting(id: string)
      modifies `pending, `channels, `callers, `nextChannel
      ensures View() == Register(old(View()), id)
    {
      pending := pending[id := nextChannel];
      channels, callers := channels[nextChannel := Channel(id, [], 0)], callers[nextChannel := Waiting(id)];
      nextChannel := nextChannel + 1;
    }

    /** The result is taken from the channel, before the lock is taken again. */
    method Receive(c: ChannelId) returns (result: Result)
      requires c in callers && callers[c].Waiting? && c in channels && channels[c].holds != []
      requires Sound(View())
      modifies `callers, `channels
      ensures Sound(View()) && View() == ReceiveStep(old(View()), c)
      ensures old(channels[c].holds) == [result]
    {
      ReceiveSound(View(), c);
      result := channels[c].holds[0];
      callers := callers[c := Holding(callers[c].id)];
      channels := channels[c := channels[c].(holds := [])];
    }

    method Answer(c: ChannelId)
      requires c in callers && callers[c].Holding?
      requires Sound(View())
      modifies `callers, `decisions
      ensures Sound(View()) && View() == AnswerStep(old(View()), c)
    {
      AnswerSound(View(), c);
      decisions := decisions - {callers[c].id};
      callers := callers[c := Answered];
    }

    /** Claude hung up: the call stops waiting, unless another took its place. */
    method Leave(c: ChannelId)
      requires c in callers && callers[c].Leaving?
      requires Sound(View())
      modifies `callers, `pending
      ensures Sound(View()) && View() == LeaveStep(old(View()), c)
    {
      LeaveSound(View(), c);
      var id := callers[c].id;
      if id in pending && pending[id] == c {
        pending := pending - {id};
      }
      callers := callers[c := Answered];
    }
  }

  /** The router once the calls that wait are cancelled, but for those left. */
  function CancelExcept(r: Router, left: set<string>): Router {
    var done := r.pending.Keys - left;
    r.(channels := CancelledExcept(r, left), awaiting := r.awaiting - done, decisions := r.decisions - done,
       pending := r.pending - done)
  }

  function CancelledCall(r: Router, id: string): Router
    requires id in r.pending && r.pending[id] in r.channels
  {
    var c := r.pending[id];
    r.(channels := r.channels[c := Send(r.channels[c], CANCELLED)], pending := r.pending - {id},
       awaiting := r.awaiting - {id}, decisions := r.decisions - {id})
  }

  lemma CancelNone(r: Router)
    ensures CancelExcept(r, r.pending.Keys) == r
  {
    assert r.pending.Keys - r.pending.Keys == {};
    assert CancelledExcept(r, r.pending.Keys) == r.channels;
  }

  lemma CancelAll(r: Router)
    ensures CancelExcept(r, {}) == Spec.CancelPending(r)
  {
    assert r.pending.Keys - {} == r.pending.Keys;
    assert r.pending - r.pending.Keys == map[];
  }

  /** Cancelling one more of the calls left. */
  lemma CancelOne(r: Router, left: set<string>, id: string)
    requires Sound(r) && id in left && left <= r.pending.Keys
    ensures CancelExcept(r, left).pending.Keys == left && CancelExcept(r, left).pending[id] in CancelExcept(r, left).channels
    ensures CancelExcept(r, left - {id}) == CancelledCall(CancelExcept(r, left), id)
  {
    var done, more := r.pending.Keys - left, r.pending.Keys - (left - {id});
    CancelOneChannel(r, left, id);
    assert more == done + {id};
    assert r.awaiting - more == r.awaiting - done - {id};
    MinusMore(r.decisions, done, id);
    MinusMore(r.pending, done, id);
  }

  lemma MinusMore<V>(m: map<string, V>, done: set<string>, id: string)
    ensures m - (done + {id}) == m - done - {id}
  {
  }

  lemma CancelOneChannel(r: Router, left: set<string>, id: string)
    requires Sound(r) && id in left && left <= r.pending.Keys
    ensures r.pending[id] in r.channels
    ensures var c, mid := r.pending[id], CancelledExcept(r, left);
            c in mid && CancelledExcept(r, left - {id}) == mid[c := Send(mid[c], CANCELLED)]
  {
    assert WaitsOn(r, id, r.pending[id]);
  }
}
