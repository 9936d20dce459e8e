/** Stopping the router: the server's drain and its websocket sessions, as the
    interleaved steps their locks and atomics make them. */
module Drain {
  import opened Options

  /** A response in flight; each begin makes a new one. */
  type Token = nat

  // ----- one session

  /** Where the session's own goroutine is: accepted, stored in the server's map,
      about to drain itself after seeing the server drain, about to issue the
      close for that, serving, or taken out of the map again. */
  datatype Stage = Accepted | Stored | MustDrain | MustClose | Serving | Gone

  /** A websocket session. Endings that have unlocked but not yet subtracted are
      counted by whether they saw the session draining; endings that have
      subtracted and still have to issue the close are counted too. */
  datatype Session = Session(
    stage: Stage,
    current: Option<Token>,
    draining: bool,
    closeIssued: bool,
    unsubtracted: nat,
    unsubtractedDraining: nat,
    unclosed: nat)

  const NEW := Session(Accepted, None, false, false, 0, 0, 0)

  /** begin, under the lock: whether a response may start, and the session then. */
  function Begun(s: Session, token: Token): (Session, bool) {
    if s.draining then (s, false) else (s.(current := Some(token)), true)
  }

  /** The locked part of endResponse: r names the response to end, or none for
      whichever is in flight. */
  function Ended(s: Session, r: Option<Token>): Session {
    if s.current == None || (r.Some? && r != s.current) then s
    else if s.draining then s.(current := None, unsubtractedDraining := s.unsubtractedDraining + 1)
    else s.(current := None, unsubtracted := s.unsubtracted + 1)
  }

  /** The locked part of drain, and whether it found nothing in flight. */
  function Drained(s: Session): (Session, bool) {
    (s.(draining := true), s.current == None)
  }

  // ----- the server

  /** Where Drain is: its flag set, ranging over the sessions with those it must
      still visit, about to issue a close for the one it visits, or returned. */
  datatype Drainer =
    | NotStarted
    | Flagged
    | Ranging(must: set<nat>)
    | Closing(must: set<nat>, id: nat)
    | Returned

  datatype State = State(draining: bool, drainer: Drainer, inFlight: int, http: nat, sessions: seq<Session>, tokens: nat)

  const START := State(false, NotStarted, 0, 0, [], 0)

  datatype Action =
    | HttpOpen | HttpClose
    | Accept
    | Store(id: nat) | CheckServer(id: nat) | DrainItself(id: nat) | CloseItself(id: nat) | Delete(id: nat)
    | Begin(id: nat)
    | End(id: nat, r: Option<Token>) | Subtract(id: nat) | SubtractDraining(id: nat) | IssueClose(id: nat)
    | SetFlag | StartRange | Visit(id: nat) | CloseVisited | Return

  function ActionId(a: Action): nat {
    match a
    case Store(id) => id
    case CheckServer(id) => id
    case DrainItself(id) => id
    case CloseItself(id) => id
    case Delete(id) => id
    case Begin(id) => id
    case End(id, _) => id
    case Subtract(id) => id
    case SubtractDraining(id) => id
    case IssueClose(id) => id
    case Visit(id) => id
    case _ => 0
  }

  predicate OnSession(a: Action) {
    a.Store? || a.CheckServer? || a.DrainItself? || a.CloseItself? || a.Delete? || a.Begin? || a.End?
    || a.Subtract? || a.SubtractDraining? || a.IssueClose?
  }

  /** One step of one session; a step that is not its turn does nothing. */
  function SessionStep(st: State, s: Session, a: Action): Session {
    match a
    case Store(_) => if s.stage == Accepted then s.(stage := Stored) else s
    case CheckServer(_) => if s.stage == Stored then s.(stage := if st.draining then MustDrain else Serving) else s
    case DrainItself(_) =>
      if s.stage == MustDrain then Drained(s).0.(stage := if Drained(s).1 then MustClose else Serving) else s
    case CloseItself(_) => if s.stage == MustClose then s.(stage := Serving, closeIssued := true) else s
    case Delete(_) => if s.stage == Serving then s.(stage := Gone) else s
    case Begin(_) => if s.stage == Serving then Begun(s, st.tokens).0 else s
    case End(_, r) => Ended(s, r)
    case Subtract(_) => if s.unsubtracted > 0 then s.(unsubtracted := s.unsubtracted - 1) else s
    case SubtractDraining(_) =>
      if s.unsubtractedDraining > 0
      then s.(unsubtractedDraining := s.unsubtractedDraining - 1, unclosed := s.unclosed + 1) else s
    case IssueClose(_) => if s.unclosed > 0 then s.(unclosed := s.unclosed - 1, closeIssued := true) else s
    case _ => s
  }

  /** What a session's step does to the counter. */
  function Counted(st: State, s: Session, a: Action): int {
    match a
    case Begin(_) => if s.stage == Serving && Begun(s, st.tokens).1 && s.current == None then 1 else 0
    case Subtract(_) => if s.unsubtracted > 0 then -1 else 0
    case SubtractDraining(_) => if s.unsubtractedDraining > 0 then -1 else 0
    case _ => 0
  }

  /** The sessions in the server's map. */
  function Registered(sessions: seq<Session>): set<nat> {
    set id: nat | id < |sessions| && sessions[id].stage != Accepted && sessions[id].stage != Gone :: id
  }

  /** Ranging over a concurrent map: it visits what was there when it began and
      has not been deleted, and may visit anything that came or went meanwhile. */
  function Next(st: State, a: Action): State {
    if OnSession(a) then
      if ActionId(a) >= |st.sessions| then st
      else
        var s := st.sessions[ActionId(a)];
        st.(sessions := st.sessions[ActionId(a) := SessionStep(st, s, a)],
            inFlight := st.inFlight + Counted(st, s, a),
            tokens := if a.Begin? then st.tokens + 1 else st.tokens)
    else match a
      case HttpOpen => st.(http := st.http + 1, inFlight := st.inFlight + 1)
      case HttpClose => if st.http > 0 then st.(http := st.http - 1, inFlight := st.inFlight - 1) else st
      case Accept => st.(sessions := st.sessions + [NEW])
      case SetFlag => if st.drainer == NotStarted then st.(draining := true, drainer := Flagged) else st
      case StartRange => if st.drainer == Flagged then st.(drainer := Ranging(Registered(st.sessions))) else st
      case Visit(id) =>
        if st.drainer.Ranging? && id < |st.sessions| then
          var (s, idle) := Drained(st.sessions[id]);
          var must := st.drainer.must - {id};
          st.(sessions := st.sessions[id := s], drainer := if idle then Closing(must, id) else Ranging(must))
        else st
      case CloseVisited =>
        if st.drainer.Closing? && st.drainer.id < |st.sessions| then
          var id := st.drainer.id;
          st.(sessions := st.sessions[id := st.sessions[id].(closeIssued := true)], drainer := Ranging(st.drainer.must))
        else st
      case Return =>
        if st.drainer.Ranging? && forall id :: id in st.drainer.must ==> id < |st.sessions| && st.sessions[id].stage == Gone
        then st.(drainer := Returned) else st
      case _ => st
  }

  function Run(actions: seq<Action>): State {
    if actions == [] then START else Next(Run(actions[..|actions| - 1]), actions[|actions| - 1])
  }

  // ----- the counter

  /** What a session adds to the in-flight counter. */
  function Load(s: Session): nat {
    (if s.current.Some? then 1 else 0) + s.unsubtracted + s.unsubtractedDraining
  }

  function Total(sessions: seq<Session>): nat {
    if sessions == [] then 0 else Total(sessions[..|sessions| - 1]) + Load(sessions[|sessions| - 1])
  }

  lemma {:induction false} TotalUpdate(sessions: seq<Session>, id: nat, s: Session)
    requires id < |sessions|
    ensures Total(sessions[id := s]) == Total(sessions) - Load(sessions[id]) + Load(s)
  {
    var n := |sessions| - 1;
    var after := sessions[id := s];
    if id == n {
      assert after[..n] == sessions[..n];
    } else {
      assert after[..n] == sessions[..n][id := s];
      TotalUpdate(sessions[..n], id, s);
    }
  }

  predicate Balanced(st: State) {
    st.inFlight == st.http + Total(st.sessions)
  }

  /** A session's step changes its own share by what it does to the counter. */
  lemma StepLoad(st: State, s: Session, a: Action)
    requires OnSession(a)
    ensures Load(SessionStep(st, s, a)) == Load(s) + Counted(st, s, a)
  {
  }

  lemma SessionBalanced(st: State, a: Action)
    requires Balanced(st) && OnSession(a) && ActionId(a) < |st.sessions|
    ensures Balanced(Next(st, a))
  {
    var id := ActionId(a);
    StepLoad(st, st.sessions[id], a);
    TotalUpdate(st.sessions, id, SessionStep(st, st.sessions[id], a));
  }

  lemma NextBalanced(st: State, a: Action)
    requires Balanced(st)
    ensures Balanced(Next(st, a))
  {
    if OnSession(a) {
      if ActionId(a) < |st.sessions| {
        SessionBalanced(st, a);
      }
    } else if a.Accept? {
      assert (st.sessions + [NEW])[..|st.sessions|] == st.sessions;
    } else if a.Visit? && a.id < |st.sessions| {
      TotalUpdate(st.sessions, a.id, Drained(st.sessions[a.id]).0);
    } else if a.CloseVisited? && st.drainer.Closing? && st.drainer.id < |st.sessions| {
      TotalUpdate(st.sessions, st.drainer.id, st.sessions[st.drainer.id].(closeIssued := true));
    }
  }

  /** In every run the in-flight counter is the open HTTP requests, the sessions
      with a response in flight and the endings that have yet to subtract; so it
      is never negative. */
  lemma {:induction false} CounterBalanced(actions: seq<Action>)
    ensures Run(actions).inFlight == Run(actions).http + Total(Run(actions).sessions) >= 0
  {
    if actions != [] {
      CounterBalanced(actions[..|actions| - 1]);
      NextBalanced(Run(actions[..|actions| - 1]), actions[|actions| - 1]);
    }
  }

  // ----- no session escapes

  /** Drain has yet to visit the session. */
  predicate ToVisit(st: State, id: nat) {
    (st.drainer.Ranging? || st.drainer.Closing?) && id in st.drainer.must
  }

  /** Someone is on the way to issuing the session's close. */
  predicate CloseUnderway(st: State, id: nat)
    requires id < |st.sessions|
  {
    var s := st.sessions[id];
    s.unsubtractedDraining > 0 || s.unclosed > 0 || s.stage == MustClose || (st.drainer.Closing? && st.drainer.id == id)
  }

  predicate Caught(st: State, id: nat)
    requires id < |st.sessions|
  {
    var s := st.sessions[id];
    && (st.drainer == NotStarted || st.drainer == Flagged || s.stage == Accepted || s.stage == Stored
        || s.stage == MustDrain || s.stage == Gone || s.draining || ToVisit(st, id))
    && (s.stage == MustClose ==> s.draining)
    && (st.drainer == Flagged && (s.stage == MustDrain || s.stage == MustClose) ==> st.draining)
    && (s.draining ==> s.current.Some? || s.closeIssued || CloseUnderway(st, id))
  }

  predicate Inv(st: State) {
    && (st.draining <==> st.drainer != NotStarted)
    && forall id :: 0 <= id < |st.sessions| ==> Caught(st, id)
  }

  lemma SessionCaught(st: State, a: Action, id: nat)
    requires Inv(st) && OnSession(a) && id < |st.sessions|
    ensures id < |Next(st, a).sessions| && Caught(Next(st, a), id)
  {
    assert Caught(st, id);
  }

  lemma ServerCaught(st: State, a: Action, id: nat)
    requires Inv(st) && !OnSession(a) && id < |Next(st, a).sessions|
    ensures Caught(Next(st, a), id)
  {
    if id < |st.sessions| {
      assert Caught(st, id);
    }
  }

  lemma NextInv(st: State, a: Action)
    requires Inv(st)
    ensures Inv(Next(st, a))
  {
    forall id | 0 <= id < |Next(st, a).sessions| ensures Caught(Next(st, a), id) {
      if OnSession(a) {
        SessionCaught(st, a, id);
      } else {
        ServerCaught(st, a, id);
      }
    }
  }

  lemma {:induction false} RunInv(actions: seq<Action>)
    ensures Inv(Run(actions))
  {
    if actions != [] {
      RunInv(actions[..|actions| - 1]);
      NextInv(Run(actions[..|actions| - 1]), actions[|actions| - 1]);
    }
  }

  /** No session escapes a drain: once Drain has returned, every session that has
      passed its own check is draining; and in every state, a draining session
      with nothing in flight has had its close issued or someone half way there
      is about to. */
  lemma NoSessionEscapes(actions: seq<Action>, id: nat)
    requires id < |Run(actions).sessions|
    ensures var st := Run(actions); var s := st.sessions[id];
            && (st.drainer == Returned && s.stage == Serving ==> s.draining)
            && (s.draining && s.current == None && !CloseUnderway(st, id) ==> s.closeIssued)
  {
    RunInv(actions);
    assert Caught(Run(actions), id);
  }

  /** What later steps leave of a draining session: it drains on, its response
      can only end, and a close once issued stays issued. */
  predicate Winding(s: Session, s': Session) {
    && (s.draining ==> s'.draining && (s'.current == s.current || s'.current == None))
    && (s.closeIssued ==> s'.closeIssued)
  }

  lemma NextWinds(st: State, a: Action, id: nat)
    requires id < |st.sessions|
    ensures id < |Next(st, a).sessions| && Winding(st.sessions[id], Next(st, a).sessions[id])
  {
  }

  /** A draining session never begins a response again, in any continuation. */
  lemma {:induction false} NeverBeginsAgain(actions: seq<Action>, n: nat, id: nat)
    requires n <= |actions| && id < |Run(actions[..n]).sessions|
    ensures id < |Run(actions).sessions| && Winding(Run(actions[..n]).sessions[id], Run(actions).sessions[id])
    decreases |actions|
  {
    if n == |actions| {
      assert actions[..n] == actions;
    } else {
      var before := actions[..|actions| - 1];
      assert before[..n] == actions[..n];
      NeverBeginsAgain(before, n, id);
      NextWinds(Run(before), actions[|actions| - 1], id);
    }
  }

  /** Ending a response that is no longer the current one changes nothing. */
  lemma StaleEndIgnored(st: State, id: nat, r: Token)
    requires id < |st.sessions| && st.sessions[id].current != Some(r)
    ensures Next(st, End(id, Some(r))) == st
  {
    assert st.sessions[id := st.sessions[id]] == st.sessions;
  }

  lemma NextTokenEnded(st: State, a: Action, id: nat, r: Token)
    requires id < |st.sessions| && r < st.tokens && st.sessions[id].current != Some(r)
    ensures r < Next(st, a).tokens && id < |Next(st, a).sessions| && Next(st, a).sessions[id].current != Some(r)
  {
  }

  /** A response that has ended or been replaced is never current again, so an
      ending that comes late for it finds nothing to end. */
  lemma {:induction false} TokenStaysEnded(actions: seq<Action>, n: nat, id: nat, r: Token)
    requires n <= |actions| && id < |Run(actions[..n]).sessions|
    requires r < Run(actions[..n]).tokens && Run(actions[..n]).sessions[id].current != Some(r)
    ensures r < Run(actions).tokens
    ensures id < |Run(actions).sessions| && Run(actions).sessions[id].current != Some(r)
    decreases |actions|
  {
    if n == |actions| {
      assert actions[..n] == actions;
    } else {
      var before := actions[..|actions| - 1];
      assert before[..n] == actions[..n];
      TokenStaysEnded(before, n, id, r);
      NextTokenEnded(Run(before), actions[|actions| - 1], id, r);
    }
  }

  /** In every run, once a response has ended or been replaced, an ending that comes
      for it at any later point changes nothing at all. */
  lemma LateEndChangesNothing(actions: seq<Action>, n: nat, id: nat, r: Token)
    requires n <= |actions| && id < |Run(actions[..n]).sessions|
    requires r < Run(actions[..n]).tokens && Run(actions[..n]).sessions[id].current != Some(r)
    ensures Run(actions + [End(id, Some(r))]) == Run(actions)
  {
    TokenStaysEnded(actions, n, id, r);
    StaleEndIgnored(Run(actions), id, r);
    assert (actions + [End(id, Some(r))])[..|actions|] == actions;
  }

  // ----- the response in flight

  /** The action ends the session's response: it names that one, or none. */
  predicate EndsIt(s: Session, a: Action, id: nat) {
    a.End? && a.id == id && s.current.Some? && (a.r == None || a.r == s.current)
  }

  predicate BeginsOne(s: Session, a: Action, id: nat) {
    a == Begin(id) && s.stage == Serving && !s.draining
  }

  predicate ResponseFollows(s: Session, s': Session, a: Action, id: nat, tokens: Token) {
    && s'.current == (if BeginsOne(s, a, id) then Some(tokens) else if EndsIt(s, a, id) then None else s.current)
    && s'.unsubtracted == s.unsubtracted + (if EndsIt(s, a, id) && !s.draining then 1 else 0)
       - (if a == Subtract(id) && s.unsubtracted > 0 then 1 else 0)
    && s'.unsubtractedDraining == s.unsubtractedDraining + (if EndsIt(s, a, id) && s.draining then 1 else 0)
       - (if a == SubtractDraining(id) && s.unsubtractedDraining > 0 then 1 else 0)
    && s'.unclosed == s.unclosed + (if a == SubtractDraining(id) && s.unsubtractedDraining > 0 then 1 else 0)
       - (if a == IssueClose(id) && s.unclosed > 0 then 1 else 0)
  }

  lemma OwnStep(st: State, s: Session, a: Action)
    requires OnSession(a)
    ensures ResponseFollows(s, SessionStep(st, s, a), a, ActionId(a), st.tokens)
  {
  }

  lemma OthersStep(st: State, a: Action, id: nat)
    requires id < |st.sessions| && !(OnSession(a) && ActionId(a) == id)
    ensures ResponseFollows(st.sessions[id], Next(st, a).sessions[id], a, id, st.tokens)
  {
  }

  /** A step begins a response, always under a new token, exactly when the session serves
      and does not drain, and ends the one in flight exactly when the ending is for it;
      that ending is then left to subtract, and to close the session if it drains. */
  lemma ResponseExactly(st: State, a: Action, id: nat)
    requires id < |st.sessions|
    ensures ResponseFollows(st.sessions[id], Next(st, a).sessions[id], a, id, st.tokens)
  {
    if OnSession(a) && ActionId(a) == id {
      OwnStep(st, st.sessions[id], a);
    } else {
      OthersStep(st, a, id);
    }
  }

  predicate TokensNew(st: State) {
    forall id :: 0 <= id < |st.sessions| && st.sessions[id].current.Some? ==> st.sessions[id].current.value < st.tokens
  }

  lemma NextTokensNew(st: State, a: Action)
    requires TokensNew(st)
    ensures TokensNew(Next(st, a))
  {
  }

  /** In every run a token that has yet to be given out is no response's. */
  lemma {:induction false} RunTokensNew(actions: seq<Action>)
    ensures TokensNew(Run(actions))
  {
    if actions != [] {
      RunTokensNew(actions[..|actions| - 1]);
      NextTokensNew(Run(actions[..|actions| - 1]), actions[|actions| - 1]);
    }
  }

  /** In every run a response that begins is the one in flight, under a token that none in
      flight has; an ending that names it, or none, ends it, and only once. */
  lemma EndedByOwnToken(actions: seq<Action>, id: nat)
    requires var st := Run(actions); id < |st.sessions| && st.sessions[id].stage == Serving && !st.sessions[id].draining
    ensures var begun := Run(actions + [Begin(id)]);
            && begun.sessions[id].current == Some(Run(actions).tokens) != Run(actions).sessions[id].current
            && begun.inFlight == Run(actions).inFlight + (if Run(actions).sessions[id].current == None then 1 else 0)
            && forall r :: r == None || r == Some(Run(actions).tokens) ==>
                 var ended := Next(begun, End(id, r));
                 && ended.sessions[id].current == None && Next(ended, End(id, r)) == ended
                 && ended.sessions[id].unsubtracted == begun.sessions[id].unsubtracted + 1
  {
    assert (actions + [Begin(id)])[..|actions|] == actions;
    RunTokensNew(actions);
    var begun := Run(actions + [Begin(id)]);
    forall r | r == None || r == Some(Run(actions).tokens)
      ensures var ended := Next(begun, End(id, r)); Next(ended, End(id, r)) == ended
    {
      var ended := Next(begun, End(id, r));
      assert ended.sessions[id := ended.sessions[id]] == ended.sessions;
    }
  }

  // ----- no response is cut off

  /** A session is closed, or about to be, only when it drains with nothing in flight. */
  predicate ClosedIdle(st: State, id: nat)
    requires id < |st.sessions|
  {
    var s := st.sessions[id];
    s.closeIssued || CloseUnderway(st, id) ==> s.draining && s.current == None
  }

  predicate AllClosedIdle(st: State) {
    (st.drainer.Closing? ==> st.drainer.id < |st.sessions|)
    && forall id :: 0 <= id < |st.sessions| ==> ClosedIdle(st, id)
  }

  lemma SessionClosedIdle(st: State, a: Action, id: nat)
    requires AllClosedIdle(st) && OnSession(a) && id < |st.sessions|
    ensures ClosedIdle(Next(st, a), id)
  {
    assert ClosedIdle(st, id);
  }

  lemma ServerClosedIdle(st: State, a: Action, id: nat)
    requires AllClosedIdle(st) && !OnSession(a) && id < |Next(st, a).sessions|
    ensures ClosedIdle(Next(st, a), id)
  {
    if id < |st.sessions| {
      assert ClosedIdle(st, id);
    }
  }

  lemma NextClosedIdle(st: State, a: Action)
    requires AllClosedIdle(st)
    ensures AllClosedIdle(Next(st, a))
  {
    forall id | 0 <= id < |Next(st, a).sessions| ensures ClosedIdle(Next(st, a), id) {
      if OnSession(a) {
        SessionClosedIdle(st, a, id);
      } else {
        ServerClosedIdle(st, a, id);
      }
    }
  }

  lemma {:induction false} RunClosedIdle(actions: seq<Action>)
    ensures AllClosedIdle(Run(actions))
  {
    if actions != [] {
      RunClosedIdle(actions[..|actions| - 1]);
      NextClosedIdle(Run(actions[..|actions| - 1]), actions[|actions| - 1]);
    }
  }

  /** No response is cut off by a drain: in every run, however the steps fall, a session
      whose close is issued, or will be by a step under way, drains and has nothing in
      flight, and so begins nothing any more. */
  lemma NothingCutOff(actions: seq<Action>, id: nat)
    requires id < |Run(actions).sessions|
    ensures var st := Run(actions); var s := st.sessions[id];
            s.closeIssued || CloseUnderway(st, id) ==> s.draining && s.current == None
  {
    RunClosedIdle(actions);
    assert ClosedIdle(Run(actions), id);
  }
}
