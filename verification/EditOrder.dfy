/** Calls that Claude's stream and MCP bring in any order: in what order they are
    decided, what of them goes to Codex, and that it gives the view when the stream
    brings each once, in the order they were decided. */
module EditOrder {
  import opened Options
  import opened Text
  import opened FileEdits
  import opened EditCalls

  /** The start of a message. */
  const START := Desk(map[], map[], Some([]))

  /** Every call over MCP, in order. */
  function CallAll(calls: seq<Call>): seq<Arrival> {
    if calls == [] then [] else CallAll(calls[..|calls| - 1]) + [Called(calls[|calls| - 1])]
  }

  predicate Picks(h: seq<nat>, n: nat) {
    forall k :: 0 <= k < |h| ==> h[k] < n
  }

  /** How a call comes: the calls are numbered in the order they first do. */
  datatype Way = ByStream(k: nat) | OverMcp(k: nat)

  /** How many calls came. */
  function Came(ways: seq<Way>): nat {
    if ways == [] then 0
    else var m := Came(ways[..|ways| - 1]); if ways[|ways| - 1].k == m then m + 1 else m
  }

  /** Each call is the next one or came before. */
  predicate Numbered(ways: seq<Way>) {
    ways == [] || (Numbered(ways[..|ways| - 1]) && ways[|ways| - 1].k <= Came(ways[..|ways| - 1]))
  }

  /** The calls as the stream brings them. */
  function Brought(ways: seq<Way>): seq<nat> {
    if ways == [] then []
    else Brought(ways[..|ways| - 1]) + if ways[|ways| - 1].ByStream? then [ways[|ways| - 1].k] else []
  }

  lemma {:induction false} BroughtCame(ways: seq<Way>)
    requires Numbered(ways)
    ensures Picks(Brought(ways), Came(ways))
  {
    if ways != [] {
      BroughtCame(ways[..|ways| - 1]);
    }
  }

  function ArrivalOf(calls: seq<Call>, w: Way): Arrival
    requires w.k < |calls|
  {
    if w.ByStream? then Recorded(calls[w.k]) else Called(calls[w.k])
  }

  function Arrivals(calls: seq<Call>, ways: seq<Way>): seq<Arrival>
    requires Numbered(ways) && Came(ways) <= |calls|
  {
    if ways == [] then [] else Arrivals(calls, ways[..|ways| - 1]) + [ArrivalOf(calls, ways[|ways| - 1])]
  }

  function Upto(n: nat): (h: seq<nat>)
    ensures |h| == n && Picks(h, n)
    ensures forall k :: 0 <= k < n ==> h[k] == k
  {
    seq(n, k => k)
  }

  /** The desk once the calls were called. */
  function CalledDesk(disk: Disk, calls: seq<Call>): Desk {
    DeskAfter(START, disk, CallAll(calls))
  }

  /** The calls' decisions, each taken when it was called. */
  function DecisionsOf(disk: Disk, calls: seq<Call>): (ds: seq<Decision>)
    ensures |ds| == |calls|
  {
    if calls == [] then []
    else
      var before := calls[..|calls| - 1];
      DecisionsOf(disk, before) + [Fresh(CalledDesk(disk, before), disk, calls[|calls| - 1])]
  }

  predicate Eligible(calls: seq<Call>) {
    && (forall k :: 0 <= k < |calls| ==> calls[k].id != "" && OneLine(calls[k].file.path))
    && (forall i, j :: 0 <= i < j < |calls| ==> calls[i].id != calls[j].id)
  }

  predicate ArePatches(ds: seq<Decision>) {
    forall k :: 0 <= k < |ds| ==> ds[k].Patch?
  }

  /** Each call has an id of its own, and is accepted. */
  predicate AllAccepted(disk: Disk, calls: seq<Call>) {
    Eligible(calls) && ArePatches(DecisionsOf(disk, calls))
  }

  /** The calls at these places, as they were decided. */
  function NotedFor(calls: seq<Call>, ds: seq<Decision>, h: seq<nat>): (ns: seq<Noted>)
    requires |ds| == |calls| && Picks(h, |calls|)
    ensures |ns| == |h|
  {
    seq(|h|, k requires 0 <= k < |h| => Noted(calls[h[k]].id, ds[h[k]]))
  }

  /** Replaying what is handed over gives the files of the view, whether a Codex request
      is open when the message ends or not. */
  predicate GivesView(disk: Disk, calls: seq<Call>, ways: seq<Way>, open: bool)
    requires Numbered(ways) && Came(ways) <= |calls|
  {
    var desk := DeskAfter(START, disk, Arrivals(calls, ways));
    ApplyAll(disk, HandedOver(desk, open)) == Some(ViewLines(desk.virtual))
  }

  // ----- what is handed over

  lemma DeskOneMore(desk: Desk, disk: Disk, x: seq<Arrival>, a: Arrival)
    ensures DeskAfter(desk, disk, x + [a]) == Step(DeskAfter(desk, disk, x), disk, a)
    ensures Accepted(desk, disk, x + [a]) == Accepted(desk, disk, x) + Adds(DeskAfter(desk, disk, x), disk, a)
  {
    assert (x + [a])[..|x|] == x;
  }

  /** The ids of the calls have the decisions taken when they were called, and no
      other id has one. */
  ghost predicate HoldsAll(desk: Desk, calls: seq<Call>, ds: seq<Decision>)
    requires |ds| == |calls|
  {
    && (forall k :: 0 <= k < |calls| ==> Holds(desk, calls[k].id, ds[k]))
    && (forall id :: id in desk.decisions ==> exists k :: 0 <= k < |calls| && calls[k].id == id)
  }

  /** A call that is accepted when it is called. */
  lemma CalledOne(desk: Desk, disk: Disk, call: Call)
    requires call.id != "" && !Cached(desk, call.id) && Fresh(desk, disk, call).Patch?
    ensures var d, desk' := Fresh(desk, disk, call), Step(desk, disk, Called(call));
            && desk'.decisions == desk.decisions[call.id := d] && desk'.message == desk.message
            && desk'.virtual == desk.virtual[d.change.path := d.change.after]
            && Adds(desk, disk, Called(call)) == [Noted(call.id, d)]
  {
  }

  lemma HoldsMore(desk: Desk, desk': Desk, calls: seq<Call>, ds: seq<Decision>)
    requires Eligible(calls) && calls != [] && |ds| == |calls| && HoldsAll(desk, calls[..|calls| - 1], ds[..|calls| - 1])
    requires desk'.decisions == desk.decisions[calls[|calls| - 1].id := ds[|calls| - 1]]
    ensures HoldsAll(desk', calls, ds)
  {
    var n := |calls| - 1;
    var before := calls[..n];
    forall k | 0 <= k < |calls| ensures Holds(desk', calls[k].id, ds[k]) {
      if k < n {
        assert Holds(desk, before[k].id, ds[..n][k]);
      }
    }
    forall id | id in desk'.decisions ensures exists k :: 0 <= k < |calls| && calls[k].id == id {
      if id in desk.decisions {
        var k :| 0 <= k < n && before[k].id == id;
        assert calls[k].id == id;
      } else {
        assert calls[n].id == id;
      }
    }
  }

  lemma NotYetHeld(desk: Desk, calls: seq<Call>, ds: seq<Decision>)
    requires Eligible(calls) && calls != [] && |ds| == |calls| - 1 && HoldsAll(desk, calls[..|calls| - 1], ds)
    ensures !Cached(desk, calls[|calls| - 1].id)
  {
    var n := |calls| - 1;
    assert forall k :: 0 <= k < n ==> calls[..n][k].id == calls[k].id;
  }

  lemma NotedMore(calls: seq<Call>, ds: seq<Decision>)
    requires calls != [] && |ds| == |calls|
    ensures var n := |calls| - 1;
            NotedFor(calls, ds, Upto(n + 1)) == NotedFor(calls[..n], ds[..n], Upto(n)) + [Noted(calls[n].id, ds[n])]
  {
  }

  /** What the desk holds once the calls were called. */
  ghost predicate CalledAll(disk: Disk, calls: seq<Call>) {
    && HoldsAll(CalledDesk(disk, calls), calls, DecisionsOf(disk, calls))
    && Accepted(START, disk, CallAll(calls)) == NotedFor(calls, DecisionsOf(disk, calls), Upto(|calls|))
  }

  lemma DecisionsMore(disk: Disk, calls: seq<Call>)
    requires calls != []
    ensures var n := |calls| - 1;
            && DecisionsOf(disk, calls)[..n] == DecisionsOf(disk, calls[..n])
            && DecisionsOf(disk, calls)[n] == Fresh(CalledDesk(disk, calls[..n]), disk, calls[n])
  {
    DecisionsSplit(DecisionsOf(disk, calls[..|calls| - 1]), Fresh(CalledDesk(disk, calls[..|calls| - 1]), disk, calls[|calls| - 1]));
  }

  lemma DecisionsSplit(ds: seq<Decision>, d: Decision)
    ensures (ds + [d])[..|ds|] == ds && (ds + [d])[|ds|] == d
  {
  }

  lemma PatchesBefore(ds: seq<Decision>, n: nat)
    requires ArePatches(ds) && n <= |ds|
    ensures ArePatches(ds[..n])
  {
  }

  lemma AcceptedBefore(disk: Disk, calls: seq<Call>)
    requires AllAccepted(disk, calls) && calls != []
    ensures AllAccepted(disk, calls[..|calls| - 1])
  {
    DecisionsMore(disk, calls);
    PatchesBefore(DecisionsOf(disk, calls), |calls| - 1);
  }

  lemma CallOneMore(disk: Disk, calls: seq<Call>)
    requires AllAccepted(disk, calls) && calls != [] && CalledAll(disk, calls[..|calls| - 1])
    ensures CalledAll(disk, calls)
  {
    var n := |calls| - 1;
    var before, ds := calls[..n], DecisionsOf(disk, calls);
    var desk := CalledDesk(disk, before);
    DecisionsMore(disk, calls);
    DeskOneMore(START, disk, CallAll(before), Called(calls[n]));
    NotYetHeld(desk, calls, ds[..n]);
    CalledOne(desk, disk, calls[n]);
    NotedMore(calls, ds);
    HoldsMore(desk, CalledDesk(disk, calls), calls, ds);
  }

  lemma {:induction false} CalledHolds(disk: Disk, calls: seq<Call>)
    requires AllAccepted(disk, calls)
    ensures CalledAll(disk, calls)
  {
    if calls != [] {
      AcceptedBefore(disk, calls);
      CalledHolds(disk, calls[..|calls| - 1]);
      CallOneMore(disk, calls);
    }
  }

  /** A call that is accepted already. */
  lemma AcceptedAlready(desk: Desk, disk: Disk, call: Call, d: Decision)
    requires call.id != "" && Holds(desk, call.id, d) && d.Patch? && desk.message.Some?
    ensures Step(desk, disk, Called(call)) == desk
    ensures Step(desk, disk, Recorded(call)) == desk.(message := Some(desk.message.value + [Noted(call.id, d)]))
  {
  }

  /** A call that is accepted when the stream brings it. */
  lemma RecordedOne(desk: Desk, disk: Disk, call: Call)
    requires call.id != "" && !Cached(desk, call.id) && Fresh(desk, disk, call).Patch? && desk.message.Some?
    ensures var d, desk' := Fresh(desk, disk, call), Step(desk, disk, Recorded(call));
            && desk'.decisions == desk.decisions[call.id := d]
            && desk'.virtual == desk.virtual[d.change.path := d.change.after]
            && desk'.message == Some(desk.message.value + [Noted(call.id, d)])
  {
  }

  /** A decision depends on the view alone. */
  lemma FreshSees(desk: Desk, desk': Desk, disk: Disk, call: Call)
    requires desk.virtual == desk'.virtual
    ensures Fresh(desk, disk, call) == Fresh(desk', disk, call)
  {
  }

  lemma NotedForMore(calls: seq<Call>, ds: seq<Decision>, h: seq<nat>, k: nat)
    requires |ds| == |calls| && Picks(h, |calls|) && k < |calls|
    ensures NotedFor(calls, ds, h + [k]) == NotedFor(calls, ds, h) + [Noted(calls[k].id, ds[k])]
  {
  }

  lemma {:induction false} DecisionsOfFirst(disk: Disk, calls: seq<Call>, m: nat)
    requires m <= |calls|
    ensures DecisionsOf(disk, calls)[..m] == DecisionsOf(disk, calls[..m])
  {
    if m == |calls| {
      assert calls[..m] == calls;
      assert DecisionsOf(disk, calls)[..m] == DecisionsOf(disk, calls);
    } else {
      var n := |calls| - 1;
      DecisionsMore(disk, calls);
      DecisionsOfFirst(disk, calls[..n], m);
      assert calls[..n][..m] == calls[..m];
      assert DecisionsOf(disk, calls)[..n][..m] == DecisionsOf(disk, calls)[..m];
    }
  }

  lemma AcceptedFirst(disk: Disk, calls: seq<Call>, m: nat)
    requires AllAccepted(disk, calls) && m <= |calls|
    ensures AllAccepted(disk, calls[..m])
  {
    DecisionsOfFirst(disk, calls, m);
    PatchesBefore(DecisionsOf(disk, calls), m);
  }

  /** The view the first m calls leave, and the next decision on it. */
  function ViewOf(disk: Disk, calls: seq<Call>, m: nat): map<string, string>
    requires m <= |calls|
  {
    CalledDesk(disk, calls[..m]).virtual
  }

  lemma SameAt(ds: seq<Decision>, es: seq<Decision>, m: nat)
    requires m < |es| <= |ds| && ds[..|es|] == es
    ensures ds[m] == es[m]
  {
  }

  lemma {:induction false} DecisionAt(disk: Disk, calls: seq<Call>, m: nat)
    requires m < |calls|
    ensures DecisionsOf(disk, calls)[m] == Fresh(CalledDesk(disk, calls[..m]), disk, calls[m])
    decreases |calls|
  {
    var n := |calls| - 1;
    DecisionsMore(disk, calls);
    if m < n {
      assert calls[..n][..m] == calls[..m] && calls[..n][m] == calls[m];
      DecisionAt(disk, calls[..n], m);
      SameAt(DecisionsOf(disk, calls), DecisionsOf(disk, calls[..n]), m);
    }
  }

  lemma ViewStep(disk: Disk, calls: seq<Call>)
    requires AllAccepted(disk, calls) && calls != [] && AllAccepted(disk, calls[..|calls| - 1])
    ensures var n := |calls| - 1; var desk := CalledDesk(disk, calls[..n]); var d := Fresh(desk, disk, calls[n]);
            d.Patch? && CalledDesk(disk, calls).virtual == desk.virtual[d.change.path := d.change.after]
  {
    var n := |calls| - 1;
    var desk := CalledDesk(disk, calls[..n]);
    CalledHolds(disk, calls[..n]);
    DecisionsMore(disk, calls);
    NotYetHeld(desk, calls, DecisionsOf(disk, calls[..n]));
    DeskOneMore(START, disk, CallAll(calls[..n]), Called(calls[n]));
    CalledOne(desk, disk, calls[n]);
  }

  lemma ViewAt(disk: Disk, calls: seq<Call>, m: nat, d: Decision)
    requires AllAccepted(disk, calls) && m < |calls| && d == Fresh(CalledDesk(disk, calls[..m]), disk, calls[m])
    ensures d.Patch? && ViewOf(disk, calls, m + 1) == ViewOf(disk, calls, m)[d.change.path := d.change.after]
  {
    var next := calls[..m + 1];
    assert next[..m] == calls[..m] && next[m] == calls[m];
    AcceptedFirst(disk, calls, m + 1);
    AcceptedFirst(disk, calls, m);
    ViewStep(disk, next);
  }

  lemma ViewMore(disk: Disk, calls: seq<Call>, m: nat, desk: Desk)
    requires AllAccepted(disk, calls) && m < |calls| && desk.virtual == ViewOf(disk, calls, m)
    ensures var d := DecisionsOf(disk, calls)[m];
            && Fresh(desk, disk, calls[m]) == d && d.Patch?
            && ViewOf(disk, calls, m + 1) == desk.virtual[d.change.path := d.change.after]
  {
    DecisionAt(disk, calls, m);
    ViewAt(disk, calls, m, DecisionsOf(disk, calls)[m]);
    FreshSees(desk, CalledDesk(disk, calls[..m]), disk, calls[m]);
  }

  /** The desk once calls came: the view of those that came, their decisions, and
      those the stream brought noted. */
  ghost predicate CameTo(desk: Desk, disk: Disk, calls: seq<Call>, m: nat, h: seq<nat>)
    requires m <= |calls| && Picks(h, |calls|)
  {
    && desk.virtual == ViewOf(disk, calls, m) && HoldsAll(desk, calls[..m], DecisionsOf(disk, calls)[..m])
    && desk.message == Some(NotedFor(calls, DecisionsOf(disk, calls), h))
  }

  /** A call that came before. */
  lemma CameAgain(desk: Desk, disk: Disk, calls: seq<Call>, m: nat, h: seq<nat>, w: Way)
    requires AllAccepted(disk, calls) && w.k < m <= |calls| && Picks(h, |calls|) && CameTo(desk, disk, calls, m, h)
    ensures CameTo(Step(desk, disk, ArrivalOf(calls, w)), disk, calls, m, h + if w.ByStream? then [w.k] else [])
  {
    var ds := DecisionsOf(disk, calls);
    assert Holds(desk, calls[..m][w.k].id, ds[..m][w.k]);
    AcceptedAlready(desk, disk, calls[w.k], ds[w.k]);
    if w.ByStream? {
      NotedForMore(calls, ds, h, w.k);
    } else {
      assert h + [] == h;
    }
  }

  /** The next call, as it changes the desk. */
  lemma NextOne(desk: Desk, disk: Disk, calls: seq<Call>, w: Way, d: Decision)
    requires w.k < |calls| && calls[w.k].id != "" && !Cached(desk, calls[w.k].id) && desk.message.Some?
    requires d == Fresh(desk, disk, calls[w.k]) && d.Patch?
    ensures var call, desk' := calls[w.k], Step(desk, disk, ArrivalOf(calls, w));
            && desk'.decisions == desk.decisions[call.id := d]
            && desk'.virtual == desk.virtual[d.change.path := d.change.after]
            && desk'.message == Some(desk.message.value + if w.ByStream? then [Noted(call.id, d)] else [])
  {
    if w.ByStream? {
      RecordedOne(desk, disk, calls[w.k]);
    } else {
      CalledOne(desk, disk, calls[w.k]);
      assert desk.message.value + [] == desk.message.value;
    }
  }

  lemma NotedNext(calls: seq<Call>, ds: seq<Decision>, h: seq<nat>, w: Way)
    requires |ds| == |calls| && Picks(h, |calls|) && w.k < |calls|
    ensures var more := h + if w.ByStream? then [w.k] else [];
            Picks(more, |calls|)
            && NotedFor(calls, ds, h) + (if w.ByStream? then [Noted(calls[w.k].id, ds[w.k])] else []) == NotedFor(calls, ds, more)
  {
    if w.ByStream? {
      NotedForMore(calls, ds, h, w.k);
    } else {
      assert h + [] == h && NotedFor(calls, ds, h) + [] == NotedFor(calls, ds, h);
    }
  }

  lemma EligibleFirst(calls: seq<Call>, m: nat)
    requires Eligible(calls) && m <= |calls|
    ensures Eligible(calls[..m])
  {
  }

  lemma NotYetHeldNext(desk: Desk, calls: seq<Call>, ds: seq<Decision>, m: nat)
    requires Eligible(calls) && |ds| == |calls| && m < |calls| && HoldsAll(desk, calls[..m], ds[..m])
    ensures !Cached(desk, calls[m].id)
  {
    assert calls[..m + 1][..m] == calls[..m];
    EligibleFirst(calls, m + 1);
    NotYetHeld(desk, calls[..m + 1], ds[..m]);
  }

  lemma HoldsNext(desk: Desk, desk': Desk, calls: seq<Call>, ds: seq<Decision>, m: nat)
    requires Eligible(calls) && |ds| == |calls| && m < |calls| && HoldsAll(desk, calls[..m], ds[..m])
    requires desk'.decisions == desk.decisions[calls[m].id := ds[m]]
    ensures HoldsAll(desk', calls[..m + 1], ds[..m + 1])
  {
    assert calls[..m + 1][..m] == calls[..m] && ds[..m + 1][..m] == ds[..m];
    EligibleFirst(calls, m + 1);
    HoldsMore(desk, desk', calls[..m + 1], ds[..m + 1]);
  }

  /** The next call. */
  lemma CameNext(desk: Desk, disk: Disk, calls: seq<Call>, m: nat, h: seq<nat>, w: Way)
    requires AllAccepted(disk, calls) && w.k == m < |calls| && Picks(h, |calls|) && CameTo(desk, disk, calls, m, h)
    ensures CameTo(Step(desk, disk, ArrivalOf(calls, w)), disk, calls, m + 1, h + if w.ByStream? then [w.k] else [])
  {
    var ds := DecisionsOf(disk, calls);
    ViewMore(disk, calls, m, desk);
    NotYetHeldNext(desk, calls, ds, m);
    NextOne(desk, disk, calls, w, ds[m]);
    NotedNext(calls, ds, h, w);
    HoldsNext(desk, Step(desk, disk, ArrivalOf(calls, w)), calls, ds, m);
  }

  lemma CameMore(desk: Desk, disk: Disk, calls: seq<Call>, m: nat, h: seq<nat>, w: Way)
    requires AllAccepted(disk, calls) && w.k <= m <= |calls| && w.k < |calls| && Picks(h, |calls|)
    requires CameTo(desk, disk, calls, m, h)
    ensures var m' := if w.k == m then m + 1 else m; var h' := h + if w.ByStream? then [w.k] else [];
            CameTo(Step(desk, disk, ArrivalOf(calls, w)), disk, calls, m', h')
  {
    if w.k < m {
      CameAgain(desk, disk, calls, m, h, w);
    } else {
      CameNext(desk, disk, calls, m, h, w);
    }
  }

  lemma NoneCame(disk: Disk, calls: seq<Call>)
    requires AllAccepted(disk, calls)
    ensures CameTo(START, disk, calls, 0, [])
  {
    assert calls[..0] == [];
    assert CalledDesk(disk, []) == START;
  }

  lemma WayMore(disk: Disk, calls: seq<Call>, ways: seq<Way>)
    requires Numbered(ways) && Came(ways) <= |calls| && ways != []
    ensures var before, w := ways[..|ways| - 1], ways[|ways| - 1];
            DeskAfter(START, disk, Arrivals(calls, ways)) ==
            Step(DeskAfter(START, disk, Arrivals(calls, before)), disk, ArrivalOf(calls, w))
  {
    DeskOneMore(START, disk, Arrivals(calls, ways[..|ways| - 1]), ArrivalOf(calls, ways[|ways| - 1]));
  }

  lemma CameSame(desk: Desk, desk': Desk, disk: Disk, calls: seq<Call>, m: nat, m': nat, h: seq<nat>, h': seq<nat>)
    requires desk == desk' && m == m' <= |calls| && h == h' && Picks(h, |calls|) && CameTo(desk, disk, calls, m, h)
    ensures CameTo(desk', disk, calls, m', h')
  {
  }

  lemma {:induction false} WaysCome(disk: Disk, calls: seq<Call>, ways: seq<Way>)
    requires AllAccepted(disk, calls) && Numbered(ways) && Came(ways) <= |calls|
    ensures Picks(Brought(ways), |calls|)
    ensures CameTo(DeskAfter(START, disk, Arrivals(calls, ways)), disk, calls, Came(ways), Brought(ways))
  {
    BroughtCame(ways);
    if ways == [] {
      NoneCame(disk, calls);
    } else {
      var before, w := ways[..|ways| - 1], ways[|ways| - 1];
      var desk := DeskAfter(START, disk, Arrivals(calls, before));
      WaysCome(disk, calls, before);
      WayMore(disk, calls, ways);
      CameMore(desk, disk, calls, Came(before), Brought(before), w);
      CameSame(Step(desk, disk, ArrivalOf(calls, w)), DeskAfter(START, disk, Arrivals(calls, ways)), disk, calls,
               if w.k == Came(before) then Came(before) + 1 else Came(before), Came(ways),
               Brought(before) + if w.ByStream? then [w.k] else [], Brought(ways));
    }
  }

  /** What is handed over once all calls came, if a Codex request is open: the calls as
      they were decided, as the stream brought them. */
  lemma HandsOver(disk: Disk, calls: seq<Call>, ways: seq<Way>)
    requires AllAccepted(disk, calls) && Numbered(ways) && Came(ways) == |calls|
    ensures Picks(Brought(ways), |calls|)
    ensures var desk := DeskAfter(START, disk, Arrivals(calls, ways));
            && NotedCalls(desk) == NotedFor(calls, DecisionsOf(disk, calls), Brought(ways))
            && HandedOver(desk, true) == NotedCalls(desk) && HandedOver(desk, false) == []
            && desk.virtual == CalledDesk(disk, calls).virtual
  {
    WaysCome(disk, calls, ways);
    assert calls[..|calls|] == calls;
  }

  lemma {:induction false} DecisionPaths(disk: Disk, calls: seq<Call>)
    requires AllAccepted(disk, calls)
    ensures OneLinePaths(NotedFor(calls, DecisionsOf(disk, calls), Upto(|calls|)))
  {
    var ds := DecisionsOf(disk, calls);
    forall k | 0 <= k < |calls| ensures ds[k].Patch? && OneLine(ds[k].change.path) {
      DecisionAt(disk, calls, k);
      FreshShape(CalledDesk(disk, calls[..k]), disk, calls[k]);
    }
  }

  /** Brought in the order they were decided, each once, they give the view when a
      Codex request is open; with none to bring, so does nothing. */
  lemma InOrderGivesView(disk: Disk, calls: seq<Call>, ways: seq<Way>, open: bool)
    requires AllAccepted(disk, calls) && Numbered(ways) && Came(ways) == |calls|
    requires Brought(ways) == Upto(|calls|) && (open || calls == [])
    ensures GivesView(disk, calls, ways, open)
  {
    HandsOver(disk, calls, ways);
    CalledHolds(disk, calls);
    DecisionPaths(disk, calls);
    ReplayMatchesView(START, disk, CallAll(calls));
  }
}
