/** Which items of a Codex request are new for Claude. Codex resends the whole
    thread every time; ids and content hashes tell what Claude already has. */
module Seen {

  /** Starts the message Codex sends when it compacts a thread. */
  const COMPACTION_PROMPT := "You are performing a CONTEXT CHECKPOINT COMPACTION"

  /** Starts the summary Codex puts in a compacted thread. */
  const COMPACTION_SUMMARY := "Another language model started to solve this problem"

  datatype Kind =
    | MessageItem | AgentMessage | FunctionCall | CustomCall | FunctionOutput | CustomOutput
    | Compaction | ContextCompaction | OtherItem

  /** One entry of the thread: its raw content for hashing, its text, and the
      call it answers when it is a tool output. */
  datatype Item = Item(kind: Kind, id: string, role: string, raw: string, text: string, callId: string)
  {
    function Author(): string {
      if role == "" then "user" else role
    }

    predicate IsToolOutput() {
      kind == FunctionOutput || kind == CustomOutput
    }

    /** Items the seen sets record. */
    predicate IsMessage() {
      kind == MessageItem || kind == AgentMessage
    }

    predicate IsUserMessage() {
      kind == MessageItem && Author() == "user"
    }

    predicate IsCompactionText() {
      COMPACTION_SUMMARY <= text || COMPACTION_PROMPT <= text
    }
  }

  /** The content hash of an author and raw content. */
  type Hash = (string, string) -> string

  function HashOf(hash: Hash, it: Item): string {
    hash(it.Author(), it.raw)
  }

  // ----- what has been seen

  /** Message ids and content hashes, oldest first. */
  datatype State = State(ids: seq<string>, hashes: seq<string>)

  function AddOnce(order: seq<string>, v: string): seq<string> {
    if v in order then order else order + [v]
  }

  function Record(seen: State, id: string, h: string): State {
    State(if id != "" then AddOnce(seen.ids, id) else seen.ids, AddOnce(seen.hashes, h))
  }

  function RecordItem(hash: Hash, seen: State, it: Item): State {
    if it.IsMessage() then Record(seen, it.id, HashOf(hash, it)) else seen
  }

  predicate IsEmpty(seen: State) {
    seen.ids == [] && seen.hashes == []
  }

  /** What has been seen once the first n items have been looked at. */
  function SeenAfter(hash: Hash, items: seq<Item>, n: nat, seen: State): State
    requires n <= |items|
  {
    if n == 0 then seen else RecordItem(hash, SeenAfter(hash, items, n - 1, seen), items[n - 1])
  }

  // ----- what passes

  /** The newest user message of the thread. */
  predicate IsLastUser(items: seq<Item>, i: nat) {
    i < |items| && items[i].IsUserMessage() && forall j :: i < j < |items| ==> !items[j].IsUserMessage()
  }

  /** Whether item i passes to a Claude that has seen something. */
  predicate PassesNew(hash: Hash, items: seq<Item>, i: nat, seen: State, strict: bool)
    requires i < |items|
  {
    var it, before := items[i], SeenAfter(hash, items, i, seen);
    && it.IsMessage()
    && !(it.id != "" && it.id in before.ids)
    && it.Author() != "assistant"
    && !(HashOf(hash, it) in before.hashes
         && (strict || !(it.id != "" && (IsLastUser(items, i) || it.kind == AgentMessage))))
    && !it.IsCompactionText()
  }

  /** Whether an item passes to a Claude that has seen nothing. */
  predicate PassesWhole(it: Item) {
    it.kind != OtherItem
  }

  predicate Passes(hash: Hash, items: seq<Item>, i: nat, seen: State, strict: bool)
    requires i < |items|
  {
    if IsEmpty(seen) then PassesWhole(items[i]) else PassesNew(hash, items, i, seen, strict)
  }

  /** The places of the items that pass, among the first n. */
  function Passing(hash: Hash, items: seq<Item>, n: nat, seen: State, strict: bool): seq<nat>
    requires n <= |items|
  {
    if n == 0 then []
    else Passing(hash, items, n - 1, seen, strict) + if Passes(hash, items, n - 1, seen, strict) then [n - 1] else []
  }

  function Outputs(items: seq<Item>, n: nat): seq<nat>
    requires n <= |items|
  {
    if n == 0 then [] else Outputs(items, n - 1) + if items[n - 1].IsToolOutput() then [n - 1] else []
  }

  predicate PlacesBelow(places: seq<nat>, n: nat) {
    forall k :: 0 <= k < |places| ==> places[k] < n
  }

  /** The items at these places. */
  function At(items: seq<Item>, places: seq<nat>): (r: seq<Item>)
    requires PlacesBelow(places, |items|)
    ensures |r| == |places|
  {
    seq(|places|, k requires 0 <= k < |places| => items[places[k]])
  }

  /** One more place. */
  lemma AtMore(items: seq<Item>, places: seq<nat>, i: nat)
    requires PlacesBelow(places, |items|) && i < |items|
    ensures PlacesBelow(places + [i], |items|) && At(items, places + [i]) == At(items, places) + [items[i]]
  {
  }

  lemma {:induction false} PassingPlaces(hash: Hash, items: seq<Item>, n: nat, seen: State, strict: bool)
    requires n <= |items|
    ensures PlacesBelow(Passing(hash, items, n, seen, strict), n)
    ensures forall i: nat :: i < n ==>
              (i in Passing(hash, items, n, seen, strict) <==> Passes(hash, items, i, seen, strict))
  {
    if n > 0 {
      PassingPlaces(hash, items, n - 1, seen, strict);
    }
  }

  lemma {:induction false} OutputPlaces(items: seq<Item>, n: nat)
    requires n <= |items|
    ensures PlacesBelow(Outputs(items, n), n)
    ensures forall i: nat :: i < n ==> (i in Outputs(items, n) <==> items[i].IsToolOutput())
  {
    if n > 0 {
      OutputPlaces(items, n - 1);
    }
  }

  // ----- a thread that has been handed over

  /** Everything in the thread that can be recorded has been. */
  predicate Has(hash: Hash, seen: State, it: Item) {
    it.IsMessage() ==> (it.id != "" ==> it.id in seen.ids) && HashOf(hash, it) in seen.hashes
  }

  predicate Handed(hash: Hash, seen: State, thread: seq<Item>) {
    forall k :: 0 <= k < |thread| ==> Has(hash, seen, thread[k])
  }

  predicate Within(seen: State, later: State) {
    (forall id :: id in seen.ids ==> id in later.ids) && (forall h :: h in seen.hashes ==> h in later.hashes)
  }

  lemma {:induction false} SeenGrows(hash: Hash, items: seq<Item>, n: nat, m: nat, seen: State)
    requires n <= m <= |items|
    ensures Within(SeenAfter(hash, items, n, seen), SeenAfter(hash, items, m, seen))
  {
    if n < m {
      SeenGrows(hash, items, n, m - 1, seen);
    }
  }

  lemma HandsOver(hash: Hash, items: seq<Item>, i: nat, m: nat, seen: State)
    requires i < m <= |items|
    ensures Has(hash, SeenAfter(hash, items, m, seen), items[i])
  {
    SeenGrows(hash, items, i + 1, m, seen);
  }

  /** A request, and all that is known to be seen once it is served. */
  datatype Request = Request(items: seq<Item>, strict: bool)

  /** What has been seen once the first n requests are served. */
  function SeenBefore(hash: Hash, requests: seq<Request>, n: nat, seen: State): State
    requires n <= |requests|
  {
    if n == 0 then seen
    else var r := requests[n - 1].items; SeenAfter(hash, r, |r|, SeenBefore(hash, requests, n - 1, seen))
  }

  lemma {:induction false} RequestsGrow(hash: Hash, requests: seq<Request>, n: nat, m: nat, seen: State)
    requires n <= m <= |requests|
    ensures Within(SeenBefore(hash, requests, n, seen), SeenBefore(hash, requests, m, seen))
  {
    if n < m {
      RequestsGrow(hash, requests, n, m - 1, seen);
      var r := requests[m - 1].items;
      SeenGrows(hash, r, 0, |r|, SeenBefore(hash, requests, m - 1, seen));
    }
  }

  predicate PassesIn(hash: Hash, requests: seq<Request>, j: nat, i: nat, seen: State)
    requires j < |requests| && i < |requests[j].items|
  {
    Passes(hash, requests[j].items, i, SeenBefore(hash, requests, j, seen), requests[j].strict)
  }

  /** Once a thread has been handed over and left something seen, a later request
      that extends it, strict or not, passes only items of what was added,
      whatever other requests came between. */
  lemma ExtensionPassesAdded(hash: Hash, requests: seq<Request>, j: nat, k: nat, i: nat, seen: State)
    requires j < k < |requests| && requests[j].items <= requests[k].items
    requires !IsEmpty(SeenBefore(hash, requests, j + 1, seen))
    requires i < |requests[k].items| && PassesIn(hash, requests, k, i, seen)
    ensures i >= |requests[j].items|
  {
    var thread, again := requests[j].items, requests[k].items;
    if i < |thread| {
      HandsOver(hash, thread, i, |thread|, SeenBefore(hash, requests, j, seen));
      RequestsGrow(hash, requests, j + 1, k, seen);
      SeenGrows(hash, again, 0, i, SeenBefore(hash, requests, k, seen));
      assert again[i] == thread[i];
      StaysSeen(SeenBefore(hash, requests, j + 1, seen), SeenBefore(hash, requests, k, seen));
    }
  }

  lemma StaysSeen(seen: State, later: State)
    requires Within(seen, later) && !IsEmpty(seen)
    ensures !IsEmpty(later)
  {
    if seen.ids != [] {
      assert seen.ids[0] in later.ids;
    } else {
      assert seen.hashes[0] in later.hashes;
    }
  }

  /** Item i of request j comes before item i' of request j'. */
  predicate Earlier(j: nat, i: nat, j': nat, i': nat) {
    j < j' || (j == j' && i < i')
  }

  lemma SeenByThen(hash: Hash, requests: seq<Request>, j: nat, i: nat, j': nat, i': nat, seen: State)
    requires j < |requests| && j' < |requests| && i < |requests[j].items| && i' < |requests[j'].items|
    requires Earlier(j, i, j', i')
    ensures Has(hash, SeenAfter(hash, requests[j'].items, i', SeenBefore(hash, requests, j', seen)), requests[j].items[i])
  {
    var items, before := requests[j].items, SeenBefore(hash, requests, j, seen);
    if j == j' {
      HandsOver(hash, items, i, i', before);
    } else {
      HandsOver(hash, items, i, |items|, before);
      RequestsGrow(hash, requests, j + 1, j', seen);
      SeenGrows(hash, requests[j'].items, 0, i', SeenBefore(hash, requests, j', seen));
    }
  }

  /** To a Claude that has seen something, no message id passes twice in any run
      of requests, and a strict request passes nothing whose content came before. */
  lemma NeverTwice(hash: Hash, requests: seq<Request>, j: nat, i: nat, j': nat, i': nat, seen: State)
    requires !IsEmpty(seen)
    requires j < |requests| && j' < |requests| && i < |requests[j].items| && i' < |requests[j'].items|
    requires Earlier(j, i, j', i') && requests[j].items[i].IsMessage()
    requires PassesIn(hash, requests, j', i', seen)
    ensures requests[j].items[i].id != "" ==> requests[j].items[i].id != requests[j'].items[i'].id
    ensures requests[j'].strict ==> HashOf(hash, requests[j].items[i]) != HashOf(hash, requests[j'].items[i'])
  {
    SeenByThen(hash, requests, j, i, j', i', seen);
    RequestsGrow(hash, requests, 0, j', seen);
    StaysSeen(seen, SeenBefore(hash, requests, j', seen));
  }

  /** A strict request passes nothing whose content hash was seen before it. */
  lemma StrictPassesUnseen(hash: Hash, items: seq<Item>, i: nat, seen: State)
    requires !IsEmpty(seen) && i < |items| && Passes(hash, items, i, seen, true)
    ensures HashOf(hash, items[i]) !in seen.hashes
  {
    SeenGrows(hash, items, 0, i, seen);
  }

  /** A Claude that has seen nothing gets the whole thread, a repeated id twice. */
  lemma WholeThreadRepeats(hash: Hash, it: Item)
    requires it.kind == MessageItem && it.id != ""
    ensures Passing(hash, [it, it], 2, State([], []), true) == [0, 1]
  {
    assert Passing(hash, [it, it], 0, State([], []), true) == [];
    assert Passing(hash, [it, it], 1, State([], []), true) == [0];
  }

  predicate IsPlace(requests: seq<Request>, j: nat, i: nat) {
    j < |requests| && i < |requests[j].items|
  }

  /** Item i of request j, and later item i' of request j', are messages with one
      id, and both pass. */
  predicate PassesTwice(hash: Hash, requests: seq<Request>, j: nat, i: nat, j': nat, i': nat, seen: State) {
    && IsPlace(requests, j, i) && IsPlace(requests, j', i') && Earlier(j, i, j', i')
    && requests[j].items[i].IsMessage() && requests[j'].items[i'].IsMessage()
    && requests[j].items[i].id == requests[j'].items[i'].id != ""
    && PassesIn(hash, requests, j, i, seen) && PassesIn(hash, requests, j', i', seen)
  }

  /** No message id passes twice in the run. */
  ghost predicate NoIdTwice(hash: Hash, requests: seq<Request>, seen: State) {
    forall j: nat, i: nat, j': nat, i': nat :: !PassesTwice(hash, requests, j, i, j', i', seen)
  }

  predicate HasMessage(items: seq<Item>) {
    exists i :: 0 <= i < |items| && items[i].IsMessage()
  }

  /** No two message items share an id, empty ones aside. */
  predicate DistinctIds(items: seq<Item>) {
    forall i, j :: 0 <= i < j < |items| && items[i].IsMessage() && items[j].IsMessage() && items[i].id != "" ==>
      items[i].id != items[j].id
  }

  /** The first request with a message item; |requests| when there is none. */
  function FirstMessages(requests: seq<Request>): (first: nat)
    ensures first <= |requests|
  {
    if requests == [] || HasMessage(requests[0].items) then 0 else 1 + FirstMessages(requests[1..])
  }

  lemma {:induction false} FirstMessagesFirst(requests: seq<Request>)
    ensures FirstMessages(requests) < |requests| ==> HasMessage(requests[FirstMessages(requests)].items)
    ensures forall k :: 0 <= k < FirstMessages(requests) ==> !HasMessage(requests[k].items)
  {
    if requests != [] && !HasMessage(requests[0].items) {
      FirstMessagesFirst(requests[1..]);
    }
  }

  /** Items without a message leave nothing seen. */
  lemma {:induction false} NothingRecorded(hash: Hash, items: seq<Item>, n: nat, seen: State)
    requires n <= |items| && !HasMessage(items)
    ensures SeenAfter(hash, items, n, seen) == seen
  {
    if n > 0 {
      NothingRecorded(hash, items, n - 1, seen);
    }
  }

  lemma {:induction false} EmptyUntilFirst(hash: Hash, requests: seq<Request>, n: nat, seen: State)
    requires n <= FirstMessages(requests)
    ensures SeenBefore(hash, requests, n, seen) == seen
  {
    if n > 0 {
      FirstMessagesFirst(requests);
      EmptyUntilFirst(hash, requests, n - 1, seen);
      NothingRecorded(hash, requests[n - 1].items, |requests[n - 1].items|, seen);
    }
  }

  /** Once a message was looked at, something is seen. */
  lemma SeenSomething(hash: Hash, requests: seq<Request>, j: nat, i: nat, n: nat, seen: State)
    requires j < n <= |requests| && i < |requests[j].items| && requests[j].items[i].IsMessage()
    ensures !IsEmpty(SeenBefore(hash, requests, n, seen))
  {
    var r := requests[j].items;
    HandsOver(hash, r, i, |r|, SeenBefore(hash, requests, j, seen));
    RequestsGrow(hash, requests, j + 1, n, seen);
  }

  /** A repeat lies within the first request that holds a message. */
  lemma RepeatsAtFirst(hash: Hash, requests: seq<Request>, j: nat, i: nat, j': nat, i': nat, seen: State)
    requires IsEmpty(seen) && PassesTwice(hash, requests, j, i, j', i', seen)
    ensures j == j' == FirstMessages(requests)
  {
    FirstMessagesFirst(requests);
    var first := FirstMessages(requests);
    if j' > first {
      var k :| 0 <= k < |requests[first].items| && requests[first].items[k].IsMessage();
      SeenSomething(hash, requests, first, k, j', seen);
      SeenByThen(hash, requests, j, i, j', i', seen);
    }
  }

  /** Where two messages of that request share an id, both pass. */
  lemma FirstRepeats(hash: Hash, requests: seq<Request>, i: nat, j: nat, seen: State)
    requires IsEmpty(seen) && i < j && IsPlace(requests, FirstMessages(requests), j)
    requires var items := requests[FirstMessages(requests)].items;
             items[i].IsMessage() && items[j].IsMessage() && items[i].id == items[j].id != ""
    ensures var first := FirstMessages(requests); PassesTwice(hash, requests, first, i, first, j, seen)
  {
    EmptyUntilFirst(hash, requests, FirstMessages(requests), seen);
  }

  lemma DifferentIds(items: seq<Item>, i: nat, j: nat)
    requires DistinctIds(items) && i < j < |items| && items[i].IsMessage() && items[j].IsMessage() && items[i].id != ""
    ensures items[i].id != items[j].id
  {
  }

  lemma NoRepeat(hash: Hash, requests: seq<Request>, j: nat, i: nat, j': nat, i': nat, seen: State)
    requires IsEmpty(seen)
    requires var first := FirstMessages(requests); first == |requests| || DistinctIds(requests[first].items)
    ensures !PassesTwice(hash, requests, j, i, j', i', seen)
  {
    if PassesTwice(hash, requests, j, i, j', i', seen) {
      RepeatsAtFirst(hash, requests, j, i, j', i', seen);
      DifferentIds(requests[j].items, i, i');
    }
  }

  lemma NoneRepeats(hash: Hash, requests: seq<Request>, seen: State)
    requires IsEmpty(seen)
    requires var first := FirstMessages(requests); first == |requests| || DistinctIds(requests[first].items)
    ensures NoIdTwice(hash, requests, seen)
  {
    forall j: nat, i: nat, j': nat, i': nat ensures !PassesTwice(hash, requests, j, i, j', i', seen) {
      NoRepeat(hash, requests, j, i, j', i', seen);
    }
  }

  lemma SharedIds(items: seq<Item>) returns (i: nat, j: nat)
    requires !DistinctIds(items)
    ensures i < j < |items| && items[i].IsMessage() && items[j].IsMessage() && items[i].id == items[j].id != ""
  {
    i, j :| 0 <= i < j < |items| && items[i].IsMessage() && items[j].IsMessage() && items[i].id != "" && items[i].id == items[j].id;
  }

  /** Starting with nothing seen, no message id passes twice in a run of requests
      exactly when the first request that holds a message, the one that passes
      whole, has no two messages with one id. */
  lemma NoIdTwiceExactlyWhen(hash: Hash, requests: seq<Request>, seen: State)
    requires IsEmpty(seen)
    ensures var first := FirstMessages(requests);
            NoIdTwice(hash, requests, seen) <==> (first == |requests| || DistinctIds(requests[first].items))
  {
    var first := FirstMessages(requests);
    if first == |requests| || DistinctIds(requests[first].items) {
      NoneRepeats(hash, requests, seen);
    } else {
      var i, j := SharedIds(requests[first].items);
      FirstRepeats(hash, requests, i, j, seen);
    }
  }

  /** The same text typed again: after a thread that has been handed over, a new
      user message passes, alone, even when it repeats an earlier one; a strict
      request lets it through only when it does not. */
  lemma TypedAgain(hash: Hash, thread: seq<Item>, m: Item, seen: State, strict: bool)
    requires !IsEmpty(seen) && Handed(hash, seen, thread)
    requires m.IsUserMessage() && m.id != "" && m.id !in seen.ids && !m.IsCompactionText()
    requires forall k :: 0 <= k < |thread| && thread[k].IsMessage() ==> thread[k].id != m.id
    ensures Passing(hash, thread + [m], |thread| + 1, seen, strict) ==
            if strict && HashOf(hash, m) in seen.hashes then [] else [|thread|]
  {
    var items := thread + [m];
    NothingOld(hash, items, |thread|, seen, strict);
    SameSeen(hash, items, |thread|, seen);
    assert IsLastUser(items, |thread|);
  }

  /** Looking again at items that have been handed over records nothing. */
  lemma {:induction false} SameSeen(hash: Hash, items: seq<Item>, n: nat, seen: State)
    requires n <= |items| && Handed(hash, seen, items[..n])
    ensures SeenAfter(hash, items, n, seen) == seen
  {
    if n > 0 {
      assert items[..n][n - 1] == items[n - 1];
      assert forall k :: 0 <= k < n - 1 ==> items[..n - 1][k] == items[..n][k];
      SameSeen(hash, items, n - 1, seen);
    }
  }

  /** An item that has been seen does not pass again, with or without an id. */
  lemma OldNeverPasses(hash: Hash, items: seq<Item>, i: nat, seen: State, strict: bool)
    requires !IsEmpty(seen) && i < |items| && Has(hash, seen, items[i])
    ensures !Passes(hash, items, i, seen, strict)
  {
    SeenGrows(hash, items, 0, i, seen);
  }

  lemma {:induction false} NothingOld(hash: Hash, items: seq<Item>, n: nat, seen: State, strict: bool)
    requires !IsEmpty(seen) && n <= |items| && Handed(hash, seen, items[..n])
    ensures Passing(hash, items, n, seen, strict) == []
  {
    if n > 0 {
      assert items[..n][n - 1] == items[n - 1] && items[..n][..n - 1] == items[..n - 1];
      NothingOld(hash, items, n - 1, seen, strict);
      OldNeverPasses(hash, items, n - 1, seen, strict);
    }
  }

  // ----- saving and loading

  /** How many ids and hashes a session keeps on disk. */
  const MAX_SEEN := 20_000

  function Newest(order: seq<string>, limit: nat): seq<string> {
    order[if |order| > limit then |order| - limit else 0..]
  }

  function AddAll(order: seq<string>, vs: seq<string>): seq<string> {
    if vs == [] then order else AddOnce(AddAll(order, vs[..|vs| - 1]), vs[|vs| - 1])
  }

  /** What a session loads from the lists it saved. */
  function Load(ids: seq<string>, hashes: seq<string>): State {
    State(AddAll([], ids), AddAll([], hashes))
  }

  predicate Distinct(order: seq<string>) {
    forall i, j :: 0 <= i < j < |order| ==> order[i] != order[j]
  }

  predicate Valid(seen: State) {
    Distinct(seen.ids) && Distinct(seen.hashes)
  }

  lemma {:induction false} StaysValid(hash: Hash, items: seq<Item>, n: nat, seen: State)
    requires n <= |items| && Valid(seen)
    ensures Valid(SeenAfter(hash, items, n, seen))
  {
    if n > 0 {
      StaysValid(hash, items, n - 1, seen);
    }
  }

  lemma {:induction false} AddsDistinct(vs: seq<string>)
    requires Distinct(vs)
    ensures AddAll([], vs) == vs
  {
    if vs != [] {
      AddsDistinct(vs[..|vs| - 1]);
    }
  }

  lemma {:induction false} LoadsDistinct(vs: seq<string>)
    ensures Distinct(AddAll([], vs))
  {
    if vs != [] {
      LoadsDistinct(vs[..|vs| - 1]);
    }
  }

  /** A session rebuilt from its save has seen exactly what the saved one had,
      and so answers every request alike, exactly while neither list has
      outgrown what is kept. */
  lemma SavedAndLoaded(seen: State)
    requires Valid(seen)
    ensures Load(Newest(seen.ids, MAX_SEEN), Newest(seen.hashes, MAX_SEEN)) == seen <==>
            |seen.ids| <= MAX_SEEN && |seen.hashes| <= MAX_SEEN
  {
    AddsDistinct(Newest(seen.ids, MAX_SEEN));
    AddsDistinct(Newest(seen.hashes, MAX_SEEN));
  }

  // ----- exactly what passes

  /** One of the first n items is a message with this id. */
  predicate IdCame(items: seq<Item>, n: nat, id: string)
    requires n <= |items|
  {
    exists k :: 0 <= k < n && items[k].IsMessage() && items[k].id == id
  }

  predicate HashCame(hash: Hash, items: seq<Item>, n: nat, h: string)
    requires n <= |items|
  {
    exists k :: 0 <= k < n && items[k].IsMessage() && HashOf(hash, items[k]) == h
  }

  /** What has been seen is what was seen before and the ids and contents of the messages
      that were looked at. */
  lemma {:induction false} SeenExactly(hash: Hash, items: seq<Item>, n: nat, seen: State, v: string)
    requires n <= |items|
    ensures var later := SeenAfter(hash, items, n, seen);
            && (v in later.ids <==> v in seen.ids || (v != "" && IdCame(items, n, v)))
            && (v in later.hashes <==> v in seen.hashes || HashCame(hash, items, n, v))
  {
    if n > 0 {
      SeenExactly(hash, items, n - 1, seen, v);
    }
  }

  /** A message not from the assistant, and no compaction prompt or summary. */
  predicate Typed(it: Item) {
    (it.kind == MessageItem || it.kind == AgentMessage) && it.role != "assistant"
    && !(COMPACTION_SUMMARY <= it.text) && !(COMPACTION_PROMPT <= it.text)
  }

  /** Whether item i may repeat an earlier content: it has an id, and is an agent message
      or the newest user message, which have no role or the user's. */
  predicate MayRepeat(items: seq<Item>, i: nat)
    requires i < |items|
  {
    && items[i].id != ""
    && (items[i].kind == AgentMessage
        || (items[i].role in {"", "user"}
            && forall j :: i < j < |items| && items[j].kind == MessageItem ==> items[j].role !in {"", "user"}))
  }

  /** To a Claude that has seen nothing every item of a known kind passes. To any other an
      item passes exactly when it is a message that was typed for it, under an id that
      has not come, with a content that has not come or may repeat, if the request is
      not strict. */
  lemma PassesExactlyWhen(hash: Hash, items: seq<Item>, i: nat, seen: State, strict: bool)
    requires i < |items|
    ensures i in Passing(hash, items, |items|, seen, strict) <==>
            if seen.ids == [] && seen.hashes == [] then items[i].kind != OtherItem
            else
              var it, h := items[i], hash(if items[i].role == "" then "user" else items[i].role, items[i].raw);
              && Typed(it)
              && !(it.id != "" && (it.id in seen.ids || IdCame(items, i, it.id)))
              && (!(h in seen.hashes || HashCame(hash, items, i, h)) || (!strict && MayRepeat(items, i)))
  {
    var it := items[i];
    PassingPlaces(hash, items, |items|, seen, strict);
    SeenExactly(hash, items, i, seen, it.id);
    SeenExactly(hash, items, i, seen, HashOf(hash, it));
    if it.kind in {MessageItem, AgentMessage} {
      LastUserExactly(items, i);
    }
  }

  lemma LastUserExactly(items: seq<Item>, i: nat)
    requires i < |items| && items[i].kind in {MessageItem, AgentMessage}
    ensures items[i].id != "" && (IsLastUser(items, i) || items[i].kind == AgentMessage) <==> MayRepeat(items, i)
  {
  }

  predicate Increasing(places: seq<nat>) {
    forall a, b :: 0 <= a < b < |places| ==> places[a] < places[b]
  }

  lemma IncreasingMore(places: seq<nat>, n: nat)
    requires Increasing(places) && PlacesBelow(places, n)
    ensures Increasing(places + [n]) && Increasing(places + [])
  {
    assert places + [] == places;
  }

  /** What passes, and the tool outputs, keep the order of the thread. */
  lemma {:induction false} PassesInOrder(hash: Hash, items: seq<Item>, n: nat, seen: State, strict: bool)
    requires n <= |items|
    ensures Increasing(Passing(hash, items, n, seen, strict)) && Increasing(Outputs(items, n))
  {
    if n > 0 {
      PassesInOrder(hash, items, n - 1, seen, strict);
      PassingPlaces(hash, items, n - 1, seen, strict);
      OutputPlaces(items, n - 1);
      IncreasingMore(Passing(hash, items, n - 1, seen, strict), n - 1);
      IncreasingMore(Outputs(items, n - 1), n - 1);
    }
  }

  /** What was added after a thread that has been handed over: an item passes exactly when
      it is a message typed for Claude, under an id neither seen nor earlier among those
      added, with a content neither seen nor added earlier, or one that may repeat. So a
      new agent or developer message passes. */
  lemma AddedPassesExactlyWhen(hash: Hash, thread: seq<Item>, added: seq<Item>, k: nat, seen: State, strict: bool)
    requires k < |added| && !IsEmpty(seen) && Handed(hash, seen, thread)
    ensures var items, it, h := thread + added, added[k], HashOf(hash, added[k]);
            |thread| + k in Passing(hash, items, |items|, seen, strict) <==>
            && Typed(it)
            && !(it.id != "" && (it.id in seen.ids || IdCame(added, k, it.id)))
            && (!(h in seen.hashes || HashCame(hash, added, k, h)) || (!strict && MayRepeat(added, k)))
  {
    var items, it := thread + added, added[k];
    PassesExactlyWhen(hash, items, |thread| + k, seen, strict);
    CameInEither(hash, thread, added, k, it.id, HashOf(hash, it));
    RepeatsAlike(thread, added, k);
  }

  lemma RepeatsAlike(thread: seq<Item>, added: seq<Item>, k: nat)
    requires k < |added|
    ensures MayRepeat(thread + added, |thread| + k) <==> MayRepeat(added, k)
  {
    var items, n := thread + added, |thread|;
    assert forall j :: k < j < |added| ==> items[n + j] == added[j];
    assert forall j :: n + k < j < |items| ==> items[j] == added[j - n];
  }

  lemma CameInEither(hash: Hash, thread: seq<Item>, added: seq<Item>, k: nat, id: string, h: string)
    requires k <= |added|
    ensures IdCame(thread + added, |thread| + k, id) <==> IdCame(thread, |thread|, id) || IdCame(added, k, id)
    ensures HashCame(hash, thread + added, |thread| + k, h) <==> HashCame(hash, thread, |thread|, h) || HashCame(hash, added, k, h)
  {
    var items, n := thread + added, |thread|;
    assert forall j :: 0 <= j < n ==> items[j] == thread[j];
    assert forall j :: 0 <= j < k ==> items[n + j] == added[j];
    assert forall j :: n <= j < n + k ==> items[j] == added[j - n];
  }

  /** What is saved of a list is its newest values, all of them or as many as are kept. */
  lemma NewestKept(order: seq<string>, limit: nat)
    ensures var kept := Newest(order, limit);
            && |kept| == (if |order| < limit then |order| else limit)
            && exists lost :: lost + kept == order
  {
    var n := if |order| > limit then |order| - limit else 0;
    assert order[..n] + Newest(order, limit) == order;
  }
}
