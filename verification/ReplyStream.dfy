/** The reply stream: one Codex reply written as numbered events, with at most
    one item open, over a connection that may fail at any event. */
module ReplyStream {
  import opened Options

  // ----- events

  /** An item as Codex sees it. Calls and other finished items are opaque. */
  datatype OutputItem =
    | Message(id: string, completed: bool, content: seq<string>)
    | Reasoning(id: string, summary: seq<string>)
    | Finished(payload: string, completed: bool)

  /** An item as output_item.added announces it. */
  function InProgress(item: OutputItem): OutputItem {
    match item
    case Message(id, _, _) => Message(id, false, [])
    case Reasoning(id, _) => Reasoning(id, [])
    case Finished(payload, _) => Finished(payload, false)
  }

  datatype Usage = Usage(inputTokens: int, outputTokens: int, reasoningTokens: int)

  datatype Body =
    | Created
    | ItemAdded(index: nat, item: OutputItem)
    | PartAdded(id: string, index: nat)
    | Delta(id: string, index: nat, text: string)
    | TextDone(id: string, index: nat, text: string)
    | PartDone(id: string, index: nat, text: string)
    | ItemDone(index: nat, item: OutputItem)
    | Completed(output: seq<OutputItem>, usage: Usage)
    | Failed(output: seq<OutputItem>, code: string)

  /** One event as written, with its sequence number. */
  datatype Event = Event(number: nat, body: Body)

  // ----- the stream

  datatype OpenItem = OpenItem(id: string, index: nat, value: string)

  /** Whether the n-th event reaches Codex. */
  type Writer = nat -> bool

  datatype State = State(
    number: nat,
    nextIndex: nat,
    output: seq<OutputItem>,
    text: Option<OpenItem>,
    reasoning: Option<OpenItem>,
    closed: bool,
    broken: bool,
    finishes: nat,
    written: seq<Event>)

  const EMPTY := State(0, 0, [], None, None, false, false, 0, [])

  function Close(s: State): State {
    if s.closed then s else s.(closed := true, finishes := s.finishes + 1)
  }

  /** Writes one event; the first failure ends the stream. */
  function Emit(s: State, ok: Writer, body: Body): State {
    if s.closed then s
    else if ok(s.number + 1) then s.(number := s.number + 1, written := s.written + [Event(s.number + 1, body)])
    else Close(s.(number := s.number + 1, broken := true))
  }

  function EmitAll(s: State, ok: Writer, bodies: seq<Body>): State
    decreases |bodies|
  {
    if bodies == [] then s else EmitAll(Emit(s, ok, bodies[0]), ok, bodies[1..])
  }

  function New(ok: Writer): State {
    Emit(EMPTY, ok, Created)
  }

  function MessageOf(t: OpenItem): OutputItem {
    Message(t.id, true, [t.value])
  }

  function ReasoningOf(r: OpenItem): OutputItem {
    Reasoning(r.id, if r.value == "" then [] else [r.value])
  }

  function DoneEvents(open: OpenItem, item: OutputItem): seq<Body> {
    [TextDone(open.id, open.index, open.value), PartDone(open.id, open.index, open.value), ItemDone(open.index, item)]
  }

  function AddedEvents(index: nat, item: OutputItem): seq<Body>
    requires !item.Finished?
  {
    [ItemAdded(index, InProgress(item)), PartAdded(item.id, index)]
  }

  /** Closes an item: its done events, then its place in the output. */
  function CloseItem(s: State, ok: Writer, open: OpenItem, item: OutputItem): State {
    var s' := EmitAll(s, ok, DoneEvents(open, item));
    s'.(output := s'.output + [item])
  }

  function FinishText(s: State, ok: Writer): State {
    match s.text
    case None => s
    case Some(t) => CloseItem(s.(text := None), ok, t, MessageOf(t))
  }

  function FinishReasoning(s: State, ok: Writer): State {
    match s.reasoning
    case None => s
    case Some(r) => CloseItem(s.(reasoning := None), ok, r, ReasoningOf(r))
  }

  function OpenReasoning(s: State, ok: Writer, id: string): State {
    EmitAll(s.(reasoning := Some(OpenItem(id, s.nextIndex, "")), nextIndex := s.nextIndex + 1), ok,
            AddedEvents(s.nextIndex, Reasoning(id, [])))
  }

  function OpenText(s: State, ok: Writer, id: string): State {
    EmitAll(s.(text := Some(OpenItem(id, s.nextIndex, "")), nextIndex := s.nextIndex + 1), ok,
            AddedEvents(s.nextIndex, Message(id, false, [])))
  }

  function StartReasoning(s: State, ok: Writer, id: string): State {
    if s.reasoning.Some? then s else OpenReasoning(FinishText(s, ok), ok, id)
  }

  function AppendReasoning(s: State, ok: Writer, text: string): State {
    match s.reasoning
    case None => s
    case Some(r) => Emit(s.(reasoning := Some(r.(value := r.value + text))), ok, Delta(r.id, r.index, text))
  }

  function AppendText(s: State, ok: Writer, text: string): State {
    match s.text
    case None => s
    case Some(t) => Emit(s.(text := Some(t.(value := t.value + text))), ok, Delta(t.id, t.index, text))
  }

  function ReasoningDelta(s: State, ok: Writer, text: string, id: string): State {
    if text == "" then s else AppendReasoning(StartReasoning(s, ok, id), ok, text)
  }

  function Note(s: State, ok: Writer, text: string, id: string): State {
    FinishReasoning(ReasoningDelta(FinishReasoning(s, ok), ok, text, id), ok)
  }

  function TextDelta(s: State, ok: Writer, text: string, id: string): State {
    if text == "" then s
    else AppendText(if s.text == None then OpenText(FinishReasoning(s, ok), ok, id) else s, ok, text)
  }

  function CloseItems(s: State, ok: Writer): State {
    FinishReasoning(FinishText(s, ok), ok)
  }

  function PutItem(s: State, ok: Writer, item: OutputItem): State {
    var s' := EmitAll(s.(nextIndex := s.nextIndex + 1), ok,
                      [ItemAdded(s.nextIndex, InProgress(item)), ItemDone(s.nextIndex, item)]);
    s'.(output := s'.output + [item])
  }

  function Add(s: State, ok: Writer, payload: string): State {
    PutItem(CloseItems(s, ok), ok, Finished(payload, true))
  }

  function EndWith(s: State, ok: Writer, body: Body): State {
    Close(Emit(s, ok, body))
  }

  function Complete(s: State, ok: Writer, usage: Usage): State {
    if s.closed then s
    else var s' := CloseItems(s, ok); EndWith(s', ok, Completed(s'.output, usage))
  }

  function Fail(s: State, ok: Writer, code: string): State {
    if s.closed then s
    else var s' := CloseItems(s, ok); EndWith(s', ok, Failed(s'.output, code))
  }

  /** What the session may ask of a stream. New ids are drawn outside. */
  datatype Call =
    | CallStartReasoning(id: string)
    | CallReasoningDelta(text: string, id: string)
    | CallFinishReasoning
    | CallNote(text: string, id: string)
    | CallDelta(text: string, id: string)
    | CallAdd(payload: string)
    | CallComplete(usage: Usage)
    | CallFail(code: string)
    | CallAbandon

  function Step(s: State, ok: Writer, call: Call): State {
    match call
    case CallStartReasoning(id) => StartReasoning(s, ok, id)
    case CallReasoningDelta(text, id) => ReasoningDelta(s, ok, text, id)
    case CallFinishReasoning => FinishReasoning(s, ok)
    case CallNote(text, id) => Note(s, ok, text, id)
    case CallDelta(text, id) => TextDelta(s, ok, text, id)
    case CallAdd(payload) => Add(s, ok, payload)
    case CallComplete(usage) => Complete(s, ok, usage)
    case CallFail(code) => Fail(s, ok, code)
    case CallAbandon => Close(s)
  }

  /** A stream after any list of calls. */
  function Run(ok: Writer, calls: seq<Call>): State {
    if calls == [] then New(ok) else Step(Run(ok, calls[..|calls| - 1]), ok, calls[|calls| - 1])
  }

  // ----- the reader

  /** What Codex rebuilds from the events: finished items, the item being
      written, and whether the reply has ended. */
  datatype Reader = Reader(items: seq<OutputItem>, open: Option<Partial>, ended: bool)

  datatype Partial = Partial(index: nat, announced: OutputItem, text: string)

  predicate Whole(p: Partial, item: OutputItem) {
    InProgress(item) == p.announced &&
    match item
    case Message(_, completed, content) => completed && content == [p.text]
    case Reasoning(_, summary) => summary == if p.text == "" then [] else [p.text]
    case Finished(_, _) => p.text == ""
  }

  predicate Addresses(p: Partial, id: string, index: nat) {
    !p.announced.Finished? && p.announced.id == id && p.index == index
  }

  /** One event, accepted only where the protocol allows it. */
  function ReadBody(r: Reader, b: Body): Option<Reader> {
    if r.ended then None
    else match b
      case Created => None
      case ItemAdded(i, item) =>
        if r.open == None && i == |r.items| then Some(r.(open := Some(Partial(i, item, "")))) else None
      case PartAdded(id, i) =>
        if r.open.Some? && Addresses(r.open.value, id, i) then Some(r) else None
      case Delta(id, i, text) =>
        if r.open.Some? && Addresses(r.open.value, id, i)
        then Some(r.(open := Some(r.open.value.(text := r.open.value.text + text)))) else None
      case TextDone(id, i, text) =>
        if r.open.Some? && Addresses(r.open.value, id, i) && text == r.open.value.text then Some(r) else None
      case PartDone(id, i, text) =>
        if r.open.Some? && Addresses(r.open.value, id, i) && text == r.open.value.text then Some(r) else None
      case ItemDone(i, item) =>
        if r.open.Some? && r.open.value.index == i && Whole(r.open.value, item)
        then Some(Reader(r.items + [item], None, false)) else None
      case Completed(output, _) =>
        if r.open == None && output == r.items then Some(r.(ended := true)) else None
      case Failed(output, _) =>
        if r.open == None && output == r.items then Some(r.(ended := true)) else None
  }

  /** Reads events that must be numbered 1, 2, 3, ... and start with created. */
  function Read(events: seq<Event>): Option<Reader> {
    if events == [] then None
    else
      var before, last := events[..|events| - 1], events[|events| - 1];
      if last.number != |events| then None
      else if before == [] then if last.body == Created then Some(Reader([], None, false)) else None
      else match Read(before)
        case None => None
        case Some(r) => ReadBody(r, last.body)
  }

  function ReadBodies(r: Reader, bodies: seq<Body>): Option<Reader>
    decreases |bodies|
  {
    if bodies == [] then Some(r)
    else match ReadBody(r, bodies[0])
      case None => None
      case Some(r') => ReadBodies(r', bodies[1..])
  }

  /** The item the stream has open, as a reader should have it. */
  function OpenPart(s: State): Option<Partial> {
    if s.text.Some? then Some(Partial(s.text.value.index, Message(s.text.value.id, false, []), s.text.value.value))
    else if s.reasoning.Some? then
      Some(Partial(s.reasoning.value.index, Reasoning(s.reasoning.value.id, []), s.reasoning.value.value))
    else None
  }

  /** The stream's own bookkeeping agrees with itself. */
  predicate Sound(s: State) {
    && !(s.text.Some? && s.reasoning.Some?)
    && s.nextIndex == |s.output| + (if OpenPart(s).Some? then 1 else 0)
    && (OpenPart(s).Some? ==> OpenPart(s).value.index == |s.output|)
    && s.number == |s.written| + (if s.broken then 1 else 0)
    && (s.broken ==> s.closed)
    && s.finishes == (if s.closed then 1 else 0)
  }

  /** Codex can read everything written and, while the stream is open, has
      rebuilt exactly its output and its open item. */
  predicate Faithful(s: State) {
    && (s.written == [] ==> s.broken)
    && (s.written != [] ==> Read(s.written).Some?)
    && (!s.closed ==> Read(s.written) == Some(Reader(s.output, OpenPart(s), false)))
  }

  predicate Good(s: State) {
    Sound(s) && Faithful(s)
  }

  // ----- what one write does

  lemma ReadOneMore(events: seq<Event>, e: Event)
    requires Read(events).Some? && e.number == |events| + 1
    ensures Read(events + [e]) == ReadBody(Read(events).value, e.body)
  {
    assert (events + [e])[..|events|] == events;
  }

  /** How a state changes while it only writes: everything but the log stays,
      until a write fails. */
  predicate WroteOn(s: State, s': State) {
    && s' == s.(number := s'.number, closed := s'.closed, broken := s'.broken, finishes := s'.finishes, written := s'.written)
    && s.written <= s'.written
    && (s.closed ==> s' == s)
    && (s'.closed && !s.closed ==> s'.broken && s'.finishes == s.finishes + 1)
    && (!s'.closed ==> s'.broken == s.broken && s'.finishes == s.finishes)
    && s'.number - |s'.written| == s.number - |s.written| + (if s'.closed && !s.closed then 1 else 0)
  }

  lemma {:induction false} EmitsWrite(s: State, ok: Writer, bodies: seq<Body>)
    ensures WroteOn(s, EmitAll(s, ok, bodies))
    decreases |bodies|
  {
    if bodies != [] {
      EmitsWrite(Emit(s, ok, bodies[0]), ok, bodies[1..]);
    }
  }

  /** Events a reader would accept are accepted as far as they get. */
  lemma {:induction false} EmitsRead(s: State, ok: Writer, bodies: seq<Body>, r: Reader)
    requires !s.closed && !s.broken && s.number == |s.written|
    requires Read(s.written) == Some(r) && ReadBodies(r, bodies).Some?
    ensures var s' := EmitAll(s, ok, bodies);
            && Read(s'.written).Some?
            && (!s'.closed ==> Read(s'.written) == ReadBodies(r, bodies))
    decreases |bodies|
  {
    if bodies != [] {
      var s1 := Emit(s, ok, bodies[0]);
      if ok(s.number + 1) {
        ReadOneMore(s.written, Event(s.number + 1, bodies[0]));
        EmitsRead(s1, ok, bodies[1..], ReadBody(r, bodies[0]).value);
      } else {
        EmitsWrite(s1, ok, bodies[1..]);
      }
    }
  }

  /** Writing keeps a good state good, whatever fails: the reader accepts what
      got through and, if all did, is where it should be. */
  lemma EmitsGood(s: State, ok: Writer, bodies: seq<Body>, r: Reader)
    requires s.finishes == (if s.closed then 1 else 0) && (s.broken ==> s.closed)
    requires s.number == |s.written| + (if s.broken then 1 else 0)
    requires (s.written == [] ==> s.broken) && (s.written != [] ==> Read(s.written).Some?)
    requires !s.closed ==> Read(s.written) == Some(r) && ReadBodies(r, bodies).Some?
    ensures var s' := EmitAll(s, ok, bodies);
            && WroteOn(s, s')
            && s'.finishes == (if s'.closed then 1 else 0) && (s'.broken ==> s'.closed)
            && s'.number == |s'.written| + (if s'.broken then 1 else 0)
            && (s'.written == [] ==> s'.broken) && (s'.written != [] ==> Read(s'.written).Some?)
            && (!s'.closed ==> Read(s'.written) == ReadBodies(r, bodies))
  {
    EmitsWrite(s, ok, bodies);
    if !s.closed {
      EmitsRead(s, ok, bodies, r);
    }
  }

  // ----- every call keeps a good state good

  lemma ClosesItem(r: Reader, open: OpenItem, item: OutputItem)
    requires !r.ended && !item.Finished? && item.id == open.id
    requires r.open == Some(Partial(open.index, InProgress(item), open.value))
    requires Whole(r.open.value, item)
    ensures ReadBodies(r, DoneEvents(open, item)) == Some(Reader(r.items + [item], None, false))
  {
    var bodies := DoneEvents(open, item);
    assert ReadBodies(r, bodies[1..][1..]) == Some(Reader(r.items + [item], None, false)) by {
      assert bodies[1..][1..] == [ItemDone(open.index, item)];
    }
  }

  lemma FinishTextGood(s: State, ok: Writer)
    requires Good(s)
    ensures Good(FinishText(s, ok)) && FinishText(s, ok).text == None && FinishText(s, ok).reasoning == s.reasoning
  {
    if s.text.Some? {
      var t := s.text.value;
      var r := Reader(s.output, OpenPart(s), false);
      ClosesItem(r, t, MessageOf(t));
      EmitsGood(s.(text := None), ok, DoneEvents(t, MessageOf(t)), r);
    }
  }

  lemma FinishReasoningGood(s: State, ok: Writer)
    requires Good(s)
    ensures Good(FinishReasoning(s, ok)) && FinishReasoning(s, ok).reasoning == None && FinishReasoning(s, ok).text == s.text
  {
    if s.reasoning.Some? {
      var t := s.reasoning.value;
      var r := Reader(s.output, OpenPart(s), false);
      ClosesItem(r, t, ReasoningOf(t));
      EmitsGood(s.(reasoning := None), ok, DoneEvents(t, ReasoningOf(t)), r);
    }
  }

  lemma ReadTwo(r: Reader, r': Reader, a: Body, b: Body)
    requires ReadBody(r, a) == Some(r')
    ensures ReadBodies(r, [a, b]) == ReadBody(r', b)
  {
    assert [a, b][1..] == [b] && [b][1..] == [];
    if ReadBody(r', b).Some? {
      assert ReadBodies(ReadBody(r', b).value, []) == ReadBody(r', b);
    }
  }

  lemma OpensItem(r: Reader, item: OutputItem)
    requires !r.ended && r.open == None && !item.Finished?
    ensures ReadBodies(r, AddedEvents(|r.items|, item)) == Some(r.(open := Some(Partial(|r.items|, InProgress(item), ""))))
  {
    var r' := r.(open := Some(Partial(|r.items|, InProgress(item), "")));
    ReadTwo(r, r', ItemAdded(|r.items|, InProgress(item)), PartAdded(item.id, |r.items|));
  }

  lemma OpenReasoningGood(s: State, ok: Writer, id: string)
    requires Good(s) && OpenPart(s) == None
    ensures Good(OpenReasoning(s, ok, id))
  {
    var r := Reader(s.output, None, false);
    OpensItem(r, Reasoning(id, []));
    EmitsGood(s.(reasoning := Some(OpenItem(id, s.nextIndex, "")), nextIndex := s.nextIndex + 1), ok,
              AddedEvents(s.nextIndex, Reasoning(id, [])), r);
  }

  lemma OpenTextGood(s: State, ok: Writer, id: string)
    requires Good(s) && OpenPart(s) == None
    ensures Good(OpenText(s, ok, id))
  {
    var r := Reader(s.output, None, false);
    OpensItem(r, Message(id, false, []));
    EmitsGood(s.(text := Some(OpenItem(id, s.nextIndex, "")), nextIndex := s.nextIndex + 1), ok,
              AddedEvents(s.nextIndex, Message(id, false, [])), r);
  }

  lemma EmitOne(s: State, ok: Writer, body: Body)
    ensures EmitAll(s, ok, [body]) == Emit(s, ok, body)
  {
  }

  lemma AppendGood(s: State, ok: Writer, text: string)
    requires Good(s)
    ensures Good(AppendReasoning(s, ok, text)) && Good(AppendText(s, ok, text))
  {
    var r := Reader(s.output, OpenPart(s), false);
    if s.reasoning.Some? {
      var t := s.reasoning.value;
      EmitOne(s.(reasoning := Some(t.(value := t.value + text))), ok, Delta(t.id, t.index, text));
      EmitsGood(s.(reasoning := Some(t.(value := t.value + text))), ok, [Delta(t.id, t.index, text)], r);
    }
    if s.text.Some? {
      var t := s.text.value;
      EmitOne(s.(text := Some(t.(value := t.value + text))), ok, Delta(t.id, t.index, text));
      EmitsGood(s.(text := Some(t.(value := t.value + text))), ok, [Delta(t.id, t.index, text)], r);
    }
  }

  lemma PutItemGood(s: State, ok: Writer, payload: string)
    requires Good(s) && OpenPart(s) == None
    ensures Good(PutItem(s, ok, Finished(payload, true)))
  {
    var item := Finished(payload, true);
    var r := Reader(s.output, None, false);
    var bodies := [ItemAdded(s.nextIndex, InProgress(item)), ItemDone(s.nextIndex, item)];
    var r' := r.(open := Some(Partial(s.nextIndex, InProgress(item), "")));
    ReadTwo(r, r', ItemAdded(s.nextIndex, InProgress(item)), ItemDone(s.nextIndex, item));
    EmitsGood(s.(nextIndex := s.nextIndex + 1), ok, bodies, r);
  }

  lemma EndGood(s: State, ok: Writer, body: Body)
    requires Good(s) && OpenPart(s) == None && !s.closed
    requires (body.Completed? || body.Failed?) && body.output == s.output
    ensures Good(EndWith(s, ok, body)) && EndWith(s, ok, body).closed
  {
    EmitOne(s, ok, body);
    EmitsGood(s, ok, [body], Reader(s.output, None, false));
  }

  lemma StartReasoningGood(s: State, ok: Writer, id: string)
    requires Good(s)
    ensures Good(StartReasoning(s, ok, id))
  {
    if s.reasoning == None {
      FinishTextGood(s, ok);
      OpenReasoningGood(FinishText(s, ok), ok, id);
    }
  }

  lemma ReasoningDeltaGood(s: State, ok: Writer, text: string, id: string)
    requires Good(s)
    ensures Good(ReasoningDelta(s, ok, text, id))
  {
    StartReasoningGood(s, ok, id);
    AppendGood(StartReasoning(s, ok, id), ok, text);
  }

  lemma CloseItemsGood(s: State, ok: Writer)
    requires Good(s)
    ensures Good(CloseItems(s, ok)) && OpenPart(CloseItems(s, ok)) == None
  {
    FinishTextGood(s, ok);
    FinishReasoningGood(FinishText(s, ok), ok);
  }

  lemma StepGood(s: State, ok: Writer, call: Call)
    requires Good(s)
    ensures Good(Step(s, ok, call))
  {
    match call
    case CallStartReasoning(id) => StartReasoningGood(s, ok, id);
    case CallReasoningDelta(text, id) => ReasoningDeltaGood(s, ok, text, id);
    case CallFinishReasoning => FinishReasoningGood(s, ok);
    case CallNote(text, id) =>
      FinishReasoningGood(s, ok);
      ReasoningDeltaGood(FinishReasoning(s, ok), ok, text, id);
      FinishReasoningGood(ReasoningDelta(FinishReasoning(s, ok), ok, text, id), ok);
    case CallDelta(text, id) =>
      FinishReasoningGood(s, ok);
      if s.text == None {
        OpenTextGood(FinishReasoning(s, ok), ok, id);
        AppendGood(OpenText(FinishReasoning(s, ok), ok, id), ok, text);
      } else {
        AppendGood(s, ok, text);
      }
    case CallAdd(payload) =>
      CloseItemsGood(s, ok);
      PutItemGood(CloseItems(s, ok), ok, payload);
    case CallComplete(usage) =>
      CloseItemsGood(s, ok);
      if !CloseItems(s, ok).closed {
        EndGood(CloseItems(s, ok), ok, Completed(CloseItems(s, ok).output, usage));
      }
    case CallFail(code) =>
      CloseItemsGood(s, ok);
      if !CloseItems(s, ok).closed {
        EndGood(CloseItems(s, ok), ok, Failed(CloseItems(s, ok).output, code));
      }
    case CallAbandon =>
  }

  lemma ReadCreated(events: seq<Event>)
    requires events == [Event(1, Created)]
    ensures Read(events) == Some(Reader([], None, false))
  {
    assert events[..0] == [];
  }

  lemma NewGood(ok: Writer)
    ensures Good(New(ok))
  {
    ReadCreated([Event(1, Created)]);
    assert [] + [Event(1, Created)] == [Event(1, Created)];
  }

  /** After any calls, over any connection: everything written reads back in
      order, numbered from 1; while the stream is open the reader has exactly
      its output and its open item; the next index counts both; and the
      finished channel has been closed once if the stream is closed, else never. */
  lemma {:induction false} RunGood(ok: Writer, calls: seq<Call>)
    ensures Good(Run(ok, calls))
  {
    if calls == [] {
      NewGood(ok);
    } else {
      RunGood(ok, calls[..|calls| - 1]);
      StepGood(Run(ok, calls[..|calls| - 1]), ok, calls[|calls| - 1]);
    }
  }

  // ----- failed writes

  /** A run over a failing connection beside one over a perfect connection:
      the same until a write fails, and then behind it for good. */
  predicate Behind(s: State, full: State) {
    if s.broken then s.closed && s.written <= full.written else s == full
  }

  const ALWAYS: Writer := n => true

  lemma {:induction false} EmitsBehind(s: State, full: State, ok: Writer, bodies: seq<Body>)
    requires Behind(s, full)
    ensures Behind(EmitAll(s, ok, bodies), EmitAll(full, ALWAYS, bodies))
    decreases |bodies|
  {
    if s.broken {
      EmitsWrite(s, ok, bodies);
      EmitsWrite(full, ALWAYS, bodies);
    } else if bodies != [] {
      EmitsBehind(Emit(s, ok, bodies[0]), Emit(full, ALWAYS, bodies[0]), ok, bodies[1..]);
    }
  }

  /** Writing only ever adds events, and a closed stream writes none. */
  predicate Grows(s: State, s': State) {
    && s.written <= s'.written
    && (s.closed ==> s'.closed && s'.written == s.written && s'.broken == s.broken)
  }

  lemma EmitsGrow(s: State, ok: Writer, bodies: seq<Body>)
    ensures Grows(s, EmitAll(s, ok, bodies))
  {
    EmitsWrite(s, ok, bodies);
  }

  lemma CloseItemGrows(s: State, ok: Writer, open: OpenItem, item: OutputItem)
    ensures Grows(s, CloseItem(s, ok, open, item))
  {
    EmitsGrow(s, ok, DoneEvents(open, item));
  }

  lemma FinishesGrow(s: State, ok: Writer)
    ensures Grows(s, FinishText(s, ok)) && Grows(s, FinishReasoning(s, ok)) && Grows(s, CloseItems(s, ok))
  {
    FinishTextGrows(s, ok);
    FinishReasoningGrows(s, ok);
    FinishReasoningGrows(FinishText(s, ok), ok);
  }

  lemma FinishTextGrows(s: State, ok: Writer)
    ensures Grows(s, FinishText(s, ok))
  {
    if s.text.Some? {
      CloseItemGrows(s.(text := None), ok, s.text.value, MessageOf(s.text.value));
    }
  }

  lemma FinishReasoningGrows(s: State, ok: Writer)
    ensures Grows(s, FinishReasoning(s, ok))
  {
    if s.reasoning.Some? {
      CloseItemGrows(s.(reasoning := None), ok, s.reasoning.value, ReasoningOf(s.reasoning.value));
    }
  }

  lemma OpensGrow(s: State, ok: Writer, id: string)
    ensures Grows(s, OpenReasoning(s, ok, id)) && Grows(s, OpenText(s, ok, id))
  {
    EmitsGrow(s.(reasoning := Some(OpenItem(id, s.nextIndex, "")), nextIndex := s.nextIndex + 1), ok,
              AddedEvents(s.nextIndex, Reasoning(id, [])));
    EmitsGrow(s.(text := Some(OpenItem(id, s.nextIndex, "")), nextIndex := s.nextIndex + 1), ok,
              AddedEvents(s.nextIndex, Message(id, false, [])));
  }

  lemma ReasoningDeltaGrows(s: State, ok: Writer, text: string, id: string)
    ensures Grows(s, StartReasoning(s, ok, id)) && Grows(s, ReasoningDelta(s, ok, text, id))
  {
    FinishTextGrows(s, ok);
    OpensGrow(FinishText(s, ok), ok, id);
  }

  lemma PutItemGrows(s: State, ok: Writer, item: OutputItem)
    ensures Grows(s, PutItem(s, ok, item))
  {
    EmitsGrow(s.(nextIndex := s.nextIndex + 1), ok,
              [ItemAdded(s.nextIndex, InProgress(item)), ItemDone(s.nextIndex, item)]);
  }

  lemma TextDeltaGrows(s: State, ok: Writer, text: string, id: string)
    ensures Grows(s, TextDelta(s, ok, text, id))
  {
    FinishReasoningGrows(s, ok);
    OpensGrow(FinishReasoning(s, ok), ok, id);
  }

  lemma EndsGrow(s: State, ok: Writer, usage: Usage, code: string)
    ensures Grows(s, Complete(s, ok, usage)) && Grows(s, Fail(s, ok, code))
  {
    FinishesGrow(s, ok);
  }

  lemma FinishTextBehind(s: State, full: State, ok: Writer)
    requires Behind(s, full)
    ensures Behind(FinishText(s, ok), FinishText(full, ALWAYS))
  {
    FinishTextGrows(s, ok);
    FinishTextGrows(full, ALWAYS);
    if !s.broken && s.text.Some? {
      EmitsBehind(s.(text := None), s.(text := None), ok, DoneEvents(s.text.value, MessageOf(s.text.value)));
    }
  }

  lemma FinishReasoningBehind(s: State, full: State, ok: Writer)
    requires Behind(s, full)
    ensures Behind(FinishReasoning(s, ok), FinishReasoning(full, ALWAYS))
  {
    FinishReasoningGrows(s, ok);
    FinishReasoningGrows(full, ALWAYS);
    if !s.broken && s.reasoning.Some? {
      EmitsBehind(s.(reasoning := None), s.(reasoning := None), ok,
                  DoneEvents(s.reasoning.value, ReasoningOf(s.reasoning.value)));
    }
  }

  lemma OpensBehind(s: State, full: State, ok: Writer, id: string)
    requires Behind(s, full)
    ensures Behind(OpenReasoning(s, ok, id), OpenReasoning(full, ALWAYS, id))
    ensures Behind(OpenText(s, ok, id), OpenText(full, ALWAYS, id))
  {
    OpensGrow(s, ok, id);
    OpensGrow(full, ALWAYS, id);
    if !s.broken {
      var r := s.(reasoning := Some(OpenItem(id, s.nextIndex, "")), nextIndex := s.nextIndex + 1);
      var t := s.(text := Some(OpenItem(id, s.nextIndex, "")), nextIndex := s.nextIndex + 1);
      EmitsBehind(r, r, ok, AddedEvents(s.nextIndex, Reasoning(id, [])));
      EmitsBehind(t, t, ok, AddedEvents(s.nextIndex, Message(id, false, [])));
    }
  }

  lemma CloseItemsBehind(s: State, full: State, ok: Writer)
    requires Behind(s, full)
    ensures Behind(CloseItems(s, ok), CloseItems(full, ALWAYS))
  {
    FinishTextBehind(s, full, ok);
    FinishReasoningBehind(FinishText(s, ok), FinishText(full, ALWAYS), ok);
  }

  lemma StartReasoningBehind(s: State, full: State, ok: Writer, id: string)
    requires Behind(s, full)
    ensures Behind(StartReasoning(s, ok, id), StartReasoning(full, ALWAYS, id))
  {
    ReasoningDeltaGrows(s, ok, "", id);
    ReasoningDeltaGrows(full, ALWAYS, "", id);
    if !s.broken {
      FinishTextBehind(s, full, ok);
      OpensBehind(FinishText(s, ok), FinishText(full, ALWAYS), ok, id);
    }
  }

  lemma PutItemBehind(s: State, full: State, ok: Writer, item: OutputItem)
    requires Behind(s, full)
    ensures Behind(PutItem(s, ok, item), PutItem(full, ALWAYS, item))
  {
    PutItemGrows(s, ok, item);
    PutItemGrows(full, ALWAYS, item);
    if !s.broken {
      EmitsBehind(s.(nextIndex := s.nextIndex + 1), s.(nextIndex := s.nextIndex + 1), ok,
                  [ItemAdded(s.nextIndex, InProgress(item)), ItemDone(s.nextIndex, item)]);
    }
  }

  lemma ReasoningDeltaBehind(s: State, full: State, ok: Writer, text: string, id: string)
    requires Behind(s, full)
    ensures Behind(ReasoningDelta(s, ok, text, id), ReasoningDelta(full, ALWAYS, text, id))
  {
    ReasoningDeltaGrows(s, ok, text, id);
    ReasoningDeltaGrows(full, ALWAYS, text, id);
    StartReasoningBehind(s, full, ok, id);
  }

  lemma TextDeltaBehind(s: State, full: State, ok: Writer, text: string, id: string)
    requires Behind(s, full)
    ensures Behind(TextDelta(s, ok, text, id), TextDelta(full, ALWAYS, text, id))
  {
    TextDeltaGrows(s, ok, text, id);
    TextDeltaGrows(full, ALWAYS, text, id);
    FinishReasoningBehind(s, full, ok);
    OpensBehind(FinishReasoning(s, ok), FinishReasoning(full, ALWAYS), ok, id);
  }

  lemma NoteBehind(s: State, full: State, ok: Writer, text: string, id: string)
    requires Behind(s, full)
    ensures Behind(Note(s, ok, text, id), Note(full, ALWAYS, text, id))
  {
    FinishReasoningBehind(s, full, ok);
    var s1, full1 := FinishReasoning(s, ok), FinishReasoning(full, ALWAYS);
    ReasoningDeltaBehind(s1, full1, ok, text, id);
    FinishReasoningBehind(ReasoningDelta(s1, ok, text, id), ReasoningDelta(full1, ALWAYS, text, id), ok);
  }

  lemma EndsBehind(s: State, full: State, ok: Writer, usage: Usage, code: string)
    requires Behind(s, full)
    ensures Behind(Complete(s, ok, usage), Complete(full, ALWAYS, usage))
    ensures Behind(Fail(s, ok, code), Fail(full, ALWAYS, code))
  {
    EndsGrow(s, ok, usage, code);
    EndsGrow(full, ALWAYS, usage, code);
    CloseItemsBehind(s, full, ok);
  }

  lemma StepBehind(s: State, full: State, ok: Writer, call: Call)
    requires Behind(s, full)
    ensures Behind(Step(s, ok, call), Step(full, ALWAYS, call))
  {
    match call
    case CallStartReasoning(id) => StartReasoningBehind(s, full, ok, id);
    case CallReasoningDelta(text, id) => ReasoningDeltaBehind(s, full, ok, text, id);
    case CallFinishReasoning => FinishReasoningBehind(s, full, ok);
    case CallNote(text, id) => NoteBehind(s, full, ok, text, id);
    case CallDelta(text, id) => TextDeltaBehind(s, full, ok, text, id);
    case CallAdd(payload) =>
      CloseItemsBehind(s, full, ok);
      PutItemBehind(CloseItems(s, ok), CloseItems(full, ALWAYS), ok, Finished(payload, true));
    case CallComplete(usage) => EndsBehind(s, full, ok, usage, "");
    case CallFail(code) => EndsBehind(s, full, ok, Usage(0, 0, 0), code);
    case CallAbandon =>
  }

  lemma {:induction false} RunBehind(ok: Writer, calls: seq<Call>)
    ensures Behind(Run(ok, calls), Run(ALWAYS, calls))
  {
    if calls != [] {
      var earlier, last := calls[..|calls| - 1], calls[|calls| - 1];
      RunBehind(ok, earlier);
      StepBehind(Run(ok, earlier), Run(ALWAYS, earlier), ok, last);
    }
  }

  /** At most one event ends a reply, and it is the last. */
  lemma {:induction false} NothingAfterEnd(events: seq<Event>, k: nat)
    requires Read(events).Some? && k < |events| && (events[k].body.Completed? || events[k].body.Failed?)
    ensures k == |events| - 1
  {
    if k < |events| - 1 {
      var before := events[..|events| - 1];
      NothingAfterEnd(before, k);
    }
  }

  lemma {:induction false} ReadNumbered(events: seq<Event>, k: nat)
    requires Read(events).Some? && k < |events|
    ensures events[k].number == k + 1 && (events[k].body == Created <==> k == 0)
  {
    if k < |events| - 1 {
      ReadNumbered(events[..|events| - 1], k);
    }
  }

  /** Whatever fails when, the events that reach Codex are the first ones of the
      run in which nothing fails, numbered 1, 2, 3, ... from the one
      response.created, with at most one terminal event and nothing after it;
      when nothing failed they are all of them. */
  lemma FailureCutsShort(ok: Writer, calls: seq<Call>)
    ensures var s := Run(ok, calls); var full := Run(ALWAYS, calls);
            && s.written <= full.written && (!s.broken ==> s == full)
            && s.finishes <= 1
            && (forall k :: 0 <= k < |s.written| ==>
                 s.written[k].number == k + 1 && (s.written[k].body == Created <==> k == 0))
            && (forall k :: 0 <= k < |s.written| && (s.written[k].body.Completed? || s.written[k].body.Failed?) ==>
                 k == |s.written| - 1)
  {
    var s := Run(ok, calls);
    RunBehind(ok, calls);
    RunGood(ok, calls);
    forall k | 0 <= k < |s.written|
      ensures s.written[k].number == k + 1 && (s.written[k].body == Created <==> k == 0)
      ensures s.written[k].body.Completed? || s.written[k].body.Failed? ==> k == |s.written| - 1
    {
      ReadNumbered(s.written, k);
      if s.written[k].body.Completed? || s.written[k].body.Failed? {
        NothingAfterEnd(s.written, k);
      }
    }
  }

  /** The last event was read by what the others left. */
  lemma LastRead(events: seq<Event>, before: seq<Event>, last: Event) returns (r: Reader)
    requires events == before + [last] && before != [] && Read(events).Some?
    ensures Read(before) == Some(r) && ReadBody(r, last.body).Some?
  {
    assert events[..|events| - 1] == before;
    r := Read(before).value;
  }

  lemma FirstRead(events: seq<Event>, last: Event)
    requires events == [last] && Read(events).Some?
    ensures last.body == Created
  {
    assert events[..0] == [];
  }

  lemma CompletedBody(r: Reader, b: Body)
    requires b.Completed? && ReadBody(r, b).Some?
    ensures b.output == r.items && r.open == None
  {
  }

  lemma CompletedRead(events: seq<Event>, before: seq<Event>, last: Event) returns (r: Reader)
    requires events == before + [last] && Read(events).Some? && last.body.Completed?
    ensures Read(before) == Some(r) && last.body.output == r.items && r.open == None
  {
    if before == [] {
      FirstRead(events, last);
    } else {
      r := LastRead(events, before, last);
      CompletedBody(r, last.body);
    }
  }

  /** A written response.completed lists exactly the items done before it, in
      index order. */
  lemma CompletedListsItems(ok: Writer, calls: seq<Call>)
    ensures var written := Run(ok, calls).written;
            written != [] && written[|written| - 1].body.Completed? ==>
              && Read(written[..|written| - 1]).Some?
              && written[|written| - 1].body.output == Read(written[..|written| - 1]).value.items
              && Read(written[..|written| - 1]).value.open == None
  {
    RunGood(ok, calls);
    var written := Run(ok, calls).written;
    if written != [] && written[|written| - 1].body.Completed? {
      var r := CompletedRead(written, written[..|written| - 1], written[|written| - 1]);
    }
  }
}
