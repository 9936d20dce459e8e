/** What a reply says, from the calls alone: every text the session asks for is in it,
    once and in order, in items that begin and end where the calls make them, and it
    ends the way the first ending call says. */
module ReplyScript {
  import opened Options
  import opened ReplyStream

  // ----- what is said

  /** One character of an answer or of reasoning, or a finished item. */
  datatype Said = SaidText(c: char) | SaidReason(c: char) | SaidItem(payload: string)

  function Text(s: string): (r: seq<Said>)
    ensures |r| == |s|
  {
    seq(|s|, k requires 0 <= k < |s| => SaidText(s[k]))
  }

  function Reason(s: string): (r: seq<Said>)
    ensures |r| == |s|
  {
    seq(|s|, k requires 0 <= k < |s| => SaidReason(s[k]))
  }

  function CallSays(call: Call): seq<Said> {
    match call
    case CallDelta(text, _) => Text(text)
    case CallReasoningDelta(text, _) => Reason(text)
    case CallNote(text, _) => Reason(text)
    case CallAdd(payload) => [SaidItem(payload)]
    case _ => []
  }

  /** All that the calls ask to say, in order. */
  function Script(calls: seq<Call>): seq<Said> {
    if calls == [] then [] else Script(calls[..|calls| - 1]) + CallSays(calls[|calls| - 1])
  }

  function PiecesSay(say: string -> seq<Said>, pieces: seq<string>): seq<Said> {
    if pieces == [] then [] else PiecesSay(say, pieces[..|pieces| - 1]) + say(pieces[|pieces| - 1])
  }

  function ItemSays(item: OutputItem): seq<Said> {
    match item
    case Message(_, _, content) => PiecesSay(Text, content)
    case Reasoning(_, summary) => PiecesSay(Reason, summary)
    case Finished(payload, _) => [SaidItem(payload)]
  }

  function OutputSays(items: seq<OutputItem>): seq<Said> {
    if items == [] then [] else OutputSays(items[..|items| - 1]) + ItemSays(items[|items| - 1])
  }

  function OpenSays(text: Option<OpenItem>, reasoning: Option<OpenItem>): seq<Said> {
    if text.Some? then Text(text.value.value) else if reasoning.Some? then Reason(reasoning.value.value) else []
  }

  /** What the finished items say, and then the open one. */
  function StateSays(s: State): seq<Said> {
    OutputSays(s.output) + OpenSays(s.text, s.reasoning)
  }

  predicate OneOpen(s: State) {
    !(s.text.Some? && s.reasoning.Some?)
  }

  // ----- what each part of a call adds

  lemma TextMore(x: string, y: string)
    ensures Text(x + y) == Text(x) + Text(y) && Reason(x + y) == Reason(x) + Reason(y)
    ensures Text("") == [] && Reason("") == []
  {
  }

  lemma OneItemMore(items: seq<OutputItem>, item: OutputItem)
    ensures OutputSays(items + [item]) == OutputSays(items) + ItemSays(item)
  {
    assert (items + [item])[..|items|] == items;
  }

  lemma OpenItemSays(open: OpenItem)
    ensures ItemSays(MessageOf(open)) == Text(open.value) && ItemSays(ReasoningOf(open)) == Reason(open.value)
  {
    OnePiece(Text, open.value);
    OnePiece(Reason, open.value);
    TextMore("", "");
  }

  lemma OnePiece(say: string -> seq<Said>, text: string)
    ensures PiecesSay(say, [text]) == say(text) && PiecesSay(say, []) == []
  {
    assert [text][..0] == [];
  }

  /** The items and no more, whatever was written. */
  predicate SameItems(s: State, s': State) {
    s'.output == s.output && s'.text == s.text && s'.reasoning == s.reasoning && s'.nextIndex == s.nextIndex
  }

  lemma WritesKeep(s: State, ok: Writer, bodies: seq<Body>)
    ensures SameItems(s, EmitAll(s, ok, bodies))
  {
    EmitsWrite(s, ok, bodies);
  }

  lemma CloseItemItems(s: State, ok: Writer, open: OpenItem, item: OutputItem)
    ensures var s' := CloseItem(s, ok, open, item);
            s'.output == s.output + [item] && s'.text == s.text && s'.reasoning == s.reasoning && s'.nextIndex == s.nextIndex
  {
    WritesKeep(s, ok, DoneEvents(open, item));
  }

  lemma FinishTextItems(s: State, ok: Writer)
    ensures var s' := FinishText(s, ok);
            && s'.output == s.output + (if s.text.Some? then [MessageOf(s.text.value)] else [])
            && s'.text == None && s'.reasoning == s.reasoning && s'.nextIndex == s.nextIndex
  {
    if s.text.Some? {
      CloseItemItems(s.(text := None), ok, s.text.value, MessageOf(s.text.value));
    }
  }

  lemma FinishReasoningItems(s: State, ok: Writer)
    ensures var s' := FinishReasoning(s, ok);
            && s'.output == s.output + (if s.reasoning.Some? then [ReasoningOf(s.reasoning.value)] else [])
            && s'.reasoning == None && s'.text == s.text && s'.nextIndex == s.nextIndex
  {
    if s.reasoning.Some? {
      CloseItemItems(s.(reasoning := None), ok, s.reasoning.value, ReasoningOf(s.reasoning.value));
    }
  }

  lemma FinishSays(s: State, ok: Writer)
    requires OneOpen(s)
    ensures StateSays(FinishText(s, ok)) == StateSays(s) && OneOpen(FinishText(s, ok))
    ensures StateSays(FinishReasoning(s, ok)) == StateSays(s) && OneOpen(FinishReasoning(s, ok))
  {
    FinishTextItems(s, ok);
    FinishReasoningItems(s, ok);
    if s.text.Some? {
      OneItemMore(s.output, MessageOf(s.text.value));
      OpenItemSays(s.text.value);
    }
    if s.reasoning.Some? {
      OneItemMore(s.output, ReasoningOf(s.reasoning.value));
      OpenItemSays(s.reasoning.value);
    }
  }

  lemma OpenReasoningItems(s: State, ok: Writer, id: string)
    ensures var s' := OpenReasoning(s, ok, id);
            && s'.output == s.output && s'.text == s.text && s'.nextIndex == s.nextIndex + 1
            && s'.reasoning == Some(OpenItem(id, s.nextIndex, ""))
  {
    WritesKeep(s.(reasoning := Some(OpenItem(id, s.nextIndex, "")), nextIndex := s.nextIndex + 1), ok,
               AddedEvents(s.nextIndex, Reasoning(id, [])));
  }

  lemma OpenTextItems(s: State, ok: Writer, id: string)
    ensures var s' := OpenText(s, ok, id);
            && s'.output == s.output && s'.reasoning == s.reasoning && s'.nextIndex == s.nextIndex + 1
            && s'.text == Some(OpenItem(id, s.nextIndex, ""))
  {
    WritesKeep(s.(text := Some(OpenItem(id, s.nextIndex, "")), nextIndex := s.nextIndex + 1), ok,
               AddedEvents(s.nextIndex, Message(id, false, [])));
  }

  /** Reasoning is open, with what was said before it behind it. */
  lemma StartReasoningSays(s: State, ok: Writer, id: string)
    requires OneOpen(s)
    ensures var s' := StartReasoning(s, ok, id);
            && StateSays(s') == StateSays(s) && OneOpen(s') && s'.reasoning.Some? && s'.text == None
            && s'.reasoning.value.id == (if s.reasoning.Some? then s.reasoning.value.id else id)
            && s'.nextIndex == s.nextIndex + if s.reasoning.Some? then 0 else 1
  {
    if s.reasoning == None {
      FinishTextItems(s, ok);
      FinishSays(s, ok);
      OpenReasoningItems(FinishText(s, ok), ok, id);
      TextMore("", "");
    }
  }

  lemma AppendReasoningSays(s: State, ok: Writer, text: string)
    requires s.reasoning.Some? && s.text == None
    ensures var s' := AppendReasoning(s, ok, text);
            && StateSays(s') == StateSays(s) + Reason(text) && s'.text == None && s'.output == s.output
            && s'.reasoning == Some(s.reasoning.value.(value := s.reasoning.value.value + text)) && s'.nextIndex == s.nextIndex
  {
    TextMore(s.reasoning.value.value, text);
    Regroup(OutputSays(s.output), Reason(s.reasoning.value.value), Reason(text));
  }

  lemma Regroup(a: seq<Said>, b: seq<Said>, c: seq<Said>)
    ensures a + (b + c) == a + b + c
  {
  }

  lemma AppendTextSays(s: State, ok: Writer, text: string)
    requires s.text.Some? && s.reasoning == None
    ensures var s' := AppendText(s, ok, text);
            && StateSays(s') == StateSays(s) + Text(text) && s'.reasoning == None && s'.output == s.output
            && s'.text == Some(s.text.value.(value := s.text.value.value + text)) && s'.nextIndex == s.nextIndex
  {
    TextMore(s.text.value.value, text);
    Regroup(OutputSays(s.output), Text(s.text.value.value), Text(text));
  }

  lemma ReasoningDeltaSays(s: State, ok: Writer, text: string, id: string)
    requires OneOpen(s)
    ensures var s' := ReasoningDelta(s, ok, text, id); StateSays(s') == StateSays(s) + Reason(text) && OneOpen(s')
  {
    TextMore("", "");
    if text != "" {
      StartReasoningSays(s, ok, id);
      AppendReasoningSays(StartReasoning(s, ok, id), ok, text);
    }
  }

  lemma TextDeltaSays(s: State, ok: Writer, text: string, id: string)
    requires OneOpen(s)
    ensures var s' := TextDelta(s, ok, text, id); StateSays(s') == StateSays(s) + Text(text) && OneOpen(s')
  {
    TextMore("", "");
    if text != "" {
      if s.text == None {
        FinishSays(s, ok);
        FinishReasoningItems(s, ok);
        OpenTextItems(FinishReasoning(s, ok), ok, id);
        AppendTextSays(OpenText(FinishReasoning(s, ok), ok, id), ok, text);
      } else {
        AppendTextSays(s, ok, text);
      }
    }
  }

  lemma NoteSays(s: State, ok: Writer, text: string, id: string)
    requires OneOpen(s)
    ensures var s' := Note(s, ok, text, id); StateSays(s') == StateSays(s) + Reason(text) && OneOpen(s')
  {
    FinishSays(s, ok);
    ReasoningDeltaSays(FinishReasoning(s, ok), ok, text, id);
    FinishSays(ReasoningDelta(FinishReasoning(s, ok), ok, text, id), ok);
  }

  lemma CloseItemsSays(s: State, ok: Writer)
    requires OneOpen(s)
    ensures var s' := CloseItems(s, ok);
            StateSays(s') == StateSays(s) && s'.text == None && s'.reasoning == None && s'.nextIndex == s.nextIndex
  {
    FinishSays(s, ok);
    FinishTextItems(s, ok);
    FinishSays(FinishText(s, ok), ok);
    FinishReasoningItems(FinishText(s, ok), ok);
  }

  lemma AddSays(s: State, ok: Writer, payload: string)
    requires OneOpen(s)
    ensures var s' := Add(s, ok, payload);
            && StateSays(s') == StateSays(s) + [SaidItem(payload)] && s'.text == None && s'.reasoning == None
            && s'.output == CloseItems(s, ok).output + [Finished(payload, true)] && s'.nextIndex == s.nextIndex + 1
  {
    CloseItemsSays(s, ok);
    PutItemSays(CloseItems(s, ok), ok, Finished(payload, true));
  }

  lemma PutItemSays(s: State, ok: Writer, item: OutputItem)
    requires s.text == None && s.reasoning == None
    ensures var s' := PutItem(s, ok, item);
            && StateSays(s') == StateSays(s) + ItemSays(item) && s'.text == None && s'.reasoning == None
            && s'.output == s.output + [item] && s'.nextIndex == s.nextIndex + 1
  {
    WritesKeep(s.(nextIndex := s.nextIndex + 1), ok, [ItemAdded(s.nextIndex, InProgress(item)), ItemDone(s.nextIndex, item)]);
    OneItemMore(s.output, item);
    NothingOpen(s);
    NothingOpen(PutItem(s, ok, item));
  }

  lemma NothingOpen(s: State)
    requires s.text == None && s.reasoning == None
    ensures StateSays(s) == OutputSays(s.output)
  {
    assert OutputSays(s.output) + [] == OutputSays(s.output);
  }

  lemma EndWithKeeps(s: State, ok: Writer, body: Body)
    ensures SameItems(s, EndWith(s, ok, body))
  {
  }

  lemma StepSays(s: State, ok: Writer, call: Call)
    requires OneOpen(s)
    ensures StateSays(Step(s, ok, call)) == StateSays(s) + CallSays(call) && OneOpen(Step(s, ok, call))
  {
    match call
    case CallDelta(text, id) => TextDeltaSays(s, ok, text, id);
    case CallAdd(payload) => AddSays(s, ok, payload);
    case _ => if Ends(call) { EndingSays(s, ok, call); } else { ThinkingSays(s, ok, call); }
  }

  lemma ThinkingSays(s: State, ok: Writer, call: Call)
    requires OneOpen(s) && !call.CallDelta? && !call.CallAdd? && !Ends(call)
    ensures StateSays(Step(s, ok, call)) == StateSays(s) + CallSays(call) && OneOpen(Step(s, ok, call))
  {
    match call
    case CallStartReasoning(id) => StartReasoningSays(s, ok, id);
    case CallReasoningDelta(text, id) => ReasoningDeltaSays(s, ok, text, id);
    case CallFinishReasoning => FinishSays(s, ok);
    case CallNote(text, id) => NoteSays(s, ok, text, id);
  }

  lemma EndingSays(s: State, ok: Writer, call: Call)
    requires OneOpen(s) && Ends(call)
    ensures StateSays(Step(s, ok, call)) == StateSays(s) + CallSays(call) && OneOpen(Step(s, ok, call))
  {
    var s' := CloseItems(s, ok);
    CloseItemsSays(s, ok);
    match call
    case CallComplete(usage) => EndWithKeeps(s', ok, Completed(s'.output, usage));
    case CallFail(code) => EndWithKeeps(s', ok, Failed(s'.output, code));
    case CallAbandon =>
  }

  /** After any calls, over any connection, the items say exactly what the calls asked
      for, in order: each text is the part of an answer or of reasoning it was given
      as, and each finished item is there. */
  lemma {:induction false} SaysTheScript(ok: Writer, calls: seq<Call>)
    ensures StateSays(Run(ok, calls)) == Script(calls) && OneOpen(Run(ok, calls))
  {
    if calls != [] {
      SaysTheScript(ok, calls[..|calls| - 1]);
      StepSays(Run(ok, calls[..|calls| - 1]), ok, calls[|calls| - 1]);
    }
  }

  // ----- what Codex has

  function ReaderSays(r: Reader): seq<Said> {
    OutputSays(r.items)
    + match r.open
      case None => []
      case Some(p) =>
        match p.announced
        case Message(_, _, _) => Text(p.text)
        case Reasoning(_, _) => Reason(p.text)
        case Finished(payload, _) => [SaidItem(payload)]
  }

  /** While the reply is open Codex has been told all of it. */
  lemma CodexHasTheScript(ok: Writer, calls: seq<Call>)
    requires !Run(ok, calls).closed
    ensures Read(Run(ok, calls).written).Some? && ReaderSays(Read(Run(ok, calls).written).value) == Script(calls)
  {
    RunGood(ok, calls);
    SaysTheScript(ok, calls);
  }

  // ----- the items

  /** The items the calls make, and whether the last is still being written. */
  datatype Draft = Draft(items: seq<OutputItem>, open: bool)

  predicate Writing(d: Draft, reasoning: bool) {
    d.open && d.items != []
    && if reasoning then d.items[|d.items| - 1].Reasoning? else d.items[|d.items| - 1].Message?
  }

  /** Adds to the text of the last item. */
  function Extended(d: Draft, text: string): Draft
    requires d.items != []
  {
    var before, last := d.items[..|d.items| - 1], d.items[|d.items| - 1];
    match last
    case Message(id, completed, content) =>
      Draft(before + [Message(id, completed, [(if content == [] then "" else content[0]) + text])], true)
    case Reasoning(id, summary) =>
      Draft(before + [Reasoning(id, [(if summary == [] then "" else summary[0]) + text])], true)
    case Finished(_, _) => d
  }

  /** An empty text changes nothing, any other text goes to the item of its kind being
      written or begins one, a note is an item of its own, and an item that begins
      ends the one before it. */
  function Adds(d: Draft, call: Call): Draft {
    match call
    case CallStartReasoning(id) => if Writing(d, true) then d else Draft(d.items + [Reasoning(id, [])], true)
    case CallReasoningDelta(text, id) =>
      if text == "" then d else if Writing(d, true) then Extended(d, text) else Draft(d.items + [Reasoning(id, [text])], true)
    case CallFinishReasoning => if Writing(d, true) then d.(open := false) else d
    case CallNote(text, id) =>
      if text != "" then Draft(d.items + [Reasoning(id, [text])], false) else if Writing(d, true) then d.(open := false) else d
    case CallDelta(text, id) =>
      if text == "" then d else if Writing(d, false) then Extended(d, text) else Draft(d.items + [Message(id, true, [text])], true)
    case CallAdd(payload) => Draft(d.items + [Finished(payload, true)], false)
    case _ => d
  }

  /** The items of a reply that is asked for these calls and not yet ended. */
  function Wanted(calls: seq<Call>): Draft {
    if calls == [] then Draft([], false) else Adds(Wanted(calls[..|calls| - 1]), calls[|calls| - 1])
  }

  function DraftOf(s: State): Draft {
    Draft(s.output + (if s.text.Some? then [MessageOf(s.text.value)] else [])
          + (if s.reasoning.Some? then [ReasoningOf(s.reasoning.value)] else []),
          s.text.Some? || s.reasoning.Some?)
  }

  lemma DraftParts(s: State)
    requires OneOpen(s)
    ensures var d := DraftOf(s);
            && (s.text.Some? ==> Writing(d, false) && !Writing(d, true) && d == Draft(s.output + [MessageOf(s.text.value)], true))
            && (s.reasoning.Some? ==> Writing(d, true) && !Writing(d, false) && d == Draft(s.output + [ReasoningOf(s.reasoning.value)], true))
            && (s.text == None && s.reasoning == None ==> d == Draft(s.output, false))
  {
  }

  lemma CloseItemsItems(s: State, ok: Writer)
    requires OneOpen(s)
    ensures var s' := CloseItems(s, ok);
            s'.output == DraftOf(s).items && s'.text == None && s'.reasoning == None && s'.nextIndex == s.nextIndex
  {
    FinishTextItems(s, ok);
    FinishReasoningItems(FinishText(s, ok), ok);
  }

  lemma StartReasoningItems(s: State, ok: Writer, id: string)
    requires OneOpen(s)
    ensures var s' := StartReasoning(s, ok, id);
            && OneOpen(s') && s'.reasoning.Some? && s'.text == None
            && DraftOf(s') == Adds(DraftOf(s), CallStartReasoning(id))
            && (s.reasoning.Some? ==> s' == s)
            && (s.reasoning == None ==> s'.output == DraftOf(s).items && s'.reasoning.value.id == id && s'.reasoning.value.value == "")
  {
    DraftParts(s);
    if s.reasoning == None {
      FinishTextItems(s, ok);
      OpenReasoningItems(FinishText(s, ok), ok, id);
    }
  }

  lemma AppendReasoningItems(s: State, ok: Writer, text: string)
    requires s.reasoning.Some? && s.text == None && text != ""
    ensures var s' := AppendReasoning(s, ok, text);
            OneOpen(s') && s'.reasoning.Some? && DraftOf(s') == Extended(DraftOf(s), text)
  {
    DraftParts(s);
    AppendReasoningSays(s, ok, text);
    DraftParts(AppendReasoning(s, ok, text));
    var r := s.reasoning.value;
    assert (s.output + [ReasoningOf(r)])[..|s.output|] == s.output;
  }

  lemma AppendTextItems(s: State, ok: Writer, text: string)
    requires s.text.Some? && s.reasoning == None
    ensures var s' := AppendText(s, ok, text); OneOpen(s') && DraftOf(s') == Extended(DraftOf(s), text)
  {
    DraftParts(s);
    AppendTextSays(s, ok, text);
    DraftParts(AppendText(s, ok, text));
    assert (s.output + [MessageOf(s.text.value)])[..|s.output|] == s.output;
  }

  lemma ReasoningDeltaItems(s: State, ok: Writer, text: string, id: string)
    requires OneOpen(s)
    ensures var s' := ReasoningDelta(s, ok, text, id);
            && OneOpen(s') && DraftOf(s') == Adds(DraftOf(s), CallReasoningDelta(text, id))
            && (text != "" ==> s'.reasoning.Some?)
  {
    if text != "" {
      DraftParts(s);
      StartReasoningItems(s, ok, id);
      var s1 := StartReasoning(s, ok, id);
      AppendReasoningItems(s1, ok, text);
      ExtendNew(DraftOf(s).items, id, text);
    }
  }

  lemma ExtendNew(items: seq<OutputItem>, id: string, text: string)
    ensures Extended(Draft(items + [Reasoning(id, [])], true), text) == Draft(items + [Reasoning(id, [text])], true)
    ensures Extended(Draft(items + [Message(id, true, [""])], true), text) == Draft(items + [Message(id, true, [text])], true)
  {
    assert (items + [Reasoning(id, [])])[..|items|] == items;
    assert (items + [Message(id, true, [""])])[..|items|] == items;
    assert "" + text == text;
  }

  lemma FinishReasoningDraft(s: State, ok: Writer)
    requires OneOpen(s)
    ensures var s' := FinishReasoning(s, ok);
            OneOpen(s') && s'.reasoning == None && DraftOf(s') == Adds(DraftOf(s), CallFinishReasoning)
  {
    DraftParts(s);
    FinishReasoningItems(s, ok);
  }

  lemma NoteItems(s: State, ok: Writer, text: string, id: string)
    requires OneOpen(s)
    ensures var s' := Note(s, ok, text, id); OneOpen(s') && DraftOf(s') == Adds(DraftOf(s), CallNote(text, id))
  {
    var s1 := FinishReasoning(s, ok);
    var s2 := ReasoningDelta(s1, ok, text, id);
    FinishReasoningDraft(s, ok);
    ReasoningDeltaItems(s1, ok, text, id);
    FinishReasoningDraft(s2, ok);
    DraftParts(s1);
    DraftParts(s2);
  }

  lemma TextDeltaItems(s: State, ok: Writer, text: string, id: string)
    requires OneOpen(s)
    ensures var s' := TextDelta(s, ok, text, id); OneOpen(s') && DraftOf(s') == Adds(DraftOf(s), CallDelta(text, id))
  {
    if text != "" {
      DraftParts(s);
      if s.text == None {
        NewTextItems(s, ok, id);
        AppendTextItems(OpenText(FinishReasoning(s, ok), ok, id), ok, text);
        ExtendNew(DraftOf(s).items, id, text);
      } else {
        AppendTextItems(s, ok, text);
      }
    }
  }

  lemma NewTextItems(s: State, ok: Writer, id: string)
    requires OneOpen(s) && s.text == None
    ensures var s' := OpenText(FinishReasoning(s, ok), ok, id);
            s'.text.Some? && s'.reasoning == None && DraftOf(s') == Draft(DraftOf(s).items + [Message(id, true, [""])], true)
  {
    FinishReasoningItems(s, ok);
    OpenTextItems(FinishReasoning(s, ok), ok, id);
  }

  lemma StepItems(s: State, ok: Writer, call: Call)
    requires OneOpen(s) && !Ends(call)
    ensures OneOpen(Step(s, ok, call)) && DraftOf(Step(s, ok, call)) == Adds(DraftOf(s), call)
  {
    match call
    case CallStartReasoning(id) => StartReasoningItems(s, ok, id);
    case CallReasoningDelta(text, id) => ReasoningDeltaItems(s, ok, text, id);
    case CallFinishReasoning => FinishReasoningDraft(s, ok);
    case CallNote(text, id) => NoteItems(s, ok, text, id);
    case CallDelta(text, id) => TextDeltaItems(s, ok, text, id);
    case CallAdd(payload) =>
      CloseItemsItems(s, ok);
      AddSays(s, ok, payload);
  }

  /** Until the reply is asked to end, its items are the ones the calls make, each with
      the id and text it was given, and the one being written is the last. */
  lemma {:induction false} ItemsAsWanted(ok: Writer, calls: seq<Call>)
    requires FirstEnd(calls) == |calls|
    ensures DraftOf(Run(ok, calls)) == Wanted(calls) && OneOpen(Run(ok, calls))
  {
    if calls != [] {
      ItemsAsWanted(ok, calls[..|calls| - 1]);
      StepItems(Run(ok, calls[..|calls| - 1]), ok, calls[|calls| - 1]);
    }
  }

  /** Those items say all that the calls say. */
  lemma WantedSays(calls: seq<Call>)
    requires FirstEnd(calls) == |calls|
    ensures OutputSays(Wanted(calls).items) == Script(calls)
  {
    var s := Run(ALWAYS, calls);
    ItemsAsWanted(ALWAYS, calls);
    SaysTheScript(ALWAYS, calls);
    CloseItemsItems(s, ALWAYS);
    CloseItemsSays(s, ALWAYS);
  }

  // ----- how it ends

  predicate Ends(call: Call) {
    call.CallComplete? || call.CallFail? || call.CallAbandon?
  }

  /** The first call that ends the reply; |calls| when none does. */
  function FirstEnd(calls: seq<Call>): (e: nat)
    ensures e <= |calls|
  {
    if calls == [] then 0
    else
      var e := FirstEnd(calls[..|calls| - 1]);
      if e < |calls| - 1 || Ends(calls[|calls| - 1]) then e else |calls|
  }

  lemma AlwaysStaysOpen(s: State, bodies: seq<Body>)
    requires !s.closed
    ensures !EmitAll(s, ALWAYS, bodies).closed
    decreases |bodies|
  {
    if bodies != [] {
      AlwaysStaysOpen(Emit(s, ALWAYS, bodies[0]), bodies[1..]);
    }
  }

  lemma ItemsStayOpen(s: State)
    requires !s.closed
    ensures !FinishText(s, ALWAYS).closed && !FinishReasoning(s, ALWAYS).closed && !CloseItems(s, ALWAYS).closed
  {
    CloseStaysOpen(s);
    CloseStaysOpen(FinishText(s, ALWAYS));
  }

  lemma CloseStaysOpen(s: State)
    requires !s.closed
    ensures !FinishText(s, ALWAYS).closed && !FinishReasoning(s, ALWAYS).closed
  {
    if s.text.Some? {
      AlwaysStaysOpen(s.(text := None), DoneEvents(s.text.value, MessageOf(s.text.value)));
    }
    if s.reasoning.Some? {
      AlwaysStaysOpen(s.(reasoning := None), DoneEvents(s.reasoning.value, ReasoningOf(s.reasoning.value)));
    }
  }

  lemma OpensStayOpen(s: State, id: string)
    requires !s.closed
    ensures !OpenReasoning(s, ALWAYS, id).closed && !OpenText(s, ALWAYS, id).closed
  {
    AlwaysStaysOpen(s.(reasoning := Some(OpenItem(id, s.nextIndex, "")), nextIndex := s.nextIndex + 1),
                    AddedEvents(s.nextIndex, Reasoning(id, [])));
    AlwaysStaysOpen(s.(text := Some(OpenItem(id, s.nextIndex, "")), nextIndex := s.nextIndex + 1),
                    AddedEvents(s.nextIndex, Message(id, false, [])));
  }

  lemma ReasoningStaysOpen(s: State, text: string, id: string)
    requires !s.closed
    ensures !StartReasoning(s, ALWAYS, id).closed && !ReasoningDelta(s, ALWAYS, text, id).closed
  {
    CloseStaysOpen(s);
    OpensStayOpen(FinishText(s, ALWAYS), id);
  }

  lemma TextStaysOpen(s: State, text: string, id: string)
    requires !s.closed
    ensures !TextDelta(s, ALWAYS, text, id).closed
  {
    CloseStaysOpen(s);
    OpensStayOpen(FinishReasoning(s, ALWAYS), id);
  }

  lemma NoteStaysOpen(s: State, text: string, id: string)
    requires !s.closed
    ensures !Note(s, ALWAYS, text, id).closed
  {
    CloseStaysOpen(s);
    ReasoningStaysOpen(FinishReasoning(s, ALWAYS), text, id);
    CloseStaysOpen(ReasoningDelta(FinishReasoning(s, ALWAYS), ALWAYS, text, id));
  }

  lemma AddStaysOpen(s: State, payload: string)
    requires !s.closed
    ensures !Add(s, ALWAYS, payload).closed
  {
    var s1, item := CloseItems(s, ALWAYS), Finished(payload, true);
    ItemsStayOpen(s);
    AlwaysStaysOpen(s1.(nextIndex := s1.nextIndex + 1), [ItemAdded(s1.nextIndex, InProgress(item)), ItemDone(s1.nextIndex, item)]);
  }

  lemma StaysOpen(s: State, call: Call)
    requires !s.closed && !Ends(call)
    ensures !Step(s, ALWAYS, call).closed
  {
    match call
    case CallStartReasoning(id) => ReasoningStaysOpen(s, "", id);
    case CallReasoningDelta(text, id) => ReasoningStaysOpen(s, text, id);
    case CallFinishReasoning => CloseStaysOpen(s);
    case CallNote(text, id) => NoteStaysOpen(s, text, id);
    case CallDelta(text, id) => TextStaysOpen(s, text, id);
    case CallAdd(payload) => AddStaysOpen(s, payload);
  }

  lemma {:induction false} OpenUntilEnd(calls: seq<Call>)
    requires FirstEnd(calls) == |calls|
    ensures !Run(ALWAYS, calls).closed
  {
    if calls != [] {
      OpenUntilEnd(calls[..|calls| - 1]);
      StaysOpen(Run(ALWAYS, calls[..|calls| - 1]), calls[|calls| - 1]);
    }
  }

  lemma EndsWithBody(s: State, body: Body)
    requires !s.closed
    ensures var s' := EndWith(s, ALWAYS, body);
            s'.closed && s'.written == s.written + [Event(s.number + 1, body)] && s'.output == s.output
  {
  }

  predicate LastIs(events: seq<Event>, body: Body) {
    events != [] && events[|events| - 1].body == body
  }

  /** A reply that is asked to end does so at once, with everything said before it:
      completed with the given usage, failed with the given code, or without a word. */
  lemma EndsNow(calls: seq<Call>, end: Call)
    requires FirstEnd(calls) == |calls| && Ends(end)
    ensures var before, after := Run(ALWAYS, calls), Run(ALWAYS, calls + [end]);
            && after.closed
            && (end.CallAbandon? ==> after.written == before.written)
            && (end.CallComplete? ==> LastIs(after.written, Completed(Wanted(calls).items, end.usage)))
            && (end.CallFail? ==> LastIs(after.written, Failed(Wanted(calls).items, end.code)))
  {
    var before := Run(ALWAYS, calls);
    assert (calls + [end])[..|calls|] == calls;
    OpenUntilEnd(calls);
    ItemsAsWanted(ALWAYS, calls);
    EndedBy(before, end);
  }

  lemma EndedBy(s: State, end: Call)
    requires !s.closed && OneOpen(s) && Ends(end)
    ensures var s', items := Step(s, ALWAYS, end), DraftOf(s).items;
            && s'.closed
            && (end.CallAbandon? ==> s'.written == s.written)
            && (end.CallComplete? ==> LastIs(s'.written, Completed(items, end.usage)))
            && (end.CallFail? ==> LastIs(s'.written, Failed(items, end.code)))
  {
    CloseItemsItems(s, ALWAYS);
    ItemsStayOpen(s);
    var closed := CloseItems(s, ALWAYS);
    if end.CallComplete? {
      EndsWithBody(closed, Completed(closed.output, end.usage));
    } else if end.CallFail? {
      EndsWithBody(closed, Failed(closed.output, end.code));
    }
  }

  /** Nothing is written once a reply is closed. */
  lemma ClosedWritesNothing(s: State, ok: Writer, call: Call)
    requires s.closed
    ensures Step(s, ok, call).closed && Step(s, ok, call).written == s.written
  {
    ClosedKeeps(s, ok);
    match call
    case CallStartReasoning(id) => ClosedStarts(s, ok, "", id);
    case CallReasoningDelta(text, id) => ClosedStarts(s, ok, text, id);
    case CallNote(text, id) =>
      ClosedStarts(FinishReasoning(s, ok), ok, text, id);
      ClosedKeeps(ReasoningDelta(FinishReasoning(s, ok), ok, text, id), ok);
    case CallDelta(text, id) => ClosedText(s, ok, text, id);
    case CallAdd(payload) =>
      ClosedKeeps(FinishText(s, ok), ok);
      var s1, item := CloseItems(s, ok), Finished(payload, true);
      EmitsWrite(s1.(nextIndex := s1.nextIndex + 1), ok, [ItemAdded(s1.nextIndex, InProgress(item)), ItemDone(s1.nextIndex, item)]);
    case _ =>
  }

  predicate Shut(s: State, s': State) {
    s'.closed && s'.written == s.written
  }

  lemma ClosedKeeps(s: State, ok: Writer)
    requires s.closed
    ensures Shut(s, FinishText(s, ok)) && Shut(s, FinishReasoning(s, ok))
  {
    if s.text.Some? {
      EmitsWrite(s.(text := None), ok, DoneEvents(s.text.value, MessageOf(s.text.value)));
    }
    if s.reasoning.Some? {
      EmitsWrite(s.(reasoning := None), ok, DoneEvents(s.reasoning.value, ReasoningOf(s.reasoning.value)));
    }
  }

  lemma ClosedOpens(s: State, ok: Writer, id: string)
    requires s.closed
    ensures Shut(s, OpenReasoning(s, ok, id)) && Shut(s, OpenText(s, ok, id))
  {
    EmitsWrite(s.(reasoning := Some(OpenItem(id, s.nextIndex, "")), nextIndex := s.nextIndex + 1), ok,
               AddedEvents(s.nextIndex, Reasoning(id, [])));
    EmitsWrite(s.(text := Some(OpenItem(id, s.nextIndex, "")), nextIndex := s.nextIndex + 1), ok,
               AddedEvents(s.nextIndex, Message(id, false, [])));
  }

  lemma ClosedStarts(s: State, ok: Writer, text: string, id: string)
    requires s.closed
    ensures Shut(s, StartReasoning(s, ok, id)) && Shut(s, ReasoningDelta(s, ok, text, id))
  {
    ClosedKeeps(s, ok);
    ClosedOpens(FinishText(s, ok), ok, id);
  }

  lemma ClosedText(s: State, ok: Writer, text: string, id: string)
    requires s.closed
    ensures Shut(s, TextDelta(s, ok, text, id))
  {
    ClosedKeeps(s, ok);
    ClosedOpens(FinishReasoning(s, ok), ok, id);
  }

  /** The terminal event of a whole reply, if nothing fails: completed or failed exactly
      as the first ending call asks, with what was said up to it; and none when there is
      no such call or it abandons the reply. */
  lemma {:induction false} EndsAsAsked(calls: seq<Call>)
    ensures var e, s := FirstEnd(calls), Run(ALWAYS, calls);
            && (e == |calls| ==> !s.closed)
            && (e < |calls| ==>
                 && Ends(calls[e]) && s.closed && s.written == Run(ALWAYS, calls[..e + 1]).written
                 && FirstEnd(calls[..e]) == e && calls[..e] + [calls[e]] == calls[..e + 1])
  {
    if calls != [] {
      var before, last := calls[..|calls| - 1], calls[|calls| - 1];
      EndsAsAsked(before);
      assert before + [last] == calls;
      if FirstEnd(before) < |before| {
        EndedBefore(before, last, calls);
      } else if Ends(last) {
        EndedNow(before, last, calls);
      } else {
        StaysOpen(Run(ALWAYS, before), last);
      }
    }
  }

  lemma EndedNow(before: seq<Call>, last: Call, calls: seq<Call>)
    requires calls == before + [last] && FirstEnd(before) == |before| && Ends(last)
    ensures var e := |before|;
            && FirstEnd(calls) == e && calls[..e] == before && calls[..e + 1] == calls && Run(ALWAYS, calls).closed
  {
    EndsNow(before, last);
  }

  lemma EndedBefore(before: seq<Call>, last: Call, calls: seq<Call>)
    requires calls == before + [last] && FirstEnd(before) < |before| && Run(ALWAYS, before).closed
    ensures var e := FirstEnd(before);
            && FirstEnd(calls) == e && calls[e] == before[e] && calls[..e] == before[..e] && calls[..e + 1] == before[..e + 1]
            && Run(ALWAYS, calls).closed && Run(ALWAYS, calls).written == Run(ALWAYS, before).written
  {
    assert calls[..|calls| - 1] == before;
    ClosedWritesNothing(Run(ALWAYS, before), ALWAYS, last);
  }

  /** So a reply that nothing cuts short ends in response.completed, with the usage it was
      given, exactly when the first ending call completes it, in response.failed, with
      the code it was given, exactly when that fails it; and both list the items of the
      calls before, which say all that these say. */
  lemma TerminalEvent(calls: seq<Call>)
    ensures var e, written := FirstEnd(calls), Run(ALWAYS, calls).written;
            && written != []
            && var last := written[|written| - 1].body;
               && (last.Completed? <==> e < |calls| && calls[e].CallComplete?)
               && (last.Failed? <==> e < |calls| && calls[e].CallFail?)
               && (last.Completed? ==> last == Completed(Wanted(calls[..e]).items, calls[e].usage))
               && (last.Failed? ==> last == Failed(Wanted(calls[..e]).items, calls[e].code))
               && OutputSays(Wanted(calls[..e]).items) == Script(calls[..e])
  {
    var e := FirstEnd(calls);
    EndsAsAsked(calls);
    BeforeFirstEnd(calls);
    WantedSays(calls[..e]);
    RunGood(ALWAYS, calls);
    if e < |calls| {
      EndsNow(calls[..e], calls[e]);
      OpenNotEnded(calls[..e]);
    } else {
      OpenNotEnded(calls);
    }
  }

  lemma {:induction false} BeforeFirstEnd(calls: seq<Call>)
    ensures FirstEnd(calls[..FirstEnd(calls)]) == FirstEnd(calls)
  {
    if calls != [] {
      var before, e := calls[..|calls| - 1], FirstEnd(calls);
      BeforeFirstEnd(before);
      if e < |calls| {
        assert calls[..e] == before[..e];
      } else {
        assert calls[..e] == calls;
      }
    }
  }

  lemma OpenNotEnded(calls: seq<Call>)
    requires FirstEnd(calls) == |calls|
    ensures var written := Run(ALWAYS, calls).written;
            written != [] && !written[|written| - 1].body.Completed? && !written[|written| - 1].body.Failed?
  {
    OpenUntilEnd(calls);
    RunGood(ALWAYS, calls);
    NotTerminal(Run(ALWAYS, calls).written);
  }

  lemma NotTerminal(events: seq<Event>)
    requires Read(events).Some? && !Read(events).value.ended
    ensures events != [] && !events[|events| - 1].body.Completed? && !events[|events| - 1].body.Failed?
  {
    var before, last := events[..|events| - 1], events[|events| - 1];
    assert before + [last] == events;
    if before == [] {
      FirstRead(events, last);
    } else {
      NotTerminalLast(events, before, last);
    }
  }

  lemma NotTerminalLast(events: seq<Event>, before: seq<Event>, last: Event)
    requires events == before + [last] && before != [] && Read(events).Some? && !Read(events).value.ended
    ensures !last.body.Completed? && !last.body.Failed?
  {
    var r := LastRead(events, before, last);
    assert events[..|before|] == before;
    NotTerminalBody(r, last.body);
  }

  lemma NotTerminalBody(r: Reader, b: Body)
    ensures ReadBody(r, b).Some? && !ReadBody(r, b).value.ended ==> !b.Completed? && !b.Failed?
  {
  }
}
