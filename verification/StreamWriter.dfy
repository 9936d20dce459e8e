/** The stream object: each method changes the fields one event at a time, and
    ends where the stream's specification says. */
module StreamWriter {
  import opened Options
  import opened ReplyStream
  import Spec = ReplyStream

  class Stream {
    const ok: Writer
    var number: nat
    var nextIndex: nat
    var output: seq<OutputItem>
    var text: Option<OpenItem>
    var reasoning: Option<OpenItem>
    var closed: bool
    var broken: bool
    var finishes: nat
    var written: seq<Event>

    ghost function View(): State
      reads this
    {
      State(number, nextIndex, output, text, reasoning, closed, broken, finishes, written)
    }

    constructor (ok: Writer)
      ensures this.ok == ok && View() == New(ok)
    {
      this.ok := ok;
      number, nextIndex, output, text, reasoning := 0, 0, [], None, None;
      closed, broken, finishes, written := false, false, 0, [];
      new;
      Emit(Created);
    }

    method Close()
      modifies this
      ensures View() == Spec.Close(old(View()))
    {
      if !closed {
        closed, finishes := true, finishes + 1;
      }
    }

    method Emit(body: Body)
      modifies this
      ensures View() == Spec.Emit(old(View()), ok, body)
    {
      if closed {
        return;
      }
      number := number + 1;
      if ok(number) {
        written := written + [Event(number, body)];
      } else {
        broken := true;
        Close();
      }
    }

    method EmitTwo(a: Body, b: Body)
      modifies this
      ensures View() == EmitAll(old(View()), ok, [a, b])
    {
      ghost var s := View();
      Emit(a);
      Emit(b);
      TwoEvents(s, ok, a, b);
    }

    /** Writes an item's done events and appends it to the output. */
    method CloseItem(open: OpenItem, item: OutputItem)
      modifies this
      ensures View() == Spec.CloseItem(old(View()), ok, open, item)
    {
      ghost var s := View();
      Emit(TextDone(open.id, open.index, open.value));
      EmitTwo(PartDone(open.id, open.index, open.value), ItemDone(open.index, item));
      assert DoneEvents(open, item)[1..] == [PartDone(open.id, open.index, open.value), ItemDone(open.index, item)];
      output := output + [item];
    }

    method FinishText()
      modifies this
      ensures View() == Spec.FinishText(old(View()), ok)
    {
      if text.Some? {
        var t := text.value;
        text := None;
        CloseItem(t, MessageOf(t));
      }
    }

    method FinishReasoning()
      modifies this
      ensures View() == Spec.FinishReasoning(old(View()), ok)
    {
      if reasoning.Some? {
        var r := reasoning.value;
        reasoning := None;
        CloseItem(r, ReasoningOf(r));
      }
    }

    method StartReasoning(id: string)
      modifies this
      ensures View() == Spec.StartReasoning(old(View()), ok, id)
    {
      if reasoning.Some? {
        return;
      }
      FinishText();
      var index := nextIndex;
      reasoning, nextIndex := Some(OpenItem(id, index, "")), nextIndex + 1;
      EmitTwo(ItemAdded(index, InProgress(Reasoning(id, []))), PartAdded(id, index));
    }

    method ReasoningDelta(delta: string, id: string)
      modifies this
      ensures View() == Spec.ReasoningDelta(old(View()), ok, delta, id)
    {
      if delta == "" {
        return;
      }
      StartReasoning(id);
      if reasoning.Some? {
        var r := reasoning.value;
        reasoning := Some(r.(value := r.value + delta));
        Emit(Delta(r.id, r.index, delta));
      }
    }

    method Note(note: string, id: string)
      modifies this
      ensures View() == Spec.Note(old(View()), ok, note, id)
    {
      FinishReasoning();
      ReasoningDelta(note, id);
      FinishReasoning();
    }

    method TextDelta(delta: string, id: string)
      modifies this
      ensures View() == Spec.TextDelta(old(View()), ok, delta, id)
    {
      if delta == "" {
        return;
      }
      if text == None {
        FinishReasoning();
        var index := nextIndex;
        text, nextIndex := Some(OpenItem(id, index, "")), nextIndex + 1;
        EmitTwo(ItemAdded(index, InProgress(Message(id, false, []))), PartAdded(id, index));
      }
      if text.Some? {
        var t := text.value;
        text := Some(t.(value := t.value + delta));
        Emit(Delta(t.id, t.index, delta));
      }
    }

    method Add(payload: string)
      modifies this
      ensures View() == Spec.Add(old(View()), ok, payload)
    {
      FinishText();
      FinishReasoning();
      var item, index := Finished(payload, true), nextIndex;
      nextIndex := nextIndex + 1;
      EmitTwo(ItemAdded(index, InProgress(item)), ItemDone(index, item));
      output := output + [item];
    }

    method Complete(usage: Usage)
      modifies this
      ensures View() == Spec.Complete(old(View()), ok, usage)
    {
      if closed {
        return;
      }
      FinishText();
      FinishReasoning();
      Emit(Completed(output, usage));
      Close();
    }

    method Fail(code: string)
      modifies this
      ensures View() == Spec.Fail(old(View()), ok, code)
    {
      if closed {
        return;
      }
      FinishText();
      FinishReasoning();
      Emit(Failed(output, code));
      Close();
    }

    method Abandon()
      modifies this
      ensures View() == Spec.Close(old(View()))
    {
      Close();
    }

    method HasOutput() returns (some: bool)
      ensures Good(View()) ==> (some <==> nextIndex > 0)
    {
      some := |output| > 0 || text.Some? || reasoning.Some?;
    }
  }

  lemma TwoEvents(s: State, ok: Writer, a: Body, b: Body)
    ensures EmitAll(s, ok, [a, b]) == Spec.Emit(Spec.Emit(s, ok, a), ok, b)
  {
    assert [a, b][1..] == [b] && [b][1..] == [];
    EmitOne(Spec.Emit(s, ok, a), ok, b);
  }
}
