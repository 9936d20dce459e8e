/** Reading server-sent events, the part of section 9.2.6 of the WHATWG HTML
    standard that the bridge and the router write and the router reads. */
module EventReader {
  import opened Text

  const DATA := "data:"

  /** What the callback says after each event, given everything it was called
      with so far: true to go on, false to stop. */
  type Callback = seq<string> -> bool

  /** Without trailing carriage returns. */
  function TrimReturns(line: string): string {
    if line != "" && line[|line| - 1] == '\r' then TrimReturns(line[..|line| - 1]) else line
  }

  // ----- what reading does, line by line

  /** The event being collected, the events passed on, and whether the callback
      has stopped the reading. */
  datatype State = State(data: string, got: seq<string>, stopped: bool)

  const START := State("", [], false)

  function DataOf(line: string): string
    requires DATA <= line
  {
    var v := line[|DATA|..];
    if v != "" && v[0] == ' ' then v[1..] else v
  }

  function TakeLine(s: State, raw: string, callback: Callback): State {
    var line := TrimReturns(raw);
    if line == "" && s.data != "" then
      var got := s.got + [s.data];
      if callback(got) then State("", got, false) else State(s.data, got, true)
    else if DATA <= line then s.(data := if s.data != "" then s.data + "\n" + DataOf(line) else DataOf(line))
    else s
  }

  function TakeLines(s: State, lines: seq<string>, callback: Callback): State
    decreases |lines|
  {
    if lines == [] || s.stopped then s else TakeLines(TakeLine(s, lines[0], callback), lines[1..], callback)
  }

  /** The events passed on, and whether reading ended in an error, when the
      text ends there or the connection fails there. */
  function AtEnd(s: State, failed: bool): (seq<string>, bool) {
    if s.stopped then (s.got, false)
    else if failed then (s.got, true)
    else (if s.data != "" then s.got + [s.data] else s.got, false)
  }

  function Events(input: string, failed: bool, callback: Callback): (seq<string>, bool) {
    AtEnd(TakeLines(START, Split(input), callback), failed)
  }

  // ----- the loop

  /** Up to and without the next line break: the rest of the text when there is none. */
  method NextLine(input: string, pos: nat) returns (line: string, next: nat, last: bool)
    requires pos <= |input|
    ensures pos <= next <= |input| && (!last ==> pos < next)
    ensures OneLine(line)
    ensures last ==> line == input[pos..]
    ensures !last ==> input[pos..] == line + "\n" + input[next..]
  {
    var end := pos;
    while end < |input| && input[end] != '\n'
      invariant pos <= end <= |input|
      invariant OneLine(input[pos..end])
    {
      end := end + 1;
    }
    line := input[pos..end];
    last := end == |input|;
    next := if last then end else end + 1;
    if !last {
      assert input[pos..] == input[pos..end] + [input[end]] + input[end + 1..];
    }
  }

  /** The next line is the next piece of the text. */
  lemma OneLineOn(s: State, text: string, line: string, rest: string, last: bool, callback: Callback)
    requires !s.stopped && OneLine(line)
    requires text == if last then line else line + "\n" + rest
    ensures TakeLines(s, Split(text), callback) ==
            TakeLines(TakeLine(s, line, callback), if last then [] else Split(rest), callback)
  {
    if last {
      SplitOne(line);
    } else {
      SplitLine(line, rest);
      assert ([line] + Split(rest))[1..] == Split(rest);
    }
  }

  /** One line: the end of an event, a part of its data, or neither. */
  method HandleLine(data: string, got: seq<string>, raw: string, callback: Callback)
    returns (data': string, got': seq<string>, stopped: bool)
    ensures State(data', got', stopped) == TakeLine(State(data, got, false), raw, callback)
  {
    data', got', stopped := data, got, false;
    var line := TrimReturns(raw);
    if line == "" && data != "" {
      got' := got' + [data];
      if !callback(got') {
        stopped := true;
        return;
      }
      data' := "";
    } else if DATA <= line {
      if data != "" {
        data' := data' + "\n";
      }
      data' := data' + DataOf(line);
    }
  }

  /** Calls back with each event's data until told to stop or the text ends. */
  method ReadEvents(input: string, failed: bool, callback: Callback) returns (got: seq<string>, error: bool)
    ensures (got, error) == Events(input, failed, callback)
  {
    var data, pos := "", 0;
    got := [];
    assert input[0..] == input;
    while true
      invariant pos <= |input|
      invariant TakeLines(State(data, got, false), Split(input[pos..]), callback) == TakeLines(START, Split(input), callback)
      decreases |input| - pos
    {
      var raw, next, last := NextLine(input, pos);
      OneLineOn(State(data, got, false), input[pos..], raw, input[next..], last, callback);
      var stopped;
      data, got, stopped := HandleLine(data, got, raw, callback);
      if stopped {
        return got, false;
      }
      if last {
        if failed {
          return got, true;
        }
        if data != "" {
          got := got + [data];
        }
        return got, false;
      }
      pos := next;
    }
  }

  // ----- what is written reads back

  /** One event as the bridge's reply stream and the router write it. */
  function Print(kind: string, payload: string): string {
    "event: " + kind + "\n" + ("data: " + payload + "\n" + ("" + "\n" + ""))
  }

  datatype Event = Event(kind: string, payload: string)

  function PrintAll(events: seq<Event>): string {
    if events == [] then "" else Print(events[0].kind, events[0].payload) + PrintAll(events[1..])
  }

  function Payloads(events: seq<Event>): seq<string> {
    if events == [] then [] else [events[0].payload] + Payloads(events[1..])
  }

  /** A payload one data line can carry. */
  predicate Plain(payload: string) {
    payload != "" && OneLine(payload) && payload[|payload| - 1] != '\r'
  }

  predicate Writable(events: seq<Event>) {
    forall k :: 0 <= k < |events| ==> OneLine(events[k].kind) && Plain(events[k].payload)
  }

  /** The payloads up to and including the first after which the callback stops. */
  function UntilStopped(got: seq<string>, payloads: seq<string>, callback: Callback): seq<string>
    decreases |payloads|
  {
    if payloads == [] then got
    else if !callback(got + [payloads[0]]) then got + [payloads[0]]
    else UntilStopped(got + [payloads[0]], payloads[1..], callback)
  }

  lemma {:induction false} TrimKeepsStart(line: string, start: string)
    requires start <= line && (start == "" || start[|start| - 1] != '\r')
    ensures start <= TrimReturns(line)
  {
    if line != "" && line[|line| - 1] == '\r' {
      assert start == line[..|start|];
      TrimKeepsStart(line[..|line| - 1], start);
    }
  }

  lemma KindLine(s: State, kind: string, callback: Callback)
    ensures TakeLine(s, "event: " + kind, callback) == s
  {
    var line := "event: " + kind;
    assert "event:" <= line;
    TrimKeepsStart(line, "event:");
    assert TrimReturns(line)[0] == 'e';
  }

  lemma DataLine(got: seq<string>, payload: string, callback: Callback)
    requires Plain(payload)
    ensures TakeLine(State("", got, false), "data: " + payload, callback) == State(payload, got, false)
  {
    var line := "data: " + payload;
    assert TrimReturns(line) == line;
    assert line[|DATA|..] == " " + payload;
    assert (" " + payload)[1..] == payload;
  }

  lemma SplitPrinted(kind: string, payload: string, rest: string)
    requires OneLine(kind)
    ensures Split(Print(kind, payload) + rest) == ["event: " + kind] + Split("data: " + payload + "\n" + ("\n" + rest))
  {
    var tail := "data: " + payload + "\n" + ("" + "\n" + "");
    assert Print(kind, payload) + rest == "event: " + kind + "\n" + (tail + rest);
    assert tail + rest == "data: " + payload + "\n" + ("\n" + rest);
    SplitLine("event: " + kind, tail + rest);
  }

  /** One printed event, read from between events. */
  lemma ReadPrinted(got: seq<string>, kind: string, payload: string, rest: string, callback: Callback)
    requires OneLine(kind) && Plain(payload)
    ensures TakeLines(State("", got, false), Split(Print(kind, payload) + rest), callback) ==
            if callback(got + [payload]) then TakeLines(State("", got + [payload], false), Split(rest), callback)
            else State(payload, got + [payload], true)
  {
    var s := State("", got, false);
    SplitPrinted(kind, payload, rest);
    SplitLine("data: " + payload, "\n" + rest);
    assert "" + "\n" + rest == "\n" + rest;
    SplitLine("", rest);
    KindLine(s, kind, callback);
    DataLine(got, payload, callback);
    ThreeLines(s, "event: " + kind, "data: " + payload, "", Split(rest), callback);
  }

  lemma ThreeLines(s: State, a: string, b: string, c: string, rest: seq<string>, callback: Callback)
    requires !s.stopped && TakeLine(s, a, callback) == s && !TakeLine(s, b, callback).stopped
    ensures TakeLines(s, [a] + ([b] + ([c] + rest)), callback) ==
            TakeLines(TakeLine(TakeLine(s, b, callback), c, callback), rest, callback)
  {
    var two := [c] + rest;
    var three := [b] + two;
    FirstLine(s, a, three, callback);
    FirstLine(s, b, two, callback);
    FirstLine(TakeLine(s, b, callback), c, rest, callback);
  }

  lemma FirstLine(s: State, line: string, rest: seq<string>, callback: Callback)
    requires !s.stopped
    ensures TakeLines(s, [line] + rest, callback) == TakeLines(TakeLine(s, line, callback), rest, callback)
  {
    assert ([line] + rest)[1..] == rest;
  }

  /** Reading back everything that was written passes on exactly the payloads,
      in order and each once, up to where the callback stops. */
  lemma {:induction false} ReadsBack(got: seq<string>, events: seq<Event>, callback: Callback)
    requires Writable(events)
    ensures AtEnd(TakeLines(State("", got, false), Split(PrintAll(events)), callback), false) ==
            (UntilStopped(got, Payloads(events), callback), false)
    decreases |events|
  {
    if events == [] {
      assert Split("") == [""] && [""][1..] == [];
      assert TakeLine(State("", got, false), "", callback) == State("", got, false);
    } else {
      var e := events[0];
      ReadPrinted(got, e.kind, e.payload, PrintAll(events[1..]), callback);
      assert Payloads(events)[1..] == Payloads(events[1..]);
      if callback(got + [e.payload]) {
        ReadsBack(got + [e.payload], events[1..], callback);
      }
    }
  }

  const ALL: Callback := got => true

  lemma {:induction false} NeverStopped(got: seq<string>, payloads: seq<string>)
    ensures UntilStopped(got, payloads, ALL) == got + payloads
    decreases |payloads|
  {
    if payloads == [] {
      assert got + payloads == got;
    } else {
      NeverStopped(got + [payloads[0]], payloads[1..]);
      assert [payloads[0]] + payloads[1..] == payloads;
      assert got + [payloads[0]] + payloads[1..] == got + payloads;
    }
  }

  lemma WrittenReadsBack(events: seq<Event>, callback: Callback)
    requires Writable(events)
    ensures Events(PrintAll(events), false, callback) == (UntilStopped([], Payloads(events), callback), false)
    ensures Events(PrintAll(events), false, ALL) == (Payloads(events), false)
  {
    ReadsBack([], events, callback);
    ReadsBack([], events, ALL);
    NeverStopped([], Payloads(events));
    assert [] + Payloads(events) == Payloads(events);
  }

  // ----- what cannot be carried

  function Total(got: seq<string>): nat {
    if got == [] then 0 else Total(got[..|got| - 1]) + |got[|got| - 1]|
  }

  lemma TotalOne(text: string)
    ensures Total([text]) == |text|
  {
    assert [text][..0] == [];
  }

  /** How many characters lines have without their line breaks. */
  function Length(lines: seq<string>): nat {
    if lines == [] then 0 else |lines[0]| + Length(lines[1..])
  }

  lemma {:induction false} LengthConcat(x: seq<string>, y: seq<string>)
    ensures Length(x + y) == Length(x) + Length(y)
  {
    if x == [] {
      assert x + y == y;
    } else {
      assert (x + y)[1..] == x[1..] + y;
      LengthConcat(x[1..], y);
    }
  }

  lemma {:induction false} LengthOfSplit(text: string)
    ensures Length(Split(text)) + |Split(text)| == |text| + 1
  {
    if text != "" {
      LengthOfSplit(text[1..]);
      var rest := Split(text[1..]);
      assert ([""] + rest)[1..] == rest && ([[text[0]] + rest[0]] + rest[1..])[1..] == rest[1..];
    }
  }

  lemma {:induction false} TrimShortens(line: string)
    ensures |TrimReturns(line)| <= |line|
    ensures line != "" && line[|line| - 1] == '\r' ==> |TrimReturns(line)| < |line|
  {
    if line != "" && line[|line| - 1] == '\r' {
      TrimShortens(line[..|line| - 1]);
    }
  }

  /** Characters read so far. */
  function Read(s: State): nat {
    Total(s.got) + |s.data|
  }

  predicate NoneEmpty(got: seq<string>) {
    forall k :: 0 <= k < |got| ==> got[k] != ""
  }

  lemma LineAddsItsLength(s: State, line: string)
    requires !s.stopped && NoneEmpty(s.got)
    ensures var s1 := TakeLine(s, line, ALL); !s1.stopped && NoneEmpty(s1.got) && Read(s1) <= Read(s) + |line|
  {
    TrimShortens(line);
    var s1 := TakeLine(s, line, ALL);
    assert s1.got == s.got || s1.got[..|s1.got| - 1] == s.got;
  }

  /** No line adds more characters to what is read than it has, so a line break
      adds none; and no empty event is passed on. */
  lemma {:induction false} LinesAddTheirLength(s: State, lines: seq<string>)
    requires !s.stopped && NoneEmpty(s.got)
    ensures var s' := TakeLines(s, lines, ALL);
            !s'.stopped && NoneEmpty(s'.got) && Read(s') <= Read(s) + Length(lines)
    decreases |lines|
  {
    if lines != [] {
      LineAddsItsLength(s, lines[0]);
      LinesAddTheirLength(TakeLine(s, lines[0], ALL), lines[1..]);
    }
  }

  lemma {:induction false} SplitAfterPrefix(prefix: string, text: string)
    requires OneLine(prefix)
    ensures Split(prefix + text) == [prefix + Split(text)[0]] + Split(text)[1..]
  {
    if prefix == "" {
      assert prefix + text == text && prefix + Split(text)[0] == Split(text)[0];
      assert Split(text) == [Split(text)[0]] + Split(text)[1..];
    } else {
      SplitAfterPrefix(prefix[1..], text);
      assert (prefix + text)[1..] == prefix[1..] + text;
      assert [prefix[0]] + (prefix[1..] + Split(text)[0]) == prefix + Split(text)[0];
      assert ([prefix[1..] + Split(text)[0]] + Split(text)[1..])[1..] == Split(text)[1..];
    }
  }

  /** The lines of one printed event, whatever its payload. */
  lemma PrintedLines(kind: string, payload: string)
    requires OneLine(kind)
    ensures Split(Print(kind, payload)) ==
            ["event: " + kind] + (["data: " + Split(payload)[0]] + (Split(payload)[1..] + ["", ""]))
  {
    var text := "data: " + payload;
    assert Print(kind, payload) + "" == Print(kind, payload);
    SplitPrinted(kind, payload, "");
    assert text + "\n" + ("\n" + "") == text + "\n" + "\n";
    SplitAddBreak(text + "\n");
    SplitAddBreak(text);
    SplitAfterPrefix("data: ", payload);
    var pieces := ["data: " + Split(payload)[0]] + Split(payload)[1..];
    assert pieces + [""] + [""] == ["data: " + Split(payload)[0]] + (Split(payload)[1..] + ["", ""]);
  }

  /** The data line keeps what follows its one space, less trailing returns. */
  lemma AnyDataLine(line: string, callback: Callback)
    ensures var s := TakeLine(START, "data: " + line, callback);
            && !s.stopped && s.got == [] && |s.data| <= |line|
            && (line != "" && line[|line| - 1] == '\r' ==> |s.data| < |line|)
  {
    var all := "data: " + line;
    assert "data: " <= all;
    TrimKeepsStart(all, "data: ");
    TrimShortens(all);
    var kept := TrimReturns(all);
    assert kept[|DATA|] == ' ' && kept[|DATA|..] != "" && kept[..|DATA|] == DATA;
  }

  /** A printed event reads back as itself exactly when its payload is plain. */
  lemma ReadsBackWhenPlain(kind: string, payload: string)
    requires OneLine(kind)
    ensures Events(Print(kind, payload), false, ALL) == ([payload], false) <==> Plain(payload)
  {
    if Plain(payload) {
      var events := [Event(kind, payload)];
      WrittenReadsBack(events, ALL);
      assert PrintAll(events) == Print(kind, payload) + "" && Payloads(events) == [payload];
      assert Print(kind, payload) + "" == Print(kind, payload);
    } else {
      var pieces := Split(payload);
      var rest := pieces[1..] + ["", ""];
      PrintedLines(kind, payload);
      KindLine(START, kind, ALL);
      AnyDataLine(pieces[0], ALL);
      var s1 := TakeLine(START, "data: " + pieces[0], ALL);
      LinesAddTheirLength(s1, rest);
      var s := TakeLines(s1, rest, ALL);
      assert (["event: " + kind] + (["data: " + pieces[0]] + rest))[1..] == ["data: " + pieces[0]] + rest;
      assert (["data: " + pieces[0]] + rest)[1..] == rest;
      assert TakeLines(START, Split(Print(kind, payload)), ALL) == s;
      LengthConcat(pieces[1..], ["", ""]);
      LengthOfSplit(payload);
      if OneLine(payload) {
        SplitOne(payload);
      } else {
        ManyPieces(payload);
      }
      assert payload != "" ==> Read(s) < |payload|;
      var got := Events(Print(kind, payload), false, ALL).0;
      assert s.data != "" ==> got[..|got| - 1] == s.got;
      assert Total(got) == Read(s) && NoneEmpty(got);
      TotalOne(payload);
    }
  }

  lemma {:induction false} ManyPieces(text: string)
    requires !OneLine(text)
    ensures |Split(text)| >= 2
  {
    if text[0] != '\n' {
      assert text == [text[0]] + text[1..];
      ManyPieces(text[1..]);
    }
  }
}
