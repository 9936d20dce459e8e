/** What the event reader passes on, from the shape of the text alone: the lines
    between blank ones make an event, whose data lines are joined. */
module EventBlocks {
  import opened Text
  import opened EventReader

  // ----- lines

  /** The line without the carriage returns at its end, which are all that goes. */
  lemma {:induction false} TrimsReturns(line: string)
    ensures var kept := TrimReturns(line);
            && kept <= line && (kept != "" ==> kept[|kept| - 1] != '\r')
            && forall k :: |kept| <= k < |line| ==> line[k] == '\r'
  {
    if line != "" && line[|line| - 1] == '\r' {
      var before := line[..|line| - 1];
      TrimsReturns(before);
      assert forall k :: 0 <= k < |before| ==> line[k] == before[k];
    }
  }

  predicate Blank(line: string) {
    forall k :: 0 <= k < |line| ==> line[k] == '\r'
  }

  lemma BlankTrims(line: string)
    ensures Blank(line) <==> TrimReturns(line) == ""
  {
    var kept := TrimReturns(line);
    TrimsReturns(line);
    if kept != "" {
      assert line[|kept| - 1] == kept[|kept| - 1];
    }
  }

  /** The data of a line, if it is a data line: what follows "data:", less one space. */
  function ValueOf(line: string): seq<string> {
    var l := TrimReturns(line);
    if "data: " <= l then [l[6..]] else if "data:" <= l then [l[5..]] else []
  }

  function Values(lines: seq<string>): seq<string> {
    if lines == [] then [] else ValueOf(lines[0]) + Values(lines[1..])
  }

  // ----- blocks

  /** The lines between blank ones; what follows the last blank one ends them. */
  function Blocks(lines: seq<string>): (r: seq<seq<string>>)
    ensures |r| >= 1
  {
    if lines == [] then [[]]
    else
      var rest := Blocks(lines[1..]);
      if Blank(lines[0]) then [[]] + rest else [[lines[0]] + rest[0]] + rest[1..]
  }

  function WithoutEmptyStart(values: seq<string>): seq<string> {
    if values != [] && values[0] == "" then WithoutEmptyStart(values[1..]) else values
  }

  /** The data lines of an event joined by line breaks; empty ones at its start are
      dropped. */
  function Joined(values: seq<string>): string {
    var kept := WithoutEmptyStart(values);
    if kept == [] then "" else Join(kept)
  }

  /** The events the blocks make; a block without data makes none. */
  function EventsOf(blocks: seq<seq<string>>): seq<string> {
    if blocks == [] then []
    else
      var data := Joined(Values(blocks[0]));
      (if data == "" then [] else [data]) + EventsOf(blocks[1..])
  }

  /** The event at the end that no blank line finished. */
  function Unfinished(blocks: seq<seq<string>>): string
    requires blocks != []
  {
    Joined(Values(blocks[|blocks| - 1]))
  }

  // ----- the reader goes by blocks

  function Append(data: string, v: string): string {
    if data != "" then data + "\n" + v else v
  }

  function AppendAll(data: string, values: seq<string>): string
    decreases |values|
  {
    if values == [] then data else AppendAll(Append(data, values[0]), values[1..])
  }

  lemma LineTaken(s: State, line: string, callback: Callback)
    requires !s.stopped && !Blank(line)
    ensures TakeLine(s, line, callback) == State(AppendAll(s.data, ValueOf(line)), s.got, false)
  {
    BlankTrims(line);
    var l := TrimReturns(line);
    if DATA <= l {
      assert "data: " <= l <==> l[5..] != "" && l[5..][0] == ' ';
      assert "data: " <= l ==> l[5..][1..] == l[6..];
      assert AppendAll(s.data, ValueOf(line)) == Append(s.data, ValueOf(line)[0]);
    }
  }

  lemma {:induction false} AppendAllMore(data: string, x: seq<string>, y: seq<string>)
    ensures AppendAll(data, x + y) == AppendAll(AppendAll(data, x), y)
    decreases |x|
  {
    if x == [] {
      assert x + y == y;
    } else {
      assert (x + y)[1..] == x[1..] + y;
      AppendAllMore(Append(data, x[0]), x[1..], y);
    }
  }

  /** Reading block by block, with the data read so far of the first. */
  function TakeBlocks(data: string, got: seq<string>, blocks: seq<seq<string>>, callback: Callback): State
    requires blocks != []
    decreases |blocks|
  {
    var all := AppendAll(data, Values(blocks[0]));
    if |blocks| == 1 then State(all, got, false)
    else if all == "" then TakeBlocks("", got, blocks[1..], callback)
    else if callback(got + [all]) then TakeBlocks("", got + [all], blocks[1..], callback)
    else State(all, got + [all], true)
  }

  lemma OneLineFirst(data: string, got: seq<string>, line: string, blocks: seq<seq<string>>, callback: Callback)
    requires blocks != []
    ensures TakeBlocks(data, got, [[line] + blocks[0]] + blocks[1..], callback)
            == TakeBlocks(AppendAll(data, ValueOf(line)), got, blocks, callback)
  {
    var first := [line] + blocks[0];
    assert first[1..] == blocks[0] && ([first] + blocks[1..])[1..] == blocks[1..];
    assert Values(first) == ValueOf(line) + Values(blocks[0]);
    AppendAllMore(data, ValueOf(line), Values(blocks[0]));
  }

  lemma {:induction false} ReadsByBlocks(data: string, got: seq<string>, lines: seq<string>, callback: Callback)
    ensures TakeLines(State(data, got, false), lines, callback) == TakeBlocks(data, got, Blocks(lines), callback)
    decreases |lines|
  {
    if lines != [] {
      var rest := lines[1..];
      if Blank(lines[0]) {
        BlankTrims(lines[0]);
        assert ([[]] + Blocks(rest))[1..] == Blocks(rest);
        assert AppendAll(data, Values([])) == data;
        if data == "" {
          ReadsByBlocks("", got, rest, callback);
        } else if callback(got + [data]) {
          ReadsByBlocks("", got + [data], rest, callback);
        }
      } else {
        var taken := AppendAll(data, ValueOf(lines[0]));
        LineTaken(State(data, got, false), lines[0], callback);
        ReadsByBlocks(taken, got, rest, callback);
        OneLineFirst(data, got, lines[0], Blocks(rest), callback);
      }
    }
  }

  lemma {:induction false} JoinedAppends(values: seq<string>)
    ensures AppendAll("", values) == Joined(values)
  {
    if values != [] {
      if values[0] == "" {
        JoinedAppends(values[1..]);
      } else {
        JoinAppends(values[0], values[1..]);
        assert [values[0]] + values[1..] == values;
      }
    }
  }

  lemma {:induction false} JoinAppends(data: string, values: seq<string>)
    requires data != ""
    ensures AppendAll(data, values) == Join([data] + values)
    decreases |values|
  {
    if values != [] {
      JoinAppends(data + "\n" + values[0], values[1..]);
      JoinFirstTwo(data, values[0], values[1..]);
      assert [data] + values == [data, values[0]] + values[1..];
    }
  }

  lemma JoinFirstTwo(x: string, y: string, rest: seq<string>)
    ensures Join([x + "\n" + y] + rest) == Join([x, y] + rest)
  {
    assert ([x, y] + rest)[1..] == [y] + rest && ([y] + rest)[1..] == rest;
    if rest != [] {
      assert ([x + "\n" + y] + rest)[1..] == rest;
      assert x + "\n" + y + "\n" + Join(rest) == x + "\n" + (y + "\n" + Join(rest));
    }
  }

  /** Some event that was passed on stopped the reading. */
  predicate Stops(got: seq<string>, events: seq<string>, callback: Callback)
    decreases |events|
  {
    events != [] && (!callback(got + [events[0]]) || Stops(got + [events[0]], events[1..], callback))
  }

  lemma {:induction false} BlocksPassOn(got: seq<string>, blocks: seq<seq<string>>, callback: Callback)
    requires blocks != []
    ensures var s, finished := TakeBlocks("", got, blocks, callback), EventsOf(blocks[..|blocks| - 1]);
            && s.got == UntilStopped(got, finished, callback)
            && (s.stopped <==> Stops(got, finished, callback))
            && (!s.stopped ==> s.data == Unfinished(blocks))
    decreases |blocks|
  {
    JoinedAppends(Values(blocks[0]));
    if |blocks| > 1 {
      var data, finished := Joined(Values(blocks[0])), blocks[..|blocks| - 1];
      assert finished[1..] == blocks[1..][..|blocks| - 2] && finished[0] == blocks[0];
      if data == "" {
        BlocksPassOn(got, blocks[1..], callback);
        assert [] + EventsOf(finished[1..]) == EventsOf(finished[1..]);
      } else {
        assert ([data] + EventsOf(finished[1..]))[1..] == EventsOf(finished[1..]);
        if callback(got + [data]) {
          BlocksPassOn(got + [data], blocks[1..], callback);
        }
      }
    }
  }

  lemma EndsWith(s: State, failed: bool)
    ensures AtEnd(s, failed) ==
            if s.stopped || failed || s.data == "" then (s.got, failed && !s.stopped) else (s.got + [s.data], false)
  {
  }

  lemma InputByBlocks(input: string, failed: bool, callback: Callback)
    ensures Events(input, failed, callback) == AtEnd(TakeBlocks("", [], Blocks(Split(input)), callback), failed)
  {
    ReadsByBlocks("", [], Split(input), callback);
  }

  /** What the blocks of a text make the reader pass on, and whether it ends in an error. */
  function PassedOn(finished: seq<string>, last: string, failed: bool, callback: Callback): (seq<string>, bool) {
    if Stops([], finished, callback) || failed || last == ""
    then (UntilStopped([], finished, callback), failed && !Stops([], finished, callback))
    else (UntilStopped([], finished, callback) + [last], false)
  }

  /** What is passed on of any text: the events of its blocks in order, each once, up to
      where the callback stops; and if it does not, the one no blank line finished, unless
      the connection failed there, which is the one error. */
  lemma PassesOnBlocks(input: string, blocks: seq<seq<string>>, failed: bool, callback: Callback)
    requires blocks == Blocks(Split(input))
    ensures Events(input, failed, callback) == PassedOn(EventsOf(blocks[..|blocks| - 1]), Unfinished(blocks), failed, callback)
  {
    InputByBlocks(input, failed, callback);
    BlocksPassOn([], blocks, callback);
    EndsWith(TakeBlocks("", [], blocks, callback), failed);
  }
}
