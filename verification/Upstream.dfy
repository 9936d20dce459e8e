/** Request bodies: the HTTP request a websocket message stands for, and the
    input items other models left that an upstream cannot read. */
module Upstream {
  import opened Options

  /** A part of an agent message: text, or a payload in an encrypted part. */
  datatype Part = TextPart(text: string) | EncryptedPart(payload: string)

  /** An input item. A summary message is the user message the router makes of a
      plain compaction summary: a fixed opening, then its text. What no rule
      touches stays opaque. */
  datatype Item =
    | AgentMessage(parts: Option<seq<Part>>)
    | Reasoning(encrypted: string)
    | Compaction(encrypted: string)
    | SummaryMessage(text: string)
    | OtherItem(raw: string)

  /** Whether a string is ciphertext of OpenAI's. */
  type Sealed = string -> bool

  /** A request body: its input items, when they can be read, and its other fields. */
  datatype Body = Body(input: Option<seq<Item>>, fields: map<string, string>)

  const TYPE := "type"
  const PREVIOUS := "previous_response_id"
  const GENERATE := "generate"
  const STREAM := "stream"

  predicate WebsocketOnly(key: string) {
    key == TYPE || key == PREVIOUS || key == GENERATE
  }

  // ----- the request a message stands for

  function FieldOr(b: Body, key: string, missing: string): string {
    if key in b.fields then b.fields[key] else missing
  }

  /** The response a message continues, or none. */
  function PreviousOf(b: Body): string {
    FieldOr(b, PREVIOUS, "")
  }

  /** A null says no as well: it reads as a boolean, and leaves it false. */
  predicate Generates(b: Body) {
    FieldOr(b, GENERATE, "true") != "false" && FieldOr(b, GENERATE, "true") != "null"
  }

  /** The HTTP request: its input follows the items before it, and the fields
      only a websocket has go. Nothing when the input cannot be read. */
  function Standalone(b: Body, before: seq<Item>): Option<Body> {
    match b.input
    case None => None
    case Some(items) => Some(Body(Some(before + items), (b.fields - {TYPE, PREVIOUS, GENERATE})[STREAM := "true"]))
  }

  /** Apart from what only a websocket has, and streaming, the two say the same. */
  ghost predicate SaysTheRest(b: Body, request: Body) {
    forall key :: key != STREAM && !WebsocketOnly(key) ==>
      (key in request.fields <==> key in b.fields) && (key in b.fields ==> request.fields[key] == b.fields[key])
  }

  /** The request a message stands for continues nothing, generates, streams,
      and says everything else the message said. */
  lemma StandaloneStandsAlone(b: Body, before: seq<Item>)
    requires b.input.Some?
    ensures var r := Standalone(b, before);
            && r.Some? && PreviousOf(r.value) == "" && Generates(r.value) && FieldOr(r.value, STREAM, "") == "true"
            && r.value.input == Some(before + b.input.value)
            && SaysTheRest(b, r.value)
  {
    assert TYPE[0] == 't' && PREVIOUS[0] == 'p' && GENERATE[0] == 'g' && STREAM[0] == 's';
  }

  // ----- rewriting items

  /** What a rule makes of an item: leaves it, replaces it, or cannot read it. */
  datatype Verdict = Leave | Replace(items: seq<Item>) | Unreadable

  type Rule = Item -> Verdict

  predicate Readable(rule: Rule, items: seq<Item>) {
    forall k :: 0 <= k < |items| ==> rule(items[k]) != Unreadable
  }

  predicate LeavesAll(rule: Rule, items: seq<Item>) {
    forall k :: 0 <= k < |items| ==> rule(items[k]) == Leave
  }

  /** The items with each one the rule replaces replaced, in place. */
  function Rewritten(rule: Rule, items: seq<Item>): seq<Item> {
    if items == [] then []
    else
      var last := items[|items| - 1];
      Rewritten(rule, items[..|items| - 1]) + match rule(last) case Replace(new') => new' case _ => [last]
  }

  /** Rewrites a body's input; an input or item that cannot be read is an error. */
  method Transform(b: Body, rule: Rule) returns (out: Body, changed: bool, error: bool)
    ensures error <==> b.input == None || !Readable(rule, b.input.value)
    ensures error ==> out == b && !changed
    ensures !error ==> (changed <==> !LeavesAll(rule, b.input.value))
    ensures !error ==> out == b.(input := Some(Rewritten(rule, b.input.value)))
  {
    if b.input == None {
      return b, false, true;
    }
    var items, new' := b.input.value, [];
    changed := false;
    for k := 0 to |items|
      invariant Readable(rule, items[..k])
      invariant changed <==> !LeavesAll(rule, items[..k])
      invariant new' == Rewritten(rule, items[..k])
    {
      assert items[..k + 1][..k] == items[..k];
      var verdict := rule(items[k]);
      assert items[..k + 1][k] == items[k];
      match verdict {
        case Unreadable =>
          return b, false, true;
        case Leave =>
          new' := new' + [items[k]];
        case Replace(with) =>
          changed := true;
          new' := new' + with;
      }
    }
    assert items[..|items|] == items;
    if !changed {
      LeftAlone(rule, items);
      return b, false, false;
    }
    return b.(input := Some(new')), true, false;
  }

  lemma {:induction false} LeftAlone(rule: Rule, items: seq<Item>)
    requires LeavesAll(rule, items)
    ensures Rewritten(rule, items) == items
  {
    if items != [] {
      var before, last := items[..|items| - 1], items[|items| - 1];
      LeftAlone(rule, before);
      assert rule(last) == Leave && items == before + [last];
    }
  }

  /** A rule whose replacements it leaves alone has nothing left to do after one
      pass. */
  lemma {:induction false} OnePassIsEnough(rule: Rule, items: seq<Item>)
    requires Readable(rule, items)
    requires forall it :: rule(it).Replace? ==> LeavesAll(rule, rule(it).items)
    ensures LeavesAll(rule, Rewritten(rule, items))
  {
    if items != [] {
      OnePassIsEnough(rule, items[..|items| - 1]);
    }
  }

  // ----- for OpenAI

  function Retyped(sealed: Sealed, parts: seq<Part>): (r: seq<Part>)
    ensures |r| == |parts|
  {
    seq(|parts|, k requires 0 <= k < |parts| =>
      if parts[k].EncryptedPart? && !sealed(parts[k].payload) then TextPart(parts[k].payload) else parts[k])
  }

  /** What other models left that OpenAI cannot read: plain payloads in
      encrypted parts, reasoning without ciphertext, plain summaries. */
  function NativeRule(sealed: Sealed): Rule {
    (it: Item) =>
      match it
      case AgentMessage(None) => Unreadable
      case AgentMessage(Some(parts)) =>
        if Retyped(sealed, parts) == parts then Leave else Replace([AgentMessage(Some(Retyped(sealed, parts)))])
      case Reasoning(text) => if sealed(text) then Leave else Replace([])
      case Compaction(text) => if sealed(text) then Leave else Replace([SummaryMessage(text)])
      case _ => Leave
  }

  /** Everything encrypted in the item is OpenAI's. */
  predicate OnlySealed(sealed: Sealed, it: Item) {
    match it
    case AgentMessage(Some(parts)) => forall k :: 0 <= k < |parts| && parts[k].EncryptedPart? ==> sealed(parts[k].payload)
    case AgentMessage(None) => false
    case Reasoning(text) => sealed(text)
    case Compaction(text) => sealed(text)
    case _ => true
  }

  /** The rule leaves exactly the items in which everything encrypted is OpenAI's, and
      cannot read exactly the agent messages without content. */
  lemma LeavesOnlySealed(sealed: Sealed, it: Item)
    ensures NativeRule(sealed)(it) == Leave <==> OnlySealed(sealed, it)
    ensures NativeRule(sealed)(it) == Unreadable <==> it == AgentMessage(None)
  {
    if it.AgentMessage? && it.parts.Some? {
      var parts := it.parts.value;
      if OnlySealed(sealed, it) {
        assert Retyped(sealed, parts) == parts;
      } else {
        var k :| 0 <= k < |parts| && parts[k].EncryptedPart? && !sealed(parts[k].payload);
        assert Retyped(sealed, parts)[k] != parts[k];
      }
    }
  }

  /** Rewriting for OpenAI leaves Codex's own requests as they are, leaves
      nothing OpenAI cannot read, and twice is once. */
  lemma NativeAfterOnePass(sealed: Sealed, items: seq<Item>)
    requires Readable(NativeRule(sealed), items)
    ensures var rule := NativeRule(sealed);
            && (LeavesAll(rule, items) <==> forall k :: 0 <= k < |items| ==> OnlySealed(sealed, items[k]))
            && (forall k :: 0 <= k < |Rewritten(rule, items)| ==> OnlySealed(sealed, Rewritten(rule, items)[k]))
            && Rewritten(rule, Rewritten(rule, items)) == Rewritten(rule, items)
  {
    var rule := NativeRule(sealed);
    forall it ensures rule(it) == Leave <==> OnlySealed(sealed, it) {
      LeavesOnlySealed(sealed, it);
    }
    forall it | rule(it).Replace? ensures LeavesAll(rule, rule(it).items) {
      ReplacementSealed(sealed, it);
    }
    OnePassIsEnough(rule, items);
    LeftAlone(rule, Rewritten(rule, items));
  }

  lemma ReplacementSealed(sealed: Sealed, it: Item)
    requires NativeRule(sealed)(it).Replace?
    ensures LeavesAll(NativeRule(sealed), NativeRule(sealed)(it).items)
  {
    var items := NativeRule(sealed)(it).items;
    if it.AgentMessage? {
      var parts := Retyped(sealed, it.parts.value);
      assert items == [AgentMessage(Some(parts))] && OnlySealed(sealed, items[0]);
    }
    forall k | 0 <= k < |items| ensures NativeRule(sealed)(items[k]) == Leave {
      LeavesOnlySealed(sealed, items[k]);
    }
  }

  // ----- what the items say

  /** A piece of an agent message: plain text, wherever it stands, or ciphertext. */
  datatype Piece = Plain(text: string) | Cipher(payload: string)

  /** What an item says to a reader without OpenAI's keys. */
  datatype Saying =
    | Tells(pieces: seq<Piece>)
    | Thinks(cipher: string)
    | Seals(cipher: string)
    | SumsUp(text: string)
    | Keeps(raw: string)
    | Unclear

  function PieceOf(sealed: Sealed, part: Part): Piece {
    match part
    case TextPart(text) => Plain(text)
    case EncryptedPart(payload) => if sealed(payload) then Cipher(payload) else Plain(payload)
  }

  function PiecesOf(sealed: Sealed, parts: seq<Part>): (r: seq<Piece>)
    ensures |r| == |parts|
  {
    seq(|parts|, k requires 0 <= k < |parts| => PieceOf(sealed, parts[k]))
  }

  /** Reasoning without ciphertext says nothing to OpenAI. */
  function SayingOf(sealed: Sealed, it: Item): Option<Saying> {
    match it
    case AgentMessage(None) => Some(Unclear)
    case AgentMessage(Some(parts)) => Some(Tells(PiecesOf(sealed, parts)))
    case Reasoning(text) => if sealed(text) then Some(Thinks(text)) else None
    case Compaction(text) => if sealed(text) then Some(Seals(text)) else Some(SumsUp(text))
    case SummaryMessage(text) => Some(SumsUp(text))
    case OtherItem(raw) => Some(Keeps(raw))
  }

  function Sayings(sealed: Sealed, items: seq<Item>): seq<Saying> {
    if items == [] then []
    else
      var last := SayingOf(sealed, items[|items| - 1]);
      Sayings(sealed, items[..|items| - 1]) + if last.Some? then [last.value] else []
  }

  lemma SayingsMore(sealed: Sealed, items: seq<Item>, last: Item)
    ensures Sayings(sealed, items + [last]) ==
            Sayings(sealed, items) + match SayingOf(sealed, last) case Some(saying) => [saying] case None => []
  {
    assert (items + [last])[..|items|] == items;
  }

  /** What replaces an item says what the item said. */
  lemma ReplacementSays(sealed: Sealed, it: Item)
    requires NativeRule(sealed)(it).Replace?
    ensures var with := NativeRule(sealed)(it).items;
            if SayingOf(sealed, it) == None then with == []
            else |with| == 1 && SayingOf(sealed, with[0]) == SayingOf(sealed, it)
  {
    if it.AgentMessage? {
      var parts := it.parts.value;
      assert PiecesOf(sealed, Retyped(sealed, parts)) == PiecesOf(sealed, parts);
    }
  }

  /** Rewriting for OpenAI loses no word: every plain payload, every summary and all
      ciphertext is still there, in its own item and in order, and reasoning without
      ciphertext is all that goes. */
  lemma {:induction false} RewritingKeepsSayings(sealed: Sealed, items: seq<Item>)
    ensures Sayings(sealed, Rewritten(NativeRule(sealed), items)) == Sayings(sealed, items)
  {
    if items != [] {
      var rule, before, last := NativeRule(sealed), items[..|items| - 1], items[|items| - 1];
      RewritingKeepsSayings(sealed, before);
      if rule(last).Replace? {
        ReplacementSays(sealed, last);
        AppendedSays(sealed, Rewritten(rule, before), last, rule(last).items);
      } else {
        SayingsMore(sealed, Rewritten(rule, before), last);
      }
    }
  }

  lemma AppendedSays(sealed: Sealed, before: seq<Item>, last: Item, with: seq<Item>)
    requires if SayingOf(sealed, last) == None then with == []
             else |with| == 1 && SayingOf(sealed, with[0]) == SayingOf(sealed, last)
    ensures Sayings(sealed, before + with) ==
            Sayings(sealed, before) + match SayingOf(sealed, last) case Some(saying) => [saying] case None => []
  {
    if with == [] {
      assert before + with == before;
    } else {
      assert with == [with[0]];
      SayingsMore(sealed, before, with[0]);
    }
  }
}
