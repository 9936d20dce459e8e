/** The session of one Codex thread, as the steps its lock makes of it: Codex
    requests, Claude's events and MCP calls take turns on the same state. */
module Session {
  import opened Options
  import Seen

  type StreamId = nat
  type ChannelId = nat
  type Item = Seen.Item

  /** What the bridge knows of the outside: the content hash, the slash command a
      message is if it is one, the blocks an item becomes, an agent message's text, and
      the text that presents results of a lost turn. */
  datatype Env = Env(
    hash: Seen.Hash,
    command: Item -> Option<string>,
    blocks: Item -> seq<string>,
    mailText: Item -> string,
    orphanText: seq<Item> -> string)

  /** Who handles a tool call. */
  datatype Kind = Codex | Search | Reject | Display | Internal

  /** A tool result, with the agent messages that arrived with it, or an error. */
  datatype Result = Result(output: string, mail: seq<string>, error: bool)

  const CANCELLED := Result("", [], true)

  /** The one-slot channel an MCP call waits on: the call's id, what it holds, and
      how often it was sent to. */
  datatype Channel = Channel(owner: string, holds: seq<Result>, sends: nat)

  /** An MCP call past its first step: waiting, holding the result it received,
      leaving because Claude hung up, or answered. */
  datatype Caller = Waiting(id: string) | Holding(id: string) | Leaving(id: string) | Answered

  datatype Compaction = Compaction(stream: StreamId, done: bool)

  /** What goes to Claude. */
  datatype ToClaude = Blocks(blocks: seq<string>) | Command(text: string) | Nudge

  /** What a completion reported. */
  datatype Report = Report(stream: StreamId, output: int, reasoning: int)

  /** What is on disk. */
  datatype Saved = Saved(turnOpen: bool, awaiting: set<string>, ids: seq<string>, hashes: seq<string>)

  datatype Delivery = History | Delivered | Queued | Orphaned

  /** What happened to a call id: Claude began to await it, or a result came. */
  datatype Mark = Entered(id: string) | Came(id: string, delivery: Delivery)

  /** The tool-call router: the calls Codex was asked for, the MCP calls waiting
      for their results, the results waiting for their MCP calls, the decisions
      taken, and the calls of the message being streamed. */
  datatype Router = Router(
    awaiting: set<string>,
    pending: map<string, ChannelId>,
    queued: map<string, Result>,
    decisions: map<string, Kind>,
    channels: map<ChannelId, Channel>,
    callers: map<ChannelId, Caller>,
    nextChannel: ChannelId,
    message: Option<seq<string>>,
    marks: seq<Mark>)

  /** The Claude process and its turn. */
  datatype Turn = Turn(
    alive: bool,
    running: bool,
    interrupted: bool,
    strict: bool,
    stopping: bool,
    compaction: Option<Compaction>,
    held: seq<string>,
    sent: seq<ToClaude>,
    nudges: nat)

  /** The Codex streams: the open one, all there were, those that finished, the
      requests that wait for another effort level, the token counts, and what was
      told: the completions with their counts, and the failures. */
  datatype Streams = Streams(
    open: Option<StreamId>,
    served: set<StreamId>,
    finished: set<StreamId>,
    switching: map<StreamId, seq<Item>>,
    output: int,
    reasoning: int,
    reports: seq<Report>,
    failures: seq<StreamId>)

  /** What Claude has, and what is on disk. */
  datatype Disk = Disk(seen: Seen.State, saved: Saved, savedHere: bool)

  datatype State = State(router: Router, turn: Turn, streams: Streams, disk: Disk)

  const NO_CALLS := Router({}, map[], map[], map[], map[], map[], 0, None, [])
  const NO_STREAMS := Streams(None, {}, {}, map[], 0, 0, [], [])

  /** A session made from what is on disk. */
  function Load(saved: Saved): State {
    State(NO_CALLS.(awaiting := saved.awaiting),
          Turn(true, false, saved.turnOpen, false, false, None, [], [], 0),
          NO_STREAMS,
          Disk(Seen.Load(saved.ids, saved.hashes), saved, false))
  }

  // ----- streams

  function Complete(t: Streams): Streams {
    match t.open
    case None => t
    case Some(st) =>
      t.(open := None, finished := t.finished + {st}, output := 0, reasoning := 0,
         reports := if st in t.finished then t.reports else t.reports + [Report(st, t.output, t.reasoning)])
  }

  function Fail(t: Streams): Streams {
    match t.open
    case None => t
    case Some(st) =>
      t.(open := None, finished := t.finished + {st}, output := 0, reasoning := 0,
         failures := if st in t.finished then t.failures else t.failures + [st])
  }

  function OpenStream(t: Streams, st: StreamId): Streams {
    t.(open := Some(st), served := t.served + {st}, output := 0, reasoning := 0,
       finished := if t.open.Some? then t.finished + {t.open.value} else t.finished)
  }

  function Failed(s: State): State {
    s.(streams := Fail(s.streams))
  }

  // ----- saving and sending

  function Save(s: State): State {
    var seen := s.disk.seen;
    s.(disk := Disk(seen, Saved(s.turn.running, s.router.awaiting, Seen.Newest(seen.ids, Seen.MAX_SEEN), Seen.Newest(seen.hashes, Seen.MAX_SEEN)), true))
  }

  predicate Takes(s: State, sends: bool) {
    s.turn.alive && sends
  }

  /** Sends to Claude, when it runs and takes it: the turn is open from then on. */
  function SendUser(s: State, m: ToClaude, sends: bool): State {
    if Takes(s, sends) then Save(s.(turn := s.turn.(running := true, sent := s.turn.sent + [m]))) else s
  }

  // ----- tool results

  function Send(c: Channel, r: Result): Channel {
    c.(holds := c.holds + [r], sends := c.sends + 1)
  }

  predicate PendingOn(r: Router, c: ChannelId) {
    c in r.channels && r.channels[c].owner in r.pending && r.pending[r.channels[c].owner] == c
  }

  /** The channels once the calls that wait on them are cancelled, but for those
      left. */
  function CancelledExcept(r: Router, left: set<string>): map<ChannelId, Channel> {
    map c | c in r.channels ::
      if PendingOn(r, c) && r.channels[c].owner !in left then Send(r.channels[c], CANCELLED) else r.channels[c]
  }

  /** Answers every waiting MCP call with an error. */
  function CancelPending(r: Router): Router {
    r.(channels := CancelledExcept(r, {}),
       awaiting := r.awaiting - r.pending.Keys,
       decisions := r.decisions - r.pending.Keys,
       pending := map[])
  }

  function Interrupt(r: Router): Router {
    CancelPending(r).(awaiting := {})
  }

  /** Whether a result for the call reaches the turn that asked for it. */
  predicate Resumes(r: Router, running: bool, id: string) {
    id in r.awaiting && (id in r.pending || running)
  }

  /** Where a result for the call goes. */
  function Destination(r: Router, running: bool, id: string): Delivery {
    if id !in r.awaiting then History else if id in r.pending then Delivered else if running then Queued else Orphaned
  }

  /** Routes one tool result. */
  function Deliver(r: Router, running: bool, id: string, result: Result): Router {
    var d := Destination(r, running, id);
    var after := r.(awaiting := r.awaiting - {id}, marks := r.marks + [Came(id, d)]);
    match d
    case Delivered =>
      var c := r.pending[id];
      after.(pending := r.pending - {id},
             channels := if c in r.channels then r.channels[c := Send(r.channels[c], result)] else r.channels)
    case Queued => after.(queued := r.queued[id := result])
    case _ => after
  }

  // ----- one Codex request

  /** The last output that reaches Claude's turn, or -1. */
  function Carrier(r: Router, running: bool, outputs: seq<Item>): (c: int)
    ensures -1 <= c < |outputs|
  {
    if outputs == [] then -1
    else if Resumes(r, running, outputs[|outputs| - 1].callId) then |outputs| - 1
    else Carrier(r, running, outputs[..|outputs| - 1])
  }

  function MailOf(env: Env, messages: seq<Item>): seq<string> {
    if messages == [] then []
    else MailOf(env, messages[..|messages| - 1])
         + if messages[|messages| - 1].kind == Seen.AgentMessage then [env.mailText(messages[|messages| - 1])] else []
  }

  function WithoutMail(messages: seq<Item>): seq<Item> {
    if messages == [] then []
    else WithoutMail(messages[..|messages| - 1])
         + if messages[|messages| - 1].kind == Seen.AgentMessage then [] else [messages[|messages| - 1]]
  }

  /** The result made of output i: the carrier brings the mail. */
  function ResultOf(outputs: seq<Item>, i: nat, carrier: int, mail: seq<string>): Result
    requires i < |outputs|
  {
    Result(outputs[i].raw, if i == carrier then mail else [], false)
  }

  /** The router once the first n outputs are routed, in order. */
  function DeliverAll(r: Router, running: bool, outputs: seq<Item>, n: nat, carrier: int, mail: seq<string>): Router
    requires n <= |outputs|
  {
    if n == 0 then r
    else Deliver(DeliverAll(r, running, outputs, n - 1, carrier, mail), running, outputs[n - 1].callId,
                 ResultOf(outputs, n - 1, carrier, mail))
  }

  /** Where output i goes, after those before it. */
  function WentTo(r: Router, running: bool, outputs: seq<Item>, i: nat, carrier: int, mail: seq<string>): Delivery
    requires i < |outputs|
  {
    Destination(DeliverAll(r, running, outputs, i, carrier, mail), running, outputs[i].callId)
  }

  /** Those of the first n outputs whose turn was lost. */
  function Orphans(r: Router, running: bool, outputs: seq<Item>, n: nat, carrier: int, mail: seq<string>): seq<Item>
    requires n <= |outputs|
  {
    if n == 0 then []
    else Orphans(r, running, outputs, n - 1, carrier, mail)
         + if WentTo(r, running, outputs, n - 1, carrier, mail) == Orphaned then [outputs[n - 1]] else []
  }

  function BlocksOf(env: Env, messages: seq<Item>): seq<string> {
    if messages == [] then []
    else BlocksOf(env, messages[..|messages| - 1]) + env.blocks(messages[|messages| - 1])
  }

  /** Whether the request ends in a slash command. */
  predicate EndsInCommand(env: Env, messages: seq<Item>) {
    messages != [] && env.command(messages[|messages| - 1]).Some?
  }

  function BeforeCommand(env: Env, messages: seq<Item>): seq<Item> {
    if EndsInCommand(env, messages) then messages[..|messages| - 1] else messages
  }

  function NewBlocks(env: Env, messages: seq<Item>, orphans: seq<Item>): seq<string> {
    (if orphans != [] then [env.orphanText(orphans)] else []) + BlocksOf(env, BeforeCommand(env, messages))
  }

  /** What goes to Claude, if anything. */
  function Outgoing(t: Turn, env: Env, messages: seq<Item>, orphans: seq<Item>, resumed: bool): Option<ToClaude> {
    if EndsInCommand(env, messages) then Some(Command(env.command(messages[|messages| - 1]).value))
    else if NewBlocks(env, messages, orphans) != [] then Some(Blocks(t.held + NewBlocks(env, messages, orphans)))
    else if resumed || t.running then None
    else if t.interrupted then Some(Nudge)
    else None
  }

  /** Blocks before a command are held back until it is done; everything else
      that goes to Claude takes along what was held and settles an interruption. */
  function Readied(t: Turn, env: Env, messages: seq<Item>, orphans: seq<Item>, resumed: bool): Turn {
    match Outgoing(t, env, messages, orphans, resumed)
    case Some(Command(_)) => t.(held := t.held + NewBlocks(env, messages, orphans))
    case Some(Blocks(_)) => t.(held := [], interrupted := false)
    case Some(Nudge) => t.(interrupted := false, nudges := t.nudges + 1)
    case None => t
  }

  /** Sends new messages to Claude, as a command, as blocks or not at all. */
  function SendOn(s: State, env: Env, messages: seq<Item>, orphans: seq<Item>, resumed: bool, sends: bool): State {
    var ready := s.(turn := Readied(s.turn, env, messages, orphans, resumed));
    match Outgoing(s.turn, env, messages, orphans, resumed)
    case Some(m) => if Takes(ready, sends) then SendUser(ready, m, sends) else Failed(ready)
    case None => if resumed || ready.turn.running then ready else Failed(ready)
  }

  /** What is left to do once the outputs are routed: a new message instead of a
      result cancels the calls that wait, and the new messages go to Claude. */
  function PassOn(s: State, env: Env, messages: seq<Item>, orphans: seq<Item>, resumed: bool, sends: bool): State {
    SendOn(if messages != [] && s.router.pending != map[] && !resumed then s.(router := CancelPending(s.router)) else s,
           env, messages, orphans, resumed, sends)
  }

  function MessagesOf(s: State, env: Env, items: seq<Item>): seq<Item> {
    var places := Seen.Passing(env.hash, items, |items|, s.disk.seen, s.turn.strict);
    Seen.PassingPlaces(env.hash, items, |items|, s.disk.seen, s.turn.strict);
    Seen.At(items, places)
  }

  function OutputsOf(items: seq<Item>): seq<Item> {
    Seen.OutputPlaces(items, |items|);
    Seen.At(items, Seen.Outputs(items, |items|))
  }

  /** The session once it has looked at a request's items. */
  function LookedAt(s: State, env: Env, items: seq<Item>): State {
    s.(disk := s.disk.(seen := Seen.SeenAfter(env.hash, items, |items|, s.disk.seen)))
  }

  /** Routes a request's outputs, with new mail on the carrier, and passes the
      other new messages on. */
  function RouteRequest(s: State, env: Env, messages: seq<Item>, outputs: seq<Item>, sends: bool): State {
    var r, running := s.router, s.turn.running;
    var carrier := Carrier(r, running, outputs);
    var resumed := carrier >= 0;
    var mail := if resumed then MailOf(env, messages) else [];
    PassOn(s.(router := DeliverAll(r, running, outputs, |outputs|, carrier, mail)), env,
           if resumed then WithoutMail(messages) else messages,
           Orphans(r, running, outputs, |outputs|, carrier, mail), resumed, sends)
  }

  /** Passes what is new in a request to Claude. */
  function TakeRequest(s: State, env: Env, items: seq<Item>, sends: bool): State {
    var looked := LookedAt(s, env, items);
    RouteRequest(looked.(turn := looked.turn.(strict := false)), env, MessagesOf(s, env, items), OutputsOf(items), sends)
  }

  /** Answers a compaction Codex asks for on its open stream. */
  function Compact(s: State, env: Env, items: seq<Item>, st: StreamId, sends: bool): State {
    var s1 := LookedAt(s, env, items);
    if s1.turn.running then s1.(streams := Complete(s1.streams), turn := s1.turn.(strict := true))
    else if Takes(s1, sends) then
      SendUser(s1.(turn := s1.turn.(compaction := Some(Compaction(st, false)))), Command("/compact"), sends)
    else Failed(s1.(turn := s1.turn.(compaction := None)))
  }

  // ----- steps

  datatype Action =
    | Serve(st: StreamId, items: seq<Item>, compacts: bool, changesEffort: bool, sends: bool)
    | Resume(st: StreamId, started: bool, sends: bool)
    | Disconnect(st: StreamId)
    | WriteFails(st: StreamId)
    | MessageStart
    | RecordCall(id: string, kind: Kind)
    | MessageDelta(output: int, reasoning: int)
    | MessageStop
    | Compacted
    | FinishTurn(success: bool)
    | CallTool(id: string, kind: Kind)
    | Receive(c: ChannelId)
    | Answer(c: ChannelId)
    | HangUp(c: ChannelId)
    | Leave(c: ChannelId)
    | Watchdog
    | ProcessExits
    | Close
    | Shutdown

  /** Takes one request up to where it may have to wait for another effort level. */
  function ServeStep(s: State, env: Env, a: Action): State
    requires a.Serve?
  {
    var s1 := s.(streams := OpenStream(s.streams, a.st));
    if a.compacts then Compact(s1, env, a.items, a.st, a.sends)
    else if a.changesEffort && !s1.turn.running && s1.router.pending == map[] then
      if !s1.turn.alive then Failed(s1)
      else s1.(turn := s1.turn.(alive := false),
               streams := s1.streams.(switching := s1.streams.switching[a.st := a.items]))
    else TakeRequest(s1, env, a.items, a.sends)
  }

  /** Goes on once Claude has been restarted with the new effort level. */
  function ResumeStep(s: State, env: Env, a: Action): State
    requires a.Resume?
  {
    if a.st !in s.streams.switching then s
    else
      var items := s.streams.switching[a.st];
      var s1 := s.(streams := s.streams.(switching := s.streams.switching - {a.st}));
      if !a.started then Failed(s1)
      else
        var s2 := s1.(turn := s1.turn.(alive := true));
        if s2.streams.open != Some(a.st) then s2 else TakeRequest(s2, env, items, a.sends)
  }

  /** The decision on a call, taken once, and the router then. */
  function Decided(r: Router, id: string, kind: Kind): (Kind, Router) {
    if id in r.decisions && id != "" then (r.decisions[id], r)
    else (kind, if id != "" then r.(decisions := r.decisions[id := kind]) else r)
  }

  function Undecide(r: Router, id: string): Router {
    r.(decisions := r.decisions - {id})
  }

  function RecordStep(r: Router, id: string, kind: Kind): Router {
    var (k, r1) := Decided(r, id, kind);
    match k
    case Display => Undecide(r1, id)
    case Internal => Undecide(r1, id)
    case Codex => if r1.message == None then r1 else r1.(message := Some(r1.message.value + [id]))
    case _ => r1
  }

  function EnteredAll(ids: seq<string>): seq<Mark> {
    if ids == [] then [] else EnteredAll(ids[..|ids| - 1]) + [Entered(ids[|ids| - 1])]
  }

  function Await(r: Router, ids: seq<string>): Router {
    r.(awaiting := r.awaiting + (set id | id in ids), marks := r.marks + EnteredAll(ids))
  }

  /** Hands the finished message's calls to Codex. */
  function FlushStep(s: State): State {
    var message := s.router.message;
    var s1 := s.(router := s.router.(message := None));
    if message == None || message.value == [] || s1.streams.open == None then s1
    else Save(s1.(router := Await(s1.router, message.value), streams := Complete(s1.streams)))
  }

  /** The end of a turn, once it is recorded, for the stream that waits for it. */
  function SettleTurn(s: State, success: bool): State {
    match s.turn.compaction
    case None => s.(streams := if success then Complete(s.streams) else Fail(s.streams))
    case Some(c) =>
      var t := s.turn.(compaction := None);
      if s.streams.open != Some(c.stream) then s.(turn := t.(strict := true))
      else if !c.done && !success then s.(turn := t, streams := Fail(s.streams))
      else s.(turn := t.(strict := true), streams := Complete(s.streams))
  }

  function FinishStep(s: State, success: bool): State {
    if s.turn.stopping then s else SettleTurn(Save(s.(turn := s.turn.(running := false))), success)
  }

  /** An MCP call starts to wait on a new channel. */
  function Register(r: Router, id: string): Router {
    r.(pending := r.pending[id := r.nextChannel],
       channels := r.channels[r.nextChannel := Channel(id, [], 0)],
       callers := r.callers[r.nextChannel := Waiting(id)],
       nextChannel := r.nextChannel + 1)
  }

  /** An MCP call takes the result that came before it. */
  function TakeQueued(r: Router, id: string): Router {
    Undecide(r.(queued := r.queued - {id}), id)
  }

  /** The first locked part of an MCP call. */
  function CallStep(r: Router, id: string, kind: Kind): Router {
    var (k, r1) := Decided(r, id, kind);
    match k
    case Search => Undecide(r1, id)
    case Reject => Undecide(r1, id)
    case Display => r1
    case Internal => r1
    case Codex => CodexCall(r1, id)
  }

  function CodexCall(r: Router, id: string): Router {
    if id == "" then r else if id in r.queued then TakeQueued(r, id) else Register(r, id)
  }

  /** What the first part of an MCP call comes to: the call waits, has its result,
      is answered without Codex, or is refused. */
  datatype Reply = WaitsFor(channel: ChannelId) | Has(result: Result) | WithoutCodex(kind: Kind) | NoCallId

  function CallReply(r: Router, id: string, kind: Kind): Reply {
    var (k, r1) := Decided(r, id, kind);
    if k != Codex then WithoutCodex(k) else CodexReply(r1, id)
  }

  function CodexReply(r: Router, id: string): Reply {
    if id == "" then NoCallId else if id in r.queued then Has(r.queued[id]) else WaitsFor(r.nextChannel)
  }

  /** A waiting call takes the result its channel holds. */
  function ReceiveStep(r: Router, c: ChannelId): Router {
    if c in r.callers && r.callers[c].Waiting? && c in r.channels && r.channels[c].holds != [] then
      r.(callers := r.callers[c := Holding(r.callers[c].id)], channels := r.channels[c := r.channels[c].(holds := [])])
    else r
  }

  function AnswerStep(r: Router, c: ChannelId): Router {
    if c in r.callers && r.callers[c].Holding? then
      Undecide(r.(callers := r.callers[c := Answered]), r.callers[c].id)
    else r
  }

  function HangUpStep(r: Router, c: ChannelId): Router {
    if c in r.callers && r.callers[c].Waiting? then r.(callers := r.callers[c := Leaving(r.callers[c].id)]) else r
  }

  function LeaveStep(r: Router, c: ChannelId): Router {
    if c in r.callers && r.callers[c].Leaving? then
      var id := r.callers[c].id;
      r.(callers := r.callers[c := Answered],
         pending := if id in r.pending && r.pending[id] == c then r.pending - {id} else r.pending)
    else r
  }

  function DisconnectStep(s: State, st: StreamId): State {
    if s.streams.open != Some(st) then s
    else
      s.(streams := s.streams.(finished := s.streams.finished + {st}, open := None),
         router := if s.turn.running then Interrupt(s.router) else s.router)
  }

  function CompactedStep(t: Turn): Turn {
    if t.compaction.Some? then t.(compaction := Some(t.compaction.value.(done := true))) else t
  }

  /** A turn Claude has gone silent on is stopped. */
  function WatchdogStep(s: State): State {
    if s.streams.open.Some? && s.turn.running && s.router.pending == map[]
    then Failed(s.(router := Interrupt(s.router))) else s
  }

  function ExitStep(s: State): State {
    var s1 := s.(turn := s.turn.(alive := false));
    if s.turn.stopping then s1 else Failed(s1.(router := CancelPending(s.router)))
  }

  function CloseStep(s: State): State {
    s.(router := Interrupt(s.router), turn := s.turn.(alive := false))
  }

  function ShutdownStep(s: State): State {
    Failed(s.(turn := s.turn.(stopping := true)))
  }

  /** Steps of the router alone. */
  function RouterStep(r: Router, a: Action): Router {
    match a
    case MessageStart => r.(message := Some([]))
    case RecordCall(id, kind) => RecordStep(r, id, kind)
    case CallTool(id, kind) => CallStep(r, id, kind)
    case Receive(c) => ReceiveStep(r, c)
    case Answer(c) => AnswerStep(r, c)
    case HangUp(c) => HangUpStep(r, c)
    case Leave(c) => LeaveStep(r, c)
    case _ => r
  }

  function Next(s: State, env: Env, a: Action): State {
    match a
    case Serve(_, _, _, _, _) => ServeStep(s, env, a)
    case Resume(_, _, _) => ResumeStep(s, env, a)
    case Disconnect(st) => DisconnectStep(s, st)
    case WriteFails(st) => s.(streams := s.streams.(finished := s.streams.finished + {st}))
    case MessageDelta(output, reasoning) =>
      s.(streams := s.streams.(output := s.streams.output + output, reasoning := s.streams.reasoning + reasoning))
    case MessageStop => FlushStep(s)
    case Compacted => s.(turn := CompactedStep(s.turn))
    case FinishTurn(success) => FinishStep(s, success)
    case Watchdog => WatchdogStep(s)
    case ProcessExits => ExitStep(s)
    case Close => CloseStep(s)
    case Shutdown => ShutdownStep(s)
    case _ => s.(router := RouterStep(s.router, a))
  }

  function Run(saved: Saved, env: Env, actions: seq<Action>): State {
    if actions == [] then Load(saved) else Next(Run(saved, env, actions[..|actions| - 1]), env, actions[|actions| - 1])
  }
}
