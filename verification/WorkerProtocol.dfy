/** The two-process protocol of a model worker.

    The parent (`EngineProcessClient`) and the child (`_worker_main`) share a FIFO command queue, a FIFO result
    queue and one integer cell that carries the generation of the stream to cancel.  The model is a step function:
    every action of the parent, of the child, and of any other thread that may cancel or kill at any moment is one
    atomic step, and an action that is not possible in a state leaves the state as it is.  Timeouts, crashes and
    kills are actions like any other, so a sequence of actions is an arbitrary interleaving. */
module WorkerProtocol {

  datatype EventKind = StartedKind | AudioKind | OtherKind | DoneKind | CancelledKind | ErrorKind | SegmentErrorKind

  /** What an engine's stream yields: a frame dictionary with a type, or anything else. */
  datatype Item = Raw(data: int) | Dict(kind: EventKind, data: int)

  predicate IsTerminal(item: Item) {
    item.Dict? && item.kind in {DoneKind, CancelledKind, ErrorKind, SegmentErrorKind}
  }

  datatype Body = Event(item: Item) | Done | Error | Result(value: int)

  /** A message on the result queue. */
  datatype Msg = Msg(id: nat, body: Body)

  datatype Op = Load | Metadata | Synthesize | SynthesizeArray | GetVoices | Unknown

  datatype Command = Call(id: nat, op: Op) | Stream(id: nat, gen: nat) | Shutdown(id: nat)

  datatype Request = CallRequest(op: Op) | StreamRequest(gen: nat)

  /** Where the holder of the request lock is. */
  datatype Parent =
    | Free
    | Starting(req: Request)
    | Sending(req: Request)
    | Streaming(id: nat, gen: nat, draining: bool)
    | Tail(id: nat)
    | Unwinding(gen: nat)
    | Awaiting(id: nat)
    | Closing(id: nat)

  /** The local variables of one child stream phase. */
  datatype Work = Work(id: nat, gen: nat, sawTerminal: bool, audio: nat)

  datatype Child =
    | Dead
    | Idle
    | Taken(cmd: Command)
    | Calling(cmd: Command)
    | Iterating(w: Work)
    | Emitting(w: Work, item: Item)
    | Leaving(w: Work, cut: bool)
    | RepairError(w: Work)
    | RepairDone(w: Work)
    | Finishing(w: Work)
    | Clearing(gen: nat)
    | Erasing(gen: nat)
    | Unloading(cmd: Command)

  datatype Ending =
    | Completed | Cancelled | DrainExpired | TimedOut | WorkerExited | QueueGone | Failed | ProtocolError | Abandoned

  datatype Action =
    // the holder of the request lock
    | BeginStream | BeginCall(op: Op) | BeginClose | Start | Send
    | SeeCancel | Receive | TailOver | ExpireDrain | TimeOut | SeeExit | SeeNoQueue | Abandon | Unwind | FinishClose
    // any other thread
    | SoftCancel(gen: nat) | Kill
    // the child
    | Take | EngineReady | Raise | Reply(value: int) | Poll | Produce(item: Item) | PutItem | Exhaust
    | IteratorClosed | Repair | Finish | ReadFlag | Erase | Crash

  /** The two queues, with what went through them: `issued`, `queued` and `got` are history no step reads. */
  datatype Link = Link(
    open: bool,
    commands: seq<Command>,
    results: seq<Msg>,
    nextId: nat,
    epochStart: nat,
    issued: map<nat, Command>,
    queued: seq<Msg>,
    got: seq<Msg>)

  /** History of cancellations and streams; no step reads it. */
  datatype Log = Log(
    written: set<nat>,
    noticed: set<nat>,
    produced: map<nat, seq<Item>>,
    yielded: map<nat, seq<Item>>,
    ended: map<nat, Ending>,
    answers: map<nat, Body>)

  datatype Sys = Sys(
    parent: Parent,
    generation: nat,
    flag: nat,
    child: Child,
    engineLoaded: bool,
    link: Link,
    log: Log)

  const Initial := Sys(Free, 0, 0, Dead, false, Link(false, [], [], 0, 0, map[], [], []),
                       Log({}, {}, map[], map[], map[], map[]))

  // ---------- the queues ----------

  /** New queues, or none; whatever was in the old ones is lost. */
  function Cleared(l: Link, open: bool): Link {
    l.(open := open, commands := [], results := [], epochStart := l.nextId)
  }

  function Posted(l: Link, cmd: Command): Link {
    l.(commands := l.commands + [cmd], issued := l.issued[cmd.id := cmd], nextId := l.nextId + 1)
  }

  function Popped(l: Link): Link
    requires l.results != []
  {
    l.(results := l.results[1..], got := l.got + [l.results[0]])
  }

  function Put(l: Link, m: Msg): Link {
    l.(results := l.results + [m], queued := l.queued + [m])
  }

  function Pulled(l: Link): Link
    requires l.commands != []
  {
    l.(commands := l.commands[1..])
  }

  // ---------- the steps of the holder of the request lock ----------

  function Renewed(s: Sys): Sys {
    s.(link := Cleared(s.link, true), flag := 0, child := Idle, engineLoaded := false)
  }

  function Killed(s: Sys): Sys {
    s.(link := Cleared(s.link, false), flag := 0, child := Dead, engineLoaded := false)
  }

  function WriteFlag(s: Sys, gen: nat): Sys {
    s.(flag := gen, log := s.log.(written := s.log.written + {gen}))
  }

  function SendStep(s: Sys): Sys
    requires s.parent.Sending?
  {
    var id := s.link.nextId;
    if !s.link.open then s.(parent := Free)
    else match s.parent.req
      case CallRequest(op) => s.(link := Posted(s.link, Call(id, op)), parent := Awaiting(id))
      case StreamRequest(gen) =>
        s.(link := Posted(s.link, Stream(id, gen)), parent := Streaming(id, gen, false),
           log := s.log.(yielded := s.log.yielded[id := []]))
  }

  function Ended(s: Sys, next: Parent, id: nat, how: Ending): Sys {
    s.(parent := next, log := s.log.(ended := s.log.ended[id := how]))
  }

  function Yielded(s: Sys, id: nat, item: Item): Sys {
    s.(log := s.log.(yielded := s.log.yielded[id := Known(s.log.yielded, id) + [item]]))
  }

  function Known(m: map<nat, seq<Item>>, id: nat): seq<Item> {
    if id in m then m[id] else []
  }

  /** What the main loop of `stream` does with a message of its own. */
  function StreamReceives(s: Sys, id: nat, draining: bool, body: Body): Sys {
    match body
    case Done => if draining then Ended(s, Free, id, Cancelled) else s.(parent := Tail(id))
    case Event(item) => if draining then s else Yielded(s, id, item)
    case Error => Ended(s, Free, id, Failed)
    case Result(_) => Ended(s, Free, id, ProtocolError)
  }

  /** What the tail loop does with a message of its own. */
  function TailReceives(s: Sys, id: nat, body: Body): Sys {
    match body
    case Done => s
    case Event(item) =>
      if IsTerminal(item) then Ended(Yielded(s, id, item), Free, id, Completed) else Yielded(s, id, item)
    case Error => Ended(s, Free, id, Failed)
    case Result(_) => Ended(s, Free, id, ProtocolError)
  }

  function AwaitReceives(s: Sys, id: nat, body: Body): Sys {
    s.(parent := Free, log := s.log.(answers := s.log.answers[id := body]))
  }

  function ReceiveStep(s: Sys): Sys
    requires s.link.results != []
  {
    var m := s.link.results[0];
    var t := s.(link := Popped(s.link));
    match s.parent
    case Streaming(id, gen, draining) => if m.id == id then StreamReceives(t, id, draining, m.body) else t
    case Tail(id) => if m.id == id then TailReceives(t, id, m.body) else t
    case Awaiting(id) => if m.id == id then AwaitReceives(t, id, m.body) else t
    case _ => s
  }

  /** An idle timeout kills the worker before it raises. */
  function TimeOutStep(s: Sys): Sys {
    if s.parent.Streaming? then Ended(Killed(s), Unwinding(s.parent.gen), s.parent.id, TimedOut)
    else if s.parent.Awaiting? then Ended(Killed(s), Free, s.parent.id, TimedOut)
    else s
  }

  /** The receiving loop raises: a stream without a closing message still runs its `finally` clause. */
  function BreakOff(s: Sys, how: Ending): Sys {
    if s.parent.Streaming? then Ended(s, Unwinding(s.parent.gen), s.parent.id, how)
    else if s.parent.Awaiting? || s.parent.Tail? then Ended(s, Free, s.parent.id, how)
    else s
  }

  /** After the process has gone, the receipt of the shutdown command is looked up among what is left. */
  function FinishCloseStep(s: Sys): Sys
    requires s.parent.Closing?
  {
    var reply := Of(s.link.results, s.parent.id);
    var t := Killed(s).(parent := Free);
    if s.child == Dead && reply != [] then t.(log := s.log.(answers := s.log.answers[s.parent.id := reply[0]])) else t
  }

  function ParentStep(s: Sys, a: Action): Sys {
    match a
    case BeginStream =>
      if s.parent != Free then s
      else s.(parent := Starting(StreamRequest(s.generation + 1)), generation := s.generation + 1)
    case BeginCall(op) => if s.parent == Free then s.(parent := Starting(CallRequest(op))) else s
    case Start =>
      if !s.parent.Starting? then s
      else if s.link.open && s.child != Dead then s.(parent := Sending(s.parent.req))
      else Renewed(s).(parent := Sending(s.parent.req))
    case Send => if s.parent.Sending? then SendStep(s) else s
    case SeeCancel =>
      if s.parent.Streaming? then WriteFlag(s, s.parent.gen).(parent := s.parent.(draining := true)) else s
    case Receive => if s.link.results != [] then ReceiveStep(s) else s
    case TailOver => if s.parent.Tail? then Ended(s, Free, s.parent.id, Completed) else s
    case ExpireDrain => if s.parent.Streaming? && s.parent.draining then BreakOff(s, DrainExpired) else s
    case TimeOut => TimeOutStep(s)
    case SeeExit => if s.link.open && s.child == Dead && !s.parent.Tail? then BreakOff(s, WorkerExited) else s
    case SeeNoQueue => if !s.link.open then BreakOff(s, QueueGone) else s
    case Abandon => if s.parent.Streaming? || s.parent.Tail? then BreakOff(s, Abandoned) else s
    case Unwind => if s.parent.Unwinding? then WriteFlag(s, s.parent.gen).(parent := Free) else s
    case BeginClose =>
      if s.parent == Free && s.link.open && s.child != Dead
      then s.(link := Posted(s.link, Shutdown(s.link.nextId)), parent := Closing(s.link.nextId)) else s
    case FinishClose => if s.parent.Closing? then FinishCloseStep(s) else s
    case SoftCancel(gen) => if 1 <= gen <= s.generation then WriteFlag(s, gen) else s
    case Kill => Killed(s)
    case _ => s
  }

  // ---------- the steps of the child ----------

  function Queue(s: Sys, id: nat, body: Body, next: Child): Sys {
    s.(link := Put(s.link, Msg(id, body)), child := next)
  }

  function Notice(s: Sys, gen: nat): Sys {
    s.(log := s.log.(noticed := s.log.noticed + {gen}))
  }

  function RaiseStep(s: Sys): Sys {
    match s.child
    case Taken(cmd) =>
      if !s.engineLoaded || (cmd.Call? && cmd.op == Unknown) then Queue(s, cmd.id, Error, Idle) else s
    case Calling(cmd) => Queue(s, cmd.id, Error, Idle)
    case Iterating(w) => Queue(s, w.id, Error, Idle)
    case Leaving(w, _) => Queue(s, w.id, Error, Idle)
    case Unloading(cmd) => Queue(s, cmd.id, Error, Dead)
    case _ => s
  }

  function AudioWeight(item: Item): nat {
    if item.Dict? && item.kind == AudioKind then 1 else 0
  }

  /** The engine yields an item; the child reads the flag before it looks at it. */
  function ProduceStep(s: Sys, w: Work, item: Item): Sys {
    var t := s.(log := s.log.(produced := s.log.produced[w.id := Known(s.log.produced, w.id) + [item]]));
    if s.flag == w.gen then Notice(t, w.gen).(child := Leaving(w, true))
    else
      var seen := w.(sawTerminal := w.sawTerminal || IsTerminal(item), audio := w.audio + AudioWeight(item));
      t.(child := Emitting(seen, item))
  }

  function IteratorClosedStep(s: Sys, w: Work, cut: bool): Sys {
    if w.sawTerminal || cut then s.(child := Finishing(w))
    else if s.flag == w.gen then Notice(s, w.gen).(child := Finishing(w))
    else s.(child := RepairError(w))
  }

  function EngineReadyStep(s: Sys, cmd: Command): Sys {
    match cmd
    case Call(id, op) => if op == Unknown then s else s.(engineLoaded := true, child := Calling(cmd))
    case Stream(id, gen) =>
      s.(engineLoaded := true, child := Iterating(Work(id, gen, false, 0)),
         log := s.log.(produced := s.log.produced[id := []]))
    case Shutdown(_) => s
  }

  function TakeStep(s: Sys): Sys
    requires s.link.commands != []
  {
    var cmd := s.link.commands[0];
    s.(link := Pulled(s.link), child := if cmd.Shutdown? then Unloading(cmd) else Taken(cmd))
  }

  function ChildStep(s: Sys, a: Action): Sys {
    match a
    case Take => if s.child == Idle && s.link.commands != [] then TakeStep(s) else s
    case EngineReady => if s.child.Taken? then EngineReadyStep(s, s.child.cmd) else s
    case Raise => RaiseStep(s)
    case Reply(value) =>
      if s.child.Calling? then Queue(s, s.child.cmd.id, Result(value), Idle)
      else if s.child.Unloading? then Queue(s, s.child.cmd.id, Result(0), Dead)
      else s
    case Poll => if s.child.Iterating? && s.flag == s.child.w.gen then Notice(s, s.child.w.gen) else s
    case Produce(item) => if s.child.Iterating? then ProduceStep(s, s.child.w, item) else s
    case PutItem => if s.child.Emitting? then Queue(s, s.child.w.id, Event(s.child.item), Iterating(s.child.w)) else s
    case Exhaust => if s.child.Iterating? then s.(child := Leaving(s.child.w, false)) else s
    case IteratorClosed => if s.child.Leaving? then IteratorClosedStep(s, s.child.w, s.child.cut) else s
    case Repair =>
      if s.child.RepairError? then Queue(s, s.child.w.id, Event(Dict(SegmentErrorKind, 0)), RepairDone(s.child.w))
      else if s.child.RepairDone? then
        Queue(s, s.child.w.id, Event(Dict(DoneKind, s.child.w.audio)), Finishing(s.child.w))
      else s
    case Finish => if s.child.Finishing? then Queue(s, s.child.w.id, Done, Clearing(s.child.w.gen)) else s
    case ReadFlag =>
      if s.child.Clearing? then s.(child := if s.flag == s.child.gen then Erasing(s.child.gen) else Idle) else s
    case Erase => if s.child.Erasing? then s.(flag := 0, child := Idle) else s
    case Crash => s.(child := Dead)
    case _ => s
  }

  predicate IsChildAction(a: Action) {
    a.Take? || a.EngineReady? || a.Raise? || a.Reply? || a.Poll? || a.Produce? || a.PutItem? || a.Exhaust?
    || a.IteratorClosed? || a.Repair? || a.Finish? || a.ReadFlag? || a.Erase? || a.Crash?
  }

  function Step(s: Sys, a: Action): Sys {
    if IsChildAction(a) then ChildStep(s, a) else ParentStep(s, a)
  }

  /** The state reached from the start by an arbitrary interleaving. */
  function Run(actions: seq<Action>): Sys {
    if actions == [] then Initial else Step(Run(actions[..|actions| - 1]), actions[|actions| - 1])
  }

  // ---------- reading the queues ----------

  /** The bodies of the messages with one id, in queue order. */
  function Of(q: seq<Msg>, id: nat): seq<Body> {
    if q == [] then []
    else Of(q[..|q| - 1], id) + (if q[|q| - 1].id == id then [q[|q| - 1].body] else [])
  }

  /** The events among some bodies. */
  function Items(bs: seq<Body>): seq<Item> {
    if bs == [] then []
    else Items(bs[..|bs| - 1]) + (if bs[|bs| - 1].Event? then [bs[|bs| - 1].item] else [])
  }

  predicate AllEvents(bs: seq<Body>) {
    forall i :: 0 <= i < |bs| ==> bs[i].Event?
  }

  /** The last message of an answer is a result, a done or an error. */
  predicate Closed(bs: seq<Body>) {
    |bs| > 0 && !bs[|bs| - 1].Event?
  }

  /** At most one closing message, in the last place, and of a kind that suits the command. */
  predicate SuitsCommand(cmd: Command, bs: seq<Body>) {
    && AllEvents(if bs == [] then [] else bs[..|bs| - 1])
    && (cmd.Stream? ==> bs == [] || !bs[|bs| - 1].Result?)
    && (!cmd.Stream? ==> |bs| <= 1 && (bs == [] || bs[0].Result? || bs[0].Error?))
  }

  function CountAudio(items: seq<Item>): nat {
    if items == [] then 0
    else CountAudio(items[..|items| - 1]) + AudioWeight(items[|items| - 1])
  }

  predicate HasTerminal(items: seq<Item>) {
    exists i :: 0 <= i < |items| && IsTerminal(items[i])
  }

  /** What an uncancelled stream queues for the items its engine produced. */
  function Repaired(items: seq<Item>): seq<Item> {
    if HasTerminal(items) then items else items + [Dict(SegmentErrorKind, 0), Dict(DoneKind, CountAudio(items))]
  }
}
