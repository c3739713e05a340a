/**
 * Mutation dispatch on a native connection, one atomic step per lock-protected region: callers
 * enqueue and cancel from any thread while an idle source on the WirePlumber thread pops one call,
 * checks and executes it, completes it and reschedules. `finished` and `executed` are history.
 */
module Dispatch {
  import opened Wrappers
  import opened Events
  import opened EventStream

  datatype Outcome =
    | Ready | StaleGeneration | StaleSequence | GenerationLost | RuntimeStopped
    | UnsupportedOperation | TargetNotFound | NotWritable | OwnershipConflict | NativeRejected

  datatype Status = Waiting | Completed(result: Outcome, generation: nat, sequence: nat)

  /** `order` is zero for a call rejected before it was queued. */
  datatype Call = Call(
    expectedGeneration: nat, expectedSequence: Option<nat>, enqueuedGeneration: nat,
    order: nat, status: Status)

  datatype Phase =
    | Idle
    | Popped(id: nat)
    | Ran(id: nat, result: Outcome, generation: nat, sequence: nat)
    | Finished

  datatype Execution = Execution(id: nat, generation: nat, sequence: nat)

  datatype Dispatcher = Dispatcher(
    calls: seq<Call>, queue: seq<nat>, scheduled: bool, sources: nat, phase: Phase, order: nat,
    finished: seq<nat>, executed: seq<Execution>)

  /** `om`, `ctx` and `thread` say whether those pointers are set. */
  datatype Connection = Connection(
    stream: Stream, dispatch: Dispatcher,
    om: bool, ctx: bool, thread: bool, stopRequested: bool, drained: bool)

  datatype Act =
    | Events(step: Step)
    | Enqueue(expectedGeneration: nat, expectedSequence: Option<nat>)
    | Fire
    | Execute(outcome: Outcome)
    | Complete
    | Reschedule
    | Cancel(reason: Outcome)
    | RequestStop
    | ManagerSet
    | ManagerGone
    | ThreadExit
    | ThreadJoined

  function Fresh(capacity: nat): Connection {
    Connection(Initial(capacity), Dispatcher([], [], false, 0, Idle, 0, [], []),
               false, true, true, false, false)
  }

  // ----- the steps -----

  /** `schedule_dispatch_locked` */
  function Schedule(d: Dispatcher, ctx: bool): Dispatcher {
    if d.scheduled || !ctx || d.queue == [] then d
    else d.(scheduled := true, sources := d.sources + 1)
  }

  /** The admission part of `dispatch_runtime_mutation_payload`. */
  function Admit(c: Connection, expectedGeneration: nat, expectedSequence: Option<nat>): Connection {
    var d, g := c.dispatch, c.stream.generation;
    if c.stopRequested || !c.thread || !c.ctx then
      var call := Call(expectedGeneration, expectedSequence, g, 0, Completed(RuntimeStopped, g, 0));
      c.(dispatch := d.(calls := d.calls + [call]))
    else if expectedGeneration != g then
      var call := Call(expectedGeneration, expectedSequence, g, 0, Completed(StaleGeneration, g, 0));
      c.(dispatch := d.(calls := d.calls + [call]))
    else
      var call := Call(expectedGeneration, expectedSequence, g, d.order + 1, Waiting);
      var e := d.(order := d.order + 1, calls := d.calls + [call], queue := d.queue + [|d.calls|]);
      c.(dispatch := Schedule(e, c.ctx))
  }

  /** The idle source runs and pops a call. */
  function Pop(c: Connection): (r: Connection)
    ensures r.stream == c.stream && r.dispatch.calls == c.dispatch.calls
  {
    var d := c.dispatch;
    if d.sources == 0 || !d.phase.Idle? || !c.ctx then c
    else if d.queue == [] then
      c.(dispatch := d.(sources := d.sources - 1, scheduled := false))
    else
      c.(dispatch := d.(sources := d.sources - 1, queue := d.queue[1..], phase := Popped(d.queue[0])))
  }

  /** Whether the dispatcher hands a popped call to its operation, and what it answers if not. */
  function Verdict(c: Connection, call: Call): Option<Outcome> {
    if c.stopRequested || !c.om then Some(RuntimeStopped)
    else if c.stream.generation != call.enqueuedGeneration then Some(GenerationLost)
    else if c.stream.generation != call.expectedGeneration then Some(StaleGeneration)
    else if call.expectedSequence.Some? && c.stream.sequence != call.expectedSequence.value then
      Some(StaleSequence)
    else None
  }

  /** What an operation itself may answer. */
  predicate FromOperation(outcome: Outcome) {
    outcome in {Ready, UnsupportedOperation, TargetNotFound, NotWritable, OwnershipConflict, NativeRejected}
  }

  function CheckAndExecute(c: Connection, outcome: Outcome): (r: Connection)
    ensures r.stream == c.stream && r.dispatch.calls == c.dispatch.calls
  {
    var d, g, n := c.dispatch, c.stream.generation, c.stream.sequence;
    if !d.phase.Popped? || d.phase.id >= |d.calls| then c
    else match Verdict(c, d.calls[d.phase.id])
      case Some(refusal) => c.(dispatch := d.(phase := Ran(d.phase.id, refusal, g, n)))
      case None => c.(dispatch := d.(phase := Ran(d.phase.id, outcome, g, n),
                                     executed := d.executed + [Execution(d.phase.id, g, n)]))
  }

  /** `complete_call`: only the first completion of a call counts. */
  function CompleteCall(d: Dispatcher, id: nat, result: Outcome, generation: nat, sequence: nat): Dispatcher {
    if id >= |d.calls| then d
    else
      var call := d.calls[id];
      var done := if call.status.Waiting? then call.(status := Completed(result, generation, sequence)) else call;
      d.(calls := d.calls[id := done], finished := d.finished + [id])
  }

  function CompleteHeld(c: Connection): (r: Connection)
    ensures r.stream == c.stream
  {
    var d := c.dispatch;
    if !d.phase.Ran? then c
    else c.(dispatch := CompleteCall(d, d.phase.id, d.phase.result, d.phase.generation, d.phase.sequence)
                        .(phase := Finished))
  }

  function ReleaseSource(c: Connection): (r: Connection)
    ensures r.stream == c.stream && r.dispatch.calls == c.dispatch.calls
  {
    var d := c.dispatch;
    if !d.phase.Finished? then c
    else c.(dispatch := Schedule(d.(scheduled := false, phase := Idle), c.ctx))
  }

  /** Completes the queued calls front to back. */
  function CancelAll(d: Dispatcher, reason: Outcome, generation: nat): Dispatcher
    decreases |d.queue|
  {
    if d.queue == [] then d
    else CancelAll(CompleteCall(d, d.queue[0], reason, generation, 0).(queue := d.queue[1..]), reason, generation)
  }

  function CancelPending(c: Connection, reason: Outcome): Connection {
    c.(dispatch := CancelAll(c.dispatch, reason, c.stream.generation),
       drained := c.drained || c.stopRequested)
  }

  /** `on_om_installed` moves the counters and restarts the dispatch order in one locked region. */
  function StreamStep(c: Connection, step: Step): Connection
    requires Numbered(c.stream)
  {
    var t := Apply(c.stream, step);
    if step.Install? then c.(stream := t, dispatch := c.dispatch.(order := 0)) else c.(stream := t)
  }

  function Do(c: Connection, act: Act): (r: Connection)
    requires Numbered(c.stream)
    ensures Numbered(r.stream)
  {
    match act
    case Events(step) => StreamStep(c, step)
    case Enqueue(g, n) => Admit(c, g, n)
    case Fire => Pop(c)
    case Execute(outcome) => CheckAndExecute(c, outcome)
    case Complete => CompleteHeld(c)
    case Reschedule => ReleaseSource(c)
    case Cancel(reason) => CancelPending(c, reason)
    case RequestStop => c.(stopRequested := true)
    case ManagerSet => c.(om := true)
    case ManagerGone => c.(om := false)
    // The loop quits only in the source that stop attaches after its drain.
    case ThreadExit =>
      if c.drained && c.dispatch.phase.Idle? then
        c.(om := false, ctx := false, dispatch := c.dispatch.(sources := 0))
      else c
    case ThreadJoined => if c.ctx then c else c.(thread := false)
  }

  /** What the operations and the two cancel reasons allow. */
  predicate Possible(act: Act) {
    match act
    case Execute(outcome) => FromOperation(outcome)
    case Cancel(reason) => reason == GenerationLost || reason == RuntimeStopped
    case _ => true
  }

  function DoAll(c: Connection, acts: seq<Act>): (r: Connection)
    requires Numbered(c.stream)
    ensures Numbered(r.stream)
    decreases |acts|
  {
    if acts == [] then c else DoAll(Do(c, acts[0]), acts[1..])
  }
}
