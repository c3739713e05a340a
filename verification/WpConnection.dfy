/**
 * The native connection object. Its methods update fields the way the C functions do; each is
 * proved to take exactly the step of the machine that the whole-run guarantees are about.
 */
module NativeConnection {
  import opened Wrappers
  import opened Events
  import opened EventStream
  import opened Dispatch
  import Ledger

  /** The health record of a "connected" or "disconnected" event. */
  function ConnectionContent(state: State): Content {
    Content(ConnectionChanged, ConnectionKind, Text("connection"), Some(state), None, false)
  }

  /** How far publishing a connection event gets; without its health record no number is spent. */
  datatype Allocation = NoHealth | NoPayload | Built

  /** `wp_connection_runtime_events_publish_connection` */
  function ConnectionEvent(c: Connection, state: State, allocation: Allocation): (r: Connection)
    requires Numbered(c.stream)
    ensures Numbered(r.stream)
  {
    if allocation.NoHealth? then c
    else StreamStep(c, Step.Publish(ConnectionContent(state), allocation.Built?))
  }

  /** A connection event says "connection changed" with the given state, and asks for no snapshot. */
  lemma {:induction false} ConnectionEvents(c: Connection, state: State, allocation: Allocation)
    requires Numbered(c.stream) && c.stream.capacity >= 1
    ensures var r, s := ConnectionEvent(c, state, allocation), c.stream;
      && r.(stream := s) == c
      && r.stream.sequence == s.sequence + (if allocation.NoHealth? then 0 else 1)
      && (allocation.NoHealth? ==> r == c)
      && (allocation.Built? && !s.closed && !s.invalid && |s.queue| < s.capacity ==>
           r.stream.queue == s.queue + [Event(s.generation, s.sequence + 1, Content(
             ConnectionChanged, ConnectionKind, Text("connection"), Some(state), None, false))])
  {
    if !allocation.NoHealth? { PublishIff(c.stream, ConnectionContent(state), allocation.Built?); }
    hide PublishEvent;
  }

  class WpConnection {
    // counters
    var generation: nat
    var sequence: nat
    // event queue
    const capacity: nat
    var runtimeEvents: seq<Event>
    var invalid: bool
    var closed: bool
    // mutation queue; a call's index stands for its address
    var calls: seq<Call>
    var mutationQueue: seq<nat>
    var sourceScheduled: bool
    var dispatchOrder: nat
    // lifecycle
    var started: bool
    var om: bool
    var ctx: bool
    var thread: bool
    var stopRequested: bool
    // managed links
    var managedLinks: map<string, Ledger.Spec>
    // history and the main context's view of the dispatcher
    ghost var log: seq<seq<Entry>>
    ghost var sources: nat
    ghost var phase: Phase
    ghost var finished: seq<nat>
    ghost var executed: seq<Execution>
    ghost var drained: bool

    ghost function Stream(): EventStream.Stream
      reads this
    {
      EventStream.Stream(generation, sequence, runtimeEvents, capacity, invalid, closed, log)
    }

    ghost function Queue(): Dispatcher
      reads this
    {
      Dispatcher(calls, mutationQueue, sourceScheduled, sources, phase, dispatchOrder, finished, executed)
    }

    ghost function View(): Connection
      reads this
    {
      Connection(Stream(), Queue(), om, ctx, thread, stopRequested, drained)
    }

    ghost predicate Valid()
      reads this
    {
      Numbered(Stream())
    }

    constructor (capacity: nat)
      ensures Valid() && View() == Fresh(capacity) && managedLinks == map[] && !started
    {
      this.capacity := capacity;
      generation, sequence := 0, 0;
      runtimeEvents, invalid, closed := [], false, false;
      calls, mutationQueue, sourceScheduled, dispatchOrder := [], [], false, 0;
      started, om, ctx, thread, stopRequested := false, false, true, true, false;
      managedLinks := map[];
      log, sources, phase, finished, executed, drained := [[]], 0, Idle, [], [], false;
    }

    // ----- events -----

    /** Numbers a payload; the number is spent even when the payload cannot be built. */
    method NewEvent(content: Content, made: bool) returns (payload: Option<Event>)
      requires Valid()
      modifies this`sequence, this`log
      ensures Valid() && Stream() == Issue(old(Stream()), Fate(old(Stream()), content, made))
      ensures payload == if made then Some(Event(generation, sequence, content)) else None
    {
      ghost var fate := Fate(Stream(), content, made);
      log := log[generation := log[generation] + [fate]];
      sequence := sequence + 1;
      payload := if made then Some(Event(generation, sequence, content)) else None;
    }

    method ClearLocked()
      modifies this`runtimeEvents
      ensures runtimeEvents == []
    {
      while |runtimeEvents| > 0 {
        runtimeEvents := runtimeEvents[1..];
      }
    }

    /** Closed and invalid queues refuse; a full one is cleared and becomes a discontinuity. */
    method Enqueue(payload: Option<Event>)
      modifies this`runtimeEvents, this`invalid
      ensures payload.None? || closed || old(invalid) ==>
        runtimeEvents == old(runtimeEvents) && invalid == old(invalid)
      ensures payload.Some? && !closed && !old(invalid) ==>
        if |old(runtimeEvents)| >= capacity then
          invalid && runtimeEvents == [payload.value.(content := DISCONTINUITY)]
        else
          !invalid && runtimeEvents == old(runtimeEvents) + [payload.value]
    {
      if payload.None? || closed || invalid { return; }
      var event := payload.value;
      if |runtimeEvents| >= capacity {
        ClearLocked();
        event := event.(content := DISCONTINUITY);
        invalid := true;
      }
      runtimeEvents := runtimeEvents + [event];
    }

    method Publish(content: Content, made: bool)
      requires Valid()
      modifies this`sequence, this`log, this`runtimeEvents, this`invalid
      ensures Valid() && View() == StreamStep(old(View()), Step.Publish(content, made))
    {
      var payload := NewEvent(content, made);
      Enqueue(payload);
    }

    method PublishConnection(state: State, allocation: Allocation)
      requires Valid()
      modifies this`sequence, this`log, this`runtimeEvents, this`invalid
      ensures Valid() && View() == ConnectionEvent(old(View()), state, allocation)
    {
      if allocation.NoHealth? { return; }
      Publish(ConnectionContent(state), allocation.Built?);
    }

    method ResetEvents()
      modifies this`runtimeEvents, this`invalid
      ensures runtimeEvents == [] && !invalid
    {
      ClearLocked();
      invalid := false;
    }

    /** The commit of a capture whose collections were copied, or `ok` false when copying failed. */
    method CommitCapture(objects: Objects, reader: nat, ok: bool) returns (payload: Option<(nat, nat)>)
      requires Valid()
      modifies this`sequence, this`log, this`runtimeEvents, this`invalid
      ensures Valid() && View() == StreamStep(old(View()), Step.Capture(objects, reader, ok))
      ensures payload == if ok then Some((generation, sequence)) else None
    {
      if !ok { return None; }
      log := log[generation := log[generation] + [Captured(objects, reader)]];
      sequence := sequence + 1;
      ResetEvents();
      payload := Some((generation, sequence));
    }

    method CloseEvents()
      requires Valid()
      modifies this`closed
      ensures Valid() && View() == StreamStep(old(View()), Step.Close)
    {
      closed := true;
    }

    /** A non-blocking read. */
    method NextPayload() returns (payload: Option<Event>, wasClosed: bool)
      requires Valid()
      modifies this`runtimeEvents
      ensures Valid() && View() == StreamStep(old(View()), Take(1))
      ensures (if payload.Some? then [payload.value] else []) == Delivered(old(Stream()), Take(1))
      ensures wasClosed == closed
    {
      payload := None;
      if |runtimeEvents| > 0 {
        payload := Some(runtimeEvents[0]);
        runtimeEvents := runtimeEvents[1..];
      }
      wasClosed := closed;
    }

    /** Moves up to `max` events, or all of them for zero, out of the queue. */
    method PopBatch(max: nat) returns (result: seq<Event>)
      modifies this`runtimeEvents
      ensures |result| == Batch(old(Stream()), max)
      ensures result == old(runtimeEvents)[..|result|] && runtimeEvents == old(runtimeEvents)[|result|..]
    {
      result := [];
      ghost var all := runtimeEvents;
      while |runtimeEvents| > 0 && (max == 0 || |result| < max)
        invariant |result| <= |all| && result == all[..|result|] && runtimeEvents == all[|result|..]
        invariant max == 0 || |result| <= max
      {
        result := result + [runtimeEvents[0]];
        runtimeEvents := runtimeEvents[1..];
      }
    }

    method DrainPayloads(max: nat) returns (result: seq<Event>)
      requires Valid()
      modifies this`runtimeEvents
      ensures Valid() && View() == StreamStep(old(View()), Take(max))
      ensures result == Delivered(old(Stream()), Take(max))
    {
      result := PopBatch(max);
      assert Stream() == TakeEvents(old(Stream()), max);
    }

    // ----- lifecycle callbacks -----

    method MoveGeneration()
      requires Valid()
      modifies this`generation, this`sequence, this`log, this`dispatchOrder
      ensures Valid() && View() == StreamStep(old(View()), Install)
    {
      hide CancelAll, CompleteCall, Admit, Verdict;
      generation := generation + 1;
      sequence := 0;
      log := log + [[]];
      dispatchOrder := 0;
      assert Stream() == InstallManager(old(Stream()));
      assert View() == StreamStep(old(View()), Install);
      hide StreamStep;
    }

    method OnManagerInstalled(health: State, allocation: Allocation)
      requires Valid()
      modifies this
      ensures Valid() && started && managedLinks == old(managedLinks)
      ensures View() == ConnectionEvent(StreamStep(old(View()), Install), health, allocation)
    {
      MoveGeneration();
      started := true;
      PublishConnection(health, allocation);
    }

    method OnCoreDisconnected(health: State, allocation: Allocation)
      requires Valid()
      modifies this
      ensures Valid() && managedLinks == map[]
      ensures var cancelled := Dispatch.CancelPending(old(View()), GenerationLost);
        View() == (if old(started) && !old(stopRequested)
                   then ConnectionEvent(cancelled, health, allocation)
                   else old(View())).(om := false)
    {
      managedLinks := map[];
      if started && !stopRequested {
        CancelPending(GenerationLost);
        PublishConnection(health, allocation);
      }
      om := false;
    }

    // ----- mutation dispatch -----

    method ScheduleDispatchLocked()
      modifies this`sourceScheduled, this`sources
      ensures Queue() == Schedule(old(Queue()), ctx)
    {
      if sourceScheduled || !ctx || |mutationQueue| == 0 { return; }
      sourceScheduled := true;
      sources := sources + 1;
    }

    /** Admission; the caller then waits for the call to complete. */
    method EnqueueMutation(expectedGeneration: nat, expectedSequence: Option<nat>) returns (id: nat)
      requires Valid()
      modifies this`calls, this`mutationQueue, this`dispatchOrder, this`sourceScheduled, this`sources
      ensures Valid() && View() == Admit(old(View()), expectedGeneration, expectedSequence)
      ensures id == |old(calls)|
    {
      hide CancelAll, CompleteCall, Verdict, StreamStep, Numbered;
      id := |calls|;
      var call := Call(expectedGeneration, expectedSequence, generation, 0, Waiting);
      if stopRequested || !thread || !ctx {
        calls := calls + [call.(status := Completed(RuntimeStopped, generation, 0))];
      } else if expectedGeneration != generation {
        calls := calls + [call.(status := Completed(StaleGeneration, generation, 0))];
      } else {
        dispatchOrder := dispatchOrder + 1;
        calls := calls + [call.(order := dispatchOrder)];
        mutationQueue := mutationQueue + [id];
        ScheduleDispatchLocked();
      }
    }

    method Complete(id: nat, result: Outcome, observedGeneration: nat, observedSequence: nat)
      requires id < |calls|
      modifies this`calls, this`finished
      ensures Queue() == CompleteCall(old(Queue()), id, result, observedGeneration, observedSequence)
    {
      if calls[id].status.Waiting? {
        calls := calls[id := calls[id].(status := Completed(result, observedGeneration, observedSequence))];
      }
      finished := finished + [id];
    }

    /** The check of a popped call; `outcome` is what its operation answers if it is reached. */
    method CheckCall(id: nat, outcome: Outcome) returns (result: Outcome)
      requires Valid() && phase == Popped(id) && id < |calls|
      modifies this`phase, this`executed
      ensures Valid() && View() == CheckAndExecute(old(View()), outcome)
      ensures phase == Ran(id, result, generation, sequence)
    {
      if stopRequested || !om {
        result := RuntimeStopped;
      } else if generation != calls[id].enqueuedGeneration {
        result := GenerationLost;
      } else if generation != calls[id].expectedGeneration {
        result := StaleGeneration;
      } else if calls[id].expectedSequence.Some? && sequence != calls[id].expectedSequence.value {
        result := StaleSequence;
      } else {
        result := outcome;
        executed := executed + [Execution(id, generation, sequence)];
      }
      phase := Ran(id, result, generation, sequence);
    }

    method PopCall() returns (id: Option<nat>)
      requires Valid() && sources > 0 && phase.Idle? && ctx
      modifies this`sourceScheduled, this`sources, this`mutationQueue, this`phase
      ensures Valid() && View() == Pop(old(View()))
      ensures id == if |old(mutationQueue)| == 0 then None else Some(old(mutationQueue)[0])
      ensures id.Some? ==> phase == Popped(id.value)
    {
      sources := sources - 1;
      if |mutationQueue| == 0 {
        sourceScheduled := false;
        return None;
      }
      id := Some(mutationQueue[0]);
      mutationQueue := mutationQueue[1..];
      phase := Popped(id.value);
    }

    method CompletePopped(id: nat, result: Outcome, observedGeneration: nat, observedSequence: nat)
      requires Valid() && phase == Ran(id, result, observedGeneration, observedSequence) && id < |calls|
      modifies this`calls, this`finished, this`phase
      ensures Valid() && View() == CompleteHeld(old(View())) && phase.Finished?
    {
      Complete(id, result, observedGeneration, observedSequence);
      phase := Finished;
    }

    method RescheduleLocked()
      requires Valid() && phase.Finished?
      modifies this`sourceScheduled, this`sources, this`phase
      ensures Valid() && View() == ReleaseSource(old(View()))
    {
      sourceScheduled := false;
      phase := Idle;
      ScheduleDispatchLocked();
    }

    /** One run of the idle source, uninterrupted. */
    method DispatchNext(outcome: Outcome)
      requires Valid() && sources > 0 && phase.Idle? && ctx
      requires forall i :: 0 <= i < |mutationQueue| ==> mutationQueue[i] < |calls|
      modifies this`calls, this`mutationQueue, this`sourceScheduled, this`sources, this`phase,
               this`finished, this`executed
      ensures Valid()
      ensures View() == ReleaseSource(CompleteHeld(CheckAndExecute(Pop(old(View())), outcome)))
    {
      var id := PopCall();
      if id.None? { return; }
      var result := CheckCall(id.value, outcome);
      CompletePopped(id.value, result, generation, sequence);
      RescheduleLocked();
    }

    /** Pops the first call and completes it. */
    method CancelFirst(reason: Outcome)
      requires |mutationQueue| > 0
      modifies this`calls, this`finished, this`mutationQueue
      ensures Queue() == CompleteCall(old(Queue()), old(mutationQueue)[0], reason, generation, 0)
                           .(queue := old(mutationQueue)[1..])
    {
      var id := mutationQueue[0];
      mutationQueue := mutationQueue[1..];
      if id < |calls| { Complete(id, reason, generation, 0); }
    }

    /** Empties the queue front to back, completing each call. */
    method CancelQueue(reason: Outcome)
      modifies this`calls, this`finished, this`mutationQueue
      ensures Queue() == CancelAll(old(Queue()), reason, generation)
    {
      ghost var before := Queue();
      while |mutationQueue| > 0
        invariant CancelAll(Queue(), reason, generation) == CancelAll(before, reason, generation)
        decreases |mutationQueue|
      {
        CancelFirst(reason);
        hide CompleteCall;
      }
    }

    method CancelPending(reason: Outcome)
      requires Valid()
      modifies this`calls, this`finished, this`mutationQueue, this`drained
      ensures Valid() && View() == Dispatch.CancelPending(old(View()), reason)
    {
      hide CancelAll;
      CancelQueue(reason);
      drained := drained || stopRequested;
    }

    /** Reconnecting is refused once stopping; otherwise it cancels the queue and then waits for a later generation. */
    method BeginReconnect() returns (previous: Option<nat>)
      requires Valid()
      modifies this`calls, this`finished, this`mutationQueue, this`drained
      ensures Valid()
      ensures previous == if !thread || !ctx || stopRequested then None else Some(generation)
      ensures View() == if previous.None? then old(View()) else Dispatch.CancelPending(old(View()), GenerationLost)
    {
      if !thread || !ctx || stopRequested { return None; }
      CancelPending(GenerationLost);
      previous := Some(generation);
    }

    method RequestStop()
      requires Valid()
      modifies this`stopRequested, this`calls, this`finished, this`mutationQueue, this`drained
      ensures Valid() && View() == Dispatch.CancelPending(old(View()).(stopRequested := true), RuntimeStopped)
      ensures drained && mutationQueue == []
    {
      stopRequested := true;
      CancelPending(RuntimeStopped);
      CancelEmpties(old(Queue()), RuntimeStopped, generation);
    }

    /** The source stop attaches: after this the loop quits and the queue takes no more events. */
    method StopOnThread(connected: bool, health: State, allocation: Allocation)
      requires Valid() && stopRequested
      modifies this
      ensures Valid() && closed && managedLinks == (if connected then map[] else old(managedLinks))
      ensures var disconnected := if connected then old(View()).(om := false) else old(View());
        View() == StreamStep(ConnectionEvent(disconnected, health, allocation), Step.Close)
    {
      if connected { OnCoreDisconnected(health, allocation); }
      PublishConnection(health, allocation);
      CloseEvents();
    }

    // ----- managed links -----

    /** Scans the table in its iteration order for an entry with the endpoints. */
    method LookupEndpoints(order: seq<string>, e: Ledger.Endpoints) returns (key: Option<string>)
      requires Ledger.Known(order, managedLinks)
      ensures key == Ledger.KeyWith(managedLinks, order, e)
    {
      var i := 0;
      while i < |order|
        invariant 0 <= i <= |order|
        invariant Ledger.KeyWith(managedLinks, order, e) == Ledger.KeyWith(managedLinks, order[i..], e)
      {
        if managedLinks[order[i]].endpoints == e { return Some(order[i]); }
        assert order[i..][1..] == order[i + 1..];
        i := i + 1;
      }
      return None;
    }

    method ForgetEndpoints(order: seq<string>, e: Ledger.Endpoints)
      requires Ledger.Known(order, managedLinks)
      modifies this`managedLinks
      ensures managedLinks == Ledger.Forget(old(managedLinks), order, e)
    {
      var key := LookupEndpoints(order, e);
      if key.Some? { managedLinks := managedLinks - {key.value}; }
    }

    method PreflightLinks(order: seq<string>, call: Ledger.Spec, links: seq<Ledger.LiveLink>)
      returns (r: Ledger.Preflight)
      requires Ledger.Known(order, managedLinks)
      ensures r == Ledger.CheckLinks(managedLinks, order, call, links, false)
    {
      var found := false;
      for i := 0 to |links|
        invariant Ledger.CheckLinks(managedLinks, order, call, links, false)
               == Ledger.CheckLinks(managedLinks, order, call, links[i..], found)
      {
        assert links[i..][1..] == links[i + 1..];
        var link := links[i];
        if link.info {
          var key := LookupEndpoints(order, link.endpoints);
          var sameTopology := link.endpoints == call.endpoints;
          var sameIdentity := key.Some?
            && managedLinks[key.value].owner == call.owner && managedLinks[key.value].desired == call.desired;
          if sameTopology && sameIdentity {
            if found { return Ledger.Conflict; }
            found := true;
          } else if sameTopology || sameIdentity {
            return Ledger.Conflict;
          }
        }
      }
      return if found then Ledger.Exact else Ledger.Clear;
    }

    method ExecuteCreate(order: seq<string>, call: Ledger.Spec, registry: Ledger.Registry, made: bool)
      returns (result: Outcome)
      requires Ledger.Enumerates(order, managedLinks)
      modifies this`managedLinks
      ensures result == Ledger.CreateLink(old(managedLinks), order, call, registry, made).0
      ensures managedLinks == if Ledger.CreateLink(old(managedLinks), order, call, registry, made).1
        then old(managedLinks)[Ledger.KeyOf(call) := call] else old(managedLinks)
    {
      if !Ledger.EndpointsExist(registry, call.endpoints) { return TargetNotFound; }
      var preflight := PreflightLinks(order, call, registry.links);
      match preflight
      case Conflict => return OwnershipConflict;
      case Exact => return Ready;
      case Clear =>
        if !made { return NativeRejected; }
        managedLinks := managedLinks[Ledger.KeyOf(call) := call];
        return Ready;
    }

    method ExecuteRemove(owner: string, desired: string, id: nat, links: seq<Ledger.LiveLink>)
      returns (result: Outcome, destroyed: Option<Ledger.LiveLink>)
      ensures (result, destroyed) == Ledger.RemoveLink(managedLinks, owner, desired, id, links)
    {
      var i := 0;
      while i < |links| && links[i].id != id
        invariant 0 <= i <= |links|
        invariant Ledger.FindLink(links, id) == Ledger.FindLink(links[i..], id)
      {
        assert links[i..][1..] == links[i + 1..];
        i := i + 1;
      }
      if i == |links| { return Ready, None; }
      var key := Ledger.Key(owner, desired);
      if key in managedLinks && managedLinks[key].endpoints == links[i].endpoints {
        return Ready, Some(links[i]);
      }
      return OwnershipConflict, None;
    }
  }

  lemma {:induction false} CancelEmpties(d: Dispatcher, reason: Outcome, generation: nat)
    ensures CancelAll(d, reason, generation).queue == []
    decreases |d.queue|
  {
    if d.queue != [] {
      CancelEmpties(CompleteCall(d, d.queue[0], reason, generation, 0).(queue := d.queue[1..]), reason, generation);
    }
  }
}
