/** What each answer of the dispatcher means: when a call gets it, in every run, and what its ticket says. */
module DispatchAnswers {
  import opened Wrappers
  import opened Events
  import opened EventStream
  import opened Dispatch
  import Outcomes

  // ----- one step -----

  /** A call is refused at once exactly when stopped or of another generation; else it is queued last. */
  lemma {:induction false} AdmitIff(c: Connection, g: nat, n: Option<nat>)
    ensures var calls, r := c.dispatch.calls, Admit(c, g, n);
      && |r.dispatch.calls| == |calls| + 1 && r.dispatch.calls[..|calls|] == calls
      && r.(dispatch := c.dispatch) == c
      && r.dispatch.phase == c.dispatch.phase && r.dispatch.finished == c.dispatch.finished
      && r.dispatch.executed == c.dispatch.executed
      && var call := r.dispatch.calls[|calls|];
         && call.expectedGeneration == g && call.expectedSequence == n && call.enqueuedGeneration == c.stream.generation
         && (call.status == Completed(RuntimeStopped, c.stream.generation, 0)
             <==> c.stopRequested || !c.thread || !c.ctx)
         && (call.status == Completed(StaleGeneration, c.stream.generation, 0)
             <==> !c.stopRequested && c.thread && c.ctx && g != c.stream.generation)
         && (call.status == Waiting <==> !c.stopRequested && c.thread && c.ctx && g == c.stream.generation)
         && (call.status == Waiting ==>
              && call.order == c.dispatch.order + 1 == r.dispatch.order
              && r.dispatch.queue == c.dispatch.queue + [|calls|]
              && r.dispatch.scheduled)
         && (call.status != Waiting ==>
              && call.order == 0 && r.dispatch.order == c.dispatch.order
              && r.dispatch.queue == c.dispatch.queue && r.dispatch.scheduled == c.dispatch.scheduled)
  {
  }

  /** The answer of a popped call, and the position it was checked at. */
  lemma {:induction false} CheckIff(c: Connection, outcome: Outcome)
    requires c.dispatch.phase.Popped? && c.dispatch.phase.id < |c.dispatch.calls| && FromOperation(outcome)
    ensures var id, r := c.dispatch.phase.id, CheckAndExecute(c, outcome).dispatch;
      && r.phase.Ran? && r.phase.id == id
      && r.phase.generation == c.stream.generation && r.phase.sequence == c.stream.sequence
      && var call, answer := c.dispatch.calls[id], r.phase.result;
         var serving := !c.stopRequested && c.om;
         var same := c.stream.generation == call.enqueuedGeneration;
         var expected := c.stream.generation == call.expectedGeneration;
         var current := call.expectedSequence.None? || call.expectedSequence == Some(c.stream.sequence);
         && (answer == RuntimeStopped <==> !serving)
         && (answer == GenerationLost <==> serving && !same)
         && (answer == StaleGeneration <==> serving && same && !expected)
         && (answer == StaleSequence <==> serving && same && expected && !current)
         && (FromOperation(answer) <==> serving && same && expected && current)
         && (FromOperation(answer) ==> answer == outcome)
         && r.executed == c.dispatch.executed
                          + (if FromOperation(answer)
                             then [Execution(id, c.stream.generation, c.stream.sequence)] else [])
  {
  }

  lemma {:induction false} CancelCalls(d: Dispatcher, reason: Outcome, generation: nat)
    ensures var r := CancelAll(d, reason, generation);
      && |r.calls| == |d.calls|
      && forall i :: 0 <= i < |d.calls| ==>
           r.calls[i] == if i in d.queue && d.calls[i].status.Waiting?
                         then d.calls[i].(status := Completed(reason, generation, 0)) else d.calls[i]
    decreases |d.queue|
  {
    if d.queue != [] {
      var next := CompleteCall(d, d.queue[0], reason, generation, 0).(queue := d.queue[1..]);
      assert CancelAll(d, reason, generation) == CancelAll(next, reason, generation);
      CancelCalls(next, reason, generation);
      hide CancelAll;
      assert forall i :: i in d.queue <==> i == d.queue[0] || i in next.queue;
    }
  }

  lemma {:induction false} CancelRest(d: Dispatcher, reason: Outcome, generation: nat)
    ensures var r := CancelAll(d, reason, generation);
      && |r.calls| == |d.calls|
      && r == d.(calls := r.calls, queue := [], finished := d.finished + KnownIds(d.queue, |d.calls|))
    decreases |d.queue|
  {
    if d.queue != [] {
      var next := CompleteCall(d, d.queue[0], reason, generation, 0).(queue := d.queue[1..]);
      CancelRest(next, reason, generation);
      var known := KnownIds(d.queue, |d.calls|);
      assert next.finished + KnownIds(next.queue, |next.calls|) == d.finished + known;
    }
  }

  /** Cancelling completes every call that still waits in the queue, and no other, with the reason. */
  lemma {:induction false} CancelIff(d: Dispatcher, reason: Outcome, generation: nat)
    ensures var r := CancelAll(d, reason, generation);
      && |r.calls| == |d.calls|
      && r == d.(calls := r.calls, queue := [], finished := d.finished + KnownIds(d.queue, |d.calls|))
      && forall i :: 0 <= i < |d.calls| ==>
           r.calls[i] == if i in d.queue && d.calls[i].status.Waiting?
                         then d.calls[i].(status := Completed(reason, generation, 0)) else d.calls[i]
  {
    CancelCalls(d, reason, generation);
    CancelRest(d, reason, generation);
    hide CancelAll, KnownIds;
  }

  /** The queued ids that are calls. */
  function KnownIds(queue: seq<nat>, count: nat): seq<nat> {
    if queue == [] then [] else (if queue[0] < count then [queue[0]] else []) + KnownIds(queue[1..], count)
  }

  // ----- every run -----

  /** What a call's answer, given at a position, tells about the call. */
  ghost predicate Means(call: Call, result: Outcome, generation: nat, sequence: nat) {
    && (result == StaleGeneration ==> call.order == 0 && call.expectedGeneration != call.enqueuedGeneration)
    && (result == StaleSequence ==>
         && call.order > 0 && generation == call.enqueuedGeneration
         && call.expectedSequence.Some? && call.expectedSequence != Some(sequence))
    && (FromOperation(result) ==>
         && call.order > 0 && generation == call.enqueuedGeneration
         && (call.expectedSequence.Some? ==> call.expectedSequence == Some(sequence)))
    && (call.order == 0 ==> result == RuntimeStopped || result == StaleGeneration)
  }

  ghost predicate Meaningful(d: Dispatcher) {
    && (forall i :: 0 <= i < |d.calls| ==>
         && (d.calls[i].order > 0 ==> d.calls[i].expectedGeneration == d.calls[i].enqueuedGeneration)
         && (d.calls[i].status.Waiting? ==> d.calls[i].order > 0)
         && (d.calls[i].status.Completed? ==>
              Means(d.calls[i], d.calls[i].status.result, d.calls[i].status.generation, d.calls[i].status.sequence)))
    && (d.phase.Ran? ==>
         && d.phase.id < |d.calls|
         && (d.calls[d.phase.id].order > 0 ==>
              Means(d.calls[d.phase.id], d.phase.result, d.phase.generation, d.phase.sequence)))
  }

  lemma {:induction false} CancelMeaningful(c: Connection, reason: Outcome)
    requires Meaningful(c.dispatch) && (reason == GenerationLost || reason == RuntimeStopped)
    ensures Meaningful(Dispatch.CancelPending(c, reason).dispatch)
  {
    CancelIff(c.dispatch, reason, c.stream.generation);
    hide CancelAll;
  }

  lemma {:induction false} CheckMeaningful(c: Connection, outcome: Outcome)
    requires Meaningful(c.dispatch) && FromOperation(outcome)
    ensures Meaningful(CheckAndExecute(c, outcome).dispatch)
  {
    if c.dispatch.phase.Popped? && c.dispatch.phase.id < |c.dispatch.calls| { CheckIff(c, outcome); }
  }

  lemma {:induction false} AdmitMeaningful(c: Connection, g: nat, n: Option<nat>)
    requires Meaningful(c.dispatch)
    ensures Meaningful(Admit(c, g, n).dispatch)
  {
    AdmitIff(c, g, n);
    hide Schedule;
  }

  lemma {:induction false} CompleteMeaningful(c: Connection)
    requires Meaningful(c.dispatch)
    ensures Meaningful(CompleteHeld(c).dispatch)
  {
  }

  lemma {:induction false} QueueMeaningful(c: Connection)
    requires Meaningful(c.dispatch)
    ensures Meaningful(Pop(c).dispatch) && Meaningful(ReleaseSource(c).dispatch)
  {
  }

  lemma {:induction false} MeaningfulStep(c: Connection, act: Act)
    requires Numbered(c.stream) && Meaningful(c.dispatch) && Possible(act)
    ensures Meaningful(Do(c, act).dispatch)
  {
    QueueMeaningful(c);
    CompleteMeaningful(c);
    hide Admit, Pop, CheckAndExecute, CompleteHeld, ReleaseSource, Dispatch.CancelPending;
    match act
    case Execute(outcome) => CheckMeaningful(c, outcome);
    case Cancel(reason) => CancelMeaningful(c, reason);
    case Enqueue(g, n) => AdmitMeaningful(c, g, n);
    case Fire =>
    case Complete =>
    case Reschedule =>
    case _ => StepKeepsMeaning(c, act);
  }

  lemma {:induction false} StepKeepsMeaning(c: Connection, act: Act)
    requires Numbered(c.stream) && Meaningful(c.dispatch)
    requires !act.Execute? && !act.Cancel? && !act.Enqueue? && !act.Fire? && !act.Complete? && !act.Reschedule?
    ensures Meaningful(Do(c, act).dispatch)
  {
    hide Means;
  }

  lemma {:induction false} MeaningfulRun(c: Connection, acts: seq<Act>)
    requires Numbered(c.stream) && Meaningful(c.dispatch)
    requires forall i :: 0 <= i < |acts| ==> Possible(acts[i])
    ensures Meaningful(DoAll(c, acts).dispatch)
    decreases |acts|
  {
    if acts != [] {
      assert Possible(acts[0]);
      MeaningfulStep(c, acts[0]);
      hide Meaningful;
      MeaningfulRun(Do(c, acts[0]), acts[1..]);
    }
  }

  /**
   * In every run each answer means what it says: stale generation, that the caller expected another than
   * the call was queued in, and never an admitted call; stale sequence, that in its own generation the
   * number was not the expected one; an operation's answer, that generation and number were as expected;
   * and a call refused before it was queued has one of two answers.
   */
  lemma {:induction false} AnswersMean(capacity: nat, acts: seq<Act>, id: nat)
    requires forall i :: 0 <= i < |acts| ==> Possible(acts[i])
    requires id < |DoAll(Dispatch.Fresh(capacity), acts).dispatch.calls|
    ensures var call := DoAll(Dispatch.Fresh(capacity), acts).dispatch.calls[id];
      call.status.Completed? ==>
        var result, g, n := call.status.result, call.status.generation, call.status.sequence;
        && (result == StaleGeneration ==> call.order == 0 && call.expectedGeneration != call.enqueuedGeneration)
        && (result == StaleSequence ==>
             && call.order > 0 && g == call.expectedGeneration == call.enqueuedGeneration
             && call.expectedSequence.Some? && call.expectedSequence.value != n)
        && (FromOperation(result) ==>
             && call.order > 0 && g == call.expectedGeneration == call.enqueuedGeneration
             && (call.expectedSequence.Some? ==> call.expectedSequence.value == n))
        && (call.order == 0 ==> result == RuntimeStopped || result == StaleGeneration)
  {
    MeaningfulRun(Dispatch.Fresh(capacity), acts);
    hide DoAll;
  }

  // ----- tickets -----

  /** A ticket repeats the call's own fields, and its disposition and code say exactly its result. */
  lemma {:induction false} TicketSays(call: Call)
    requires call.status.Completed?
    ensures var t, result := Outcomes.TicketOf(call), call.status.result;
      && t.order == call.order
      && t.expectedGeneration == call.expectedGeneration && t.expectedSequence == call.expectedSequence
      && t.observedGeneration == call.status.generation && t.observedSequence == call.status.sequence
      && (t.disposition == Outcomes.ReadyDisposition <==> result == Ready)
      && (t.disposition == Outcomes.FailedDisposition <==> result == NativeRejected)
      && (t.disposition == Outcomes.CancelledDisposition <==> result == GenerationLost || result == RuntimeStopped)
      && (t.failure == None <==> result == Ready)
      && (t.failure == Some(Outcomes.FailureCode.StaleGeneration) <==> result == StaleGeneration)
      && (t.failure == Some(Outcomes.FailureCode.StaleSequence) <==> result == StaleSequence)
      && (t.failure == Some(Outcomes.FailureCode.GenerationLost) <==> result == GenerationLost)
      && (t.failure == Some(Outcomes.FailureCode.RuntimeStopped) <==> result == RuntimeStopped)
      && (t.failure == Some(Outcomes.FailureCode.UnsupportedOperation) <==> result == UnsupportedOperation)
      && (t.failure == Some(Outcomes.FailureCode.TargetNotFound) <==> result == TargetNotFound)
      && (t.failure == Some(Outcomes.FailureCode.NotWritable) <==> result == NotWritable)
      && (t.failure == Some(Outcomes.FailureCode.OwnershipConflict) <==> result == OwnershipConflict)
      && (t.failure == Some(Outcomes.FailureCode.NativeRejected) <==> result == NativeRejected)
  {
  }
}
