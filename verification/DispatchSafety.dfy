/**
 * What every interleaving of the dispatch steps keeps: each admitted call is held in exactly one
 * place and completed exactly once, work in the queue always has a source, executions follow the
 * order of admission and never leave their generation.
 */
module DispatchSafety {
  import opened Wrappers
  import opened Events
  import opened EventStream
  import opened Dispatch

  predicate Admitted(call: Call) { call.order > 0 }

  predicate Increasing(ids: seq<nat>) {
    forall i, j :: 0 <= i < j < |ids| ==> ids[i] < ids[j]
  }

  predicate Holds(d: Dispatcher, id: nat) {
    (d.phase.Popped? && d.phase.id == id) || (d.phase.Ran? && d.phase.id == id)
  }

  // ----- where an uncompleted call is -----

  predicate Pending(d: Dispatcher, id: nat) {
    id < |d.calls| && d.calls[id].status.Waiting? && Admitted(d.calls[id])
  }

  /** The queue is in order of admission and holds only calls that wait. */
  ghost predicate Queued(d: Dispatcher) {
    && Increasing(d.queue)
    && (forall id: nat :: id in d.queue ==> Pending(d, id))
  }

  /**
   * Every call that waits for completion is in the queue or held by the dispatcher, never both,
   * and only such calls are.
   */
  ghost predicate Placed(d: Dispatcher) {
    && Queued(d)
    && (forall id: nat :: Holds(d, id) ==> Pending(d, id) && id !in d.queue)
    && (forall id: nat, k :: Holds(d, id) && k in d.queue ==> id < k)
    && (forall id :: 0 <= id < |d.calls| && d.calls[id].status.Waiting? ==> id in d.queue || Holds(d, id))
  }

  /** A call that is cancelled. */
  function Cancelled(call: Call, reason: Outcome, generation: nat): Call {
    call.(status := Completed(reason, generation, 0))
  }

  /** The effect of a cancellation, call by call. */
  lemma {:induction false} CancelAllResult(d: Dispatcher, reason: Outcome, generation: nat)
    requires Queued(d)
    ensures var r := CancelAll(d, reason, generation);
      && r == d.(queue := [], calls := r.calls, finished := d.finished + d.queue)
      && |r.calls| == |d.calls|
      && (forall id :: id in d.queue ==> r.calls[id] == Cancelled(d.calls[id], reason, generation))
      && (forall id :: 0 <= id < |d.calls| && id !in d.queue ==> r.calls[id] == d.calls[id])
    decreases |d.queue|
  {
    if d.queue != [] {
      var head, rest := d.queue[0], d.queue[1..];
      var e := CompleteCall(d, head, reason, generation, 0).(queue := rest);
      CancelHead(d, e, reason, generation);
      QueueSplits(d);
      assert CancelAll(d, reason, generation) == CancelAll(e, reason, generation);
      hide CompleteCall, Queued, CancelAll;
      CancelAllResult(e, reason, generation);
      var r := CancelAll(e, reason, generation);
      assert d.finished + [head] + rest == d.finished + d.queue;
      assert r.calls[head] == Cancelled(d.calls[head], reason, generation);
    }
  }

  lemma {:induction false} CancelHead(d: Dispatcher, e: Dispatcher, reason: Outcome, generation: nat)
    requires Queued(d) && d.queue != []
    requires e == CompleteCall(d, d.queue[0], reason, generation, 0).(queue := d.queue[1..])
    ensures d.queue[0] < |d.calls| && d.queue[0] !in d.queue[1..]
    ensures Queued(e)
    ensures e == d.(queue := d.queue[1..], finished := d.finished + [d.queue[0]],
                    calls := d.calls[d.queue[0] := Cancelled(d.calls[d.queue[0]], reason, generation)])
  {
    QueueSplits(d);
    assert Pending(d, d.queue[0]);
    assert forall id: nat :: id in d.queue[1..] ==> Pending(d, id);
  }

  lemma {:induction false} QueueSplits(d: Dispatcher)
    requires Queued(d) && d.queue != []
    ensures d.queue == [d.queue[0]] + d.queue[1..]
    ensures Increasing(d.queue[1..])
    ensures forall id :: id in d.queue[1..] ==> d.queue[0] < id && id in d.queue
    ensures forall id :: id in d.queue ==> id == d.queue[0] || id in d.queue[1..]
  {
  }

  lemma {:induction false} PlacedAdmit(c: Connection, g: nat, n: Option<nat>)
    requires Placed(c.dispatch)
    ensures Placed(Admit(c, g, n).dispatch)
  {
    var d, e := c.dispatch, Admit(c, g, n).dispatch;
    assert forall id: nat :: Pending(d, id) ==> Pending(e, id);
    assert e.calls == d.calls + [e.calls[|d.calls|]];
    assert forall id: nat :: Holds(d, id) <==> Holds(e, id);
    if e.queue != d.queue {
      assert e.queue == d.queue + [|d.calls|];
      assert Pending(e, |d.calls|);
      assert forall i :: 0 <= i < |d.queue| ==> Pending(d, d.queue[i]);
      assert Queued(e);
    }
  }

  lemma {:induction false} PlacedPop(c: Connection)
    requires Placed(c.dispatch)
    ensures Placed(Pop(c).dispatch)
  {
    if c.dispatch.queue != [] {
      QueueSplits(c.dispatch);
      assert forall id: nat :: Pending(c.dispatch, id) ==> Pending(Pop(c).dispatch, id);
    }
  }

  lemma {:induction false} PlacedSame(d: Dispatcher, e: Dispatcher)
    requires Placed(d) && e.calls == d.calls && e.queue == d.queue
    requires forall id: nat :: Holds(d, id) <==> Holds(e, id)
    ensures Placed(e)
  {
    hide Holds;
    assert forall id: nat :: Pending(d, id) <==> Pending(e, id);
  }

  lemma {:induction false} PlacedExecute(c: Connection, outcome: Outcome)
    requires Placed(c.dispatch)
    ensures Placed(CheckAndExecute(c, outcome).dispatch)
  {
    hide Placed, Pending, Verdict;
    var d, e := c.dispatch, CheckAndExecute(c, outcome).dispatch;
    assert e.calls == d.calls && e.queue == d.queue;
    PlacedSame(d, e);
  }

  lemma {:induction false} PlacedComplete(c: Connection)
    requires Placed(c.dispatch)
    ensures Placed(CompleteHeld(c).dispatch)
  {
    var d, e := c.dispatch, CompleteHeld(c).dispatch;
    if d.phase.Ran? {
      assert Holds(d, d.phase.id);
      assert forall id: nat :: Pending(d, id) && id != d.phase.id ==> Pending(e, id);
    }
  }

  lemma {:induction false} PlacedCancel(c: Connection, reason: Outcome)
    requires Placed(c.dispatch)
    ensures Placed(CancelPending(c, reason).dispatch)
  {
    var d, e := c.dispatch, CancelPending(c, reason).dispatch;
    CancelAllResult(d, reason, c.stream.generation);
    assert forall id: nat :: Holds(d, id) <==> Holds(e, id);
  }

  lemma {:induction false} PlacedKeeps(c: Connection, act: Act)
    requires Numbered(c.stream) && Placed(c.dispatch)
    ensures Placed(Do(c, act).dispatch)
  {
    match act
    case Enqueue(g, n) => PlacedAdmit(c, g, n);
    case Fire => PlacedPop(c);
    case Execute(outcome) => PlacedExecute(c, outcome);
    case Complete => PlacedComplete(c);
    case Cancel(reason) => PlacedCancel(c, reason);
    case _ =>
      hide Placed, Pending, Apply;
      PlacedSame(c.dispatch, Do(c, act).dispatch);
  }

  // ----- completion -----

  predicate Distinct(ids: seq<nat>) {
    forall i, j :: 0 <= i < j < |ids| ==> ids[i] != ids[j]
  }

  /**
   * `finished` lists every invocation of `complete_call`: no call appears twice, and the calls in
   * it are exactly the admitted ones that have a result. A call never admitted is answered at once.
   */
  ghost predicate CompletedOnce(d: Dispatcher) {
    && Distinct(d.finished)
    && (forall id: nat :: id in d.finished ==> id < |d.calls|)
    && (forall id :: 0 <= id < |d.calls| ==>
         (id in d.finished <==> Admitted(d.calls[id]) && d.calls[id].status.Completed?))
    && (forall id :: 0 <= id < |d.calls| && !Admitted(d.calls[id]) ==>
         && d.calls[id].status.Completed?
         && (d.calls[id].status.result == RuntimeStopped || d.calls[id].status.result == StaleGeneration))
  }

  lemma {:induction false} CompletedOnceAdmit(c: Connection, g: nat, n: Option<nat>)
    requires CompletedOnce(c.dispatch)
    ensures CompletedOnce(Admit(c, g, n).dispatch)
  {
    var d, e := c.dispatch, Admit(c, g, n).dispatch;
    assert |d.calls| !in d.finished;
    assert e.calls == d.calls + [e.calls[|d.calls|]] && e.finished == d.finished;
  }

  lemma {:induction false} CompletedOnceHeld(c: Connection)
    requires Placed(c.dispatch) && CompletedOnce(c.dispatch)
    ensures CompletedOnce(CompleteHeld(c).dispatch)
  {
    var d, e := c.dispatch, CompleteHeld(c).dispatch;
    if d.phase.Ran? {
      assert Holds(d, d.phase.id);
      assert Pending(d, d.phase.id);
      assert d.phase.id !in d.finished;
      assert e.finished == d.finished + [d.phase.id];
    }
  }

  lemma {:induction false} CompletedOnceCancel(c: Connection, reason: Outcome)
    requires Placed(c.dispatch) && CompletedOnce(c.dispatch)
    ensures CompletedOnce(CancelPending(c, reason).dispatch)
  {
    var d, e := c.dispatch, CancelPending(c, reason).dispatch;
    CancelAllResult(d, reason, c.stream.generation);
    forall id: nat | id in d.queue
      ensures id !in d.finished && id < |d.calls| && Admitted(d.calls[id])
    {
      assert Pending(d, id);
    }
    assert e.finished == d.finished + d.queue;
    assert forall id: nat :: id in e.finished <==> id in d.finished || id in d.queue;
    forall i, j | 0 <= i < j < |e.finished|
      ensures e.finished[i] != e.finished[j]
    {
      if i < |d.finished| <= j { assert d.finished[i] in d.finished && d.queue[j - |d.finished|] in d.queue; }
    }
  }

  lemma {:induction false} CompletedOnceSame(d: Dispatcher, e: Dispatcher)
    requires CompletedOnce(d) && e.calls == d.calls && e.finished == d.finished
    ensures CompletedOnce(e)
  {
  }

  lemma {:induction false} CompletedOnceKeeps(c: Connection, act: Act)
    requires Numbered(c.stream) && Placed(c.dispatch) && CompletedOnce(c.dispatch)
    ensures CompletedOnce(Do(c, act).dispatch)
  {
    hide Placed, CompletedOnce;
    match act
    case Enqueue(g, n) => CompletedOnceAdmit(c, g, n);
    case Complete => CompletedOnceHeld(c);
    case Cancel(reason) => CompletedOnceCancel(c, reason);
    case _ =>
      hide Apply;
      CompletedOnceSame(c.dispatch, Do(c, act).dispatch);
  }

  // ----- sources -----

  /**
   * At most one dispatch source exists, while the context lives the flag says whether one exists
   * or is running, and a non-empty queue always has one.
   */
  predicate Scheduled(c: Connection) {
    var d := c.dispatch;
    && d.sources <= 1
    && (d.sources == 1 ==> d.phase.Idle?)
    && (c.ctx ==> (d.scheduled <==> d.sources == 1 || !d.phase.Idle?))
    && (d.queue != [] ==> c.ctx && d.scheduled)
    && (!c.ctx ==> d.phase.Idle?)
  }

  /** After stop's drain nothing is ever queued again; the context outlives the drain. */
  predicate Drained(c: Connection) {
    && (c.drained ==> c.stopRequested && c.dispatch.queue == [])
    && (!c.ctx ==> c.drained)
    && (!c.thread ==> !c.ctx)
  }

  lemma {:induction false} ScheduledKeeps(c: Connection, act: Act)
    requires Numbered(c.stream) && Placed(c.dispatch) && Scheduled(c) && Drained(c)
    ensures Scheduled(Do(c, act)) && Drained(Do(c, act))
  {
    if act.Cancel? { CancelAllResult(c.dispatch, act.reason, c.stream.generation); }
    hide Placed, Holds, Pending, CancelAll, CompleteCall, Verdict, Apply;
  }

  // ----- order of admission -----

  /** How many of the first `n` calls were admitted in a generation. */
  function Rank(calls: seq<Call>, generation: nat, n: nat): (r: nat)
    requires n <= |calls|
  {
    if n == 0 then 0
    else Rank(calls, generation, n - 1)
         + (if Admitted(calls[n - 1]) && calls[n - 1].enqueuedGeneration == generation then 1 else 0)
  }

  /** The k-th call admitted in a generation carries order k, and `order` counts the latest ones. */
  ghost predicate RankedCalls(calls: seq<Call>, generation: nat, order: nat) {
    && (forall id :: 0 <= id < |calls| && Admitted(calls[id]) ==>
         && calls[id].order == Rank(calls, calls[id].enqueuedGeneration, id) + 1
         && calls[id].expectedGeneration == calls[id].enqueuedGeneration)
    && (forall i, j :: 0 <= i < j < |calls| && Admitted(calls[i]) && Admitted(calls[j]) ==>
         calls[i].enqueuedGeneration <= calls[j].enqueuedGeneration)
    && (forall id :: 0 <= id < |calls| ==> calls[id].enqueuedGeneration <= generation)
    && order == Rank(calls, generation, |calls|)
  }

  ghost predicate Ranked(c: Connection) {
    RankedCalls(c.dispatch.calls, c.stream.generation, c.dispatch.order)
  }

  predicate SameButStatus(calls: seq<Call>, after: seq<Call>) {
    && |calls| <= |after|
    && (forall id :: 0 <= id < |calls| ==> after[id] == calls[id].(status := after[id].status))
  }

  lemma {:induction false} RankSame(calls: seq<Call>, after: seq<Call>, generation: nat, n: nat)
    requires n <= |calls| && SameButStatus(calls, after)
    ensures Rank(after, generation, n) == Rank(calls, generation, n)
  {
    if n > 0 { RankSame(calls, after, generation, n - 1); }
  }

  lemma {:induction false} RankOfNew(calls: seq<Call>, generation: nat, n: nat)
    requires n <= |calls|
    requires forall id :: 0 <= id < n ==> calls[id].enqueuedGeneration < generation
    ensures Rank(calls, generation, n) == 0
  {
    if n > 0 { RankOfNew(calls, generation, n - 1); }
  }

  lemma {:induction false} RankGrows(calls: seq<Call>, generation: nat, m: nat, n: nat)
    requires m <= n <= |calls|
    ensures Rank(calls, generation, m) <= Rank(calls, generation, n)
    decreases n - m
  {
    if m < n { RankGrows(calls, generation, m, n - 1); }
  }

  lemma {:induction false} CallsSame(c: Connection, act: Act)
    requires Numbered(c.stream) && !act.Cancel? && !act.Complete? && !act.Enqueue?
    ensures Do(c, act).dispatch.calls == c.dispatch.calls
  {
    hide CancelAll, CompleteCall, Apply, Verdict, Admit, Pop, CheckAndExecute, ReleaseSource;
  }

  lemma {:induction false} CallsAdmitted(c: Connection, g: nat, n: Option<nat>)
    ensures SameButStatus(c.dispatch.calls, Admit(c, g, n).dispatch.calls)
  {
    var d, e := c.dispatch, Admit(c, g, n).dispatch;
    assert e.calls == d.calls + [e.calls[|d.calls|]];
  }

  lemma {:induction false} CallsCompleted(c: Connection)
    ensures SameButStatus(c.dispatch.calls, CompleteHeld(c).dispatch.calls)
    ensures |CompleteHeld(c).dispatch.calls| == |c.dispatch.calls|
  {
  }

  lemma {:induction false} CallsCancelled(c: Connection, reason: Outcome)
    requires Placed(c.dispatch)
    ensures SameButStatus(c.dispatch.calls, CancelPending(c, reason).dispatch.calls)
    ensures |CancelPending(c, reason).dispatch.calls| == |c.dispatch.calls|
  {
    CancelAllResult(c.dispatch, reason, c.stream.generation);
    hide Placed, CancelAll;
  }

  lemma {:induction false} CallsKept(c: Connection, act: Act)
    requires Numbered(c.stream) && Placed(c.dispatch)
    ensures SameButStatus(c.dispatch.calls, Do(c, act).dispatch.calls)
    ensures !act.Enqueue? ==> |Do(c, act).dispatch.calls| == |c.dispatch.calls|
  {
    hide Placed, CancelPending, CompleteHeld, Admit, Apply;
    match act
    case Cancel(reason) => CallsCancelled(c, reason); hide SameButStatus;
    case Complete => CallsCompleted(c); hide SameButStatus;
    case Enqueue(g, n) => CallsAdmitted(c, g, n); hide SameButStatus;
    case _ => CallsSame(c, act); hide Do;
  }

  lemma {:induction false} RankStep(calls: seq<Call>, generation: nat, n: nat)
    requires n < |calls|
    ensures Rank(calls, generation, n + 1) == Rank(calls, generation, n)
      + (if Admitted(calls[n]) && calls[n].enqueuedGeneration == generation then 1 else 0)
  {
  }

  /** Changing the status of calls changes no rank. */
  lemma {:induction false} RankedSame(calls: seq<Call>, after: seq<Call>, generation: nat, order: nat)
    requires RankedCalls(calls, generation, order)
    requires SameButStatus(calls, after) && |after| == |calls|
    ensures RankedCalls(after, generation, order)
  {
    hide Rank;
    forall g: nat, n: nat | n <= |calls|
      ensures Rank(after, g, n) == Rank(calls, g, n)
    {
      RankSame(calls, after, g, n);
    }
  }

  lemma {:induction false} RankedAppend(calls: seq<Call>, call: Call, generation: nat, order: nat)
    requires RankedCalls(calls, generation, order) && call.enqueuedGeneration == generation
    requires Admitted(call) ==> call.order == order + 1 && call.expectedGeneration == generation
    ensures RankedCalls(calls + [call], generation, if Admitted(call) then order + 1 else order)
  {
    hide Rank;
    var after := calls + [call];
    forall g: nat, n: nat | n <= |calls|
      ensures Rank(after, g, n) == Rank(calls, g, n)
    {
      RankSame(calls, after, g, n);
    }
    RankStep(after, generation, |calls|);
  }

  lemma {:induction false} RankedAdmit(c: Connection, g: nat, n: Option<nat>)
    requires Ranked(c)
    ensures Ranked(Admit(c, g, n))
  {
    var r := Admit(c, g, n);
    RankedAppend(c.dispatch.calls, r.dispatch.calls[|c.dispatch.calls|], c.stream.generation, c.dispatch.order);
    hide RankedCalls;
  }

  lemma {:induction false} RankedInstall(calls: seq<Call>, generation: nat, order: nat)
    requires RankedCalls(calls, generation, order)
    ensures RankedCalls(calls, generation + 1, 0)
  {
    hide Rank;
    RankOfNew(calls, generation + 1, |calls|);
  }

  lemma {:induction false} CountersKept(c: Connection, act: Act)
    requires Numbered(c.stream) && Placed(c.dispatch) && !act.Enqueue? && act != Act.Events(Install)
    ensures Do(c, act).stream.generation == c.stream.generation
    ensures Do(c, act).dispatch.order == c.dispatch.order
  {
    match act
    case Cancel(reason) => CancelAllResult(c.dispatch, reason, c.stream.generation);
    case Events(step) =>
      hide Placed;
      assert Apply(c.stream, step).generation == c.stream.generation;
    case _ => hide Placed, CancelAll, Apply, Verdict;
  }

  lemma {:induction false} RankedKeeps(c: Connection, act: Act)
    requires Numbered(c.stream) && Placed(c.dispatch) && Ranked(c)
    ensures Ranked(Do(c, act))
  {
    if act.Enqueue? {
      RankedAdmit(c, act.expectedGeneration, act.expectedSequence);
    } else if act == Act.Events(Install) {
      RankedInstall(c.dispatch.calls, c.stream.generation, c.dispatch.order);
    } else {
      CountersKept(c, act);
      CallsKept(c, act);
      hide Do, Placed, SameButStatus, RankedCalls;
      RankedSame(c.dispatch.calls, Do(c, act).dispatch.calls, c.stream.generation, c.dispatch.order);
    }
  }

  /** Among admitted calls, later arrival means later in (generation, order). */
  lemma {:induction false} ArrivalOrder(c: Connection, i: nat, j: nat)
    requires Ranked(c) && i < j < |c.dispatch.calls|
    requires Admitted(c.dispatch.calls[i]) && Admitted(c.dispatch.calls[j])
    ensures var a, b := c.dispatch.calls[i], c.dispatch.calls[j];
      Before(a.enqueuedGeneration, a.order, b.enqueuedGeneration, b.order)
  {
    hide Rank;
    var calls := c.dispatch.calls;
    RankStep(calls, calls[i].enqueuedGeneration, i);
    RankGrows(calls, calls[i].enqueuedGeneration, i + 1, j);
  }

  // ----- execution -----

  predicate WasExecuted(d: Dispatcher, id: nat) {
    exists k :: 0 <= k < |d.executed| && d.executed[k].id == id
  }

  /** In its own generation, at its expected number. */
  predicate Proper(d: Dispatcher, x: Execution) {
    && x.id < |d.calls|
    && var call := d.calls[x.id];
       && Admitted(call)
       && x.generation == call.enqueuedGeneration == call.expectedGeneration
       && (call.expectedSequence.Some? ==> x.sequence == call.expectedSequence.value)
  }

  /** Every execution is proper, and comes after all earlier ones and before all that wait. */
  ghost predicate Executions(d: Dispatcher) {
    && (forall i, j :: 0 <= i < j < |d.executed| ==> d.executed[i].id < d.executed[j].id)
    && (forall k :: 0 <= k < |d.executed| ==> Proper(d, d.executed[k]))
    && (forall k, id :: 0 <= k < |d.executed| && id in d.queue ==> d.executed[k].id < id)
    && (forall k :: 0 <= k < |d.executed| && d.phase.Popped? ==> d.executed[k].id < d.phase.id)
    && (forall k :: 0 <= k < |d.executed| && d.phase.Ran? ==> d.executed[k].id <= d.phase.id)
  }

  lemma {:induction false} ProperKept(d: Dispatcher, e: Dispatcher)
    requires SameButStatus(d.calls, e.calls) && e.executed == d.executed
    requires forall k :: 0 <= k < |d.executed| ==> Proper(d, d.executed[k])
    ensures forall k :: 0 <= k < |e.executed| ==> Proper(e, e.executed[k])
  {
  }

  lemma {:induction false} ExecutionsAdmit(c: Connection, g: nat, n: Option<nat>)
    requires Executions(c.dispatch)
    ensures Executions(Admit(c, g, n).dispatch)
  {
    var d, e := c.dispatch, Admit(c, g, n).dispatch;
    assert e.calls[..|d.calls|] == d.calls;
    assert e.queue == d.queue || e.queue == d.queue + [|d.calls|];
    ProperKept(d, e);
    assert forall k :: 0 <= k < |d.executed| ==> Proper(d, d.executed[k]);
  }

  lemma {:induction false} ExecutionsPop(c: Connection)
    requires Placed(c.dispatch) && Executions(c.dispatch)
    ensures Executions(Pop(c).dispatch)
  {
    var d, e := c.dispatch, Pop(c).dispatch;
    ProperKept(d, e);
    if d.queue != [] {
      QueueSplits(d);
      assert d.queue[0] in d.queue;
    }
  }

  /** Running the held call: it comes after every earlier execution and before the queue. */
  lemma {:induction false} ExecutionsRun(d: Dispatcher, e: Dispatcher, x: Execution)
    requires Executions(d) && d.phase == Popped(x.id) && e.phase.Ran? && e.phase.id == x.id
    requires e.calls == d.calls && e.queue == d.queue
    requires forall id :: id in d.queue ==> x.id < id
    requires e.executed == d.executed || (e.executed == d.executed + [x] && Proper(d, x))
    ensures Executions(e)
  {
    var n := |d.executed|;
    assert forall k :: 0 <= k < n ==> e.executed[k] == d.executed[k];
    assert forall k :: 0 <= k < n ==> Proper(d, d.executed[k]);
    forall k | 0 <= k < |e.executed|
      ensures Proper(e, e.executed[k]) && e.executed[k].id <= x.id
    {
      if k < n { assert Proper(d, d.executed[k]); }
    }
    hide Proper;
  }

  lemma {:induction false} ExecutionsExecute(c: Connection, outcome: Outcome)
    requires Placed(c.dispatch) && Executions(c.dispatch)
    ensures Executions(CheckAndExecute(c, outcome).dispatch)
  {
    var d, e := c.dispatch, CheckAndExecute(c, outcome).dispatch;
    if d.phase.Popped? {
      var x := Execution(d.phase.id, c.stream.generation, c.stream.sequence);
      assert Holds(d, x.id);
      assert Pending(d, x.id);
      hide Executions;
      ExecutionsRun(d, e, x);
    }
  }

  lemma {:induction false} ExecutionsComplete(c: Connection)
    requires Executions(c.dispatch)
    ensures Executions(CompleteHeld(c).dispatch)
  {
    var d, e := c.dispatch, CompleteHeld(c).dispatch;
    assert SameButStatus(d.calls, e.calls);
    ProperKept(d, e);
    hide Proper, CompleteCall;
  }

  lemma {:induction false} ExecutionsCancel(c: Connection, reason: Outcome)
    requires Placed(c.dispatch) && Executions(c.dispatch)
    ensures Executions(CancelPending(c, reason).dispatch)
  {
    var d, e := c.dispatch, CancelPending(c, reason).dispatch;
    CancelAllResult(d, reason, c.stream.generation);
    hide Placed;
    assert SameButStatus(d.calls, e.calls);
    ProperKept(d, e);
    hide Proper, CancelAll;
  }

  lemma {:induction false} ExecutionsSame(d: Dispatcher, e: Dispatcher)
    requires Executions(d)
    requires e.calls == d.calls && e.queue == d.queue && e.executed == d.executed
    requires e.phase == d.phase || e.phase.Idle?
    ensures Executions(e)
  {
    ProperKept(d, e);
    hide Proper;
  }

  lemma {:induction false} ExecutionsKeeps(c: Connection, act: Act)
    requires Numbered(c.stream) && Placed(c.dispatch) && Executions(c.dispatch)
    ensures Executions(Do(c, act).dispatch)
  {
    hide Placed, Executions;
    match act
    case Enqueue(g, n) => ExecutionsAdmit(c, g, n);
    case Fire => ExecutionsPop(c);
    case Execute(outcome) => ExecutionsExecute(c, outcome);
    case Complete => ExecutionsComplete(c);
    case Cancel(reason) => ExecutionsCancel(c, reason);
    case _ =>
      hide Apply;
      ExecutionsSame(c.dispatch, Do(c, act).dispatch);
  }

  /** A call's result comes from its operation exactly when it was executed. */
  ghost predicate Answers(d: Dispatcher) {
    && (forall id: nat :: id < |d.calls| && d.calls[id].status.Completed? ==>
         (FromOperation(d.calls[id].status.result) <==> WasExecuted(d, id)))
    && (d.phase.Ran? ==> (FromOperation(d.phase.result) <==> WasExecuted(d, d.phase.id)))
  }

  lemma {:induction false} AnswersAdmit(c: Connection, g: nat, n: Option<nat>)
    requires Executions(c.dispatch) && Answers(c.dispatch)
    ensures Answers(Admit(c, g, n).dispatch)
  {
    var d, e := c.dispatch, Admit(c, g, n).dispatch;
    assert forall k :: 0 <= k < |d.executed| ==> Proper(d, d.executed[k]);
    assert !WasExecuted(e, |d.calls|);
    assert e.calls[..|d.calls|] == d.calls;
    assert forall id: nat :: WasExecuted(d, id) <==> WasExecuted(e, id);
  }

  lemma {:induction false} AnswersRun(d: Dispatcher, e: Dispatcher, x: Execution, result: Outcome)
    requires Answers(d) && !WasExecuted(d, x.id)
    requires e.calls == d.calls && e.phase.Ran? && e.phase.id == x.id && e.phase.result == result
    requires e.executed == if FromOperation(result) then d.executed + [x] else d.executed
    requires x.id < |d.calls| && d.calls[x.id].status.Waiting?
    ensures Answers(e)
  {
    assert forall k :: 0 <= k < |d.executed| ==> e.executed[k] == d.executed[k];
    forall other: nat | other != x.id
      ensures WasExecuted(d, other) <==> WasExecuted(e, other)
    {
    }
    if FromOperation(result) { assert e.executed[|d.executed|].id == x.id; }
    hide FromOperation;
  }

  lemma {:induction false} NotYetExecuted(d: Dispatcher, id: nat)
    requires Executions(d) && d.phase == Popped(id)
    ensures !WasExecuted(d, id)
  {
    hide Proper;
  }

  lemma {:induction false} AnswersExecute(c: Connection, outcome: Outcome)
    requires Placed(c.dispatch) && Executions(c.dispatch) && Answers(c.dispatch) && FromOperation(outcome)
    ensures Answers(CheckAndExecute(c, outcome).dispatch)
  {
    var d, e := c.dispatch, CheckAndExecute(c, outcome).dispatch;
    if d.phase.Popped? {
      var x := Execution(d.phase.id, c.stream.generation, c.stream.sequence);
      assert Holds(d, x.id);
      assert Pending(d, x.id);
      NotYetExecuted(d, x.id);
      hide Placed, Executions, Answers, WasExecuted;
      AnswersRun(d, e, x, e.phase.result);
    }
  }

  lemma {:induction false} AnswersCancel(c: Connection, reason: Outcome)
    requires Placed(c.dispatch) && Executions(c.dispatch) && Answers(c.dispatch) && !FromOperation(reason)
    ensures Answers(CancelPending(c, reason).dispatch)
  {
    var d, e := c.dispatch, CancelPending(c, reason).dispatch;
    CancelAllResult(d, reason, c.stream.generation);
    assert forall id: nat :: WasExecuted(d, id) <==> WasExecuted(e, id);
    assert forall id: nat :: id in d.queue ==> !WasExecuted(d, id);
  }

  lemma {:induction false} AnswersKeeps(c: Connection, act: Act)
    requires Numbered(c.stream) && Placed(c.dispatch) && Possible(act)
    requires Executions(c.dispatch) && Answers(c.dispatch)
    ensures Answers(Do(c, act).dispatch)
  {
    var d, e := c.dispatch, Do(c, act).dispatch;
    hide Placed, Executions;
    match act
    case Enqueue(g, n) => AnswersAdmit(c, g, n);
    case Execute(outcome) => AnswersExecute(c, outcome);
    case Cancel(reason) => AnswersCancel(c, reason);
    case Complete => AnswersComplete(c);
    case _ =>
      hide Apply, Answers;
      AnswersSame(d, e);
  }

  lemma {:induction false} AnswersSame(d: Dispatcher, e: Dispatcher)
    requires Answers(d) && e.executed == d.executed && e.calls == d.calls
    requires e.phase == d.phase || !e.phase.Ran?
    ensures Answers(e)
  {
    assert forall id: nat :: WasExecuted(d, id) <==> WasExecuted(e, id);
  }

  lemma {:induction false} AnswersComplete(c: Connection)
    requires Placed(c.dispatch) && Answers(c.dispatch)
    ensures Answers(CompleteHeld(c).dispatch)
  {
    var d, e := c.dispatch, CompleteHeld(c).dispatch;
    assert forall id: nat :: WasExecuted(d, id) <==> WasExecuted(e, id);
    if d.phase.Ran? {
      assert Holds(d, d.phase.id);
      assert Pending(d, d.phase.id);
    }
  }
}
