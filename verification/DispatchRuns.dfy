/** Mutation dispatch over whole runs: the guarantees every interleaving of its steps gives. */
module DispatchRuns {
  import opened Wrappers
  import opened Events
  import opened EventStream
  import opened Dispatch
  import opened DispatchSafety
  import Outcomes

  ghost predicate Inv(c: Connection) {
    && Numbered(c.stream)
    && Placed(c.dispatch)
    && CompletedOnce(c.dispatch)
    && Scheduled(c) && Drained(c)
    && Ranked(c)
    && Executions(c.dispatch) && Answers(c.dispatch)
  }

  lemma {:induction false} InvKeeps(c: Connection, act: Act)
    requires Inv(c) && Possible(act)
    ensures Inv(Do(c, act))
  {
    PlacedKeeps(c, act);
    CompletedOnceKeeps(c, act);
    ScheduledKeeps(c, act);
    RankedKeeps(c, act);
    ExecutionsKeeps(c, act);
    AnswersKeeps(c, act);
    hide Do, Placed, CompletedOnce, Scheduled, Drained, Ranked, Executions, Answers;
  }

  predicate AllPossible(acts: seq<Act>) {
    forall i :: 0 <= i < |acts| ==> Possible(acts[i])
  }

  lemma {:induction false} InvRun(c: Connection, acts: seq<Act>)
    requires Inv(c) && AllPossible(acts)
    ensures Inv(DoAll(c, acts))
    decreases |acts|
  {
    if acts != [] {
      assert Possible(acts[0]);
      InvKeeps(c, acts[0]);
      hide Inv, Do;
      InvRun(Do(c, acts[0]), acts[1..]);
    }
  }

  lemma {:induction false} FreshInv(capacity: nat)
    ensures Inv(Fresh(capacity))
  {
  }

  // ----- completion -----

  /** How often `complete_call` was invoked for a call. */
  function Completions(d: Dispatcher, id: nat): nat { multiset(d.finished)[id] }

  lemma {:induction false} CountOfDistinct(ids: seq<nat>, id: nat)
    requires Distinct(ids)
    ensures multiset(ids)[id] == if id in ids then 1 else 0
  {
    if ids != [] {
      var n := |ids| - 1;
      assert ids == ids[..n] + [ids[n]];
      CountOfDistinct(ids[..n], id);
    }
  }

  /**
   * In every run: an admitted call with a result was completed exactly once; one without was not
   * completed, and is either in the queue, once, or held by the dispatcher; and a non-empty queue
   * has exactly one source, or a dispatch under way that will reschedule.
   */
  lemma {:induction false} CompletedExactlyOnce(capacity: nat, acts: seq<Act>, id: nat)
    requires AllPossible(acts)
    requires id < |DoAll(Fresh(capacity), acts).dispatch.calls|
    ensures var d := DoAll(Fresh(capacity), acts).dispatch;
      var call := d.calls[id];
      && Completions(d, id) == (if Admitted(call) && call.status.Completed? then 1 else 0)
      && (call.status.Waiting? ==> multiset(d.queue)[id] == if Holds(d, id) then 0 else 1)
      && (call.status.Completed? ==> multiset(d.queue)[id] == 0 && !Holds(d, id))
  {
    FreshInv(capacity);
    InvRun(Fresh(capacity), acts);
    var c := DoAll(Fresh(capacity), acts);
    hide DoAll;
    PlaceOf(c, id);
  }

  lemma {:induction false} PlaceOf(c: Connection, id: nat)
    requires Inv(c) && id < |c.dispatch.calls|
    ensures var d := c.dispatch;
      && Completions(d, id) == (if Admitted(d.calls[id]) && d.calls[id].status.Completed? then 1 else 0)
      && multiset(d.queue)[id] == (if d.calls[id].status.Waiting? && !Holds(d, id) then 1 else 0)
      && (Holds(d, id) ==> d.calls[id].status.Waiting?)
  {
    var d := c.dispatch;
    hide Ranked, Executions, Answers, Scheduled, Drained;
    CountOfDistinct(d.finished, id);
    CountOfDistinct(d.queue, id);
    if id in d.queue { assert Pending(d, id); }
    if Holds(d, id) { assert Pending(d, id); }
  }

  lemma {:induction false} QueueIsServed(capacity: nat, acts: seq<Act>)
    requires AllPossible(acts)
    ensures var c := DoAll(Fresh(capacity), acts);
      && c.dispatch.sources <= 1
      && (c.dispatch.queue != [] ==>
           c.ctx && c.dispatch.scheduled && (c.dispatch.sources == 1) == c.dispatch.phase.Idle?)
  {
    FreshInv(capacity);
    InvRun(Fresh(capacity), acts);
    hide DoAll;
  }

  /** A result, once given, is never changed. */
  lemma {:induction false} ResultIsFinal(c: Connection, acts: seq<Act>, id: nat)
    requires Inv(c) && AllPossible(acts)
    requires id < |c.dispatch.calls| && c.dispatch.calls[id].status.Completed?
    ensures id < |DoAll(c, acts).dispatch.calls|
    ensures DoAll(c, acts).dispatch.calls[id] == c.dispatch.calls[id]
    decreases |acts|
  {
    if acts != [] {
      assert Possible(acts[0]);
      InvKeeps(c, acts[0]);
      ResultKept(c, acts[0], id);
      hide Inv, Do;
      ResultIsFinal(Do(c, acts[0]), acts[1..], id);
    }
  }

  lemma {:induction false} ResultKept(c: Connection, act: Act, id: nat)
    requires Inv(c) && id < |c.dispatch.calls| && c.dispatch.calls[id].status.Completed?
    ensures id < |Do(c, act).dispatch.calls| && Do(c, act).dispatch.calls[id] == c.dispatch.calls[id]
  {
    hide CompletedOnce, Ranked, Executions, Answers, Scheduled, Drained;
    var d := c.dispatch;
    assert !Pending(d, id);
    assert id !in d.queue && !Holds(d, id);
    if act.Cancel? {
      CancelAllResult(d, act.reason, c.stream.generation);
    } else if act.Complete? {
      hide Placed, Pending;
    } else {
      hide Placed, Pending, Holds;
      CallsOtherwise(c, act, id);
    }
  }

  lemma {:induction false} CallsOtherwise(c: Connection, act: Act, id: nat)
    requires Numbered(c.stream) && !act.Cancel? && !act.Complete? && id < |c.dispatch.calls|
    ensures id < |Do(c, act).dispatch.calls| && Do(c, act).dispatch.calls[id] == c.dispatch.calls[id]
  {
    if act.Enqueue? {
      hide CancelAll, CompleteCall, Apply, Verdict;
    } else {
      CallsSame(c, act);
      hide Do;
    }
  }

  /** After stop's drain no call is ever queued again. */
  lemma {:induction false} NothingQueuedAfterDrain(c: Connection, acts: seq<Act>)
    requires Inv(c) && c.drained && AllPossible(acts)
    ensures DoAll(c, acts).dispatch.queue == [] && DoAll(c, acts).drained
    decreases |acts|
  {
    hide Placed, CompletedOnce, Scheduled, Ranked, Executions, Answers;
    if acts != [] {
      assert Possible(acts[0]);
      InvKeeps(c, acts[0]);
      assert Do(c, acts[0]).drained by { hide CancelAll, Apply, Verdict, CompleteCall; }
      hide Do;
      NothingQueuedAfterDrain(Do(c, acts[0]), acts[1..]);
    }
  }

  /** The four regions of one turn of the dispatcher. */
  function Turns(n: nat): (r: seq<Act>)
    ensures |r| == 4 * n
  {
    if n == 0 then [] else [Fire, Execute(Ready), Complete, Reschedule] + Turns(n - 1)
  }

  function Turn(c: Connection): (r: Connection)
  {
    ReleaseSource(CompleteHeld(CheckAndExecute(Pop(c), Ready)))
  }

  lemma {:induction false} TurnKeeps(c: Connection)
    requires Inv(c)
    ensures Inv(Turn(c))
  {
    hide Placed, CompletedOnce, Ranked, Executions, Answers, Drained, Scheduled;
    hide Pop, CheckAndExecute, CompleteHeld, ReleaseSource;
    InvKeeps(c, Fire);
    InvKeeps(Pop(c), Execute(Ready));
    InvKeeps(CheckAndExecute(Pop(c), Ready), Complete);
    InvKeeps(CompleteHeld(CheckAndExecute(Pop(c), Ready)), Reschedule);
  }

  lemma {:induction false} HeldRuns(c: Connection, id: nat)
    requires c.dispatch.phase == Popped(id)
    requires id < |c.dispatch.calls| && c.dispatch.calls[id].status.Waiting?
    ensures var r := CompleteHeld(CheckAndExecute(c, Ready)).dispatch;
      && r.phase.Finished? && r.queue == c.dispatch.queue
  {
    var m := CheckAndExecute(c, Ready);
    assert m.dispatch.phase.Ran? && m.dispatch.phase.id == id && m.dispatch.calls == c.dispatch.calls
        && m.dispatch.queue == c.dispatch.queue by { hide Verdict, CompleteHeld; }
    hide CheckAndExecute, Verdict;
  }

  lemma {:induction false} OneTurn(c: Connection)
    requires Inv(c) && c.dispatch.phase.Idle? && c.dispatch.queue != []
    ensures Turn(c).dispatch.phase.Idle? && Turn(c).dispatch.queue == c.dispatch.queue[1..]
  {
    assert Pending(c.dispatch, c.dispatch.queue[0]);
    hide Placed, CompletedOnce, Ranked, Executions, Answers, Drained;
    assert Pop(c).dispatch.phase == Popped(c.dispatch.queue[0]);
    hide CheckAndExecute, CompleteHeld;
    HeldRuns(Pop(c), c.dispatch.queue[0]);
  }

  /** Left alone, an idle dispatcher answers every call, one turn of four regions each. */
  lemma {:induction false} QueueDrains(c: Connection)
    requires Inv(c) && c.dispatch.phase.Idle?
    ensures var r := DoAll(c, Turns(|c.dispatch.queue|));
      && r.dispatch.queue == []
      && (forall id :: 0 <= id < |r.dispatch.calls| ==> r.dispatch.calls[id].status.Completed?)
    decreases |c.dispatch.queue|
  {
    if c.dispatch.queue != [] {
      OneTurn(c);
      TurnKeeps(c);
      FourSteps(c, Turns(|c.dispatch.queue| - 1));
      hide Placed, CompletedOnce, Scheduled, Drained, Ranked, Executions, Answers, Turn;
      QueueDrains(Turn(c));
    } else {
      hide CompletedOnce, Scheduled, Drained, Ranked, Executions, Answers;
    }
  }

  lemma {:induction false} FourSteps(c: Connection, rest: seq<Act>)
    requires Numbered(c.stream)
    ensures DoAll(c, [Fire, Execute(Ready), Complete, Reschedule] + rest)
      == DoAll(Turn(c), rest)
  {
    var c1 := Pop(c);
    var c2 := CheckAndExecute(c1, Ready);
    var c3 := CompleteHeld(c2);
    hide Pop, CheckAndExecute, CompleteHeld, ReleaseSource;
    var a := [Fire, Execute(Ready), Complete, Reschedule] + rest;
    assert a[1..] == [Execute(Ready), Complete, Reschedule] + rest;
    assert a[1..][1..] == [Complete, Reschedule] + rest;
    assert a[1..][1..][1..] == [Reschedule] + rest;
    assert a[1..][1..][1..][1..] == rest;
    assert DoAll(c, a) == DoAll(c1, a[1..]) == DoAll(c2, a[1..][1..]) == DoAll(c3, a[1..][1..][1..]);
  }

  // ----- execution -----

  /**
   * In every run each execution happened in the generation its call was queued in and expected,
   * at the sequence number it expected; executions follow (generation, order); and a call has an
   * operation's own answer exactly when it was executed.
   */
  lemma {:induction false} ExecutionOrder(capacity: nat, acts: seq<Act>)
    requires AllPossible(acts)
    ensures var d := DoAll(Fresh(capacity), acts).dispatch;
      && (forall k :: 0 <= k < |d.executed| ==> Proper(d, d.executed[k]))
      && (forall i, j :: 0 <= i < j < |d.executed| ==>
           var a, b := d.executed[i], d.executed[j];
           Before(a.generation, d.calls[a.id].order, b.generation, d.calls[b.id].order))
      && (forall id: nat :: id < |d.calls| && d.calls[id].status.Completed? ==>
           (FromOperation(d.calls[id].status.result) <==> WasExecuted(d, id)))
  {
    FreshInv(capacity);
    InvRun(Fresh(capacity), acts);
    var c := DoAll(Fresh(capacity), acts);
    hide DoAll;
    ExecutedInOrder(c);
  }

  lemma {:induction false} ExecutedInOrder(c: Connection)
    requires Ranked(c) && Executions(c.dispatch)
    ensures var d := c.dispatch;
      forall i, j :: 0 <= i < j < |d.executed| ==>
        var a, b := d.executed[i], d.executed[j];
        && a.id < |d.calls| && b.id < |d.calls|
        && Before(a.generation, d.calls[a.id].order, b.generation, d.calls[b.id].order)
  {
    hide Ranked;
    var d := c.dispatch;
    forall i, j | 0 <= i < j < |d.executed|
      ensures var a, b := d.executed[i], d.executed[j];
        && a.id < |d.calls| && b.id < |d.calls|
        && Before(a.generation, d.calls[a.id].order, b.generation, d.calls[b.id].order)
    {
      assert Proper(d, d.executed[i]) && Proper(d, d.executed[j]);
      ArrivalOrder(c, d.executed[i].id, d.executed[j].id);
    }
  }

  /** In every run the ticket validator accepts what the dispatcher says of a completed call. */
  lemma {:induction false} TicketsAccepted(capacity: nat, acts: seq<Act>, id: nat)
    requires AllPossible(acts)
    requires id < |DoAll(Fresh(capacity), acts).dispatch.calls|
    requires DoAll(Fresh(capacity), acts).dispatch.calls[id].status.Completed?
    ensures Outcomes.ValidTicket(Outcomes.TicketOf(DoAll(Fresh(capacity), acts).dispatch.calls[id]))
  {
    FreshInv(capacity);
    InvRun(Fresh(capacity), acts);
    Outcomes.TicketAcceptedIff(DoAll(Fresh(capacity), acts).dispatch.calls[id]);
    hide DoAll, Placed, Scheduled, Drained, Ranked, Executions, Answers, Outcomes.ValidTicket, Outcomes.TicketOf;
  }

  /** The k-th call admitted in a generation carries order k. */
  lemma {:induction false} OrderIsRank(capacity: nat, acts: seq<Act>, id: nat)
    requires AllPossible(acts)
    requires id < |DoAll(Fresh(capacity), acts).dispatch.calls|
    requires Admitted(DoAll(Fresh(capacity), acts).dispatch.calls[id])
    ensures var calls := DoAll(Fresh(capacity), acts).dispatch.calls;
      && calls[id].order == Rank(calls, calls[id].enqueuedGeneration, id + 1)
      && calls[id].expectedGeneration == calls[id].enqueuedGeneration
  {
    FreshInv(capacity);
    InvRun(Fresh(capacity), acts);
    var c := DoAll(Fresh(capacity), acts);
    hide DoAll;
    RankStep(c.dispatch.calls, c.dispatch.calls[id].enqueuedGeneration, id);
    hide Rank;
  }

  /** A call that has not run when the generation moves past it never runs, and is cancelled. */
  lemma {:induction false} LostGenerationNeverRuns(c: Connection, acts: seq<Act>, id: nat)
    requires Inv(c) && AllPossible(acts)
    requires id < |c.dispatch.calls| && Admitted(c.dispatch.calls[id])
    requires c.dispatch.calls[id].enqueuedGeneration < c.stream.generation
    requires !WasExecuted(c.dispatch, id)
    ensures var r := DoAll(c, acts).dispatch;
      && !WasExecuted(r, id)
      && id < |r.calls|
      && (r.calls[id].status.Completed? ==> !FromOperation(r.calls[id].status.result))
    decreases |acts|
  {
    if acts != [] {
      assert Possible(acts[0]);
      InvKeeps(c, acts[0]);
      CallsKept(c, acts[0]);
      LostStaysLost(c, acts[0], id);
      GenerationGrows(c, acts[0]);
      hide Inv, Do;
      LostGenerationNeverRuns(Do(c, acts[0]), acts[1..], id);
    }
  }

  lemma {:induction false} ExecutesOnlyHeld(c: Connection, act: Act)
    requires Numbered(c.stream) && Placed(c.dispatch)
    ensures var d, e := c.dispatch, Do(c, act).dispatch;
      || e.executed == d.executed
      || (act.Execute? && d.phase.Popped? && d.phase.id < |d.calls|
          && d.calls[d.phase.id].enqueuedGeneration == c.stream.generation
          && e.executed == d.executed + [Execution(d.phase.id, c.stream.generation, c.stream.sequence)])
  {
    match act
    case Cancel(reason) => CancelAllResult(c.dispatch, reason, c.stream.generation);
    case _ => hide CancelAll, Placed;
  }

  lemma {:induction false} GenerationGrows(c: Connection, act: Act)
    requires Numbered(c.stream)
    ensures c.stream.generation <= Do(c, act).stream.generation
  {
    if act.Events? {
      assert Do(c, act).stream == Apply(c.stream, act.step);
      hide Do, StreamStep;
    } else {
      assert Do(c, act).stream == c.stream by { hide CancelAll, Schedule, Verdict, CompleteCall, Apply; }
    }
  }

  lemma {:induction false} LostStaysLost(c: Connection, act: Act, id: nat)
    requires Inv(c) && id < |c.dispatch.calls| && !WasExecuted(c.dispatch, id)
    requires c.dispatch.calls[id].enqueuedGeneration < c.stream.generation
    ensures !WasExecuted(Do(c, act).dispatch, id)
  {
    ExecutesOnlyHeld(c, act);
    hide Do, Placed, CompletedOnce, Ranked, Executions, Answers, Scheduled, Drained;
    var d, e := c.dispatch, Do(c, act).dispatch;
    forall k | 0 <= k < |e.executed|
      ensures e.executed[k].id != id
    {
      if k < |d.executed| { assert e.executed[k] == d.executed[k]; }
    }
  }

  // ----- how lost calls are answered -----

  predicate Cancellation(result: Outcome) { result == GenerationLost || result == RuntimeStopped }

  /** A call of a past generation that waits, or holds or will be given a cancellation. */
  ghost predicate Doomed(c: Connection, id: nat) {
    var d := c.dispatch;
    && id < |d.calls| && Admitted(d.calls[id])
    && d.calls[id].enqueuedGeneration < c.stream.generation
    && (d.phase.Ran? && d.phase.id == id ==> Cancellation(d.phase.result))
    && (d.calls[id].status.Completed? ==> Cancellation(d.calls[id].status.result))
  }

  lemma {:induction false} DoomedStep(c: Connection, act: Act, id: nat)
    requires Inv(c) && Possible(act) && Doomed(c, id)
    ensures Doomed(Do(c, act), id)
  {
    CallsKept(c, act);
    GenerationGrows(c, act);
    var d := c.dispatch;
    if d.calls[id].status.Completed? {
      ResultKept(c, act, id);
      HeldWaits(c, act);
      hide Inv, Do;
    } else {
      hide CompletedOnce, Ranked, Executions, Answers, Scheduled, Drained;
      match act
      case Cancel(reason) => CancelAllResult(d, reason, c.stream.generation); hide Placed, CancelAll;
      case Execute(_) => hide Placed, CancelAll;
      case Complete => hide Placed, CancelAll;
      case _ => DoomedOther(c, act, id);
    }
  }

  /** Steps that neither execute, complete nor cancel. */
  lemma {:induction false} DoomedOther(c: Connection, act: Act, id: nat)
    requires Numbered(c.stream) && id < |c.dispatch.calls|
    requires !act.Cancel? && !act.Execute? && !act.Complete?
    ensures var d, e := c.dispatch, Do(c, act).dispatch;
      && id < |e.calls| && e.calls[id] == d.calls[id]
      && (e.phase.Ran? ==> e.phase == d.phase)
  {
    CallsOtherwise(c, act, id);
    hide CancelAll, CompleteCall, Apply, Verdict, CheckAndExecute, CompleteHeld, Rank;
  }

  /** What the dispatcher holds after a step waits. */
  lemma {:induction false} HeldWaits(c: Connection, act: Act)
    requires Inv(c) && Possible(act)
    ensures var e := Do(c, act).dispatch;
      e.phase.Ran? ==> e.phase.id < |e.calls| && e.calls[e.phase.id].status.Waiting?
  {
    InvKeeps(c, act);
    var e := Do(c, act).dispatch;
    hide Do, CompletedOnce, Ranked, Executions, Answers, Scheduled, Drained;
    if e.phase.Ran? {
      assert Holds(e, e.phase.id);
      assert Pending(e, e.phase.id);
    }
  }

  lemma {:induction false} DoomedRun(c: Connection, acts: seq<Act>, id: nat)
    requires Inv(c) && AllPossible(acts) && Doomed(c, id)
    ensures Inv(DoAll(c, acts)) && Doomed(DoAll(c, acts), id)
    decreases |acts|
  {
    if acts != [] {
      assert Possible(acts[0]);
      InvKeeps(c, acts[0]);
      DoomedStep(c, acts[0], id);
      hide Inv, Do, Doomed;
      DoomedRun(Do(c, acts[0]), acts[1..], id);
    }
  }

  /** A call not yet answered nor refused: it is in the queue, or popped and not yet checked. */
  predicate Unanswered(c: Connection, id: nat) {
    && id < |c.dispatch.calls| && Admitted(c.dispatch.calls[id])
    && c.dispatch.calls[id].status.Waiting?
    && !(c.dispatch.phase.Ran? && c.dispatch.phase.id == id)
  }

  /**
   * A call still unanswered when the generation has moved past it is never executed, and whatever
   * answer it gets, in any run, is a cancellation.
   */
  lemma {:induction false} LostIsCancelled(c: Connection, acts: seq<Act>, id: nat)
    requires Inv(c) && AllPossible(acts) && Unanswered(c, id)
    requires c.dispatch.calls[id].enqueuedGeneration < c.stream.generation
    ensures var r := DoAll(c, acts).dispatch;
      && id < |r.calls|
      && (r.calls[id].status.Completed? ==> Cancellation(r.calls[id].status.result))
      && !WasExecuted(r, id)
  {
    UnansweredNotExecuted(c, id);
    DoomedRun(c, acts, id);
    LostGenerationNeverRuns(c, acts, id);
    hide Inv, DoAll;
  }

  lemma {:induction false} UnansweredNotExecuted(c: Connection, id: nat)
    requires Inv(c) && Unanswered(c, id)
    ensures !WasExecuted(c.dispatch, id)
  {
    var d := c.dispatch;
    hide CompletedOnce, Ranked, Answers, Scheduled, Drained, Proper;
    assert id in d.queue || Holds(d, id);
    forall k | 0 <= k < |d.executed|
      ensures d.executed[k].id != id
    {
    }
  }

  /** And an idle dispatcher does give it that answer, within a turn for each queued call. */
  lemma {:induction false} LostIsAnswered(c: Connection, id: nat)
    requires Inv(c) && c.dispatch.phase.Idle? && Unanswered(c, id)
    requires c.dispatch.calls[id].enqueuedGeneration < c.stream.generation
    ensures var r := DoAll(c, Turns(|c.dispatch.queue|)).dispatch;
      && id < |r.calls| && r.calls[id].status.Completed?
      && Cancellation(r.calls[id].status.result)
  {
    QueueDrains(c);
    TurnsPossible(|c.dispatch.queue|);
    LostIsCancelled(c, Turns(|c.dispatch.queue|), id);
    hide Inv, DoAll, Turns;
  }

  lemma {:induction false} TurnsPossible(n: nat)
    ensures AllPossible(Turns(n))
  {
    if n > 0 {
      TurnsPossible(n - 1);
      var rest := Turns(n - 1);
      assert forall i :: 4 <= i < |Turns(n)| ==> Turns(n)[i] == rest[i - 4];
    }
  }

  /** A call the dispatcher has checked already is given exactly the answer it holds, in any run. */
  lemma {:induction false} CheckedIsAnswered(c: Connection, acts: seq<Act>, id: nat)
    requires Inv(c) && AllPossible(acts) && c.dispatch.phase.Ran? && c.dispatch.phase.id == id
    ensures var r := DoAll(c, acts).dispatch;
      && id < |r.calls|
      && (r.calls[id].status.Completed? ==> r.calls[id].status.result == c.dispatch.phase.result)
      && (r.calls[id].status.Waiting? ==> r.phase == c.dispatch.phase)
    decreases |acts|
  {
    assert Holds(c.dispatch, id);
    assert Pending(c.dispatch, id);
    if acts != [] {
      assert Possible(acts[0]);
      var next := Do(c, acts[0]);
      InvKeeps(c, acts[0]);
      CheckedStep(c, acts[0], id);
      hide Inv, Do;
      if next.dispatch.calls[id].status.Completed? {
        ResultIsFinal(next, acts[1..], id);
      } else {
        CheckedIsAnswered(next, acts[1..], id);
      }
    }
  }

  lemma {:induction false} CheckedStep(c: Connection, act: Act, id: nat)
    requires Inv(c) && c.dispatch.phase.Ran? && c.dispatch.phase.id == id
    requires id < |c.dispatch.calls| && c.dispatch.calls[id].status.Waiting?
    ensures var e := Do(c, act).dispatch;
      && id < |e.calls|
      && (if e.calls[id].status.Completed? then e.calls[id].status.result == c.dispatch.phase.result
          else e.phase == c.dispatch.phase)
  {
    hide CompletedOnce, Ranked, Executions, Answers, Scheduled, Drained;
    var d := c.dispatch;
    assert Holds(d, id);
    assert id !in d.queue;
    if act.Cancel? {
      CancelAllResult(d, act.reason, c.stream.generation);
      hide Placed, CancelAll;
    } else if act.Complete? {
      hide Placed, CancelAll;
    } else {
      hide Placed, Pending, Holds;
      CallsOtherwise(c, act, id);
      hide CancelAll, CompleteCall, Apply, Verdict;
    }
  }

  // ----- the object manager and the generation -----

  /** What a popped call needs to be executed. */
  predicate MayExecute(c: Connection, call: Call) {
    && !c.stopRequested && c.om
    && c.stream.generation == call.enqueuedGeneration == call.expectedGeneration
    && (call.expectedSequence.Some? ==> c.stream.sequence == call.expectedSequence.value)
  }

  /** A popped call executes exactly when it may, once, and keeps its operation's answer. */
  lemma {:induction false} ExecutesIff(c: Connection, outcome: Outcome)
    requires c.dispatch.phase.Popped? && c.dispatch.phase.id < |c.dispatch.calls| && FromOperation(outcome)
    ensures var d, e := c.dispatch, CheckAndExecute(c, outcome).dispatch;
      var id := d.phase.id;
      && e.phase.Ran? && e.phase.id == id
      && e.executed == d.executed + (if MayExecute(c, d.calls[id])
                                     then [Execution(id, c.stream.generation, c.stream.sequence)] else [])
      && (e.phase.result == outcome <==> MayExecute(c, d.calls[id]))
  {
    assert c.dispatch.executed + [] == c.dispatch.executed;
  }

  lemma {:induction false} ManagerStaysGone(c: Connection, act: Act)
    requires Numbered(c.stream) && Placed(c.dispatch) && !c.om && !act.ManagerSet?
    ensures !Do(c, act).om && Do(c, act).dispatch.executed == c.dispatch.executed
  {
    if act.Cancel? {
      CancelAllResult(c.dispatch, act.reason, c.stream.generation);
    } else if act.Execute? {
      hide Placed, CancelAll;
    } else {
      hide Placed, CancelAll, CompleteCall, Apply, Verdict;
    }
  }

  /** While the manager is gone and not set again, nothing executes, whatever else happens. */
  lemma {:induction false} NothingRunsWithoutManager(c: Connection, acts: seq<Act>)
    requires Inv(c) && !c.om && AllPossible(acts)
    requires forall i :: 0 <= i < |acts| ==> !acts[i].ManagerSet?
    ensures DoAll(c, acts).dispatch.executed == c.dispatch.executed && !DoAll(c, acts).om
    decreases |acts|
  {
    if acts != [] {
      assert Possible(acts[0]) && !acts[0].ManagerSet?;
      InvKeeps(c, acts[0]);
      ManagerStaysGone(c, acts[0]);
      hide Inv, Do;
      NothingRunsWithoutManager(Do(c, acts[0]), acts[1..]);
    }
  }

  /** The manager is set again before the generation moves. */
  predicate SetBeforeMove(acts: seq<Act>) {
    acts != [] && (acts[0].ManagerSet? || (acts[0] != Act.Events(Install) && SetBeforeMove(acts[1..])))
  }

  /** A run executes something more in a generation. */
  predicate RunsIn(c: Connection, acts: seq<Act>, generation: nat)
    requires Numbered(c.stream)
  {
    var r := DoAll(c, acts).dispatch;
    exists k :: |c.dispatch.executed| <= k < |r.executed| && r.executed[k].generation == generation
  }

  /** Executions made from here on are of this generation or a later one. */
  lemma {:induction false} LaterExecutions(c: Connection, acts: seq<Act>)
    requires Inv(c) && AllPossible(acts)
    ensures NewerFrom(c, DoAll(c, acts).dispatch.executed)
    decreases |acts|
  {
    if acts != [] {
      var next := Do(c, acts[0]);
      assert Possible(acts[0]);
      InvKeeps(c, acts[0]);
      ExecutesOnlyHeld(c, acts[0]);
      GenerationGrows(c, acts[0]);
      ExecutedKept(next, acts[1..]);
      hide Inv, Do, Verdict;
      LaterExecutions(next, acts[1..]);
      NewerStep(c, next, DoAll(next, acts[1..]).dispatch.executed);
    }
  }

  /** A longer list of executions, the new ones of the current generation or a later one. */
  predicate NewerFrom(c: Connection, executed: seq<Execution>) {
    && |c.dispatch.executed| <= |executed|
    && forall k :: |c.dispatch.executed| <= k < |executed| ==> executed[k].generation >= c.stream.generation
  }

  lemma {:induction false} NewerStep(c: Connection, next: Connection, executed: seq<Execution>)
    requires NewerFrom(next, executed) && next.dispatch.executed <= executed
    requires c.stream.generation <= next.stream.generation
    requires next.dispatch.executed == c.dispatch.executed
      || exists id, n :: next.dispatch.executed == c.dispatch.executed + [Execution(id, c.stream.generation, n)]
    ensures NewerFrom(c, executed)
  {
  }

  lemma {:induction false} ExecutedKept(c: Connection, acts: seq<Act>)
    requires Inv(c) && AllPossible(acts)
    ensures c.dispatch.executed <= DoAll(c, acts).dispatch.executed
    decreases |acts|
  {
    if acts != [] {
      assert Possible(acts[0]);
      InvKeeps(c, acts[0]);
      ExecutesOnlyHeld(c, acts[0]);
      hide Inv, Do;
      ExecutedKept(Do(c, acts[0]), acts[1..]);
    }
  }

  /**
   * After a disconnect a run executes something in the old generation only if the manager is set
   * again before the generation moves.
   */
  lemma {:induction false} OldGenerationNeedsManager(c: Connection, acts: seq<Act>)
    requires Inv(c) && !c.om && AllPossible(acts)
    requires RunsIn(c, acts, c.stream.generation)
    ensures SetBeforeMove(acts)
    decreases |acts|
  {
    if acts != [] && !acts[0].ManagerSet? {
      assert Possible(acts[0]);
      InvKeeps(c, acts[0]);
      ManagerStaysGone(c, acts[0]);
      var next := Do(c, acts[0]);
      if acts[0] == Act.Events(Install) {
        assert next.stream.generation == c.stream.generation + 1;
        hide Inv, Do;
        LaterExecutions(next, acts[1..]);
        NoneOld(c, next, acts);
        assert false;
      } else {
        CountersStay(c, acts[0]);
        hide Inv, Do;
        OldGenerationNeedsManager(next, acts[1..]);
      }
    }
  }

  lemma {:induction false} NoneOld(c: Connection, next: Connection, acts: seq<Act>)
    requires Numbered(c.stream) && acts != [] && next == Do(c, acts[0])
    requires next.dispatch.executed == c.dispatch.executed && next.stream.generation > c.stream.generation
    requires NewerFrom(next, DoAll(next, acts[1..]).dispatch.executed)
    ensures !RunsIn(c, acts, c.stream.generation)
  {
    hide Do;
  }

  lemma {:induction false} CountersStay(c: Connection, act: Act)
    requires Inv(c) && act != Act.Events(Install)
    ensures Do(c, act).stream.generation == c.stream.generation
  {
    if act.Enqueue? {
      hide Placed, CompletedOnce, Ranked, Executions, Answers, Scheduled, Drained;
    } else {
      CountersKept(c, act);
    }
  }

  /** A connection whose dispatcher is idle with nothing queued, and which has not been stopped. */
  predicate AtRest(c: Connection) {
    c.ctx && c.thread && !c.stopRequested && c.dispatch.phase.Idle? && c.dispatch.sources == 0
  }

  /** Some run that does not set the manager again executes something in a generation. */
  ghost predicate CanRunIn(c: Connection, generation: nat)
    requires Numbered(c.stream)
  {
    exists acts: seq<Act> :: RunsIn(c, acts, generation) && AllPossible(acts)
      && forall i :: 0 <= i < |acts| ==> !acts[i].ManagerSet?
  }

  /**
   * From a connection at rest something can still execute in a generation already begun exactly when
   * the manager is set and the generation is the current one. After a disconnect, then, a call of
   * the old generation can run exactly when the manager is set again before the generation moves.
   */
  lemma {:induction false} CanRunIff(c: Connection, generation: nat)
    requires Inv(c) && AtRest(c) && generation <= c.stream.generation
    ensures CanRunIn(c, generation) <==> c.om && c.stream.generation == generation
  {
    assert Numbered(c.stream);
    hide Inv, AllPossible, RunsIn, DoAll;
    if c.om && c.stream.generation == generation {
      RestRuns(c);
    } else if CanRunIn(c, generation) {
      var acts: seq<Act> :| RunsIn(c, acts, generation) && AllPossible(acts) && forall i :: 0 <= i < |acts| ==> !acts[i].ManagerSet?;
      NoOldRuns(c, acts, generation);
      assert false;
    }
  }

  lemma {:induction false} NoOldRuns(c: Connection, acts: seq<Act>, generation: nat)
    requires Inv(c) && AllPossible(acts) && forall i :: 0 <= i < |acts| ==> !acts[i].ManagerSet?
    requires !c.om || generation < c.stream.generation
    ensures !RunsIn(c, acts, generation)
  {
    if !c.om { NothingRunsWithoutManager(c, acts); } else { LaterExecutions(c, acts); }
    hide Inv, DoAll;
  }

  /** Enqueue, pop, check: three steps from rest to an execution. */
  lemma {:induction false} AdmittedAtRest(c: Connection)
    requires Inv(c) && AtRest(c) && c.om
    ensures var g, id := c.stream.generation, |c.dispatch.calls|;
      var popped := Do(Do(c, Act.Enqueue(g, None)), Fire);
      && popped.dispatch.phase == Popped(id) && id < |popped.dispatch.calls|
      && MayExecute(popped, popped.dispatch.calls[id])
      && popped.dispatch.executed == c.dispatch.executed && popped.stream == c.stream
  {
    hide Placed, CompletedOnce, Drained, Ranked, Executions, Answers;
    var g := c.stream.generation;
    var admitted := Do(c, Act.Enqueue(g, None));
    assert admitted == Admit(c, g, None);
    assert admitted.dispatch.queue == [|c.dispatch.calls|] && admitted.dispatch.sources == 1;
    assert Do(admitted, Fire) == Pop(admitted);
  }

  /** Admitted, popped and checked at rest, a call is executed. */
  lemma {:induction false} RanAtRest(c: Connection)
    requires Inv(c) && AtRest(c) && c.om
    ensures var g := c.stream.generation;
      var ran := Do(Do(Do(c, Act.Enqueue(g, None)), Fire), Execute(Ready));
      ran.dispatch.executed == c.dispatch.executed + [Execution(|c.dispatch.calls|, g, c.stream.sequence)]
  {
    var g := c.stream.generation;
    AdmittedAtRest(c);
    hide Inv, MayExecute;
    var popped := Do(Do(c, Act.Enqueue(g, None)), Fire);
    ExecutesIff(popped, Ready);
    assert Do(popped, Execute(Ready)) == CheckAndExecute(popped, Ready);
    hide CheckAndExecute, Admit, Pop, CancelAll, Apply;
  }

  lemma {:induction false} RanIn(c: Connection, acts: seq<Act>, e: Execution)
    requires Numbered(c.stream) && DoAll(c, acts).dispatch.executed == c.dispatch.executed + [e]
    ensures RunsIn(c, acts, e.generation)
  {
    hide DoAll;
    assert DoAll(c, acts).dispatch.executed[|c.dispatch.executed|] == e;
  }

  lemma {:induction false} ActsPossible(g: nat)
    ensures var acts := [Act.Enqueue(g, None), Fire, Execute(Ready)];
      AllPossible(acts) && forall i :: 0 <= i < |acts| ==> !acts[i].ManagerSet?
  {
  }

  lemma {:induction false} RestRuns(c: Connection)
    requires Inv(c) && AtRest(c) && c.om
    ensures CanRunIn(c, c.stream.generation)
  {
    var g := c.stream.generation;
    RanAtRest(c);
    ThreeSteps(c, Act.Enqueue(g, None), Fire, Execute(Ready));
    ActsPossible(g);
    var acts := [Act.Enqueue(g, None), Fire, Execute(Ready)];
    assert Numbered(c.stream);
    hide *;
    RanIn(c, acts, Execution(|c.dispatch.calls|, g, c.stream.sequence));
    RunsThere(c, acts, g);
  }

  lemma RunsThere(c: Connection, acts: seq<Act>, generation: nat)
    requires Numbered(c.stream) && RunsIn(c, acts, generation) && AllPossible(acts)
    requires forall i :: 0 <= i < |acts| ==> !acts[i].ManagerSet?
    ensures CanRunIn(c, generation)
  {
    hide RunsIn, AllPossible;
  }

  lemma {:induction false} DoAllCons(c: Connection, act: Act, rest: seq<Act>)
    requires Numbered(c.stream)
    ensures DoAll(c, [act] + rest) == DoAll(Do(c, act), rest)
  {
    hide Do;
    assert ([act] + rest)[1..] == rest;
  }

  lemma {:induction false} ThreeSteps(c: Connection, a: Act, b: Act, d: Act)
    requires Numbered(c.stream)
    ensures DoAll(c, [a, b, d]) == Do(Do(Do(c, a), b), d)
  {
    hide Do;
    assert DoAll(Do(Do(Do(c, a), b), d), []) == Do(Do(Do(c, a), b), d);
    hide DoAll;
    assert [a, b, d] == [a] + [b, d] && [b, d] == [b] + [d] && [d] == [d] + [];
    DoAllCons(c, a, [b, d]);
    DoAllCons(Do(c, a), b, [d]);
    DoAllCons(Do(Do(c, a), b), d, []);
  }

  /**
   * From any connection at rest: after a disconnect nothing of the old generation can run, once the
   * manager is set it can, and once the generation has moved it cannot.
   */
  lemma {:induction false} OldGenerationWindow(c: Connection)
    requires Inv(c) && AtRest(c)
    ensures var gone := Do(Do(c, Cancel(GenerationLost)), ManagerGone);
      && !CanRunIn(gone, c.stream.generation)
      && CanRunIn(Do(gone, ManagerSet), c.stream.generation)
      && !CanRunIn(Do(Do(gone, ManagerSet), Act.Events(Install)), c.stream.generation)
  {
    InvNumbered(c);
    hide *;
    var gone := Do(Do(c, Cancel(GenerationLost)), ManagerGone);
    var set_ := Do(gone, ManagerSet);
    Disconnected(c);
    InvKeeps(gone, ManagerSet);
    SetAtRest(gone);
    InvKeeps(set_, Act.Events(Install));
    MovedAtRest(set_);
    CanRunIff(gone, c.stream.generation);
    CanRunIff(set_, c.stream.generation);
    CanRunIff(Do(set_, Act.Events(Install)), c.stream.generation);
  }

  lemma {:induction false} SetAtRest(c: Connection)
    requires Inv(c) && AtRest(c)
    ensures Numbered(c.stream) && Possible(ManagerSet) && Possible(Act.Events(Install))
    ensures var set_ := Do(c, ManagerSet);
      AtRest(set_) && set_.om && set_.stream == c.stream
  {
    hide Placed, CompletedOnce, Scheduled, Drained, Ranked, Executions, Answers;
  }

  lemma {:induction false} InvNumbered(c: Connection)
    requires Inv(c)
    ensures Numbered(c.stream)
  {
    hide Placed, CompletedOnce, Scheduled, Drained, Ranked, Executions, Answers;
  }

  lemma {:induction false} Disconnected(c: Connection)
    requires Inv(c) && AtRest(c)
    ensures var gone := Do(Do(c, Cancel(GenerationLost)), ManagerGone);
      Inv(gone) && AtRest(gone) && !gone.om && gone.stream == c.stream
  {
    InvNumbered(c);
    PossibleCancel();
    hide *;
    var cancelled := Do(c, Cancel(GenerationLost));
    InvKeeps(c, Cancel(GenerationLost));
    CancelledAtRest(c);
    InvKeeps(cancelled, ManagerGone);
    GoneAtRest(cancelled);
  }

  lemma PossibleCancel()
    ensures Possible(Cancel(GenerationLost)) && Possible(ManagerGone)
  {
  }

  lemma {:induction false} GoneAtRest(c: Connection)
    requires Inv(c) && AtRest(c)
    ensures Numbered(c.stream)
    ensures var gone := Do(c, ManagerGone);
      AtRest(gone) && !gone.om && gone.stream == c.stream
  {
    hide Placed, CompletedOnce, Scheduled, Drained, Ranked, Executions, Answers;
  }

  lemma {:induction false} CancelledAtRest(c: Connection)
    requires Inv(c) && AtRest(c)
    ensures var cancelled := Do(c, Cancel(GenerationLost));
      AtRest(cancelled) && cancelled.stream == c.stream
  {
    CancelAllResult(c.dispatch, GenerationLost, c.stream.generation);
    hide Placed, CompletedOnce, Ranked, Executions, Answers, Scheduled, Drained, CancelAll;
    assert Do(c, Cancel(GenerationLost)) == CancelPending(c, GenerationLost);
    hide Do;
  }

  lemma {:induction false} MovedAtRest(c: Connection)
    requires Inv(c) && AtRest(c)
    ensures var moved := Do(c, Act.Events(Install));
      AtRest(moved) && moved.stream.generation == c.stream.generation + 1
  {
  }

  /**
   * The object manager is set before the generation moves, so from any connection at rest a call
   * admitted after a disconnect executes in the old generation, against the manager that is not yet
   * installed.
   */
  lemma {:induction false} ExecutesBeforeInstall(c: Connection)
    requires Inv(c) && AtRest(c)
    ensures var g := c.stream.generation;
      var reconnected := Do(Do(Do(c, Cancel(GenerationLost)), ManagerGone), ManagerSet);
      var admitted := Do(reconnected, Act.Enqueue(g, None));
      && Do(Do(admitted, Fire), Execute(Ready)).dispatch.executed
         == c.dispatch.executed + [Execution(|c.dispatch.calls|, g, c.stream.sequence)]
  {
    var g := c.stream.generation;
    CancelAllResult(c.dispatch, GenerationLost, g);
    hide Placed, CompletedOnce, Ranked, Executions, Answers, CancelAll;
    var reconnected := Do(Do(Do(c, Cancel(GenerationLost)), ManagerGone), ManagerSet);
    assert reconnected.dispatch.queue == [] && reconnected.om && !reconnected.dispatch.scheduled;
    var admitted := Do(reconnected, Act.Enqueue(g, None));
    assert admitted.dispatch.queue == [|c.dispatch.calls|] && admitted.dispatch.sources == 1;
    assert Do(admitted, Fire).dispatch.phase == Popped(|c.dispatch.calls|);
  }
}
