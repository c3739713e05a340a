/**
 * The bounded Python queue that hands a runtime stream to one consumer: a class that updates its
 * fields, its steps as functions, and what the consumer may rely on in every run.
 */
module RuntimeQueue {
  import opened Wrappers
  import opened Events

  datatype Queue = Queue(
    capacity: nat, events: seq<Event>, generation: nat, sequence: nat,
    closed: bool, resnapshotRequired: bool)

  datatype Read = Got(event: Event) | Closed | ResnapshotNeeded(generation: nat, sequence: nat) | Empty

  function NewQueue(capacity: nat, generation: nat, sequence: nat): Queue {
    Queue(capacity, [], generation, sequence, false, false)
  }

  /** `_invalidate`: one discontinuity, bearing the event's own number, replaces the pending deltas. */
  function Invalidate(q: Queue, e: Event): Queue {
    q.(events := [e.(content := DISCONTINUITY)], generation := e.generation, sequence := e.sequence,
       resnapshotRequired := true)
  }

  function Publish(q: Queue, e: Event): (r: (Queue, bool)) {
    if q.closed || q.resnapshotRequired then (q, false)
    else if e.generation != q.generation || e.sequence != q.sequence + 1 then (Invalidate(q, e), true)
    else if e.content.requiresResnapshot then
      (q.(events := [e], sequence := e.sequence, resnapshotRequired := true), true)
    else if |q.events| >= q.capacity then (Invalidate(q, e), true)
    else (q.(events := q.events + [e], sequence := e.sequence), true)
  }

  /** A read that does not wait. */
  function Get(q: Queue): (r: (Queue, Read)) {
    if q.events != [] then (q.(events := q.events[1..]), Got(q.events[0]))
    else if q.closed then (q, Closed)
    else if q.resnapshotRequired then (q, ResnapshotNeeded(q.generation, q.sequence))
    else (q, Empty)
  }

  /** None is the closed error. */
  function Reset(q: Queue, generation: nat, sequence: nat): Option<Queue> {
    if q.closed then None
    else Some(q.(events := [], generation := generation, sequence := sequence, resnapshotRequired := false))
  }

  /**
   * An event is taken exactly while the queue is open and asks for no resnapshot. The successor that
   * needs none and finds room is appended; one that itself asks for a resnapshot stands alone; for any
   * other a discontinuity with its generation and number does.
   */
  lemma {:induction false} PublishIff(q: Queue, e: Event)
    ensures var (r, taken) := Publish(q, e);
      var successor := e.generation == q.generation && e.sequence == q.sequence + 1;
      && (taken <==> !q.closed && !q.resnapshotRequired)
      && (!taken ==> r == q)
      && (taken ==> r.generation == e.generation && r.sequence == e.sequence)
      && (taken && successor && !e.content.requiresResnapshot && |q.events| < q.capacity ==>
           r.events == q.events + [e] && !r.resnapshotRequired)
      && (taken && successor && e.content.requiresResnapshot ==> r.events == [e] && r.resnapshotRequired)
      && (taken && (!successor || (!e.content.requiresResnapshot && |q.events| >= q.capacity)) ==>
           && r.resnapshotRequired
           && r.events == [Event(e.generation, e.sequence,
                                 Content(Discontinuity, RuntimeKind, Text("runtime"), None, None, true))])
      && r.closed == q.closed && r.capacity == q.capacity
  {
  }

  /** What a read that does not wait gives, and that it removes just the event it gives. */
  lemma {:induction false} GetIff(q: Queue, e: Event)
    ensures var (r, read) := Get(q);
      && (read == Got(e) <==> q.events != [] && q.events[0] == e)
      && (read == Closed <==> q.events == [] && q.closed)
      && (read == ResnapshotNeeded(q.generation, q.sequence) <==> q.events == [] && !q.closed && q.resnapshotRequired)
      && (read == Empty <==> q.events == [] && !q.closed && !q.resnapshotRequired)
      && (read == Got(e) ==> q.events == [e] + r.events)
      && (!read.Got? ==> r == q)
      && r.(events := q.events) == q
  {
  }

  /** A reset fails exactly when closed, and else empties the queue at the given position. */
  lemma {:induction false} ResetIff(q: Queue, generation: nat, sequence: nat)
    ensures var r := Reset(q, generation, sequence);
      && (r.None? <==> q.closed)
      && (r.Some? ==>
           && r.value.events == [] && !r.value.resnapshotRequired && !r.value.closed
           && r.value.generation == generation && r.value.sequence == sequence && r.value.capacity == q.capacity)
  {
  }

  class RuntimeEventQueue {
    const capacity: nat
    var events: seq<Event>
    var generation: nat
    var sequence: nat
    var closed: bool
    var resnapshotRequired: bool

    ghost function Value(): Queue
      reads this
    {
      Queue(capacity, events, generation, sequence, closed, resnapshotRequired)
    }

    constructor (capacity: nat, generation: nat, sequence: nat)
      requires capacity >= 1
      ensures Value() == NewQueue(capacity, generation, sequence)
    {
      this.capacity, this.generation, this.sequence := capacity, generation, sequence;
      events, closed, resnapshotRequired := [], false, false;
    }

    method InvalidateWith(event: Event)
      modifies this
      ensures Value() == Invalidate(old(Value()), event)
    {
      events := [];
      generation, sequence := event.generation, event.sequence;
      resnapshotRequired := true;
      events := events + [Event(event.generation, event.sequence, DISCONTINUITY)];
    }

    method PublishEvent(event: Event) returns (taken: bool)
      modifies this
      ensures (Value(), taken) == Publish(old(Value()), event)
    {
      if closed || resnapshotRequired { return false; }
      if event.generation != generation {
        InvalidateWith(event);
        return true;
      }
      if event.sequence != sequence + 1 {
        InvalidateWith(event);
        return true;
      }
      if event.content.requiresResnapshot {
        events := [event];
        generation, sequence := event.generation, event.sequence;
        resnapshotRequired := true;
        return true;
      }
      if |events| >= capacity {
        InvalidateWith(event);
        return true;
      }
      events := events + [event];
      sequence := event.sequence;
      return true;
    }

    method GetNoWait() returns (r: Read)
      modifies this
      ensures (Value(), r) == Get(old(Value()))
    {
      if |events| == 0 {
        if closed { return Closed; }
        if resnapshotRequired { return ResnapshotNeeded(generation, sequence); }
        return Empty;
      }
      r := Got(events[0]);
      events := events[1..];
    }

    method ResetTo(generation: nat, sequence: nat) returns (ok: bool)
      modifies this
      ensures Reset(old(Value()), generation, sequence) == if ok then Some(Value()) else None
      ensures !ok ==> Value() == old(Value())
    {
      if closed { return false; }
      events := [];
      this.generation, this.sequence := generation, sequence;
      resnapshotRequired := false;
      return true;
    }

    method Close()
      modifies this
      ensures Value() == old(Value()).(closed := true)
    {
      closed := true;
    }
  }

  // ----- the queue with its producer and its consumer -----

  /**
   * Since the last reset: what was offered to the queue, what the consumer accepted, and how many
   * events it refused. The consumer stands at (generation, position).
   */
  datatype Delivery = Delivery(
    queue: Queue, generation: nat, position: nat,
    offered: seq<Event>, accepted: seq<Event>, refusals: nat)

  datatype Step = Offer(event: Event) | Take | Rebase(generation: nat, sequence: nat) | Shut

  function Consume(d: Delivery, e: Event): Delivery {
    if RequireContinuity(e, d.generation, d.position) == Continues
    then d.(position := e.sequence, accepted := d.accepted + [e])
    else d.(refusals := d.refusals + 1)
  }

  function Apply(d: Delivery, step: Step): Delivery {
    match step
    case Offer(e) => d.(queue := Publish(d.queue, e).0, offered := d.offered + [e])
    case Take =>
      var (q, read) := Get(d.queue);
      if read.Got? then Consume(d.(queue := q), read.event) else d
    case Rebase(g, s) =>
      (match Reset(d.queue, g, s)
       case None => d
       case Some(q) => Delivery(q, g, s, [], [], 0))
    case Shut => d.(queue := d.queue.(closed := true))
  }

  function Start(capacity: nat, generation: nat, sequence: nat): Delivery {
    Delivery(NewQueue(capacity, generation, sequence), generation, sequence, [], [], 0)
  }

  function Run(d: Delivery, steps: seq<Step>): Delivery
    decreases |steps|
  {
    if steps == [] then d else Run(Apply(d, steps[0]), steps[1..])
  }

  /** A contiguous run of incremental events of one generation, the first numbered `first`. */
  predicate Contiguous(es: seq<Event>, generation: nat, first: int) {
    forall i :: 0 <= i < |es| ==>
      es[i].generation == generation && es[i].sequence == first + i && !es[i].content.requiresResnapshot
  }

  /**
   * Without a pending resnapshot the buffer runs from the consumer's position to the queue's
   * sequence, and what was accepted and what is buffered is all that was offered. With one, the
   * buffer holds at most a single event that asks for a resnapshot.
   */
  ghost predicate Inv(d: Delivery) {
    var q := d.queue;
    && q.capacity >= 1
    && |q.events| <= q.capacity
    && d.accepted <= d.offered
    && Contiguous(d.accepted, d.generation, d.position + 1 - |d.accepted|)
    && |d.accepted| <= d.position
    && (!q.resnapshotRequired ==>
         && q.generation == d.generation
         && q.sequence == d.position + |q.events|
         && Contiguous(q.events, d.generation, d.position + 1)
         && d.accepted + q.events <= d.offered
         && (!q.closed ==> d.accepted + q.events == d.offered)
         && d.refusals == 0)
    && (q.resnapshotRequired ==>
         && |q.events| + d.refusals == 1
         && forall i :: 0 <= i < |q.events| ==> q.events[i].content.requiresResnapshot)
  }

  lemma {:induction false} InvOffer(d: Delivery, e: Event)
    requires Inv(d)
    ensures Inv(Apply(d, Offer(e)))
  {
    var r := Apply(d, Offer(e));
    assert d.offered <= r.offered;
    if !r.queue.resnapshotRequired && !d.queue.closed {
      assert d.accepted + r.queue.events == d.accepted + d.queue.events + [e];
    }
  }

  /** The buffer's first event is accepted. */
  lemma {:induction false} TakeAccepts(d: Delivery)
    requires Inv(d) && d.queue.events != [] && !d.queue.resnapshotRequired
    ensures Apply(d, Take) == d.(
      queue := d.queue.(events := d.queue.events[1..]), position := d.position + 1,
      accepted := d.accepted + [d.queue.events[0]])
  {
  }

  lemma {:induction false} InvAccepted(d: Delivery, r: Delivery)
    requires Inv(d) && d.queue.events != [] && !d.queue.resnapshotRequired
    requires r == d.(
      queue := d.queue.(events := d.queue.events[1..]), position := d.position + 1,
      accepted := d.accepted + [d.queue.events[0]])
    ensures Inv(r)
  {
    var es := d.queue.events;
    assert r.accepted + r.queue.events == d.accepted + es;
    assert r.accepted == (d.accepted + es)[..|r.accepted|];
  }

  lemma {:induction false} InvTake(d: Delivery)
    requires Inv(d)
    ensures Inv(Apply(d, Take))
  {
    if d.queue.events != [] && !d.queue.resnapshotRequired {
      TakeAccepts(d);
      InvAccepted(d, Apply(d, Take));
    }
  }

  lemma {:induction false} InvRun(d: Delivery, steps: seq<Step>)
    requires Inv(d)
    ensures Inv(Run(d, steps))
    decreases |steps|
  {
    if steps != [] {
      match steps[0] {
        case Offer(e) => InvOffer(d, e);
        case Take => InvTake(d);
        case _ =>
      }
      InvRun(Apply(d, steps[0]), steps[1..]);
    }
  }

  /**
   * In every run since the last reset: the consumer has accepted a prefix of what was offered, in
   * order and without a gap; it has refused at most one event, and only when the queue asks for a
   * resnapshot; and while the queue does not ask for one and is open, nothing offered is missing.
   */
  lemma {:induction false} NothingLostUnnoticed(capacity: nat, generation: nat, sequence: nat, steps: seq<Step>)
    requires capacity >= 1
    ensures var d := Run(Start(capacity, generation, sequence), steps);
      && d.accepted <= d.offered
      && Contiguous(d.accepted, d.generation, d.position + 1 - |d.accepted|)
      && d.refusals <= 1
      && (d.refusals == 1 ==> d.queue.resnapshotRequired && d.queue.events == [])
      && (!d.queue.resnapshotRequired && !d.queue.closed ==> d.offered == d.accepted + d.queue.events)
  {
    InvRun(Start(capacity, generation, sequence), steps);
  }

  /** Every event the consumer gets is its exact successor, or one that asks for a resnapshot. */
  lemma {:induction false} SuccessorOrRefused(capacity: nat, generation: nat, sequence: nat, steps: seq<Step>)
    requires capacity >= 1
    ensures var d := Run(Start(capacity, generation, sequence), steps);
      var read := Get(d.queue).1;
      read.Got? ==>
        if d.queue.resnapshotRequired then
          RequireContinuity(read.event, d.generation, d.position) != Continues && d.refusals == 0
        else
          RequireContinuity(read.event, d.generation, d.position) == Continues
  {
    InvRun(Start(capacity, generation, sequence), steps);
  }

  /** When an offered event is not simply queued: it breaks the run, or there is no room for it. */
  predicate Breaks(q: Queue, e: Event) {
    RequireContinuity(e, q.generation, q.sequence) != Continues || |q.events| >= q.capacity
  }

  /** An open queue starts to ask for a resnapshot exactly when an offered event breaks its run. */
  lemma ResnapshotIff(d: Delivery, e: Event)
    requires Inv(d) && !d.queue.closed && !d.queue.resnapshotRequired
    ensures Apply(d, Offer(e)).queue.resnapshotRequired <==> Breaks(d.queue, e)
  {
  }
}
