/**
 * Event publication on a native connection: numbering, the bounded queue, snapshot capture as a
 * baseline reset, and the move to a new generation. `log` is history only: for each generation
 * it says what became of every number issued.
 */
module EventStream {
  import opened Wrappers
  import opened Events

  /** What became of one issued number. */
  datatype Entry =
    | Published(content: Content)
    | Overflowed(content: Content)
    | Dropped(content: Content)
    | Lost
    | Captured(objects: Objects, reader: nat)

  datatype Stream = Stream(
    generation: nat, sequence: nat, queue: seq<Event>, capacity: nat,
    invalid: bool, closed: bool, log: seq<seq<Entry>>)

  datatype Step =
    | Publish(content: Content, made: bool)
    | Capture(objects: Objects, reader: nat, ok: bool)
    | Install
    | Close
    | Take(count: nat)

  predicate Numbered(s: Stream) {
    |s.log| == s.generation + 1 && |s.log[s.generation]| == s.sequence
  }

  function Initial(capacity: nat): Stream {
    Stream(0, 0, [], capacity, false, false, [[]])
  }

  /** `++conn->sequence`, with what the new number is used for. */
  function Issue(s: Stream, entry: Entry): (r: Stream)
    requires Numbered(s)
    ensures Numbered(r)
  {
    s.(sequence := s.sequence + 1, log := s.log[s.generation := s.log[s.generation] + [entry]])
  }

  function Fate(s: Stream, content: Content, made: bool): Entry {
    if !made then Lost
    else if s.closed || s.invalid then Dropped(content)
    else if |s.queue| >= s.capacity then Overflowed(content)
    else Published(content)
  }

  /** `enqueue(conn, new_event(...))`. */
  function PublishEvent(s: Stream, content: Content, made: bool): (r: Stream)
    requires Numbered(s)
    ensures Numbered(r)
  {
    var fate := Fate(s, content, made);
    var t := Issue(s, fate);
    match fate
    case Published(c) => t.(queue := s.queue + [Event(t.generation, t.sequence, c)])
    case Overflowed(_) => t.(queue := [Event(t.generation, t.sequence, DISCONTINUITY)], invalid := true)
    case _ => t
  }

  /** The commit of `capture_runtime_payload`; a capture that fails leaves the stream alone. */
  function CaptureBaseline(s: Stream, objects: Objects, reader: nat, ok: bool): (r: Stream)
    requires Numbered(s)
    ensures Numbered(r)
  {
    if ok then Issue(s, Captured(objects, reader)).(queue := [], invalid := false) else s
  }

  /** The counters in `on_om_installed`. */
  function InstallManager(s: Stream): (r: Stream)
    requires Numbered(s)
    ensures Numbered(r)
  {
    s.(generation := s.generation + 1, sequence := 0, log := s.log + [[]])
  }

  /** How many events a read removes; `next` is a drain of one, and a drain of zero takes all. */
  function Batch(s: Stream, max: nat): (n: nat)
    ensures n <= |s.queue|
  {
    if max == 0 || max > |s.queue| then |s.queue| else max
  }

  function TakeEvents(s: Stream, count: nat): (r: Stream)
    ensures Numbered(s) ==> Numbered(r)
  {
    s.(queue := s.queue[Batch(s, count)..])
  }

  function Apply(s: Stream, step: Step): (r: Stream)
    requires Numbered(s)
    ensures Numbered(r)
  {
    match step
    case Publish(content, made) => PublishEvent(s, content, made)
    case Capture(objects, reader, ok) => CaptureBaseline(s, objects, reader, ok)
    case Install => InstallManager(s)
    case Close => s.(closed := true)
    case Take(count) => TakeEvents(s, count)
  }

  function Delivered(s: Stream, step: Step): seq<Event> {
    if step.Take? then s.queue[..Batch(s, step.count)] else []
  }

  // ----- what each step does -----

  /** A number is always spent; what comes of it depends on the queue and on whether memory sufficed. */
  lemma {:induction false} PublishIff(s: Stream, content: Content, made: bool)
    requires Numbered(s) && s.capacity >= 1
    ensures var t, e := Apply(s, Publish(content, made)), Event(s.generation, s.sequence + 1, content);
      var taken := made && !s.closed && !s.invalid;
      && t.generation == s.generation && t.sequence == s.sequence + 1
      && t.log[s.generation][..s.sequence] == s.log[s.generation]
      && (t.log[s.generation][s.sequence] == Published(content) <==> taken && |s.queue| < s.capacity)
      && (t.log[s.generation][s.sequence] == Overflowed(content) <==> taken && |s.queue| >= s.capacity)
      && (t.log[s.generation][s.sequence] == Dropped(content) <==> made && !taken)
      && (t.log[s.generation][s.sequence] == Lost <==> !made)
      && (taken && |s.queue| < s.capacity ==> t.queue == s.queue + [e] && !t.invalid)
      && (taken && |s.queue| >= s.capacity ==>
           && t.invalid
           && t.queue == [e.(content := Content(Discontinuity, RuntimeKind, Text("runtime"), None, None, true))])
      && (!taken ==> t.queue == s.queue && t.invalid == s.invalid)
      && t.closed == s.closed && t.capacity == s.capacity
  {
  }

  /** A capture takes the next number and empties the queue; installing restarts the numbers; a read
    * takes at most what it asks for, or everything for zero, from the front. */
  lemma {:induction false} StepsIff(s: Stream, objects: Objects, reader: nat, max: nat)
    requires Numbered(s)
    ensures var t := Apply(s, Capture(objects, reader, true));
      && t.generation == s.generation && t.sequence == s.sequence + 1 && t.queue == [] && !t.invalid
      && t.closed == s.closed && t.log[s.generation][s.sequence] == Captured(objects, reader)
    ensures Apply(s, Capture(objects, reader, false)) == s
    ensures var t := Apply(s, Install);
      && t.generation == s.generation + 1 && t.sequence == 0
      && t.queue == s.queue && t.invalid == s.invalid && t.closed == s.closed
    ensures var t, taken := Apply(s, Take(max)), Delivered(s, Take(max));
      && taken + t.queue == s.queue
      && |taken| == (if max == 0 || max > |s.queue| then |s.queue| else max)
      && t.generation == s.generation && t.sequence == s.sequence && t.invalid == s.invalid && t.closed == s.closed
    ensures var t := Apply(s, Close);
      t.closed && t.queue == s.queue && t.sequence == s.sequence && t.generation == s.generation
  {
  }

  // ----- what holds of every event in the queue or already delivered -----

  /** An event stands for its own number: as published, or as the discontinuity put in its place. */
  predicate Recorded(log: seq<seq<Entry>>, e: Event) {
    && e.generation < |log|
    && 1 <= e.sequence <= |log[e.generation]|
    && var entry := log[e.generation][e.sequence - 1];
       || entry == Published(e.content)
       || (entry.Overflowed? && e.content == DISCONTINUITY)
  }

  predicate Ordered(es: seq<Event>) {
    forall i, j :: 0 <= i < j < |es| ==>
      Before(es[i].generation, es[i].sequence, es[j].generation, es[j].sequence)
  }

  predicate AllRecorded(log: seq<seq<Entry>>, es: seq<Event>) {
    forall i :: 0 <= i < |es| ==> Recorded(log, es[i])
  }

  /** History is never rewritten. */
  predicate Extends(log: seq<seq<Entry>>, newer: seq<seq<Entry>>) {
    && |log| <= |newer|
    && (forall g :: 0 <= g < |log| ==> log[g] <= newer[g])
    && (forall g :: 0 <= g < |log| - 1 ==> log[g] == newer[g])
  }

  ghost predicate Safe(s: Stream, delivered: seq<Event>) {
    && Numbered(s)
    && s.capacity >= 1
    && |s.queue| <= s.capacity
    && Ordered(delivered + s.queue)
    && AllRecorded(s.log, delivered + s.queue)
  }

  lemma {:induction false} HistoryGrows(s: Stream, step: Step)
    requires Numbered(s)
    ensures Extends(s.log, Apply(s, step).log)
  {
  }

  lemma {:induction false} StillRecorded(log: seq<seq<Entry>>, newer: seq<seq<Entry>>, es: seq<Event>)
    requires Extends(log, newer) && AllRecorded(log, es)
    ensures AllRecorded(newer, es)
  {
    forall i | 0 <= i < |es|
      ensures Recorded(newer, es[i])
    {
      assert Recorded(log, es[i]);
      assert log[es[i].generation] <= newer[es[i].generation];
    }
  }

  /** A freshly numbered event comes after everything recorded before it. */
  lemma {:induction false} NewestLast(s: Stream, es: seq<Event>, e: Event)
    requires Numbered(s) && AllRecorded(s.log, es) && Ordered(es)
    requires e.generation == s.generation && e.sequence == s.sequence + 1
    ensures Ordered(es + [e])
  {
    forall i, j | 0 <= i < j < |es + [e]|
      ensures Before((es + [e])[i].generation, (es + [e])[i].sequence,
                     (es + [e])[j].generation, (es + [e])[j].sequence)
    {
      if j == |es| {
        assert Recorded(s.log, es[i]);
      }
    }
  }

  lemma {:induction false} SafeStep(s: Stream, delivered: seq<Event>, step: Step)
    requires Safe(s, delivered)
    ensures Safe(Apply(s, step), delivered + Delivered(s, step))
  {
    var t := Apply(s, step);
    HistoryGrows(s, step);
    StillRecorded(s.log, t.log, delivered + s.queue);
    match step
    case Publish(content, made) =>
      PublishKeepsOrder(s, delivered, content, made);
    case Capture(_, _, _) =>
      assert forall i :: 0 <= i < |delivered| ==> delivered[i] == (delivered + s.queue)[i];
      if step.ok { assert delivered + [] + t.queue == delivered; }
      else { assert delivered + [] + t.queue == delivered + s.queue; }
    case Take(count) =>
      assert delivered + Delivered(s, step) + t.queue == delivered + s.queue;
    case _ =>
      assert delivered + [] + t.queue == delivered + s.queue;
  }

  lemma {:induction false} PublishKeepsOrder(s: Stream, delivered: seq<Event>, content: Content, made: bool)
    requires Safe(s, delivered)
    requires Extends(s.log, PublishEvent(s, content, made).log)
    requires AllRecorded(PublishEvent(s, content, made).log, delivered + s.queue)
    ensures Safe(PublishEvent(s, content, made), delivered + [])
  {
    var t := PublishEvent(s, content, made);
    var fate := Fate(s, content, made);
    assert t.log[t.generation][t.sequence - 1] == fate;
    assert delivered + [] == delivered;
    if fate.Published? {
      var e := Event(t.generation, t.sequence, content);
      NewestLast(s, delivered + s.queue, e);
      assert delivered + t.queue == delivered + s.queue + [e];
    } else if fate.Overflowed? {
      var e := Event(t.generation, t.sequence, DISCONTINUITY);
      assert forall i :: 0 <= i < |delivered| ==> delivered[i] == (delivered + s.queue)[i];
      assert AllRecorded(s.log, delivered) && Ordered(delivered) && AllRecorded(t.log, delivered);
      NewestLast(s, delivered, e);
      assert Recorded(t.log, e);
    }
  }

  // ----- whole runs -----

  function Run(s: Stream, steps: seq<Step>): (r: Stream)
    requires Numbered(s)
    ensures Numbered(r)
    decreases |steps|
  {
    if steps == [] then s else Run(Apply(s, steps[0]), steps[1..])
  }

  function DeliveredBy(s: Stream, steps: seq<Step>): seq<Event>
    requires Numbered(s)
    decreases |steps|
  {
    if steps == [] then [] else Delivered(s, steps[0]) + DeliveredBy(Apply(s, steps[0]), steps[1..])
  }

  lemma {:induction false} SafeRun(s: Stream, delivered: seq<Event>, steps: seq<Step>)
    requires Safe(s, delivered)
    ensures Safe(Run(s, steps), delivered + DeliveredBy(s, steps))
    ensures Extends(s.log, Run(s, steps).log)
    decreases |steps|
  {
    if steps != [] {
      var t := Apply(s, steps[0]);
      SafeStep(s, delivered, steps[0]);
      HistoryGrows(s, steps[0]);
      SafeRun(t, delivered + Delivered(s, steps[0]), steps[1..]);
      assert delivered + DeliveredBy(s, steps)
          == delivered + Delivered(s, steps[0]) + DeliveredBy(t, steps[1..]);
    } else {
      assert delivered + DeliveredBy(s, steps) == delivered;
    }
  }

  /** Strictly increasing pairs, each of a number issued and none of them a snapshot's. */
  predicate InOrder(log: seq<seq<Entry>>, es: seq<Event>) {
    && Ordered(es)
    && (forall i :: 0 <= i < |es| ==>
         && es[i].generation < |log|
         && 1 <= es[i].sequence <= |log[es[i].generation]|
         && !log[es[i].generation][es[i].sequence - 1].Captured?)
  }

  /**
   * In every run from a fresh connection the delivered pairs (generation, sequence) strictly
   * increase, no delivered pair is a snapshot's pair, and the queue stays within capacity.
   */
  lemma {:induction false} DeliveryOrder(capacity: nat, steps: seq<Step>)
    requires capacity >= 1
    ensures |Run(Initial(capacity), steps).queue| <= capacity
    ensures InOrder(Run(Initial(capacity), steps).log, DeliveredBy(Initial(capacity), steps))
  {
    var s0 := Initial(capacity);
    var es := DeliveredBy(s0, steps);
    assert Safe(s0, []);
    SafeRun(s0, [], steps);
    CapacityIsFixed(s0, steps);
    assert [] + es == es;
    SafeDelivery(Run(s0, steps), es);
  }

  lemma {:induction false} SafeDelivery(s: Stream, es: seq<Event>)
    requires Safe(s, es)
    ensures InOrder(s.log, es)
  {
    var all := es + s.queue;
    forall i | 0 <= i < |es|
      ensures Recorded(s.log, es[i])
    {
      assert es[i] == all[i];
    }
    forall i, j | 0 <= i < j < |es|
      ensures Before(es[i].generation, es[i].sequence, es[j].generation, es[j].sequence)
    {
      assert es[i] == all[i] && es[j] == all[j];
    }
  }

  lemma {:induction false} CapacityIsFixed(s: Stream, steps: seq<Step>)
    requires Numbered(s)
    ensures Run(s, steps).capacity == s.capacity
    decreases |steps|
  {
    if steps != [] { CapacityIsFixed(Apply(s, steps[0]), steps[1..]); }
  }

  /** How many steps of a run put an overflow discontinuity in the queue. */
  function Overflows(s: Stream, steps: seq<Step>): nat
    requires Numbered(s)
    decreases |steps|
  {
    if steps == [] then 0
    else (if steps[0].Publish? && Fate(s, steps[0].content, steps[0].made).Overflowed? then 1 else 0)
         + Overflows(Apply(s, steps[0]), steps[1..])
  }

  /**
   * Between two captures at most one discontinuity enters the queue, and the invalid flag says
   * exactly whether one has.
   */
  lemma {:induction false} OneOverflowBetweenCaptures(s: Stream, steps: seq<Step>)
    requires Numbered(s)
    requires forall i :: 0 <= i < |steps| ==> !(steps[i].Capture? && steps[i].ok)
    ensures Overflows(s, steps) <= 1
    ensures Overflows(s, steps) == 1 <==> !s.invalid && Run(s, steps).invalid
    ensures s.invalid ==> Run(s, steps).invalid
    decreases |steps|
  {
    if steps != [] {
      assert !(steps[0].Capture? && steps[0].ok);
      OneOverflowBetweenCaptures(Apply(s, steps[0]), steps[1..]);
    }
  }
}
