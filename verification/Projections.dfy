/**
 * The consumer of a native event stream: a projection that starts from a snapshot and folds in
 * events, and the client that replaces it when continuity is lost.
 */
module Projections {
  import opened Wrappers
  import opened Events
  import opened EventStream

  /** The client's own name among those that capture snapshots. */
  const CLIENT: nat := 0

  datatype Snapshot = Snapshot(generation: nat, sequence: nat, objects: Objects)
  datatype Projection = Projection(generation: nat, sequence: nat, objects: Objects)

  function FromSnapshot(s: Snapshot): Projection {
    Projection(s.generation, s.sequence, s.objects)
  }

  /** What one event does to the objects. */
  function Effect(objects: Objects, c: Content): Objects {
    var key := (c.objectKind, c.objectId);
    if c.kind == ObjectRemoved then objects - {key}
    else if c.current.Some? then objects[key := c.current.value]
    else objects
  }

  /** `RuntimeProjection.apply`: None is a continuity error. */
  function Advance(p: Projection, e: Event): (r: Option<Projection>) {
    if RequireContinuity(e, p.generation, p.sequence) != Continues then None
    else Some(p.(sequence := e.sequence, objects := Effect(p.objects, e.content)))
  }

  /** Folding in the events that raced with a capture; those the snapshot covers are skipped. */
  function FoldDrained(p: Projection, es: seq<Event>): (r: Option<Projection>)
    decreases |es|
  {
    if es == [] then Some(p)
    else if es[0].generation == p.generation && es[0].sequence <= p.sequence then FoldDrained(p, es[1..])
    else match Advance(p, es[0])
      case None => None
      case Some(q) => FoldDrained(q, es[1..])
  }

  // ----- the client beside the connection -----

  datatype View = View(snapshot: Snapshot, projection: Projection)

  /** Following events, about to capture, or about to drain what raced with a capture. */
  datatype Phase = Following | NeedsCapture | NeedsDrain(candidate: Snapshot)

  datatype System = System(stream: Stream, view: Option<View>, phase: Phase)

  datatype Move =
    | Native(step: Step)
    | ClientCapture(objects: Objects, captured: bool, decoded: bool)
    | ClientDrain
    | ClientNext
    | ClientResnapshot

  /** An exception ends `resnapshot` and leaves the client with what it had. */
  function Abandon(view: Option<View>): Phase {
    if view.Some? then Following else NeedsCapture
  }

  /** The client is the only reader of the queue. */
  predicate Permitted(move: Move) { !(move.Native? && move.step.Take?) }

  function CaptureMove(y: System, objects: Objects, captured: bool, decoded: bool): (r: System)
    requires Numbered(y.stream)
    ensures Numbered(r.stream)
  {
    var t := CaptureBaseline(y.stream, objects, CLIENT, captured);
    if captured && decoded then
      y.(stream := t, phase := NeedsDrain(Snapshot(t.generation, t.sequence, objects)))
    else y.(stream := t, phase := Abandon(y.view))
  }

  predicate AllValid(es: seq<Event>) {
    forall i :: 0 <= i < |es| ==> ValidContent(es[i].content)
  }

  function DrainMove(y: System): (r: System)
    requires Numbered(y.stream) && y.phase.NeedsDrain?
    ensures Numbered(r.stream)
  {
    var es := Delivered(y.stream, Take(0));
    var t := TakeEvents(y.stream, 0);
    if !AllValid(es) then y.(stream := t, phase := Abandon(y.view))
    else match FoldDrained(FromSnapshot(y.phase.candidate), es)
      case None => y.(stream := t, phase := NeedsCapture)
      case Some(p) => System(t, Some(View(y.phase.candidate, p)), Following)
  }

  function NextMove(y: System): (r: System)
    requires Numbered(y.stream) && y.view.Some?
    ensures Numbered(r.stream)
  {
    if y.stream.queue == [] then y
    else
      var e := y.stream.queue[0];
      var z := y.(stream := TakeEvents(y.stream, 1));
      if !ValidContent(e.content) then z
      else match Advance(y.view.value.projection, e)
        case None => z.(phase := NeedsCapture)
        case Some(p) => z.(view := Some(y.view.value.(projection := p)))
  }

  function Go(y: System, move: Move): (r: System)
    requires Numbered(y.stream)
    ensures Numbered(r.stream)
  {
    match move
    case Native(step) => y.(stream := Apply(y.stream, step))
    case ClientCapture(objects, captured, decoded) =>
      if y.phase.NeedsCapture? then CaptureMove(y, objects, captured, decoded) else y
    case ClientDrain => if y.phase.NeedsDrain? then DrainMove(y) else y
    case ClientNext => if y.phase.Following? && y.view.Some? then NextMove(y) else y
    case ClientResnapshot => if y.phase.Following? then y.(phase := NeedsCapture) else y
  }

  function Start(capacity: nat): System { System(Initial(capacity), None, NeedsCapture) }

  function GoAll(y: System, moves: seq<Move>): (r: System)
    requires Numbered(y.stream)
    ensures Numbered(r.stream)
    decreases |moves|
  {
    if moves == [] then y else GoAll(Go(y, moves[0]), moves[1..])
  }

  // ----- which drains are accepted -----

  /** The number reached after the first `i` drained events. */
  function Reached(sequence: nat, es: seq<Event>, i: nat): nat
    requires i <= |es|
  {
    if i == 0 then sequence
    else
      var before := Reached(sequence, es, i - 1);
      if es[i - 1].sequence > before then es[i - 1].sequence else before
  }

  /** The i-th drained event is of the generation, and covered already or the successor. */
  predicate Fits(generation: nat, sequence: nat, es: seq<Event>, i: nat)
    requires i < |es|
  {
    && es[i].generation == generation
    && (|| es[i].sequence <= Reached(sequence, es, i)
        || (es[i].sequence == Reached(sequence, es, i) + 1 && !es[i].content.requiresResnapshot))
  }

  lemma {:induction false} ReachedTail(sequence: nat, es: seq<Event>, i: nat)
    requires 0 < i <= |es|
    ensures Reached(sequence, es, i)
      == Reached(if es[0].sequence > sequence then es[0].sequence else sequence, es[1..], i - 1)
  {
    if i > 1 { ReachedTail(sequence, es, i - 1); }
  }

  /** A drain is folded in exactly when every event of it fits, and then reaches the last number. */
  lemma {:induction false} FoldIff(p: Projection, es: seq<Event>)
    ensures var r := FoldDrained(p, es);
      && (r.Some? <==> forall i :: 0 <= i < |es| ==> Fits(p.generation, p.sequence, es, i))
      && (r.Some? ==> r.value.generation == p.generation && r.value.sequence == Reached(p.sequence, es, |es|))
    decreases |es|
  {
    if es != [] {
      var tail := es[1..];
      var next := if es[0].sequence > p.sequence then es[0].sequence else p.sequence;
      if es[0].generation == p.generation && es[0].sequence <= p.sequence {
        FoldIff(p, tail);
      } else if Advance(p, es[0]).Some? {
        FoldIff(Advance(p, es[0]).value, tail);
      }
      forall i | 0 < i < |es|
        ensures Fits(p.generation, p.sequence, es, i) <==> Fits(p.generation, next, tail, i - 1)
      {
        ReachedTail(p.sequence, es, i);
      }
      ReachedTail(p.sequence, es, |es|);
      hide Effect, Reached;
      assert Reached(p.sequence, es, 0) == p.sequence by { FirstReached(p.sequence, es); }
      if Fits(p.generation, p.sequence, es, 0) {
        assert forall i :: 0 <= i < |tail| ==>
          (Fits(p.generation, next, tail, i) <==> Fits(p.generation, p.sequence, es, i + 1));
      }
    }
  }

  lemma FirstReached(sequence: nat, es: seq<Event>)
    ensures Reached(sequence, es, 0) == sequence
  {
  }

  /** A read by the client: it asks for a new snapshot exactly when a valid event is refused. */
  lemma {:induction false} NextIff(y: System)
    requires Numbered(y.stream) && y.phase.Following? && y.view.Some?
    ensures var z, p := Go(y, ClientNext), y.view.value.projection;
      && (z.phase == NeedsCapture <==>
           && y.stream.queue != []
           && var e := y.stream.queue[0];
              && ValidContent(e.content)
              && !(e.generation == p.generation && e.sequence == p.sequence + 1 && !e.content.requiresResnapshot))
      && (z.phase == NeedsCapture || z.phase == Following)
      && z.view.Some? && z.view.value.snapshot == y.view.value.snapshot
      && (y.stream.queue != [] ==> z.stream.queue == y.stream.queue[1..])
      && (y.stream.queue != [] && ValidContent(y.stream.queue[0].content) && z.phase == Following ==>
           z.view.value.projection.sequence == p.sequence + 1)
      && (y.stream.queue == [] || !ValidContent(y.stream.queue[0].content) || z.phase == NeedsCapture ==>
           z.view.value.projection == p)
  {
    hide Effect;
  }

  /**
   * A drain by the client takes everything; it gives a view of the candidate exactly when every event
   * is valid and fits, leads to another attempt exactly when all are valid and one does not fit, and
   * otherwise raises and leaves the old view.
   */
  lemma {:induction false} DrainIff(y: System)
    requires Numbered(y.stream) && y.phase.NeedsDrain?
    ensures var z, es, sn := Go(y, ClientDrain), y.stream.queue, y.phase.candidate;
      var valid := forall i :: 0 <= i < |es| ==> ValidContent(es[i].content);
      var fit := forall i :: 0 <= i < |es| ==> Fits(sn.generation, sn.sequence, es, i);
      && z.stream.queue == []
      && (valid && fit ==> z.phase == Following && z.view.Some? && z.view.value.snapshot == sn)
      && (valid && !fit ==> z.phase == NeedsCapture && z.view == y.view)
      && (!valid ==> z.phase == (if y.view.Some? then Following else NeedsCapture) && z.view == y.view)
  {
    FoldIff(FromSnapshot(y.phase.candidate), y.stream.queue);
    assert Delivered(y.stream, Take(0)) == y.stream.queue;
    hide FoldDrained;
  }

  /** A capture spends a number and becomes the candidate, unless it fails or does not decode. */
  lemma {:induction false} CaptureIff(y: System, objects: Objects, captured: bool, decoded: bool)
    requires Numbered(y.stream) && y.phase.NeedsCapture?
    ensures var z := Go(y, ClientCapture(objects, captured, decoded));
      && z.view == y.view
      && z.stream.sequence == y.stream.sequence + (if captured then 1 else 0)
      && (captured && decoded ==>
           && z.phase == NeedsDrain(Snapshot(y.stream.generation, y.stream.sequence + 1, objects))
           && z.stream.queue == [])
      && (!(captured && decoded) ==> z.phase == (if y.view.Some? then Following else NeedsCapture))
  {
  }

  // ----- what the projection stands for -----

  /** An entry whose event reaches the consumer and may be applied. */
  predicate Ordinary(entry: Entry) {
    entry.Published? && ValidContent(entry.content) && !entry.content.requiresResnapshot
  }

  predicate AllOrdinary(entries: seq<Entry>) {
    forall i :: 0 <= i < |entries| ==> Ordinary(entries[i])
  }

  /** The objects after the events of `entries`, in order. */
  function Replay(objects: Objects, entries: seq<Entry>): Objects
    requires AllOrdinary(entries)
  {
    if entries == [] then objects
    else
      var n := |entries| - 1;
      Effect(Replay(objects, entries[..n]), entries[n].content)
  }

  /** What an event says of one key: that the object is gone, its state, or nothing. */
  predicate Touches(c: Content, key: ObjectKey) {
    c.objectKind == key.0 && c.objectId == key.1 && (c.kind == ObjectRemoved || c.current.Some?)
  }

  predicate Writes(c: Content, key: ObjectKey, x: State) {
    c.objectKind == key.0 && c.objectId == key.1 && c.kind != ObjectRemoved && c.current == Some(x)
  }

  /** The last entry that says something of the key writes `x`, or none does and it was `x` before. */
  ghost predicate LastSaid(objects: Objects, entries: seq<Entry>, key: ObjectKey, x: State)
    requires AllOrdinary(entries)
  {
    || (exists i :: 0 <= i < |entries| && Writes(entries[i].content, key, x)
          && forall j :: i < j < |entries| ==> !Touches(entries[j].content, key))
    || (key in objects && objects[key] == x && forall j :: 0 <= j < |entries| ==> !Touches(entries[j].content, key))
  }

  /** An object is present with a state exactly when that is the last thing said of it. */
  lemma {:induction false} ReplayIff(objects: Objects, entries: seq<Entry>, key: ObjectKey, x: State)
    requires AllOrdinary(entries)
    ensures key in Replay(objects, entries) && Replay(objects, entries)[key] == x
       <==> LastSaid(objects, entries, key, x)
  {
    if entries != [] {
      var n := |entries| - 1;
      var front, c := entries[..n], entries[n].content;
      ReplayIff(objects, front, key, x);
      var before, after := Replay(objects, front), Replay(objects, entries);
      assert after == Effect(before, c);
      hide Replay, Ordinary;
      assert forall i :: 0 <= i < n ==> front[i] == entries[i];
      assert Touches(c, key) ==> (LastSaid(objects, entries, key, x) <==> Writes(c, key, x));
      assert !Touches(c, key) ==> (LastSaid(objects, entries, key, x) <==> LastSaid(objects, front, key, x));
    }
  }

  /**
   * The projection is the client's snapshot with exactly the events numbered after it, up to the
   * projection's own number, all of them ordinary.
   */
  ghost predicate Faithful(log: seq<seq<Entry>>, v: View) {
    var g, s, n := v.snapshot.generation, v.snapshot.sequence, v.projection.sequence;
    && v.projection.generation == g < |log|
    && 1 <= s <= n <= |log[g]|
    && log[g][s - 1] == Captured(v.snapshot.objects, CLIENT)
    && AllOrdinary(log[g][s..n])
    && v.projection.objects == Replay(v.snapshot.objects, log[g][s..n])
  }

  /** Nothing but ordinary events happened since a position. */
  predicate Intact(log: seq<seq<Entry>>, p: Projection) {
    && |log| == p.generation + 1
    && p.sequence <= |log[p.generation]|
    && AllOrdinary(log[p.generation][p.sequence..])
  }

  function EventsFrom(entries: seq<Entry>, generation: nat, sequence: nat): seq<Event>
    requires sequence <= |entries| && AllOrdinary(entries[sequence..])
  {
    seq(|entries| - sequence, i requires 0 <= i < |entries| - sequence =>
      assert entries[sequence + i] == entries[sequence..][i];
      Event(generation, sequence + i + 1, entries[sequence + i].content))
  }

  /** While nothing was lost, the queue holds exactly the events the projection still lacks. */
  ghost predicate Tracks(s: Stream, p: Projection) {
    Intact(s.log, p) ==> s.queue == EventsFrom(s.log[p.generation], p.generation, p.sequence)
  }

  ghost predicate Inv(y: System) {
    && Safe(y.stream, [])
    && (y.view.Some? ==>
         Faithful(y.stream.log, y.view.value) && Tracks(y.stream, y.view.value.projection))
    && (y.phase.NeedsDrain? ==>
         && Faithful(y.stream.log, View(y.phase.candidate, FromSnapshot(y.phase.candidate)))
         && Tracks(y.stream, FromSnapshot(y.phase.candidate))
         && (y.view.Some? ==> !Intact(y.stream.log, y.view.value.projection)))
    && (y.phase.Following? ==> y.view.Some?)
  }

  // ----- steps of the connection -----

  lemma {:induction false} FaithfulExtends(log: seq<seq<Entry>>, newer: seq<seq<Entry>>, v: View)
    requires Extends(log, newer) && Faithful(log, v)
    ensures Faithful(newer, v)
  {
    var g, s, n := v.snapshot.generation, v.snapshot.sequence, v.projection.sequence;
    assert log[g] <= newer[g];
    assert newer[g][s..n] == log[g][s..n];
    assert newer[g][s - 1] == log[g][s - 1];
  }

  /** A loss is never forgotten. */
  lemma {:induction false} LossRemains(log: seq<seq<Entry>>, newer: seq<seq<Entry>>, p: Projection)
    requires Extends(log, newer) && p.generation < |log| && p.sequence <= |log[p.generation]|
    requires Intact(newer, p)
    ensures Intact(log, p)
  {
    var g := p.generation;
    assert log[g] <= newer[g];
    forall i | 0 <= i < |log[g][p.sequence..]|
      ensures Ordinary(log[g][p.sequence..][i])
    {
      assert log[g][p.sequence..][i] == newer[g][p.sequence..][i];
    }
  }

  /** An entry that is not ordinary, at or after a position, breaks it. */
  lemma {:induction false} OrdinaryAt(entries: seq<Entry>, s: nat, m: nat, n: nat)
    requires s < n <= m <= |entries| && AllOrdinary(entries[s..m])
    ensures Ordinary(entries[n - 1])
  {
    assert entries[s..m][n - 1 - s] == entries[n - 1];
  }

  lemma {:induction false} IntactEnd(log: seq<seq<Entry>>, p: Projection)
    requires Intact(log, p) && p.sequence < |log[p.generation]|
    ensures var entries := log[p.generation];
      Ordinary(entries[|entries| - 1])
  {
    var entries := log[p.generation];
    assert entries[p.sequence..] == entries[p.sequence..|entries|];
    OrdinaryAt(entries, p.sequence, |entries|, |entries|);
  }

  /** A capture breaks every position before it. */
  lemma {:induction false} CaptureBreaks(s: Stream, objects: Objects, reader: nat, p: Projection)
    requires Numbered(s) && p.generation < |s.log| && p.sequence <= |s.log[p.generation]|
    ensures !Intact(CaptureBaseline(s, objects, reader, true).log, p)
  {
    var t := CaptureBaseline(s, objects, reader, true);
    var entries := t.log[t.generation];
    assert entries[|entries| - 1] == Captured(objects, reader);
    if Intact(t.log, p) { IntactEnd(t.log, p); assert false; }
  }

  lemma {:induction false} TracksNative(s: Stream, step: Step, p: Projection)
    requires Numbered(s) && !step.Take? && Tracks(s, p)
    requires p.generation < |s.log| && p.sequence <= |s.log[p.generation]|
    ensures Tracks(Apply(s, step), p)
  {
    var t := Apply(s, step);
    if step.Capture? && step.ok {
      CaptureBreaks(s, step.objects, step.reader, p);
    } else if Intact(t.log, p) {
      HistoryGrows(s, step);
      LossRemains(s.log, t.log, p);
      if step.Publish? {
        var entries := t.log[p.generation];
        IntactEnd(t.log, p);
        assert entries[|entries| - 1] == Fate(s, step.content, step.made);
        assert t.queue == EventsFrom(entries, p.generation, p.sequence);
      }
    }
  }

  lemma {:induction false} NativeKeeps(y: System, step: Step)
    requires Inv(y) && !step.Take?
    ensures Inv(Go(y, Native(step)))
  {
    var t := Apply(y.stream, step);
    SafeStep(y.stream, [], step);
    HistoryGrows(y.stream, step);
    assert [] + Delivered(y.stream, step) == [];
    if y.view.Some? {
      var v := y.view.value;
      FaithfulExtends(y.stream.log, t.log, v);
      TracksNative(y.stream, step, v.projection);
      if y.phase.NeedsDrain? && Intact(t.log, v.projection) {
        LossRemains(y.stream.log, t.log, v.projection);
      }
    }
    if y.phase.NeedsDrain? {
      var v := View(y.phase.candidate, FromSnapshot(y.phase.candidate));
      FaithfulExtends(y.stream.log, t.log, v);
      TracksNative(y.stream, step, v.projection);
    }
  }

  // ----- steps of the client -----

  lemma {:induction false} CaptureKeeps(y: System, objects: Objects, captured: bool, decoded: bool)
    requires Inv(y) && y.phase.NeedsCapture?
    ensures Inv(CaptureMove(y, objects, captured, decoded))
  {
    var step := Capture(objects, CLIENT, captured);
    NativeKeeps(y, step);
    var t := CaptureBaseline(y.stream, objects, CLIENT, captured);
    if captured {
      var sn := Snapshot(t.generation, t.sequence, objects);
      var entries := t.log[t.generation];
      assert entries[t.sequence - 1] == Captured(objects, CLIENT);
      assert entries[t.sequence..] == [];
      assert entries[sn.sequence..t.sequence] == [];
      assert EventsFrom(entries, t.generation, t.sequence) == [];
      if y.view.Some? { CaptureBreaks(y.stream, objects, CLIENT, y.view.value.projection); }
    }
  }

  /** One accepted event adds exactly the entry with its number to what the projection stands for. */
  lemma {:induction false} AdvanceFaithful(log: seq<seq<Entry>>, v: View, e: Event, q: Projection)
    requires Faithful(log, v) && Recorded(log, e) && ValidContent(e.content)
    requires Advance(v.projection, e) == Some(q)
    ensures Faithful(log, v.(projection := q))
    ensures Ordinary(log[q.generation][q.sequence - 1])
  {
    var g, s, n := v.snapshot.generation, v.snapshot.sequence, v.projection.sequence;
    var before, after := log[g][s..n], log[g][s..n + 1];
    assert log[g][n] == Published(e.content);
    assert after[..|after| - 1] == before;
    assert after == before + [log[g][n]];
  }

  lemma {:induction false} FoldFaithful(log: seq<seq<Entry>>, v: View, es: seq<Event>)
    requires Faithful(log, v) && AllRecorded(log, es) && AllValid(es)
    ensures var r := FoldDrained(v.projection, es);
      r.Some? ==> Faithful(log, v.(projection := r.value)) && r.value.sequence >= v.projection.sequence
    decreases |es|
  {
    if es != [] {
      assert Recorded(log, es[0]) && ValidContent(es[0].content);
      assert AllRecorded(log, es[1..]) && AllValid(es[1..]);
      if es[0].generation == v.projection.generation && es[0].sequence <= v.projection.sequence {
        FoldFaithful(log, v, es[1..]);
      } else {
        match Advance(v.projection, es[0])
        case None =>
        case Some(q) =>
          AdvanceFaithful(log, v, es[0], q);
          FoldFaithful(log, v.(projection := q), es[1..]);
      }
    }
  }

  /** Folding in all that an intact history still holds reaches its last number. */
  lemma {:induction false} FoldReaches(log: seq<seq<Entry>>, p: Projection)
    requires Intact(log, p)
    ensures var es := EventsFrom(log[p.generation], p.generation, p.sequence);
      && AllValid(es)
      && var r := FoldDrained(p, es);
         && r.Some?
         && r.value.generation == p.generation
         && r.value.sequence == |log[p.generation]|
    decreases |log[p.generation]| - p.sequence
  {
    var entries := log[p.generation];
    var es := EventsFrom(entries, p.generation, p.sequence);
    if p.sequence < |entries| {
      assert Ordinary(entries[p.sequence..][0]);
      assert es[0] == Event(p.generation, p.sequence + 1, entries[p.sequence].content);
      var q := Advance(p, es[0]).value;
      assert entries[q.sequence..] == entries[p.sequence..][1..];
      assert es[1..] == EventsFrom(entries, q.generation, q.sequence);
      FoldReaches(log, q);
      assert es == [es[0]] + es[1..];
    }
  }

  /** The first pending event of an intact history is the projection's successor, and is accepted. */
  lemma {:induction false} IntactFirst(s: Stream, p: Projection)
    requires Tracks(s, p) && Intact(s.log, p) && s.queue != []
    ensures ValidContent(s.queue[0].content) && Advance(p, s.queue[0]).Some?
  {
    var entries := s.log[p.generation];
    assert Ordinary(entries[p.sequence..][0]);
  }

  /** A position that is intact after an ordinary event was intact before it. */
  lemma {:induction false} IntactBackwards(log: seq<seq<Entry>>, p: Projection, q: Projection)
    requires Intact(log, q) && q.generation == p.generation && p.sequence <= q.sequence
    requires AllOrdinary(log[p.generation][p.sequence..q.sequence])
    ensures Intact(log, p)
  {
    var entries := log[p.generation];
    assert entries[p.sequence..] == entries[p.sequence..q.sequence] + entries[q.sequence..];
  }

  lemma {:induction false} DrainKeeps(y: System)
    requires Inv(y) && y.phase.NeedsDrain?
    ensures Inv(DrainMove(y))
  {
    var z := DrainMove(y);
    var v := View(y.phase.candidate, FromSnapshot(y.phase.candidate));
    var es := Delivered(y.stream, Take(0));
    assert es == y.stream.queue && z.stream.queue == [];
    TakeSafe(y.stream, 0);
    SafeQueue(y.stream);
    if AllValid(es) {
      DrainTracks(y.stream.log, v, es);
    }
  }

  /** The projection a successful drain arrives at lacks nothing the drained queue held. */
  lemma {:induction false} DrainTracks(log: seq<seq<Entry>>, v: View, es: seq<Event>)
    requires Faithful(log, v) && AllRecorded(log, es) && AllValid(es)
    requires Intact(log, v.projection) ==>
      es == EventsFrom(log[v.projection.generation], v.projection.generation, v.projection.sequence)
    ensures var r := FoldDrained(v.projection, es);
      r.Some? ==>
        && Faithful(log, v.(projection := r.value))
        && (Intact(log, r.value) ==> EventsFrom(log[r.value.generation], r.value.generation, r.value.sequence) == [])
  {
    FoldFaithful(log, v, es);
    var r := FoldDrained(v.projection, es);
    if r.Some? && Intact(log, r.value) {
      FaithfulBetween(log, v, r.value);
      hide Faithful, AllRecorded, AllValid, FoldDrained;
      IntactBackwards(log, v.projection, r.value);
      FoldReaches(log, v.projection);
    }
  }

  /** Two faithful projections of one snapshot: what lies between them is ordinary. */
  lemma {:induction false} FaithfulBetween(log: seq<seq<Entry>>, v: View, q: Projection)
    requires Faithful(log, v) && Faithful(log, v.(projection := q)) && v.projection.sequence <= q.sequence
    ensures q.generation == v.projection.generation < |log| && q.sequence <= |log[q.generation]|
    ensures AllOrdinary(log[q.generation][v.projection.sequence..q.sequence])
  {
    hide Replay, AllOrdinary;
    LaterOrdinary(log[q.generation], v.snapshot.sequence, v.projection.sequence, q.sequence);
  }

  lemma {:induction false} LaterOrdinary(entries: seq<Entry>, s: nat, n: nat, m: nat)
    requires s <= n <= m <= |entries| && AllOrdinary(entries[s..m])
    ensures AllOrdinary(entries[n..m])
  {
    hide Ordinary;
    assert forall i :: 0 <= i < m - n ==> entries[n..m][i] == entries[s..m][n - s + i];
  }

  /** What safety says of the queue alone. */
  lemma {:induction false} SafeQueue(s: Stream)
    requires Safe(s, [])
    ensures Ordered(s.queue) && AllRecorded(s.log, s.queue)
  {
    assert [] + s.queue == s.queue;
  }

  lemma {:induction false} TakeSafe(s: Stream, count: nat)
    requires Safe(s, [])
    ensures Safe(TakeEvents(s, count), [])
  {
    var t := TakeEvents(s, count);
    SafeQueue(s);
    assert [] + t.queue == s.queue[Batch(s, count)..];
  }

  /** Taking the accepted successor off the queue leaves what the new projection lacks. */
  lemma {:induction false} AdvanceTracks(s: Stream, v: View, q: Projection)
    requires Safe(s, []) && Faithful(s.log, v) && Tracks(s, v.projection) && s.queue != []
    requires ValidContent(s.queue[0].content) && Advance(v.projection, s.queue[0]) == Some(q)
    ensures Faithful(s.log, v.(projection := q)) && Tracks(TakeEvents(s, 1), q)
  {
    var p, e := v.projection, s.queue[0];
    SafeQueue(s);
    assert Recorded(s.log, e);
    AdvanceFaithful(s.log, v, e, q);
    if Intact(s.log, q) {
      var entries := s.log[q.generation];
      assert entries[p.sequence..q.sequence] == [entries[p.sequence]];
      IntactBackwards(s.log, p, q);
      assert EventsFrom(entries, q.generation, q.sequence)
          == EventsFrom(entries, p.generation, p.sequence)[1..];
    }
  }

  lemma {:induction false} NextKeeps(y: System)
    requires Inv(y) && y.phase.Following?
    ensures Inv(NextMove(y))
  {
    var v, s := y.view.value, y.stream;
    if s.queue != [] {
      TakeSafe(s, 1);
      if Intact(s.log, v.projection) { IntactFirst(s, v.projection); }
      var r := Advance(v.projection, s.queue[0]);
      if ValidContent(s.queue[0].content) && r.Some? {
        AdvanceTracks(s, v, r.value);
      }
    }
  }

  lemma {:induction false} GoKeeps(y: System, move: Move)
    requires Inv(y) && Permitted(move)
    ensures Inv(Go(y, move))
  {
    match move
    case Native(step) => NativeKeeps(y, step);
    case ClientCapture(objects, captured, decoded) =>
      if y.phase.NeedsCapture? { CaptureKeeps(y, objects, captured, decoded); }
    case ClientDrain => if y.phase.NeedsDrain? { DrainKeeps(y); }
    case ClientNext => if y.phase.Following? { NextKeeps(y); }
    case ClientResnapshot =>
  }

  lemma {:induction false} GoExtends(y: System, move: Move)
    requires Numbered(y.stream)
    ensures Extends(y.stream.log, Go(y, move).stream.log)
  {
    match move
    case Native(step) => HistoryGrows(y.stream, step);
    case ClientCapture(objects, captured, _) => HistoryGrows(y.stream, Capture(objects, CLIENT, captured));
    case _ =>
  }

  lemma {:induction false} GoAllKeeps(y: System, moves: seq<Move>)
    requires Inv(y)
    requires forall i :: 0 <= i < |moves| ==> Permitted(moves[i])
    ensures Inv(GoAll(y, moves)) && Extends(y.stream.log, GoAll(y, moves).stream.log)
    decreases |moves|
  {
    if moves != [] {
      assert Permitted(moves[0]);
      GoKeeps(y, moves[0]);
      GoExtends(y, moves[0]);
      GoAllKeeps(Go(y, moves[0]), moves[1..]);
    }
  }

  // ----- the client's guarantees -----

  /**
   * After every run the client's projection is its snapshot folded with exactly the events
   * numbered from the snapshot to the projection's own number: it holds an object in a state exactly
   * when that is the last thing said of it.
   */
  lemma {:induction false} NoSilentLoss(capacity: nat, moves: seq<Move>)
    requires capacity >= 1
    requires forall i :: 0 <= i < |moves| ==> Permitted(moves[i])
    ensures var y := GoAll(Start(capacity), moves);
      y.view.Some? ==> Faithful(y.stream.log, y.view.value) && SaysLast(y.stream.log, y.view.value)
  {
    assert Inv(Start(capacity));
    GoAllKeeps(Start(capacity), moves);
    var y := GoAll(Start(capacity), moves);
    hide Inv, GoAll;
    if y.view.Some? { FaithfulSaysLast(y.stream.log, y.view.value); }
  }

  /** The projection holds, for each key, what was said last of it in the snapshot or after. */
  ghost predicate SaysLast(log: seq<seq<Entry>>, v: View) {
    var g, s, n := v.snapshot.generation, v.snapshot.sequence, v.projection.sequence;
    && g < |log| && s <= n <= |log[g]| && AllOrdinary(log[g][s..n])
    && forall key, x ::
         (key in v.projection.objects && v.projection.objects[key] == x)
         <==> LastSaid(v.snapshot.objects, log[g][s..n], key, x)
  }

  lemma {:induction false} FaithfulSaysLast(log: seq<seq<Entry>>, v: View)
    requires Faithful(log, v)
    ensures SaysLast(log, v)
  {
    var g, s, n := v.snapshot.generation, v.snapshot.sequence, v.projection.sequence;
    var entries := log[g][s..n];
    hide Replay, LastSaid, Ordinary;
    forall key, x
      ensures (key in v.projection.objects && v.projection.objects[key] == x)
        <==> LastSaid(v.snapshot.objects, entries, key, x)
    {
      ReplayIff(v.snapshot.objects, entries, key, x);
    }
  }

  /**
   * A number past the projection that was not spent on an ordinary event (an overflow, a failed
   * allocation, another capture, an event that invalidates) is never passed: whatever happens
   * next, a projection that still rests on the same snapshot stays below it.
   */
  lemma {:induction false} LossIsNeverSkipped(y: System, moves: seq<Move>, n: nat)
    requires Inv(y) && y.view.Some?
    requires forall i :: 0 <= i < |moves| ==> Permitted(moves[i])
    requires var p := y.view.value.projection;
      p.sequence < n <= |y.stream.log[p.generation]| && !Ordinary(y.stream.log[p.generation][n - 1])
    ensures var z := GoAll(y, moves);
      z.view.Some? && z.view.value.snapshot == y.view.value.snapshot ==> z.view.value.projection.sequence < n
  {
    GoAllKeeps(y, moves);
    var z := GoAll(y, moves);
    hide Inv, GoAll;
    if z.view.Some? && z.view.value.snapshot == y.view.value.snapshot {
      assert Inv(z) && Inv(y);
      BelowLoss(y.stream.log, z.stream.log, y.view.value, z.view.value, n);
    }
  }

  lemma {:induction false} BelowLoss(log: seq<seq<Entry>>, newer: seq<seq<Entry>>, v: View, w: View, n: nat)
    requires Extends(log, newer) && Faithful(log, v) && Faithful(newer, w) && w.snapshot == v.snapshot
    requires v.projection.sequence < n <= |log[v.projection.generation]|
    requires !Ordinary(log[v.projection.generation][n - 1])
    ensures w.projection.sequence < n
  {
    var g, s := v.snapshot.generation, v.snapshot.sequence;
    assert log[g] <= newer[g];
    assert newer[g][n - 1] == log[g][n - 1];
    if w.projection.sequence >= n {
      OrdinaryAt(newer[g], s, w.projection.sequence, n);
      assert false;
    }
  }

  /** Continuity is refused only when something after the projection really was lost. */
  lemma {:induction false} RefusalMeansLoss(y: System)
    requires Inv(y) && y.phase.Following?
    ensures Go(y, ClientNext).phase.NeedsCapture? ==> !Intact(y.stream.log, y.view.value.projection)
  {
    if y.stream.queue != [] && Intact(y.stream.log, y.view.value.projection) {
      IntactFirst(y.stream, y.view.value.projection);
    }
  }

  /**
   * A resnapshot whose capture was followed by nothing but ordinary events succeeds at the first
   * attempt and brings the client level with the connection.
   */
  lemma {:induction false} ResnapshotCatchesUp(y: System)
    requires Inv(y) && y.phase.NeedsDrain? && Intact(y.stream.log, FromSnapshot(y.phase.candidate))
    ensures var z := Go(y, ClientDrain);
      && z.phase.Following?
      && z.view.value.snapshot == y.phase.candidate
      && z.view.value.projection.generation == y.stream.generation
      && z.view.value.projection.sequence == y.stream.sequence
  {
    var p := FromSnapshot(y.phase.candidate);
    FoldReaches(y.stream.log, p);
    assert Delivered(y.stream, Take(0)) == y.stream.queue;
  }
}
