/** The example client's objects: a projection updated in place and the loop that replaces it. */
module RuntimeClients {
  import opened Wrappers
  import opened Events
  import opened Projections

  class RuntimeProjection {
    var generation: nat
    var sequence: nat
    var objects: Objects

    ghost function Value(): Projection
      reads this
    {
      Projection(generation, sequence, objects)
    }

    constructor (snapshot: Snapshot)
      ensures Value() == FromSnapshot(snapshot)
    {
      generation, sequence, objects := snapshot.generation, snapshot.sequence, snapshot.objects;
    }

    /** Applies the successor, or changes nothing and says which continuity error it is. */
    method Apply(event: Event) returns (r: Continuity)
      modifies this
      ensures r == RequireContinuity(event, old(generation), old(sequence))
      ensures Advance(old(Value()), event) == if r == Continues then Some(Value()) else None
      ensures r != Continues ==> Value() == old(Value())
      ensures var key, c := (event.content.objectKind, event.content.objectId), event.content;
        r == Continues ==>
          && generation == old(generation) && sequence == old(sequence) + 1
          && (forall k :: k != key ==> (k in objects <==> k in old(objects)))
          && (forall k :: k != key && k in objects ==> objects[k] == old(objects)[k])
          && (c.kind == ObjectRemoved ==> key !in objects)
          && (c.kind != ObjectRemoved && c.current.Some? ==> key in objects && objects[key] == c.current.value)
          && (c.kind != ObjectRemoved && c.current.None? ==> objects == old(objects))
    {
      r := RequireContinuity(event, generation, sequence);
      if r != Continues { return; }
      var key := (event.content.objectKind, event.content.objectId);
      if event.content.kind == ObjectRemoved {
        objects := objects - {key};
      } else if event.content.current.Some? {
        objects := objects[key := event.content.current.value];
      }
      sequence := event.sequence;
    }

    /** Folds in drained events up to the first that breaks continuity. */
    method Fold(events: seq<Event>) returns (ok: bool)
      modifies this
      ensures FoldDrained(old(Value()), events) == if ok then Some(Value()) else None
    {
      var i := 0;
      while i < |events|
        invariant 0 <= i <= |events|
        invariant FoldDrained(old(Value()), events) == FoldDrained(Value(), events[i..])
      {
        assert events[i..][1..] == events[i + 1..];
        var event := events[i];
        if !(event.generation == generation && event.sequence <= sequence) {
          var r := Apply(event);
          if r != Continues { return false; }
        }
        i := i + 1;
      }
      return true;
    }
  }

  /** One turn of the resnapshot loop: the snapshot, unless capturing raised, and what the drain gave. */
  datatype Attempt = Attempt(snapshot: Option<Snapshot>, drained: seq<Event>)

  /** The turn at which the loop leaves: a capture or a drain that raises, or a fold that succeeds. */
  predicate Leaves(a: Attempt) {
    a.snapshot.None? || !AllValid(a.drained) || FoldDrained(FromSnapshot(a.snapshot.value), a.drained).Some?
  }

  /** The loop leaves at turn `i` with a new view. */
  predicate Settles(attempts: seq<Attempt>, i: nat, view: Option<View>) {
    && i < |attempts|
    && (forall j :: 0 <= j < i ==> !Leaves(attempts[j]))
    && var a := attempts[i];
       && a.snapshot.Some? && AllValid(a.drained)
       && var p := FoldDrained(FromSnapshot(a.snapshot.value), a.drained);
          p.Some? && view == Some(View(a.snapshot.value, p.value))
  }

  class RuntimeClient {
    var view: Option<View>

    /**
     * Replaces the view at the first attempt that succeeds; continuity errors only lead to another
     * attempt, and any other error leaves the view as it was.
     */
    method Resnapshot(attempts: seq<Attempt>) returns (done: bool)
      modifies this
      ensures done ==> exists i :: Settles(attempts, i, view)
      ensures !done ==> view == old(view) && forall i, v :: !Settles(attempts, i, v)
    {
      for i := 0 to |attempts|
        invariant view == old(view)
        invariant forall j :: 0 <= j < i ==> !Leaves(attempts[j])
      {
        var a := attempts[i];
        if a.snapshot.None? { return false; }
        var projection := new RuntimeProjection(a.snapshot.value);
        if !AllValid(a.drained) { return false; }
        var folded := projection.Fold(a.drained);
        if folded {
          view := Some(View(a.snapshot.value,
                            Projection(projection.generation, projection.sequence, projection.objects)));
          assert Settles(attempts, i, view);
          return true;
        }
      }
      return false;
    }
  }
}
