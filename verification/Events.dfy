/** Detached runtime events, and when one may follow a consumer's position. */
module Events {
  import opened Wrappers

  datatype EventKind =
    | ObjectAdded | ObjectRemoved | ObjectChanged | ParameterChanged | MetadataChanged
    | DefaultChanged | ConnectionChanged | Discontinuity | ResnapshotRequired

  datatype ObjectKind =
    | DeviceKind | NodeKind | PortKind | LinkKind | MetadataKind | ParameterKind
    | ProfileKind | RouteKind | DefaultsKind | ConnectionKind | RuntimeKind

  datatype Identity = Number(id: nat) | Text(text: string)

  /** A detached object state, kept opaque. */
  type State = string

  /** The identity a projection files an object under. */
  type ObjectKey = (ObjectKind, Identity)

  type Objects = map<ObjectKey, State>

  /** What an event says, before it is numbered. */
  datatype Content = Content(
    kind: EventKind, objectKind: ObjectKind, objectId: Identity,
    current: Option<State>, previous: Option<State>, requiresResnapshot: bool)

  datatype Event = Event(generation: nat, sequence: nat, content: Content)

  /** The constraints the event constructor enforces. */
  predicate ValidContent(c: Content) {
    && (c.kind == Discontinuity || c.kind == ResnapshotRequired ==> c.requiresResnapshot)
    && (c.kind == ObjectAdded ==> c.current.Some?)
    && (c.kind == ObjectRemoved ==> c.previous.Some?)
  }

  const DISCONTINUITY: Content :=
    Content(Discontinuity, RuntimeKind, Text("runtime"), None, None, true)

  datatype Continuity = Continues | GenerationChanged | SequenceGap | NeedsResnapshot

  /** `require_event_continuity`; every outcome but Continues is a RuntimeContinuityError. */
  function RequireContinuity(e: Event, generation: nat, sequence: nat): (r: Continuity)
    ensures r == Continues
       <==> e.generation == generation && e.sequence == sequence + 1 && !e.content.requiresResnapshot
  {
    if e.generation != generation then GenerationChanged
    else if e.sequence != sequence + 1 then SequenceGap
    else if e.content.requiresResnapshot then NeedsResnapshot
    else Continues
  }

  /** Another generation is noticed before a gap, and a gap before a demand for a snapshot. */
  lemma {:induction false} ContinuityErrorsIff(e: Event, generation: nat, sequence: nat)
    ensures var r := RequireContinuity(e, generation, sequence);
      && (r == GenerationChanged <==> e.generation != generation)
      && (r == SequenceGap <==> e.generation == generation && e.sequence != sequence + 1)
      && (r == NeedsResnapshot
          <==> e.generation == generation && e.sequence == sequence + 1 && e.content.requiresResnapshot)
  {
  }

  /** Lexicographic order on (generation, sequence). */
  predicate Before(g: nat, n: nat, g': nat, n': nat) {
    g < g' || (g == g' && n < n')
  }
}
