/** Creating and removing managed links: what the fresh preflight must show before a dispatch. */
module ManagedLinks {
  import opened Wrappers
  import opened Events
  import opened Outcomes
  import opened RuntimeSnapshots
  import opened Observations
  import opened ConfirmedMutation
  import Json = Envelopes
  import Ledger

  datatype Ends = Ends(outputNode: nat, outputPort: nat, inputNode: nat, inputPort: nat)

  /** The preflight capture comes first, and these two operations do not catch what it raises. */
  datatype LinkResult = CaptureRaised | Finished(execution: Execution)

  /** The selector of a managed identity; the selection does not read the endpoints. */
  function IdentityTarget(owner: string, desired: string): Target {
    Target(LinkKind, Text(desired), Selector(Some(owner), Some(desired), None, None, None, None, None, None))
  }

  function FieldEquals(owner: string, desired: string, name: string, value: nat): Condition {
    Condition(IdentityTarget(owner, desired), Equals, [Name(name)], NumberOf(value), 0.0)
  }

  function EndsConditions(owner: string, desired: string, e: Ends): seq<Condition> {
    [FieldEquals(owner, desired, "output_node_id", e.outputNode),
     FieldEquals(owner, desired, "output_port_id", e.outputPort),
     FieldEquals(owner, desired, "input_node_id", e.inputNode),
     FieldEquals(owner, desired, "input_port_id", e.inputPort)]
  }

  function AbsentConditions(owner: string, desired: string): seq<Condition> {
    [Condition(IdentityTarget(owner, desired), Operator.Absent, [], Json.JScalar(Json.Null), 0.0)]
  }

  /** The surroundings once the first capture is spent on the preflight. */
  function Rest(w: Surroundings): Surroundings { w.(capture := (i: nat) => w.capture(i + 1)) }

  /** `_preflight_is_stale` */
  predicate Stale(r: Request, s: Snapshot) {
    Generation(s) != r.expectedGeneration || StaleSequenceIn(r, s)
  }

  function Refuse(r: Request, code: FailureCode): Execution {
    Execution(Fail(r, Rejected, Precondition, code, "the preflight forbids this link mutation", false, []), [])
  }

  /** `_validate_link_endpoints` */
  function EndsFailure(s: Snapshot, e: Ends): Option<FailureCode> {
    var nodes, ports := s.indexes.nodes, s.indexes.ports;
    if e.outputNode !in nodes || e.inputNode !in nodes || e.outputPort !in ports || e.inputPort !in ports then
      Some(FailureCode.TargetNotFound)
    else if ports[e.outputPort].nodeId != e.outputNode || ports[e.inputPort].nodeId != e.inputNode
      || ports[e.outputPort].direction != Output || ports[e.inputPort].direction != Input then
      Some(TargetIdentityChanged)
    else None
  }

  predicate HasEnds(l: Link, e: Ends) {
    l.outputNodeId == e.outputNode && l.outputPortId == e.outputPort
    && l.inputNodeId == e.inputNode && l.inputPortId == e.inputPort
  }

  predicate TopologyTaken(links: seq<Link>, e: Ends) {
    exists i :: 0 <= i < |links| && HasEnds(links[i], e)
  }

  function CreateRequest(owner: string, desired: string, e: Ends, generation: nat, sequence: Option<nat>): Request {
    Request(generation, sequence, EndsConditions(owner, desired, e), None)
  }

  /** `create_managed_link` */
  function Create(w: Surroundings, owner: string, desired: string, e: Ends, r: Request, n: nat): LinkResult
    requires w.expired(n)
  {
    match w.capture(0)
    case Unavailable(_) => CaptureRaised
    case Unreadable => CaptureRaised
    case Captured(s) =>
      Finished(
        if Stale(r, s) then Execute(Rest(w), r, Some(s), n)
        else if EndsFailure(s, e).Some? then Refuse(r, EndsFailure(s, e).value)
        else
          var same := LinksBearing(s.contents.links, owner, desired);
          if |same| > 1 then Refuse(r, FailureCode.OwnershipConflict)
          else if |same| == 1 then
            if HasEnds(same[0], e) then Execute(Rest(w), r, Some(s), n)
            else Refuse(r, FailureCode.OwnershipConflict)
          else if TopologyTaken(s.contents.links, e) then Refuse(r, FailureCode.OwnershipConflict)
          else Execute(Rest(w), r, Some(s), n))
  }

  /** The id a removal carries: the one link bearing the identity, or zero. */
  function RemovedId(s: Snapshot, owner: string, desired: string): nat {
    var matches := LinksBearing(s.contents.links, owner, desired);
    if |matches| == 1 then matches[0].id else 0
  }

  /** The request is built from the preflight: its payload is the id found there. */
  function RemoveRequest(owner: string, desired: string, generation: nat, sequence: Option<nat>, s: Snapshot): Request {
    Request(generation, sequence, AbsentConditions(owner, desired), Some(RemovedId(s, owner, desired)))
  }

  /** `remove_managed_link` */
  function Remove(w: Surroundings, owner: string, desired: string, generation: nat, sequence: Option<nat>, n: nat): LinkResult
    requires w.expired(n)
  {
    match w.capture(0)
    case Unavailable(_) => CaptureRaised
    case Unreadable => CaptureRaised
    case Captured(s) =>
      var r := RemoveRequest(owner, desired, generation, sequence, s);
      Finished(
        if Stale(r, s) then Execute(Rest(w), r, Some(s), n)
        else if |LinksBearing(s.contents.links, owner, desired)| > 1 then Refuse(r, FailureCode.OwnershipConflict)
        else Execute(Rest(w), r, Some(s), n))
  }

  // ----- what a snapshot shows of an identity -----

  lemma {:induction false} OutputNodeField(l: Link)
    ensures Json.Lookup(LinkDocument(l).members, "output_node_id") == Some(NumberOf(l.outputNodeId))
  {
    assert "schema_version"[0] != "output_node_id"[0];
    LookupAt(LinkDocument(l).members, 3);
  }

  lemma {:induction false} OutputPortField(l: Link)
    ensures Json.Lookup(LinkDocument(l).members, "output_port_id") == Some(NumberOf(l.outputPortId))
  {
    assert "schema_version"[0] != "output_port_id"[0] && "output_node_id"[7] != "output_port_id"[7];
    LookupAt(LinkDocument(l).members, 4);
  }

  lemma {:induction false} InputNodeField(l: Link)
    ensures Json.Lookup(LinkDocument(l).members, "input_node_id") == Some(NumberOf(l.inputNodeId))
  {
    LookupAt(LinkDocument(l).members, 5);
  }

  lemma {:induction false} InputPortField(l: Link)
    ensures Json.Lookup(LinkDocument(l).members, "input_port_id") == Some(NumberOf(l.inputPortId))
  {
    assert "input_node_id"[6] != "input_port_id"[6];
    LookupAt(LinkDocument(l).members, 6);
  }

  lemma {:induction false} LookupAt(ms: seq<Json.Member>, k: nat)
    requires k < |ms| && forall i :: 0 <= i < k ==> ms[i].name != ms[k].name
    ensures Json.Lookup(ms, ms[k].name) == Some(ms[k].value)
    decreases k
  {
    if k > 0 { LookupAt(ms[1..], k - 1); }
  }

  lemma {:induction false} FieldEqualsIff(l: Link, owner: string, desired: string, name: string, value: nat, actual: nat)
    requires Json.Lookup(LinkDocument(l).members, name) == Some(NumberOf(actual))
    ensures Matches(FieldEquals(owner, desired, name, value), Shown(LinkDocument(l))) <==> actual == value
  {
    hide LinkDocument;
    var c := FieldEquals(owner, desired, name, value);
    assert c.path[1..] == [];
    assert LinkDocument(l).JObject? by { DocumentIsObject(l); }
    assert Resolve(LinkDocument(l), c.path) == Resolve(NumberOf(actual), c.path[1..]);
  }

  lemma DocumentIsObject(l: Link)
    ensures LinkDocument(l).JObject?
  {
  }

  /** A link satisfies the four conditions exactly when it has the endpoints. */
  lemma {:induction false} EndsIff(l: Link, owner: string, desired: string, e: Ends)
    ensures (forall i :: 0 <= i < 4 ==> Matches(EndsConditions(owner, desired, e)[i], Shown(LinkDocument(l))))
       <==> HasEnds(l, e)
  {
    OutputNodeField(l);
    OutputPortField(l);
    InputNodeField(l);
    InputPortField(l);
    hide Matches, LinkDocument, Json.Lookup, FieldEquals, NumberOf;
    FieldEqualsIff(l, owner, desired, "output_node_id", e.outputNode, l.outputNodeId);
    FieldEqualsIff(l, owner, desired, "output_port_id", e.outputPort, l.outputPortId);
    FieldEqualsIff(l, owner, desired, "input_node_id", e.inputNode, l.inputNodeId);
    FieldEqualsIff(l, owner, desired, "input_port_id", e.inputPort, l.inputPortId);
    var cs := EndsConditions(owner, desired, e);
    assert cs[0] == FieldEquals(owner, desired, "output_node_id", e.outputNode);
    assert cs[1] == FieldEquals(owner, desired, "output_port_id", e.outputPort);
    assert cs[2] == FieldEquals(owner, desired, "input_node_id", e.inputNode);
    assert cs[3] == FieldEquals(owner, desired, "input_port_id", e.inputPort);
  }

  /** What the identity's target observes: the one link bearing it, or nothing. */
  lemma {:induction false} IdentityObserved(s: Snapshot, owner: string, desired: string, ctx: Context)
    ensures var links := LinksBearing(s.contents.links, owner, desired);
      Observation(s, IdentityTarget(owner, desired), ctx)
        == if |links| == 1 then Shown(LinkDocument(links[0])) else Nothing
  {
    hide LinkDocument, LinksBearing;
  }

  lemma {:induction false} NothingObserved(owner: string, desired: string, name: string, value: nat)
    ensures !Matches(FieldEquals(owner, desired, name, value), Nothing)
  {
  }

  /** The create request is already satisfied exactly when one link bears the identity and has the endpoints. */
  lemma {:induction false} CreateSatisfiedIff(w: Surroundings, s: Snapshot, owner: string, desired: string, e: Ends)
    ensures var links := LinksBearing(s.contents.links, owner, desired);
      Satisfied(w, s, EndsConditions(owner, desired, e)) <==> |links| == 1 && HasEnds(links[0], e)
  {
    var links := LinksBearing(s.contents.links, owner, desired);
    var cs := EndsConditions(owner, desired, e);
    IdentityObserved(s, owner, desired, w.context);
    assert forall i :: 0 <= i < 4 ==> cs[i].target == IdentityTarget(owner, desired);
    if |links| == 1 {
      EndsIff(links[0], owner, desired, e);
    } else {
      NothingObserved(owner, desired, "output_node_id", e.outputNode);
    }
    hide Matches, LinkDocument, Observation, LinksBearing, IdentityTarget;
    assert |cs| == 4 && cs[0] == FieldEquals(owner, desired, "output_node_id", e.outputNode);
  }

  /** The removal is already satisfied exactly when not one single link bears the identity. */
  lemma {:induction false} RemoveSatisfiedIff(w: Surroundings, s: Snapshot, owner: string, desired: string)
    ensures Satisfied(w, s, AbsentConditions(owner, desired)) <==> |LinksBearing(s.contents.links, owner, desired)| != 1
  {
    var links := LinksBearing(s.contents.links, owner, desired);
    var cs := AbsentConditions(owner, desired);
    IdentityObserved(s, owner, desired, w.context);
    if |links| == 1 { DocumentIsObject(links[0]); }
    hide LinkDocument, Observation, LinksBearing, IdentityTarget;
    assert |cs| == 1 && cs[0].target == IdentityTarget(owner, desired);
  }

  /** Looking for links never raises. */
  lemma {:induction false} LinksNotRefused(w: Surroundings, s: Snapshot, owner: string, desired: string, conditions: seq<Condition>)
    requires forall i :: 0 <= i < |conditions| ==> conditions[i].target == IdentityTarget(owner, desired)
    ensures !Refused(w, s, conditions)
  {
    IdentityObserved(s, owner, desired, w.context);
    hide Observation, LinkDocument, LinksBearing, IdentityTarget;
  }

  // ----- when they dispatch -----

  predicate InTime(w: Surroundings) { !w.expired(0) && !w.expired(1) }

  /** The four endpoints are in the snapshot with matching nodes and directions. */
  predicate EndsInPlace(c: Contents, e: Ends) {
    && HasNode(c, e.outputNode) && HasNode(c, e.inputNode)
    && HasPortOn(c, e.outputPort, e.outputNode, Output) && HasPortOn(c, e.inputPort, e.inputNode, Input)
  }

  lemma {:induction false} EndsFailureIff(s: Snapshot, e: Ends)
    requires Mirrors(s.indexes, s.contents)
    ensures EndsFailure(s, e).None? <==> EndsInPlace(s.contents, e)
  {
    PortOnIff(s.indexes, s.contents, e.outputPort, e.outputNode, Output);
    PortOnIff(s.indexes, s.contents, e.inputPort, e.inputNode, Input);
    hide Contains, HasPortOn;
  }

  /** The confirmed mutation of a create dispatches exactly when it is in time, current and not already satisfied. */
  lemma {:induction false} CreateProceedsIff(
      w: Surroundings, s: Snapshot, owner: string, desired: string, e: Ends, r: Request, n: nat)
    requires w.expired(n) && r.conditions == EndsConditions(owner, desired, e)
    ensures var links, dispatched := LinksBearing(s.contents.links, owner, desired), Execute(Rest(w), r, Some(s), n).dispatched;
      && (dispatched != [] <==> InTime(w) && !Stale(r, s) && !(|links| == 1 && HasEnds(links[0], e)))
      && |dispatched| <= 1
  {
    DispatchedIff(Rest(w), r, Some(s), n);
    CreateSatisfiedIff(Rest(w), s, owner, desired, e);
    assert forall i :: 0 <= i < 4 ==> EndsConditions(owner, desired, e)[i].target == IdentityTarget(owner, desired);
    LinksNotRefused(Rest(w), s, owner, desired, r.conditions);
    hide Execute, Satisfied, Refused, LinksBearing, EndsConditions, HasEnds;
  }

  /**
   * A create reaches dispatch exactly when the fresh preflight shows the four endpoints in place, no
   * link bearing the identity and no link with the endpoints, and the deadline has not passed.
   */
  lemma {:induction false} CreateDispatchesIff(
      w: Surroundings, owner: string, desired: string, e: Ends, generation: nat, sequence: Option<nat>, n: nat)
    requires w.expired(n) && w.capture(0).Captured?
    requires Mirrors(w.capture(0).snapshot.indexes, w.capture(0).snapshot.contents)
    ensures var r := CreateRequest(owner, desired, e, generation, sequence);
      var s := w.capture(0).snapshot;
      var result := Create(w, owner, desired, e, r, n);
      && result.Finished?
      && (result.execution.dispatched != [] <==>
           && InTime(w) && !Stale(r, s)
           && EndsInPlace(s.contents, e)
           && LinksBearing(s.contents.links, owner, desired) == []
           && !TopologyTaken(s.contents.links, e))
      && |result.execution.dispatched| <= 1
  {
    var r := CreateRequest(owner, desired, e, generation, sequence);
    var s := w.capture(0).snapshot;
    CreateProceedsIff(w, s, owner, desired, e, r, n);
    EndsFailureIff(s, e);
    hide Execute, LinksBearing, EndsConditions, Mirrors, EndsInPlace, TopologyTaken, EndsFailure, HasEnds, Fail;
  }

  /**
   * A removal reaches dispatch exactly when the fresh preflight shows one link bearing the identity
   * and the deadline has not passed, and the one request it then dispatches carries that link's id.
   */
  lemma {:induction false} RemoveDispatchesIff(
      w: Surroundings, owner: string, desired: string, generation: nat, sequence: Option<nat>, n: nat)
    requires w.expired(n) && w.capture(0).Captured?
    ensures var s := w.capture(0).snapshot;
      var r := RemoveRequest(owner, desired, generation, sequence, s);
      var links := LinksBearing(s.contents.links, owner, desired);
      var result := Remove(w, owner, desired, generation, sequence, n);
      && result.Finished?
      && result.execution.dispatched
         == (if InTime(w) && !Stale(r, s) && |links| == 1 then [Guarded(r, s)] else [])
      && (result.execution.dispatched != [] ==>
           && result.execution.dispatched[0].linkId == Some(links[0].id)
           && links[0] in s.contents.links && Bears(links[0], owner, desired))
  {
    var s := w.capture(0).snapshot;
    var r := RemoveRequest(owner, desired, generation, sequence, s);
    var links := LinksBearing(s.contents.links, owner, desired);
    if |links| == 1 { assert links[0] in links; }
    DispatchedIff(Rest(w), r, Some(s), n);
    RemoveSatisfiedIff(Rest(w), s, owner, desired);
    LinksNotRefused(Rest(w), s, owner, desired, r.conditions);
    hide Execute, Satisfied, Refused, LinksBearing, AbsentConditions;
  }

  /**
   * What the native side does with a dispatched removal: after any run of the ledger, if it requests a
   * destruction at all it is of the live link with the id of the preflight's one link bearing the
   * identity, on the endpoints of the latest create executed for that identity.
   */
  lemma {:induction false} RemovalReachesLink(
      w: Surroundings, owner: string, desired: string, generation: nat, sequence: Option<nat>, n: nat,
      steps: seq<Ledger.Step>, live: seq<Ledger.LiveLink>)
    requires w.expired(n) && w.capture(0).Captured?
    requires Remove(w, owner, desired, generation, sequence, n).Finished?
    requires Remove(w, owner, desired, generation, sequence, n).execution.dispatched != []
    requires Ledger.EnabledAll(Ledger.EMPTY, steps)
    requires Ledger.Apart(Ledger.Run(Ledger.EMPTY, steps).creates, owner, desired)
    ensures var links := LinksBearing(w.capture(0).snapshot.contents.links, owner, desired);
      var request := Remove(w, owner, desired, generation, sequence, n).execution.dispatched[0];
      var b := Ledger.Run(Ledger.EMPTY, steps);
      && |links| == 1 && request.linkId.Some?
      && var destroyed := Ledger.RemoveLink(b.entries, owner, desired, request.linkId.value, live).1;
         destroyed.Some? ==>
           && destroyed.value in live && destroyed.value.id == links[0].id
           && var latest := Ledger.LatestFor(b.creates, owner, desired);
              latest.Some? && destroyed.value.endpoints == latest.value.endpoints
  {
    RemoveDispatchesIff(w, owner, desired, generation, sequence, n);
    var request := Remove(w, owner, desired, generation, sequence, n).execution.dispatched[0];
    Ledger.RemoveMatchesRecord(steps, owner, desired, request.linkId.value, live);
    hide Remove, LinksBearing, Ledger.RemoveLink, Ledger.Run, Ledger.Apart, Ledger.LatestFor;
  }
}
