/** How creating and removing a managed link end before anything is dispatched. */
module LinkEndings {
  import opened Wrappers
  import opened Outcomes
  import opened RuntimeSnapshots
  import opened Observations
  import opened ConfirmedMutation
  import opened MutationEndings
  import opened ManagedLinks

  /** The request was refused for this reason, and nothing was dispatched. */
  predicate RefusedWith(result: LinkResult, r: Request, code: FailureCode) {
    && result.Finished? && result.execution.dispatched == []
    && MarkOf(result.execution.ending) == Failing(Rejected, Precondition, code)
    && result.execution.ending.outcome.generation == r.expectedGeneration
    && result.execution.ending.outcome.confirmations == []
    && !result.execution.ending.outcome.failure.value.retryable
  }

  predicate StaleFor(s: Snapshot, r: Request) {
    || s.contents.generation != r.expectedGeneration
    || (r.expectedSequence.Some? && s.contents.sequence != r.expectedSequence.value + 1)
  }

  /** All four endpoints are in the snapshot. */
  predicate EndsKnown(c: Contents, e: Ends) {
    HasNode(c, e.outputNode) && HasNode(c, e.inputNode) && HasPort(c, e.outputPort) && HasPort(c, e.inputPort)
  }

  /** Which links bear an identity. */
  predicate Bearing(l: Link, owner: string, desired: string) {
    l.owner == Some(owner) && l.desiredId == Some(desired)
  }

  predicate OnEnds(l: Link, e: Ends) {
    && l.outputNodeId == e.outputNode && l.outputPortId == e.outputPort
    && l.inputNodeId == e.inputNode && l.inputPortId == e.inputPort
  }

  /** Two links bear the identity. */
  predicate BornTwice(links: seq<Link>, owner: string, desired: string) {
    exists i, j :: 0 <= i < j < |links| && Bearing(links[i], owner, desired) && Bearing(links[j], owner, desired)
  }

  /** A link bears the identity on other endpoints, or lies on these without bearing it. */
  predicate BornElsewhere(links: seq<Link>, owner: string, desired: string, e: Ends) {
    exists i :: 0 <= i < |links| && Bearing(links[i], owner, desired) && !OnEnds(links[i], e)
  }

  predicate TakenByOther(links: seq<Link>, owner: string, desired: string, e: Ends) {
    exists i :: 0 <= i < |links| && OnEnds(links[i], e)
      && forall j :: 0 <= j < |links| ==> !Bearing(links[j], owner, desired)
  }

  lemma {:induction false} RefuseMarks(r: Request, code: FailureCode)
    requires code in {FailureCode.TargetNotFound, TargetIdentityChanged, FailureCode.OwnershipConflict}
    ensures RefusedWith(Finished(Refuse(r, code)), r, code)
  {
    hide Matches;
  }

  // ----- links bearing an identity -----

  lemma {:induction false} BearingCount(links: seq<Link>, owner: string, desired: string)
    ensures |LinksBearing(links, owner, desired)| > 1 <==> BornTwice(links, owner, desired)
    ensures LinksBearing(links, owner, desired) == []
       <==> forall j :: 0 <= j < |links| ==> !Bearing(links[j], owner, desired)
  {
    if links != [] {
      var rest := links[1..];
      BearingCount(rest, owner, desired);
      assert forall i :: 0 <= i < |rest| ==> rest[i] == links[i + 1];
      TwiceSplits(links, owner, desired);
      hide BornTwice;
      var first := Bearing(links[0], owner, desired);
      assert |LinksBearing(links, owner, desired)| == (if first then 1 else 0) + |LinksBearing(rest, owner, desired)|;
      hide LinksBearing;
      if forall j :: 0 <= j < |links| ==> !Bearing(links[j], owner, desired) {
        assert forall j :: 0 <= j < |rest| ==> !Bearing(rest[j], owner, desired);
      }
      if !first && forall j :: 0 <= j < |rest| ==> !Bearing(rest[j], owner, desired) {
        assert forall j :: 0 < j < |links| ==> links[j] == rest[j - 1];
      }
    }
  }

  lemma {:induction false} TwiceSplits(links: seq<Link>, owner: string, desired: string)
    requires links != []
    ensures BornTwice(links, owner, desired)
       <==> || BornTwice(links[1..], owner, desired)
            || (Bearing(links[0], owner, desired) && exists j :: 0 <= j < |links[1..]| && Bearing(links[1..][j], owner, desired))
  {
    var rest := links[1..];
    assert forall i :: 0 <= i < |rest| ==> rest[i] == links[i + 1];
    hide Bearing;
    if BornTwice(links, owner, desired) {
      var i, j :| 0 <= i < j < |links| && Bearing(links[i], owner, desired) && Bearing(links[j], owner, desired);
      assert Bearing(rest[j - 1], owner, desired);
      if i > 0 { assert Bearing(rest[i - 1], owner, desired); }
    }
    if BornTwice(rest, owner, desired) {
      var i, j :| 0 <= i < j < |rest| && Bearing(rest[i], owner, desired) && Bearing(rest[j], owner, desired);
      assert Bearing(links[i + 1], owner, desired) && Bearing(links[j + 1], owner, desired);
    }
    if Bearing(links[0], owner, desired) && exists j :: 0 <= j < |rest| && Bearing(rest[j], owner, desired) {
      var j :| 0 <= j < |rest| && Bearing(rest[j], owner, desired);
      assert Bearing(links[j + 1], owner, desired);
    }
  }

  lemma {:induction false} OneBearing(links: seq<Link>, owner: string, desired: string, e: Ends)
    requires |LinksBearing(links, owner, desired)| == 1
    ensures HasEnds(LinksBearing(links, owner, desired)[0], e) <==> !BornElsewhere(links, owner, desired, e)
    ensures !TakenByOther(links, owner, desired, e)
  {
    var one := LinksBearing(links, owner, desired);
    BearingCount(links, owner, desired);
    assert one[0] in one;
    hide LinksBearing;
    if BornElsewhere(links, owner, desired, e) {
      var i :| 0 <= i < |links| && Bearing(links[i], owner, desired) && !OnEnds(links[i], e);
      assert links[i] in links && links[i] in one;
    }
  }

  lemma {:induction false} NoneBearing(links: seq<Link>, owner: string, desired: string, e: Ends)
    requires LinksBearing(links, owner, desired) == []
    ensures !BornTwice(links, owner, desired) && !BornElsewhere(links, owner, desired, e)
    ensures TopologyTaken(links, e) <==> TakenByOther(links, owner, desired, e)
  {
    BearingCount(links, owner, desired);
    hide LinksBearing;
    if TopologyTaken(links, e) {
      var i :| 0 <= i < |links| && HasEnds(links[i], e);
      assert OnEnds(links[i], e);
    }
    if TakenByOther(links, owner, desired, e) {
      var i :| 0 <= i < |links| && OnEnds(links[i], e);
      assert HasEnds(links[i], e);
    }
  }

  // ----- the endings -----

  lemma {:induction false} EndsKnownIff(s: Snapshot, e: Ends)
    requires Mirrors(s.indexes, s.contents)
    ensures EndsFailure(s, e) == Some(FailureCode.TargetNotFound) <==> !EndsKnown(s.contents, e)
    ensures EndsFailure(s, e) == Some(TargetIdentityChanged) <==> EndsKnown(s.contents, e) && !EndsInPlace(s.contents, e)
    ensures EndsFailure(s, e).None? <==> EndsInPlace(s.contents, e)
    ensures EndsInPlace(s.contents, e) ==> EndsKnown(s.contents, e)
  {
    EndsFailureIff(s, e);
    PortPresent(s.contents, e.outputPort, e.outputNode, Output);
    PortPresent(s.contents, e.inputPort, e.inputNode, Input);
    assert HasNode(s.contents, e.outputNode) <==> e.outputNode in s.indexes.nodes;
    assert HasNode(s.contents, e.inputNode) <==> e.inputNode in s.indexes.nodes;
    assert HasPort(s.contents, e.outputPort) <==> e.outputPort in s.indexes.ports;
    assert HasPort(s.contents, e.inputPort) <==> e.inputPort in s.indexes.ports;
    hide Mirrors, HasNode, HasPort, HasPortOn;
  }

  lemma {:induction false} PortPresent(c: Contents, id: nat, node: nat, direction: Direction)
    ensures HasPortOn(c, id, node, direction) ==> HasPort(c, id)
  {
    if HasPortOn(c, id, node, direction) {
      var i :| 0 <= i < |c.ports| && c.ports[i].id == id && c.ports[i].nodeId == node && c.ports[i].direction == direction;
      assert PortId(c.ports[i]) == id;
    }
  }

  /**
   * A create with a current preflight is refused as missing a target exactly when an endpoint is not
   * there, as a changed one exactly when all are but one is on another node or in another direction, and
   * as a conflict exactly when they are in place but the identity is borne twice or on other endpoints,
   * or another link lies on these; in every other case the confirmed mutation runs on that preflight.
   */
  lemma {:induction false} CreateRefusedIff(
      w: Surroundings, owner: string, desired: string, e: Ends, r: Request, n: nat)
    requires w.expired(n)
    ensures w.capture(0).Captured? <==> Create(w, owner, desired, e, r, n).Finished?
    ensures w.capture(0).Captured? && Mirrors(w.capture(0).snapshot.indexes, w.capture(0).snapshot.contents) ==>
      var s, result := w.capture(0).snapshot, Create(w, owner, desired, e, r, n);
      var links := s.contents.links;
      var conflict := || BornTwice(links, owner, desired)
                      || BornElsewhere(links, owner, desired, e)
                      || TakenByOther(links, owner, desired, e);
      && (!StaleFor(s, r) && !EndsKnown(s.contents, e) ==> RefusedWith(result, r, FailureCode.TargetNotFound))
      && (!StaleFor(s, r) && EndsKnown(s.contents, e) && !EndsInPlace(s.contents, e) ==>
           RefusedWith(result, r, TargetIdentityChanged))
      && (!StaleFor(s, r) && EndsInPlace(s.contents, e) && conflict ==>
           RefusedWith(result, r, FailureCode.OwnershipConflict))
      && (StaleFor(s, r) || (EndsInPlace(s.contents, e) && !conflict) ==>
           result == Finished(Execute(Rest(w), r, Some(s), n)))
  {
    if w.capture(0).Captured? && Mirrors(w.capture(0).snapshot.indexes, w.capture(0).snapshot.contents) {
      var s := w.capture(0).snapshot;
      var same := LinksBearing(s.contents.links, owner, desired);
      EndsKnownIff(s, e);
      BearingCount(s.contents.links, owner, desired);
      if |same| == 1 { OneBearing(s.contents.links, owner, desired, e); }
      if same == [] { NoneBearing(s.contents.links, owner, desired, e); }
      RefuseMarks(r, FailureCode.TargetNotFound);
      RefuseMarks(r, TargetIdentityChanged);
      RefuseMarks(r, FailureCode.OwnershipConflict);
      hide Mirrors, EndsFailure, EndsKnown, EndsInPlace, LinksBearing, HasEnds, TopologyTaken, RefusedWith, Refuse, Execute;
      hide BornTwice, BornElsewhere, TakenByOther, Bearing;
    }
  }

  /** A removal is refused exactly when two links bear the identity in a current preflight. */
  lemma {:induction false} RemoveRefusedIff(
      w: Surroundings, owner: string, desired: string, generation: nat, sequence: Option<nat>, n: nat)
    requires w.expired(n)
    ensures w.capture(0).Captured? <==> Remove(w, owner, desired, generation, sequence, n).Finished?
    ensures w.capture(0).Captured? ==>
      var s, result := w.capture(0).snapshot, Remove(w, owner, desired, generation, sequence, n);
      var r := RemoveRequest(owner, desired, generation, sequence, s);
      && r.expectedGeneration == generation && r.expectedSequence == sequence
      && (!StaleFor(s, r) && BornTwice(s.contents.links, owner, desired) ==>
           RefusedWith(result, r, FailureCode.OwnershipConflict))
      && (StaleFor(s, r) || !BornTwice(s.contents.links, owner, desired) ==>
           result == Finished(Execute(Rest(w), r, Some(s), n)))
  {
    if w.capture(0).Captured? {
      var s := w.capture(0).snapshot;
      BearingCount(s.contents.links, owner, desired);
      RefuseMarks(RemoveRequest(owner, desired, generation, sequence, s), FailureCode.OwnershipConflict);
      hide LinksBearing, RefusedWith, Refuse, Execute, BornTwice;
    }
  }
}
