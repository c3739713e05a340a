/**
 * The ledger of managed links: which endpoints each (owner, desired id) was last created with.
 * The hash table's iteration order is a parameter wherever the code iterates.
 */
module Ledger {
  import opened Wrappers
  import opened Events
  import opened Dispatch

  datatype Endpoints = Endpoints(outputNode: nat, outputPort: nat, inputNode: nat, inputPort: nat)

  /** An entry, or a call for one; `proxy` is the link the factory makes for it. */
  datatype Spec = Spec(owner: string, desired: string, endpoints: Endpoints, proxy: nat)

  /** A link the object manager knows, by its proxy; `info` says whether its endpoints are bound yet. */
  datatype LiveLink = LiveLink(id: nat, endpoints: Endpoints, info: bool, proxy: nat)
  datatype Registry = Registry(nodes: set<nat>, ports: set<nat>, links: seq<LiveLink>)

  type Entries = map<string, Spec>

  const SEPARATOR: char := '\U{1F}'

  /** `managed_link_key` */
  function Key(owner: string, desired: string): string { owner + [SEPARATOR] + desired }

  function KeyOf(spec: Spec): string { Key(spec.owner, spec.desired) }

  predicate Plain(name: string) { SEPARATOR !in name }

  /** The keys of the table in some order. */
  ghost predicate Enumerates(order: seq<string>, entries: Entries) {
    && (forall k :: k in order <==> k in entries)
    && (forall i, j :: 0 <= i < j < |order| ==> order[i] != order[j])
  }

  predicate Known(order: seq<string>, entries: Entries) { forall k :: k in order ==> k in entries }

  /** The first key whose entry has the given endpoints. */
  function KeyWith(entries: Entries, order: seq<string>, e: Endpoints): (r: Option<string>)
    requires Known(order, entries)
    ensures r.Some? ==> r.value in order && entries[r.value].endpoints == e
    ensures r.None? ==> forall k :: k in order ==> entries[k].endpoints != e
  {
    if order == [] then None
    else if entries[order[0]].endpoints == e then Some(order[0])
    else
      assert order == [order[0]] + order[1..];
      KeyWith(entries, order[1..], e)
  }

  /** `managed_link_lookup_endpoints` */
  function SpecWith(entries: Entries, order: seq<string>, e: Endpoints): Option<Spec>
    requires Known(order, entries)
  {
    match KeyWith(entries, order, e)
    case None => None
    case Some(k) => Some(entries[k])
  }

  /** `managed_link_forget_endpoints`: only the first match goes. */
  function Forget(entries: Entries, order: seq<string>, e: Endpoints): Entries
    requires Known(order, entries)
  {
    match KeyWith(entries, order, e)
    case None => entries
    case Some(k) => entries - {k}
  }

  // ----- create -----

  predicate SameTopology(call: Spec, link: LiveLink) { link.endpoints == call.endpoints }

  /** A live link's identity is that of the ledger entry with its endpoints. */
  predicate SameIdentity(entries: Entries, order: seq<string>, call: Spec, link: LiveLink)
    requires Known(order, entries)
  {
    var spec := SpecWith(entries, order, link.endpoints);
    spec.Some? && spec.value.owner == call.owner && spec.value.desired == call.desired
  }

  datatype Preflight = Conflict | Exact | Clear

  /** `managed_link_preflight` over the links in iteration order. */
  function CheckLinks(entries: Entries, order: seq<string>, call: Spec, links: seq<LiveLink>, found: bool): Preflight
    requires Known(order, entries)
    decreases |links|
  {
    if links == [] then (if found then Exact else Clear)
    else
      var link := links[0];
      if !link.info then CheckLinks(entries, order, call, links[1..], found)
      else
        var topology, identity := SameTopology(call, link), SameIdentity(entries, order, call, link);
        if topology && identity then
          if found then Conflict else CheckLinks(entries, order, call, links[1..], true)
        else if topology || identity then Conflict
        else CheckLinks(entries, order, call, links[1..], found)
  }

  predicate EndpointsExist(registry: Registry, e: Endpoints) {
    e.outputNode in registry.nodes && e.outputPort in registry.ports
    && e.inputNode in registry.nodes && e.inputPort in registry.ports
  }

  /** `execute_create_link`: the answer, and whether a link was made and stored. */
  function CreateLink(entries: Entries, order: seq<string>, call: Spec, registry: Registry, made: bool)
    : (r: (Outcome, bool))
    requires Known(order, entries)
  {
    if !EndpointsExist(registry, call.endpoints) then (TargetNotFound, false)
    else match CheckLinks(entries, order, call, registry.links, false)
      case Conflict => (OwnershipConflict, false)
      case Exact => (Ready, false)
      case Clear => if made then (Ready, true) else (NativeRejected, false)
  }

  // ----- remove -----

  function FindLink(links: seq<LiveLink>, id: nat): (r: Option<LiveLink>)
    ensures r.Some? ==> r.value in links && r.value.id == id
    ensures r.None? ==> forall i :: 0 <= i < |links| ==> links[i].id != id
  {
    if links == [] then None
    else if links[0].id == id then Some(links[0])
    else FindLink(links[1..], id)
  }

  /** `execute_remove_link`: the answer, and the link whose destruction is requested. */
  function RemoveLink(entries: Entries, owner: string, desired: string, id: nat, links: seq<LiveLink>)
    : (r: (Outcome, Option<LiveLink>))
  {
    match FindLink(links, id)
    case None => (Ready, None)
    case Some(link) =>
      if Key(owner, desired) in entries && entries[Key(owner, desired)].endpoints == link.endpoints
      then (Ready, Some(link))
      else (OwnershipConflict, None)
  }

  // ----- runs -----

  /** The table, and the creates executed since the last disconnect. */
  datatype Book = Book(entries: Entries, creates: seq<Spec>)

  datatype Step =
    | Create(call: Spec, registry: Registry, order: seq<string>, made: bool)
    | Remove(owner: string, desired: string, id: nat, links: seq<LiveLink>)
    | LinkGone(endpoints: Endpoints, info: bool, order: seq<string>)
    | Disconnect

  ghost predicate Enabled(b: Book, step: Step) {
    match step
    case Create(_, _, order, _) => Enumerates(order, b.entries)
    case LinkGone(_, _, order) => Enumerates(order, b.entries)
    case _ => true
  }

  function Apply(b: Book, step: Step): Book
    requires Enabled(b, step)
  {
    match step
    case Create(call, registry, order, made) =>
      if CreateLink(b.entries, order, call, registry, made).1 then
        Book(b.entries[KeyOf(call) := call], b.creates + [call])
      else b
    case Remove(_, _, _, _) => b
    case LinkGone(e, info, order) => if info then b.(entries := Forget(b.entries, order, e)) else b
    case Disconnect => Book(map[], [])
  }

  ghost predicate EnabledAll(b: Book, steps: seq<Step>)
    decreases |steps|
  {
    steps == [] || (Enabled(b, steps[0]) && EnabledAll(Apply(b, steps[0]), steps[1..]))
  }

  function Run(b: Book, steps: seq<Step>): Book
    requires EnabledAll(b, steps)
    decreases |steps|
  {
    if steps == [] then b else Run(Apply(b, steps[0]), steps[1..])
  }

  const EMPTY: Book := Book(map[], [])

  // ----- what the entries record -----

  /** The latest create under a key. */
  function LatestUnder(creates: seq<Spec>, key: string): Option<Spec> {
    if creates == [] then None
    else
      var last := creates[|creates| - 1];
      if KeyOf(last) == key then Some(last) else LatestUnder(creates[..|creates| - 1], key)
  }

  /** Every entry is the latest create executed under its key since the last disconnect. */
  ghost predicate Truthful(b: Book) {
    forall k :: k in b.entries ==> LatestUnder(b.creates, k) == Some(b.entries[k])
  }

  lemma {:induction false} TruthfulStep(b: Book, step: Step)
    requires Enabled(b, step) && Truthful(b)
    ensures Truthful(Apply(b, step))
  {
    var r := Apply(b, step);
    forall k | k in r.entries
      ensures LatestUnder(r.creates, k) == Some(r.entries[k])
    {
      if r.creates != b.creates && !step.Disconnect? {
        assert r.creates[..|r.creates| - 1] == b.creates;
      }
    }
  }

  lemma {:induction false} TruthfulRun(b: Book, steps: seq<Step>)
    requires Truthful(b) && EnabledAll(b, steps)
    ensures Truthful(Run(b, steps))
    decreases |steps|
  {
    if steps != [] {
      TruthfulStep(b, steps[0]);
      TruthfulRun(Apply(b, steps[0]), steps[1..]);
    }
  }

  /** The latest create for an identity. */
  function LatestFor(creates: seq<Spec>, owner: string, desired: string): Option<Spec> {
    if creates == [] then None
    else
      var last := creates[|creates| - 1];
      if last.owner == owner && last.desired == desired then Some(last)
      else LatestFor(creates[..|creates| - 1], owner, desired)
  }

  predicate PlainNames(creates: seq<Spec>) {
    forall i :: 0 <= i < |creates| ==> Plain(creates[i].owner)
  }

  // ----- keys -----

  /** One identity runs on where the other has its separator. */
  predicate RunsOn(o: string, d: string, o': string, d': string) {
    |o| < |o'| && o <= o' && o'[|o|] == SEPARATOR && d == o'[|o| + 1..] + [SEPARATOR] + d'
  }

  /** Two identities share a key exactly when they are equal or one owner runs into the other's id. */
  lemma {:induction false} KeyCollisionIff(o: string, d: string, o': string, d': string)
    ensures Key(o, d) == Key(o', d') <==>
      (o == o' && d == d') || RunsOn(o, d, o', d') || RunsOn(o', d', o, d)
  {
    if |o| < |o'| { RunsOnIff(o, d, o', d'); }
    else if |o'| < |o| { RunsOnIff(o', d', o, d); }
    else if Key(o, d) == Key(o', d') {
      var k := Key(o, d);
      assert o == k[..|o|] && o' == k[..|o'|];
      assert d == k[|o| + 1..] && d' == k[|o'| + 1..];
    }
  }

  lemma {:induction false} RunsOnIff(o: string, d: string, o': string, d': string)
    requires |o| < |o'|
    ensures Key(o, d) == Key(o', d') <==> RunsOn(o, d, o', d')
  {
    var n := |o|;
    if Key(o, d) == Key(o', d') {
      var k := Key(o, d);
      assert k[..n] == o && k[..n] == o'[..n];
      assert k[n] == SEPARATOR && k[n] == o'[n];
      assert d == k[n + 1..] == o'[n + 1..] + [SEPARATOR] + d';
    }
    if RunsOn(o, d, o', d') {
      assert o' == o + [SEPARATOR] + o'[n + 1..];
      assert Key(o', d') == o + [SEPARATOR] + o'[n + 1..] + [SEPARATOR] + d';
    }
  }

  lemma {:induction false} RunsOnSeparator(o: string, d: string, o': string, d': string)
    requires RunsOn(o, d, o', d')
    ensures !Plain(o')
  {
    assert o'[|o|] in o';
  }

  /** No create has another identity that shares the key of this one. */
  predicate Apart(creates: seq<Spec>, owner: string, desired: string) {
    forall i :: 0 <= i < |creates| ==>
      && !RunsOn(creates[i].owner, creates[i].desired, owner, desired)
      && !RunsOn(owner, desired, creates[i].owner, creates[i].desired)
  }

  /** Owners free of the separator keep every identity apart. */
  lemma {:induction false} PlainApart(creates: seq<Spec>, owner: string, desired: string)
    requires PlainNames(creates) && Plain(owner)
    ensures Apart(creates, owner, desired)
  {
    forall i | 0 <= i < |creates|
      ensures !RunsOn(creates[i].owner, creates[i].desired, owner, desired)
      ensures !RunsOn(owner, desired, creates[i].owner, creates[i].desired)
    {
      var s := creates[i];
      if RunsOn(s.owner, s.desired, owner, desired) { RunsOnSeparator(s.owner, s.desired, owner, desired); assert false; }
      if RunsOn(owner, desired, s.owner, s.desired) { RunsOnSeparator(owner, desired, s.owner, s.desired); assert false; }
    }
  }

  lemma {:induction false} LatestAgrees(creates: seq<Spec>, owner: string, desired: string)
    requires Apart(creates, owner, desired)
    ensures LatestUnder(creates, Key(owner, desired)) == LatestFor(creates, owner, desired)
  {
    if creates != [] {
      var front, last := creates[..|creates| - 1], creates[|creates| - 1];
      KeyCollisionIff(last.owner, last.desired, owner, desired);
      hide Key, RunsOn;
      assert forall i :: 0 <= i < |front| ==> front[i] == creates[i];
      LatestAgrees(front, owner, desired);
    }
  }

  /**
   * In every run, what the ledger says of an identity that no create of the run runs into is the
   * latest create executed for that very identity since the last disconnect.
   */
  lemma {:induction false} EntriesRecordCreates(steps: seq<Step>, owner: string, desired: string)
    requires EnabledAll(EMPTY, steps)
    requires Apart(Run(EMPTY, steps).creates, owner, desired)
    requires Key(owner, desired) in Run(EMPTY, steps).entries
    ensures var b := Run(EMPTY, steps);
      LatestFor(b.creates, owner, desired) == Some(b.entries[Key(owner, desired)])
  {
    TruthfulRun(EMPTY, steps);
    LatestAgrees(Run(EMPTY, steps).creates, owner, desired);
  }

  // ----- what create and remove decide -----

  predicate Matches(entries: Entries, order: seq<string>, call: Spec, link: LiveLink)
    requires Known(order, entries)
  {
    link.info && SameTopology(call, link) && SameIdentity(entries, order, call, link)
  }

  predicate Partial(entries: Entries, order: seq<string>, call: Spec, link: LiveLink)
    requires Known(order, entries)
  {
    link.info && SameTopology(call, link) != SameIdentity(entries, order, call, link)
  }

  /** How many links are exactly the requested one. */
  function ExactCount(entries: Entries, order: seq<string>, call: Spec, links: seq<LiveLink>): nat
    requires Known(order, entries)
  {
    if links == [] then 0
    else (if Matches(entries, order, call, links[0]) then 1 else 0)
         + ExactCount(entries, order, call, links[1..])
  }

  predicate AnyPartial(entries: Entries, order: seq<string>, call: Spec, links: seq<LiveLink>)
    requires Known(order, entries)
  {
    exists i :: 0 <= i < |links| && Partial(entries, order, call, links[i])
  }

  /**
   * The preflight is a conflict exactly when some bound link has the topology without the identity
   * or the identity without the topology, or when two links have both.
   */
  lemma {:induction false} CheckLinksIff(entries: Entries, order: seq<string>, call: Spec, links: seq<LiveLink>, found: bool)
    requires Known(order, entries)
    ensures var r := CheckLinks(entries, order, call, links, found);
      var n := ExactCount(entries, order, call, links) + (if found then 1 else 0);
      && (r == Conflict <==> AnyPartial(entries, order, call, links) || n >= 2)
      && (r == Exact <==> !AnyPartial(entries, order, call, links) && n == 1)
      && (r == Clear <==> !AnyPartial(entries, order, call, links) && n == 0)
    decreases |links|
  {
    if links != [] {
      var link, rest := links[0], links[1..];
      PartialSplits(entries, order, call, links);
      CheckLinksIff(entries, order, call, rest, found);
      if link.info && Matches(entries, order, call, link) && !found {
        CheckLinksIff(entries, order, call, rest, true);
      }
    }
  }

  lemma {:induction false} PartialSplits(entries: Entries, order: seq<string>, call: Spec, links: seq<LiveLink>)
    requires Known(order, entries) && links != []
    ensures AnyPartial(entries, order, call, links)
       <==> Partial(entries, order, call, links[0]) || AnyPartial(entries, order, call, links[1..])
  {
    var rest := links[1..];
    assert forall i :: 0 <= i < |rest| ==> rest[i] == links[i + 1];
    if AnyPartial(entries, order, call, links) && !Partial(entries, order, call, links[0]) {
      var i :| 0 <= i < |links| && Partial(entries, order, call, links[i]);
      assert Partial(entries, order, call, rest[i - 1]);
    }
  }

  lemma {:induction false} NoExact(entries: Entries, order: seq<string>, call: Spec, links: seq<LiveLink>)
    requires Known(order, entries)
    ensures ExactCount(entries, order, call, links) == 0
       <==> forall i :: 0 <= i < |links| ==> !Matches(entries, order, call, links[i])
  {
    if links != [] {
      NoExact(entries, order, call, links[1..]);
      assert forall i :: 0 <= i < |links| - 1 ==> links[1..][i] == links[i + 1];
      if forall i :: 0 <= i < |links| ==> !Matches(entries, order, call, links[i]) {
        assert forall i :: 0 <= i < |links[1..]| ==> !Matches(entries, order, call, links[1..][i]);
      }
      if forall i :: 0 <= i < |links[1..]| ==> !Matches(entries, order, call, links[1..][i]) {
        assert forall i :: 1 <= i < |links| ==> links[i] == links[1..][i - 1];
      }
    }
  }

  /**
   * An entry is stored exactly when the four endpoints exist, no bound link has the topology or
   * the identity, and the factory makes the link.
   */
  lemma {:induction false} StoredIff(entries: Entries, order: seq<string>, call: Spec, registry: Registry, made: bool)
    requires Known(order, entries)
    ensures CreateLink(entries, order, call, registry, made).1 <==>
      && made
      && EndpointsExist(registry, call.endpoints)
      && (forall i :: 0 <= i < |registry.links| && registry.links[i].info ==>
           !SameTopology(call, registry.links[i]) && !SameIdentity(entries, order, call, registry.links[i]))
  {
    var links := registry.links;
    CheckLinksIff(entries, order, call, links, false);
    NoExact(entries, order, call, links);
    hide CheckLinks, ExactCount, SameTopology, SameIdentity;
    if forall i :: 0 <= i < |links| && links[i].info ==>
         !SameTopology(call, links[i]) && !SameIdentity(entries, order, call, links[i]) {
      assert forall i :: 0 <= i < |links| ==> !Matches(entries, order, call, links[i]);
    } else {
      var i :| 0 <= i < |links| && links[i].info
        && (SameTopology(call, links[i]) || SameIdentity(entries, order, call, links[i]));
      assert Matches(entries, order, call, links[i]) || Partial(entries, order, call, links[i]);
    }
  }

  // ----- the answers -----

  /** The link lies on the four endpoints of the call. */
  predicate OnTopology(call: Spec, link: LiveLink) {
    && link.endpoints.outputNode == call.endpoints.outputNode && link.endpoints.outputPort == call.endpoints.outputPort
    && link.endpoints.inputNode == call.endpoints.inputNode && link.endpoints.inputPort == call.endpoints.inputPort
  }

  /** The first entry on the link's endpoints, in the table's order, is at place `j`. */
  predicate FirstOn(entries: Entries, order: seq<string>, e: Endpoints, j: nat)
    requires Known(order, entries)
  {
    && j < |order| && entries[order[j]].endpoints == e
    && forall k :: 0 <= k < j ==> entries[order[k]].endpoints != e
  }

  /** That first entry names the identity of the call. */
  ghost predicate Claimed(entries: Entries, order: seq<string>, call: Spec, link: LiveLink)
    requires Known(order, entries)
  {
    exists j: nat ::
      FirstOn(entries, order, link.endpoints, j)
      && entries[order[j]].owner == call.owner && entries[order[j]].desired == call.desired
  }

  ghost predicate BoundExactly(entries: Entries, order: seq<string>, call: Spec, link: LiveLink)
    requires Known(order, entries)
  {
    link.info && OnTopology(call, link) && Claimed(entries, order, call, link)
  }

  ghost predicate BoundPartly(entries: Entries, order: seq<string>, call: Spec, link: LiveLink)
    requires Known(order, entries)
  {
    link.info && OnTopology(call, link) != Claimed(entries, order, call, link)
  }

  lemma {:induction false} KeyAtFirst(entries: Entries, order: seq<string>, e: Endpoints, j: nat)
    requires Known(order, entries) && FirstOn(entries, order, e, j)
    ensures KeyWith(entries, order, e) == Some(order[j])
    decreases j
  {
    assert order == [order[0]] + order[1..];
    if j > 0 {
      assert forall k :: 0 <= k < |order| - 1 ==> order[1..][k] == order[k + 1];
      assert entries[order[0]].endpoints != e;
      KeyAtFirst(entries, order[1..], e, j - 1);
    }
  }

  lemma {:induction false} FirstExists(entries: Entries, order: seq<string>, e: Endpoints)
    requires Known(order, entries) && KeyWith(entries, order, e).Some?
    ensures exists j: nat :: FirstOn(entries, order, e, j)
  {
    if entries[order[0]].endpoints == e {
      assert FirstOn(entries, order, e, 0);
    } else {
      assert order == [order[0]] + order[1..];
      FirstExists(entries, order[1..], e);
      var j: nat :| FirstOn(entries, order[1..], e, j);
      assert forall k :: 0 <= k < |order| - 1 ==> order[1..][k] == order[k + 1];
      assert FirstOn(entries, order, e, j + 1);
    }
  }

  lemma {:induction false} ClaimedIff(entries: Entries, order: seq<string>, call: Spec, link: LiveLink)
    requires Known(order, entries)
    ensures SameIdentity(entries, order, call, link) <==> Claimed(entries, order, call, link)
    ensures SameTopology(call, link) <==> OnTopology(call, link)
  {
    if KeyWith(entries, order, link.endpoints).Some? { FirstExists(entries, order, link.endpoints); }
    forall j: nat | FirstOn(entries, order, link.endpoints, j)
      ensures KeyWith(entries, order, link.endpoints) == Some(order[j])
    {
      KeyAtFirst(entries, order, link.endpoints, j);
    }
    hide KeyWith;
  }

  ghost predicate TwoExact(entries: Entries, order: seq<string>, call: Spec, links: seq<LiveLink>)
    requires Known(order, entries)
  {
    exists i, j ::
      0 <= i < j < |links| && BoundExactly(entries, order, call, links[i]) && BoundExactly(entries, order, call, links[j])
  }

  ghost predicate SomePartly(entries: Entries, order: seq<string>, call: Spec, links: seq<LiveLink>)
    requires Known(order, entries)
  {
    exists i :: 0 <= i < |links| && BoundPartly(entries, order, call, links[i])
  }

  ghost predicate SomeExact(entries: Entries, order: seq<string>, call: Spec, links: seq<LiveLink>)
    requires Known(order, entries)
  {
    exists i :: 0 <= i < |links| && BoundExactly(entries, order, call, links[i])
  }

  lemma {:induction false} ExactIff(entries: Entries, order: seq<string>, call: Spec, links: seq<LiveLink>)
    requires Known(order, entries)
    ensures ExactCount(entries, order, call, links) >= 1 <==> SomeExact(entries, order, call, links)
    ensures ExactCount(entries, order, call, links) >= 2 <==> TwoExact(entries, order, call, links)
  {
    if links != [] {
      var rest := links[1..];
      ClaimedIff(entries, order, call, links[0]);
      ExactIff(entries, order, call, rest);
      var first := BoundExactly(entries, order, call, links[0]);
      assert first <==> Matches(entries, order, call, links[0]);
      hide BoundExactly, Matches;
      assert forall i :: 0 <= i < |rest| ==> rest[i] == links[i + 1];
      assert SomeExact(entries, order, call, links) <==> first || SomeExact(entries, order, call, rest) by {
        if SomeExact(entries, order, call, rest) {
          var i :| 0 <= i < |rest| && BoundExactly(entries, order, call, rest[i]);
          assert BoundExactly(entries, order, call, links[i + 1]);
        }
        if SomeExact(entries, order, call, links) && !first {
          var i :| 0 <= i < |links| && BoundExactly(entries, order, call, links[i]);
          assert BoundExactly(entries, order, call, rest[i - 1]);
        }
      }
      assert TwoExact(entries, order, call, links)
        <==> TwoExact(entries, order, call, rest) || (first && SomeExact(entries, order, call, rest)) by {
        TwoSplits(entries, order, call, links);
      }
    }
  }

  lemma {:induction false} TwoSplits(entries: Entries, order: seq<string>, call: Spec, links: seq<LiveLink>)
    requires Known(order, entries) && links != []
    ensures TwoExact(entries, order, call, links)
       <==> || TwoExact(entries, order, call, links[1..])
            || (BoundExactly(entries, order, call, links[0]) && SomeExact(entries, order, call, links[1..]))
  {
    hide BoundExactly;
    var rest := links[1..];
    assert forall i :: 0 <= i < |rest| ==> rest[i] == links[i + 1];
    if TwoExact(entries, order, call, links) {
      var i, j :| 0 <= i < j < |links|
        && BoundExactly(entries, order, call, links[i]) && BoundExactly(entries, order, call, links[j]);
      assert BoundExactly(entries, order, call, rest[j - 1]);
      if i > 0 { assert BoundExactly(entries, order, call, rest[i - 1]); }
    }
    if TwoExact(entries, order, call, rest) {
      var i, j :| 0 <= i < j < |rest|
        && BoundExactly(entries, order, call, rest[i]) && BoundExactly(entries, order, call, rest[j]);
      assert BoundExactly(entries, order, call, links[i + 1]) && BoundExactly(entries, order, call, links[j + 1]);
    }
    if BoundExactly(entries, order, call, links[0]) && SomeExact(entries, order, call, rest) {
      var i :| 0 <= i < |rest| && BoundExactly(entries, order, call, rest[i]);
      assert BoundExactly(entries, order, call, links[i + 1]);
    }
  }

  lemma {:induction false} PartlyIff(entries: Entries, order: seq<string>, call: Spec, links: seq<LiveLink>)
    requires Known(order, entries)
    ensures AnyPartial(entries, order, call, links) <==> SomePartly(entries, order, call, links)
  {
    forall i | 0 <= i < |links|
      ensures Partial(entries, order, call, links[i]) <==> BoundPartly(entries, order, call, links[i])
    {
      ClaimedIff(entries, order, call, links[i]);
    }
    hide Partial, BoundPartly;
  }

  /** The four endpoints of the call are known. */
  predicate AllKnown(registry: Registry, call: Spec) {
    && call.endpoints.outputNode in registry.nodes && call.endpoints.outputPort in registry.ports
    && call.endpoints.inputNode in registry.nodes && call.endpoints.inputPort in registry.ports
  }

  /**
   * A create answers that a target is missing exactly when one is; that it conflicts exactly when some
   * bound link has the topology or the identity without the other, or two have both; that it was
   * rejected exactly when no bound link has either and the factory fails; and otherwise that it is done.
   */
  lemma {:induction false} CreateAnswersIff(
      entries: Entries, order: seq<string>, call: Spec, registry: Registry, made: bool)
    requires Known(order, entries)
    ensures var answer := CreateLink(entries, order, call, registry, made).0;
      var partly := SomePartly(entries, order, call, registry.links);
      var twice := TwoExact(entries, order, call, registry.links);
      var exact := SomeExact(entries, order, call, registry.links);
      && (answer == TargetNotFound <==> !AllKnown(registry, call))
      && (answer == OwnershipConflict <==> AllKnown(registry, call) && (partly || twice))
      && (answer == NativeRejected <==> AllKnown(registry, call) && !partly && !exact && !made)
      && (answer == Ready <==> AllKnown(registry, call) && !partly && !twice && (exact || made))
  {
    CheckLinksIff(entries, order, call, registry.links, false);
    ExactIff(entries, order, call, registry.links);
    PartlyIff(entries, order, call, registry.links);
    hide CheckLinks, ExactCount, AnyPartial, SomePartly, TwoExact, SomeExact;
  }

  /** The first live link with the id is at place `i`. */
  predicate FirstWith(links: seq<LiveLink>, id: nat, i: nat) {
    i < |links| && links[i].id == id && forall j :: 0 <= j < i ==> links[j].id != id
  }

  /** The entry under the identity's key has the four endpoints of the link. */
  predicate RecordedOn(entries: Entries, owner: string, desired: string, link: LiveLink) {
    var key := owner + ['\U{1F}'] + desired;
    && key in entries
    && entries[key].endpoints.outputNode == link.endpoints.outputNode
    && entries[key].endpoints.outputPort == link.endpoints.outputPort
    && entries[key].endpoints.inputNode == link.endpoints.inputNode
    && entries[key].endpoints.inputPort == link.endpoints.inputPort
  }

  lemma {:induction false} FindsFirst(links: seq<LiveLink>, id: nat)
    ensures forall i: nat :: FirstWith(links, id, i) ==> FindLink(links, id) == Some(links[i])
    ensures FindLink(links, id).Some? ==> exists i: nat :: FirstWith(links, id, i)
  {
    if links != [] && links[0].id != id {
      var rest := links[1..];
      FindsFirst(rest, id);
      assert forall i :: 0 <= i < |rest| ==> rest[i] == links[i + 1];
      forall i: nat | FirstWith(links, id, i) ensures FindLink(links, id) == Some(links[i]) {
        assert FirstWith(rest, id, i - 1);
      }
      if FindLink(links, id).Some? {
        var i: nat :| FirstWith(rest, id, i);
        assert FirstWith(links, id, i + 1);
      }
    } else if links != [] {
      assert FirstWith(links, id, 0);
    }
  }

  /**
   * A remove destroys exactly the first live link with the id, if the identity's entry has its
   * endpoints; it conflicts exactly when there is such a link and the entry does not; and it is done
   * with nothing to destroy exactly when there is none.
   */
  lemma {:induction false} RemoveAnswersIff(
      entries: Entries, owner: string, desired: string, id: nat, links: seq<LiveLink>, link: LiveLink)
    ensures var (answer, destroyed) := RemoveLink(entries, owner, desired, id, links);
      && (answer == Ready || answer == OwnershipConflict)
      && (answer == OwnershipConflict
          <==> exists i: nat :: FirstWith(links, id, i) && !RecordedOn(entries, owner, desired, links[i]))
      && (destroyed == Some(link)
          <==> exists i: nat :: FirstWith(links, id, i) && links[i] == link && RecordedOn(entries, owner, desired, link))
      && (answer == Ready && destroyed.None? <==> forall i :: 0 <= i < |links| ==> links[i].id != id)
  {
    FindsFirst(links, id);
    hide FindLink;
  }

  /**
   * In every run none of whose creates runs into the caller's identity, a remove requests destruction
   * only of a live link with the caller's id and the endpoints of the latest create executed for it.
   */
  lemma {:induction false} RemoveMatchesRecord(
      steps: seq<Step>, owner: string, desired: string, id: nat, links: seq<LiveLink>)
    requires EnabledAll(EMPTY, steps)
    requires Apart(Run(EMPTY, steps).creates, owner, desired)
    ensures var b := Run(EMPTY, steps);
      var r := RemoveLink(b.entries, owner, desired, id, links).1;
      r.Some? ==>
        && r.value in links && r.value.id == id
        && var latest := LatestFor(b.creates, owner, desired);
           latest.Some? && r.value.endpoints == latest.value.endpoints
  {
    var b := Run(EMPTY, steps);
    if Key(owner, desired) in b.entries {
      EntriesRecordCreates(steps, owner, desired);
    }
  }

  /**
   * With a separator in an owner, a caller can reach another identity's link: after one create for
   * (o + U+001F + x, d), a remove for (o, x + U+001F + d), an identity nobody created, destroys it.
   */
  lemma {:induction false} SeparatorConfuses(
      o: string, x: string, d: string, e: Endpoints, proxy: nat, registry: Registry)
    requires EndpointsExist(registry, e) && registry.links == []
    ensures var other := Spec(o + [SEPARATOR] + x, d, e, proxy);
      var steps := [Create(other, registry, [], true)];
      var mine := x + [SEPARATOR] + d;
      && EnabledAll(EMPTY, steps)
      && LatestFor(Run(EMPTY, steps).creates, o, mine) == None
      && RemoveLink(Run(EMPTY, steps).entries, o, mine, 1, [LiveLink(1, e, true, proxy)]).1
           == Some(LiveLink(1, e, true, proxy))
  {
    var other := Spec(o + [SEPARATOR] + x, d, e, proxy);
    var mine := x + [SEPARATOR] + d;
    var step := Create(other, registry, [], true);
    assert Key(o, mine) == KeyOf(other);
    assert |other.owner| > |o|;
    StoredIff(map[], [], other, registry, true);
    hide CreateLink, Key;
    assert Apply(EMPTY, step) == Book(map[KeyOf(other) := other], [other]);
    assert [step][1..] == [] && [other][..0] == [];
    assert Run(EMPTY, [step]) == Run(Apply(EMPTY, step), []);
    assert LatestFor([other], o, mine) == LatestFor([], o, mine);
  }

  // ----- whose link a remove destroys -----

  /** The i-th live link is the one its id finds, and has the entry's endpoints. */
  predicate WithinReach(entry: Spec, links: seq<LiveLink>, i: nat) {
    i < |links| && FindLink(links, links[i].id) == Some(links[i]) && links[i].endpoints == entry.endpoints
  }

  /** No live link but the recorded one has the entry's endpoints, among those an id finds. */
  predicate OnlyOwn(entry: Spec, links: seq<LiveLink>) {
    forall i :: 0 <= i < |links| && WithinReach(entry, links, i) ==> links[i].proxy == entry.proxy
  }

  lemma {:induction false} FoundIsFirst(links: seq<LiveLink>, id: nat)
    requires FindLink(links, id).Some?
    ensures exists i :: 0 <= i < |links| && links[i] == FindLink(links, id).value && links[i].id == id
  {
  }

  /**
   * A remove compares endpoints and never the recorded link itself. Whatever id it is given, what it
   * destroys is the recorded link exactly when no other live link has the recorded endpoints.
   */
  lemma {:induction false} DestroysOwnIff(entries: Entries, owner: string, desired: string, links: seq<LiveLink>)
    requires Key(owner, desired) in entries
    ensures (forall id: nat :: RemoveLink(entries, owner, desired, id, links).1.Some?
               ==> RemoveLink(entries, owner, desired, id, links).1.value.proxy == entries[Key(owner, desired)].proxy)
       <==> OnlyOwn(entries[Key(owner, desired)], links)
  {
    var entry := entries[Key(owner, desired)];
    hide Key;
    if OnlyOwn(entry, links) {
      forall id: nat | RemoveLink(entries, owner, desired, id, links).1.Some?
        ensures RemoveLink(entries, owner, desired, id, links).1.value.proxy == entry.proxy
      {
        FoundIsFirst(links, id);
        var link := FindLink(links, id).value;
        var i :| 0 <= i < |links| && links[i] == link && links[i].id == id;
        assert WithinReach(entry, links, i);
      }
    } else {
      var i :| 0 <= i < |links| && WithinReach(entry, links, i) && links[i].proxy != entry.proxy;
      assert RemoveLink(entries, owner, desired, links[i].id, links).1 == Some(links[i]);
    }
  }

  /**
   * An entry outlives a link that leaves before its endpoints are bound; a link that somebody else
   * makes on these endpoints is then destroyed in its place.
   */
  lemma {:induction false} ForeignLinkDestroyed(call: Spec, registry: Registry, foreign: LiveLink)
    requires EndpointsExist(registry, call.endpoints) && registry.links == []
    requires foreign.endpoints == call.endpoints && foreign.proxy != call.proxy
    ensures var steps := [Create(call, registry, [], true), LinkGone(call.endpoints, false, [KeyOf(call)])];
      && EnabledAll(EMPTY, steps)
      && RemoveLink(Run(EMPTY, steps).entries, call.owner, call.desired, foreign.id, [foreign]).1 == Some(foreign)
      && LatestFor(Run(EMPTY, steps).creates, call.owner, call.desired) == Some(call)
  {
    OneCreate(call, registry);
    RecordedForeign(call, foreign);
    hide CreateLink, Key, RemoveLink, LatestFor;
    var create, gone := Create(call, registry, [], true), LinkGone(call.endpoints, false, [KeyOf(call)]);
    var stored := Book(map[KeyOf(call) := call], [call]);
    assert Enabled(stored, gone) && Apply(stored, gone) == stored;
    assert [create, gone][1..] == [gone] && [gone][1..] == [];
    assert Run(stored, [gone]) == Run(stored, []) == stored;
    assert EnabledAll(stored, [gone]);
    assert Run(EMPTY, [create, gone]) == Run(stored, [gone]);
  }

  lemma {:induction false} OneCreate(call: Spec, registry: Registry)
    requires EndpointsExist(registry, call.endpoints) && registry.links == []
    ensures Enabled(EMPTY, Create(call, registry, [], true))
    ensures Apply(EMPTY, Create(call, registry, [], true)) == Book(map[KeyOf(call) := call], [call])
  {
    StoredIff(map[], [], call, registry, true);
    hide CreateLink, Key;
  }

  lemma {:induction false} RecordedForeign(call: Spec, foreign: LiveLink)
    requires foreign.endpoints == call.endpoints
    ensures RemoveLink(map[KeyOf(call) := call], call.owner, call.desired, foreign.id, [foreign]).1 == Some(foreign)
    ensures LatestFor([call], call.owner, call.desired) == Some(call)
  {
    hide Key;
  }

  // ----- one entry per topology -----

  ghost predicate OnePerTopology(entries: Entries) {
    forall k, k' :: k in entries && k' in entries && entries[k].endpoints == entries[k'].endpoints ==> k == k'
  }

  /** Storing keeps one entry per topology exactly when no other identity has these endpoints. */
  lemma {:induction false} StoreKeepsOneIff(entries: Entries, call: Spec)
    requires OnePerTopology(entries)
    ensures OnePerTopology(entries[KeyOf(call) := call])
       <==> forall k :: k in entries && k != KeyOf(call) ==> entries[k].endpoints != call.endpoints
  {
    var r := entries[KeyOf(call) := call];
    if OnePerTopology(r) {
      forall k | k in entries && k != KeyOf(call)
        ensures entries[k].endpoints != call.endpoints
      {
        assert k in r && r[k] == entries[k];
        assert KeyOf(call) in r;
      }
    }
  }

  /**
   * Two creates for one topology, the second before the first link is bound, both store, whatever
   * the names: the ledger then holds two entries for it.
   */
  lemma {:induction false} TwoOwnersOneTopology(a: Spec, b: Spec, registry: Registry)
    requires KeyOf(a) != KeyOf(b) && a.endpoints == b.endpoints && EndpointsExist(registry, a.endpoints)
    requires forall i :: 0 <= i < |registry.links| ==> !registry.links[i].info
    ensures var steps := [Create(a, registry, [], true), Create(b, registry, [KeyOf(a)], true)];
      EnabledAll(EMPTY, steps) && !OnePerTopology(Run(EMPTY, steps).entries)
  {
    StoredIff(map[], [], a, registry, true);
    var one: Entries := map[KeyOf(a) := a];
    StoredIff(one, [KeyOf(a)], b, registry, true);
    hide CreateLink, Key;
    var first := Create(a, registry, [], true);
    var second := Create(b, registry, [KeyOf(a)], true);
    assert Apply(EMPTY, first).entries == one;
    var two := Apply(Apply(EMPTY, first), second).entries;
    assert two == one[KeyOf(b) := b];
    assert KeyOf(a) in two && KeyOf(b) in two && two[KeyOf(a)] == a && two[KeyOf(b)] == b;
    var steps := [first, second];
    assert steps[0] == first && steps[1..] == [second] && [second][0] == second && [second][1..] == [];
    assert Enabled(EMPTY, first) && Enabled(Apply(EMPTY, first), second);
    assert EnabledAll(Apply(Apply(EMPTY, first), second), []);
    assert EnabledAll(Apply(EMPTY, first), [second]);
    assert Run(Apply(EMPTY, first), [second]).entries == two;
  }

  /** Another identity's entry has these endpoints. */
  predicate Contested(entries: Entries, order: seq<string>, call: Spec)
    requires Known(order, entries)
  {
    exists i :: 0 <= i < |order| && order[i] != KeyOf(call) && entries[order[i]].endpoints == call.endpoints
  }

  /** Some bound link has the call's topology or identity. */
  predicate BoundLink(entries: Entries, order: seq<string>, call: Spec, links: seq<LiveLink>)
    requires Known(order, entries)
  {
    exists i :: 0 <= i < |links| && links[i].info
      && (SameTopology(call, links[i]) || SameIdentity(entries, order, call, links[i]))
  }

  /**
   * A create that makes a link breaks one entry per topology exactly when its endpoints exist, another
   * identity's entry has them, and no bound link has the topology or the identity.
   */
  lemma {:induction false} CreateBreaksOneIff(entries: Entries, order: seq<string>, call: Spec, registry: Registry)
    requires OnePerTopology(entries) && Enumerates(order, entries)
    ensures !OnePerTopology(Apply(Book(entries, []), Create(call, registry, order, true)).entries)
       <==> && EndpointsExist(registry, call.endpoints)
            && Contested(entries, order, call)
            && !BoundLink(entries, order, call, registry.links)
  {
    StoredIff(entries, order, call, registry, true);
    StoreKeepsOneIff(entries, call);
    hide CreateLink, SameTopology, SameIdentity, EndpointsExist, KeyOf, OnePerTopology;
    assert Contested(entries, order, call)
       <==> exists k :: k in entries && k != KeyOf(call) && entries[k].endpoints == call.endpoints by {
      ContestedByKey(entries, order, call);
    }
  }

  lemma {:induction false} ContestedByKey(entries: Entries, order: seq<string>, call: Spec)
    requires Enumerates(order, entries)
    ensures Contested(entries, order, call)
       <==> exists k :: k in entries && k != KeyOf(call) && entries[k].endpoints == call.endpoints
  {
    hide KeyOf;
    if k :| k in entries && k != KeyOf(call) && entries[k].endpoints == call.endpoints {
      assert k in order;
      var i :| 0 <= i < |order| && order[i] == k;
      assert order[i] != KeyOf(call) && entries[order[i]].endpoints == call.endpoints;
    }
  }

  /** Every entry's link is bound and in the registry. */
  ghost predicate AllBound(entries: Entries, registry: Registry) {
    forall k :: k in entries ==>
      exists i :: 0 <= i < |registry.links| && registry.links[i].info && registry.links[i].endpoints == entries[k].endpoints
  }

  /** Each create of a run finds every recorded link bound. */
  ghost predicate BoundAtCreates(b: Book, steps: seq<Step>)
    requires EnabledAll(b, steps)
    decreases |steps|
  {
    steps == [] || (&& (steps[0].Create? ==> AllBound(b.entries, steps[0].registry))
                    && BoundAtCreates(Apply(b, steps[0]), steps[1..]))
  }

  lemma {:induction false} StepKeepsOne(b: Book, step: Step)
    requires Enabled(b, step) && OnePerTopology(b.entries)
    requires step.Create? ==> AllBound(b.entries, step.registry)
    ensures OnePerTopology(Apply(b, step).entries)
  {
    match step
    case Create(call, registry, order, made) =>
      if CreateLink(b.entries, order, call, registry, made).1 {
        StoredIff(b.entries, order, call, registry, made);
        hide CreateLink, SameIdentity;
        forall k | k in b.entries && k != KeyOf(call)
          ensures b.entries[k].endpoints != call.endpoints
        {
          var i :| 0 <= i < |registry.links| && registry.links[i].info && registry.links[i].endpoints == b.entries[k].endpoints;
          assert !SameTopology(call, registry.links[i]);
        }
        StoreKeepsOneIff(b.entries, call);
      }
    case _ =>
  }

  /**
   * In every run in which each create finds the links of all entries bound, the ledger keeps one
   * entry per topology; so lookups never depend on the iteration order and forgetting forgets all.
   */
  lemma {:induction false} BoundRunsKeepOne(b: Book, steps: seq<Step>)
    requires OnePerTopology(b.entries) && EnabledAll(b, steps) && BoundAtCreates(b, steps)
    ensures OnePerTopology(Run(b, steps).entries)
    decreases |steps|
  {
    if steps != [] {
      StepKeepsOne(b, steps[0]);
      BoundRunsKeepOne(Apply(b, steps[0]), steps[1..]);
    }
  }

  predicate HasTopology(entries: Entries, k: string, e: Endpoints) {
    k in entries && entries[k].endpoints == e
  }

  /** Forgetting a topology leaves no entry for it exactly when there was at most one. */
  lemma {:induction false} ForgetsAllIff(entries: Entries, order: seq<string>, e: Endpoints)
    requires Enumerates(order, entries)
    ensures (forall k :: k in Forget(entries, order, e) ==> entries[k].endpoints != e)
       <==> (forall k, k' :: HasTopology(entries, k, e) && HasTopology(entries, k', e) ==> k == k')
  {
    var r := Forget(entries, order, e);
    var first := KeyWith(entries, order, e);
    if first.Some? {
      assert HasTopology(entries, first.value, e);
      assert r == entries - {first.value};
      if forall k :: k in r ==> entries[k].endpoints != e {
        assert forall k :: k in r <==> k in entries && k != first.value;
      }
      if forall k, k' :: HasTopology(entries, k, e) && HasTopology(entries, k', e) ==> k == k' {
        assert forall k :: k in r ==> !HasTopology(entries, k, e);
      }
    } else {
      assert forall k :: k in entries ==> k in order;
    }
  }

  /** With one entry per topology the iteration order does not matter. */
  lemma {:induction false} OrderIrrelevant(entries: Entries, order: seq<string>, order': seq<string>, e: Endpoints)
    requires Enumerates(order, entries) && Enumerates(order', entries) && OnePerTopology(entries)
    ensures SpecWith(entries, order, e) == SpecWith(entries, order', e)
    ensures Forget(entries, order, e) == Forget(entries, order', e)
  {
    var a, b := KeyWith(entries, order, e), KeyWith(entries, order', e);
    if a.Some? { assert a.value in order && a.value in entries && a.value in order'; }
    if b.Some? { assert b.value in order' && b.value in entries && b.value in order; }
  }
}
