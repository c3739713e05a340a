/**
 * From a native payload to a snapshot's contents: the port lists of nodes, the profiles and routes
 * gathered from parameter values, and the references derived from them.
 */
module SnapshotPayload {
  import opened Wrappers
  import opened Events
  import opened RuntimeSnapshots

  datatype RawDevice = RawDevice(id: nat, parameterIds: seq<string>)
  datatype RawNode = RawNode(id: nat, deviceId: Option<nat>, parameterIds: seq<string>)

  /** A payload whose fields were validated; candidates are in the order of their parameters. */
  datatype Payload = Payload(
    generation: nat, sequence: nat, healthGeneration: nat,
    devices: seq<RawDevice>, nodes: seq<RawNode>, ports: seq<Port>, links: seq<Link>, metadata: seq<Metadata>,
    parameters: seq<Parameter>, profiles: seq<Profile>, routes: seq<Route>, defaults: Defaults)

  // ----- port lists -----

  /** Ports of unknown direction are grouped with the outputs. */
  predicate Grouped(p: Port, node: nat, input: bool) { p.nodeId == node && (p.direction == Input) == input }

  function PortIds(ports: seq<Port>, node: nat, input: bool): seq<nat> {
    if ports == [] then []
    else PortIds(ports[..|ports| - 1], node, input)
         + (if Grouped(ports[|ports| - 1], node, input) then [ports[|ports| - 1].id] else [])
  }

  function Insert(id: nat, ids: seq<nat>): seq<nat> {
    if ids == [] || id <= ids[0] then [id] + ids else [ids[0]] + Insert(id, ids[1..])
  }

  function Sort(ids: seq<nat>): seq<nat> {
    if ids == [] then [] else Insert(ids[0], Sort(ids[1..]))
  }

  predicate Ascending(ids: seq<nat>) { forall i, j :: 0 <= i < j < |ids| ==> ids[i] <= ids[j] }

  lemma {:induction false} InsertKeeps(id: nat, ids: seq<nat>)
    ensures multiset(Insert(id, ids)) == multiset(ids) + multiset{id}
  {
    if ids != [] {
      assert ids == [ids[0]] + ids[1..];
      if id > ids[0] { InsertKeeps(id, ids[1..]); }
    }
  }

  lemma {:induction false} InsertSorts(id: nat, ids: seq<nat>)
    requires Ascending(ids)
    ensures Ascending(Insert(id, ids))
  {
    if ids != [] && id > ids[0] {
      var rest := Insert(id, ids[1..]);
      InsertSorts(id, ids[1..]);
      InsertKeeps(id, ids[1..]);
      forall i | 0 <= i < |rest| ensures ids[0] <= rest[i] {
        assert rest[i] in multiset(rest);
        assert rest[i] == id || rest[i] in ids[1..];
      }
      hide Insert;
    }
  }

  lemma {:induction false} SortSorts(ids: seq<nat>)
    ensures Ascending(Sort(ids)) && multiset(Sort(ids)) == multiset(ids)
  {
    if ids != [] {
      SortSorts(ids[1..]);
      InsertSorts(ids[0], Sort(ids[1..]));
      InsertKeeps(ids[0], Sort(ids[1..]));
      assert ids == [ids[0]] + ids[1..];
    }
  }

  /** A dictionary of lists, as the port ids of each node in one direction. */
  ghost predicate GroupedAs(m: map<nat, seq<nat>>, ports: seq<Port>, input: bool) {
    forall node: nat :: PortIds(ports, node, input) == if node in m then m[node] else []
  }

  lemma {:induction false} GroupOne(m: map<nat, seq<nat>>, ports: seq<Port>, input: bool, p: Port)
    requires GroupedAs(m, ports, input)
    ensures (p.direction == Input) == input ==>
      GroupedAs(m[p.nodeId := (if p.nodeId in m then m[p.nodeId] else []) + [p.id]], ports + [p], input)
    ensures (p.direction == Input) != input ==> GroupedAs(m, ports + [p], input)
  {
    assert (ports + [p])[..|ports|] == ports;
  }

  /** The grouping loop: one pass over the ports fills both dictionaries. */
  method GroupPorts(ports: seq<Port>) returns (inputs: map<nat, seq<nat>>, outputs: map<nat, seq<nat>>)
    ensures forall node: nat :: PortIds(ports, node, true) == if node in inputs then inputs[node] else []
    ensures forall node: nat :: PortIds(ports, node, false) == if node in outputs then outputs[node] else []
  {
    inputs, outputs := map[], map[];
    for i := 0 to |ports|
      invariant GroupedAs(inputs, ports[..i], true) && GroupedAs(outputs, ports[..i], false)
    {
      var p := ports[i];
      GroupOne(inputs, ports[..i], true, p);
      GroupOne(outputs, ports[..i], false, p);
      assert ports[..i + 1] == ports[..i] + [p];
      hide GroupedAs;
      if p.direction == Input {
        inputs := inputs[p.nodeId := (if p.nodeId in inputs then inputs[p.nodeId] else []) + [p.id]];
      } else {
        outputs := outputs[p.nodeId := (if p.nodeId in outputs then outputs[p.nodeId] else []) + [p.id]];
      }
    }
    assert ports[..|ports|] == ports;
  }

  function NodeOf(ports: seq<Port>, raw: RawNode): Node {
    Node(raw.id, raw.deviceId, Sort(PortIds(ports, raw.id, true)), Sort(PortIds(ports, raw.id, false)),
         raw.parameterIds)
  }

  // ----- merging -----

  /** A dictionary in insertion order. */
  datatype Merged<V> = Merged(keys: seq<(nat, nat)>, values: map<(nat, nat), V>)

  /** `_merge_active`: the first candidate for a key, unless a later one is the first active. */
  function Merge<V>(m: Merged<V>, k: (nat, nat), v: V, active: V -> bool): Merged<V> {
    if k !in m.values then Merged(m.keys + [k], m.values[k := v])
    else if active(v) && !active(m.values[k]) then m.(values := m.values[k := v])
    else m
  }

  function MergeAll<V>(candidates: seq<V>, key: V -> (nat, nat), active: V -> bool): Merged<V> {
    if candidates == [] then Merged([], map[])
    else
      var n := |candidates| - 1;
      Merge(MergeAll(candidates[..n], key, active), key(candidates[n]), candidates[n], active)
  }

  method MergeActive<V>(candidates: seq<V>, key: V -> (nat, nat), active: V -> bool)
    returns (keys: seq<(nat, nat)>, values: map<(nat, nat), V>)
    ensures Merged(keys, values) == MergeAll(candidates, key, active)
  {
    keys, values := [], map[];
    for i := 0 to |candidates|
      invariant Merged(keys, values) == MergeAll(candidates[..i], key, active)
    {
      assert candidates[..i + 1][..i] == candidates[..i];
      var v := candidates[i];
      var k := key(v);
      if k !in values {
        keys, values := keys + [k], values[k := v];
      } else if active(v) && !active(values[k]) {
        values := values[k := v];
      }
    }
    assert candidates[..|candidates|] == candidates;
  }

  ghost predicate WellKept<V(!new)>(m: Merged<V>) {
    && (forall k :: k in m.keys <==> k in m.values)
    && (forall i, j :: 0 <= i < j < |m.keys| ==> m.keys[i] != m.keys[j])
  }

  predicate SomeActive<V>(candidates: seq<V>, key: V -> (nat, nat), active: V -> bool, k: (nat, nat)) {
    exists i :: 0 <= i < |candidates| && key(candidates[i]) == k && active(candidates[i])
  }

  /** A merged value is a candidate with its key, active exactly when some candidate with it was. */
  ghost predicate MergedFrom<V(!new)>(m: Merged<V>, candidates: seq<V>, key: V -> (nat, nat), active: V -> bool) {
    && (forall k :: k in m.values <==> Contains(candidates, key, k))
    && (forall k :: k in m.values ==>
         && (exists i :: 0 <= i < |candidates| && candidates[i] == m.values[k])
         && key(m.values[k]) == k
         && (active(m.values[k]) <==> SomeActive(candidates, key, active, k)))
  }

  /**
   * A merged profile or route is one of the candidates with its key, every candidate's key is
   * present once, and the merged one is active exactly when some candidate was.
   */
  lemma {:induction false} ActiveMerged<V(!new)>(candidates: seq<V>, key: V -> (nat, nat), active: V -> bool)
    ensures WellKept(MergeAll(candidates, key, active))
    ensures MergedFrom(MergeAll(candidates, key, active), candidates, key, active)
  {
    if candidates != [] {
      var n := |candidates| - 1;
      var front, v := candidates[..n], candidates[n];
      ActiveMerged(front, key, active);
      assert candidates == front + [v];
      MergeKeeps(MergeAll(front, key, active), front, key, active, v);
    }
  }

  lemma {:induction false} SearchExtends<V(!new)>(front: seq<V>, key: V -> (nat, nat), active: V -> bool, v: V)
    ensures forall k :: Contains(front + [v], key, k) <==> Contains(front, key, k) || k == key(v)
    ensures forall k ::
      SomeActive(front + [v], key, active, k) <==> SomeActive(front, key, active, k) || (k == key(v) && active(v))
  {
    var all := front + [v];
    assert forall i :: 0 <= i < |front| ==> all[i] == front[i];
    assert all[|front|] == v;
  }

  lemma {:induction false} NoneActive<V(!new)>(values: seq<V>, key: V -> (nat, nat), active: V -> bool, k: (nat, nat))
    ensures SomeActive(values, key, active, k) ==> Contains(values, key, k)
  {
  }

  lemma {:induction false} MergeKeeps<V(!new)>(
      m: Merged<V>, front: seq<V>, key: V -> (nat, nat), active: V -> bool, v: V)
    requires WellKept(m) && MergedFrom(m, front, key, active)
    ensures WellKept(Merge(m, key(v), v, active))
    ensures MergedFrom(Merge(m, key(v), v, active), front + [v], key, active)
  {
    SearchExtends(front, key, active, v);
    hide Contains, SomeActive;
    var all, k := front + [v], key(v);
    var r := Merge(m, k, v, active);
    assert r.keys == m.keys || (k !in m.keys && r.keys == m.keys + [k]);
    assert WellKept(r);
    assert r.values == m.values || r.values == m.values[k := v];
    assert k in r.values && (active(r.values[k]) <==> active(v) || (k in m.values && active(m.values[k])));
    assert !Contains(front, key, k) ==> !SomeActive(front, key, active, k) by { NoneActive(front, key, active, k); }
    hide WellKept, Merge;
    forall other | other in r.values
      ensures exists i :: 0 <= i < |all| && all[i] == r.values[other]
    {
      if other in m.values && r.values[other] == m.values[other] {
        var i :| 0 <= i < |front| && front[i] == m.values[other];
        assert all[i] == r.values[other];
      } else {
        assert all[|front|] == r.values[other];
      }
    }
  }

  // ----- contents -----

  function ActiveProfile(p: Profile): bool { p.active }
  function ActiveRoute(r: Route): bool { r.active }

  /** The second halves of the keys of one device, in order. */
  function IdsOf(keys: seq<(nat, nat)>, device: nat): (r: seq<nat>)
    ensures forall id :: id in r <==> (device, id) in keys
  {
    if keys == [] then []
    else
      assert keys == [keys[0]] + keys[1..];
      (if keys[0].0 == device then [keys[0].1] else []) + IdsOf(keys[1..], device)
  }

  function Values<V>(m: Merged<V>): (r: seq<V>)
    requires forall i :: 0 <= i < |m.keys| ==> m.keys[i] in m.values
    ensures |r| == |m.keys| && forall i :: 0 <= i < |r| ==> r[i] == m.values[m.keys[i]]
  {
    seq(|m.keys|, i requires 0 <= i < |m.keys| => m.values[m.keys[i]])
  }

  ghost function ContentsOf(p: Payload): Contents {
    ActiveMerged(p.profiles, ProfileKey, ActiveProfile);
    ActiveMerged(p.routes, RouteKey, ActiveRoute);
    var profiles := MergeAll(p.profiles, ProfileKey, ActiveProfile);
    var routes := MergeAll(p.routes, RouteKey, ActiveRoute);
    Contents(
      p.generation, p.sequence, p.healthGeneration,
      seq(|p.devices|, i requires 0 <= i < |p.devices| =>
        Device(p.devices[i].id, p.devices[i].parameterIds,
               IdsOf(profiles.keys, p.devices[i].id), IdsOf(routes.keys, p.devices[i].id))),
      seq(|p.nodes|, i requires 0 <= i < |p.nodes| => NodeOf(p.ports, p.nodes[i])),
      p.ports, p.links, p.metadata, p.parameters, Values(profiles), Values(routes), p.defaults)
  }

  lemma {:induction false} PortIdsAre(ports: seq<Port>, node: nat, input: bool)
    ensures forall id :: id in PortIds(ports, node, input) <==>
      exists i :: 0 <= i < |ports| && Grouped(ports[i], node, input) && ports[i].id == id
  {
    if ports != [] {
      var n := |ports| - 1;
      var front := ports[..n];
      PortIdsAre(front, node, input);
      forall id
        ensures id in PortIds(ports, node, input) <==>
          exists i :: 0 <= i < |ports| && Grouped(ports[i], node, input) && ports[i].id == id
      {
        if id in PortIds(front, node, input) {
          var i :| 0 <= i < n && Grouped(front[i], node, input) && front[i].id == id;
          assert Grouped(ports[i], node, input) && ports[i].id == id;
        }
        if i :| 0 <= i < |ports| && Grouped(ports[i], node, input) && ports[i].id == id {
          if i < n { assert Grouped(front[i], node, input) && front[i].id == id; }
        }
      }
    }
  }

  /** A node's lists are the sorted ids of the ports that name it. */
  lemma {:induction false} PortListsSorted(ports: seq<Port>, raw: RawNode)
    ensures var n := NodeOf(ports, raw);
      && Ascending(n.inputPortIds) && multiset(n.inputPortIds) == multiset(PortIds(ports, raw.id, true))
      && Ascending(n.outputPortIds) && multiset(n.outputPortIds) == multiset(PortIds(ports, raw.id, false))
  {
    SortSorts(PortIds(ports, raw.id, true));
    SortSorts(PortIds(ports, raw.id, false));
  }

  lemma {:induction false} ListedPorts(ports: seq<Port>, node: nat, input: bool, id: nat)
    ensures id in Sort(PortIds(ports, node, input)) <==>
      exists i :: 0 <= i < |ports| && Grouped(ports[i], node, input) && ports[i].id == id
  {
    var ids := PortIds(ports, node, input);
    SortSorts(ids);
    PortIdsAre(ports, node, input);
    assert id in Sort(ids) <==> id in multiset(Sort(ids));
    assert id in ids <==> id in multiset(ids);
  }

  predicate OneOfUnknownDirection(ports: seq<Port>, node: nat) {
    exists i :: 0 <= i < |ports| && ports[i].nodeId == node && ports[i].direction == UnknownDirection
  }

  /**
   * In a payload without duplicate ports, a node's input references always resolve, and its output
   * references resolve exactly when no port of unknown direction names the node.
   */
  lemma {:induction false} PortReferencesResolveIff(p: Payload, raw: RawNode)
    requires DistinctKeys(p.ports, PortId)
    ensures var c, n := ContentsOf(p), NodeOf(p.ports, raw);
      && (forall i :: 0 <= i < |n.inputPortIds| ==> HasPortOn(c, n.inputPortIds[i], n.id, Input))
      && ((forall i :: 0 <= i < |n.outputPortIds| ==> HasPortOn(c, n.outputPortIds[i], n.id, Output))
          <==> !OneOfUnknownDirection(p.ports, n.id))
  {
    var c, n := ContentsOf(p), NodeOf(p.ports, raw);
    hide ContentsOf, Sort, PortIds;
    assert c.ports == p.ports by { PortsOfContents(p); }
    forall i | 0 <= i < |n.inputPortIds|
      ensures HasPortOn(c, n.inputPortIds[i], n.id, Input)
    {
      ListedPorts(p.ports, n.id, true, n.inputPortIds[i]);
    }
    if OneOfUnknownDirection(p.ports, n.id) {
      UnknownBreaks(p.ports, n, c);
    } else {
      forall i | 0 <= i < |n.outputPortIds|
        ensures HasPortOn(c, n.outputPortIds[i], n.id, Output)
      {
        ListedPorts(p.ports, n.id, false, n.outputPortIds[i]);
      }
    }
  }

  lemma {:induction false} PortsOfContents(p: Payload)
    ensures ContentsOf(p).ports == p.ports
  {
  }

  lemma {:induction false} SamePort(ports: seq<Port>, j: nat, k: nat)
    requires DistinctKeys(ports, PortId) && j < |ports| && k < |ports| && ports[j].id == ports[k].id
    ensures j == k
  {
    assert PortId(ports[j]) == PortId(ports[k]);
  }

  lemma {:induction false} UnknownBreaks(ports: seq<Port>, n: Node, c: Contents)
    requires DistinctKeys(ports, PortId) && c.ports == ports && OneOfUnknownDirection(ports, n.id)
    requires n.outputPortIds == Sort(PortIds(ports, n.id, false))
    ensures exists i :: 0 <= i < |n.outputPortIds| && !HasPortOn(c, n.outputPortIds[i], n.id, Output)
  {
    hide Sort, PortIds;
    var k :| 0 <= k < |ports| && ports[k].nodeId == n.id && ports[k].direction == UnknownDirection;
    ListedPorts(ports, n.id, false, ports[k].id);
    assert Grouped(ports[k], n.id, false);
    assert ports[k].id in n.outputPortIds;
    var i :| 0 <= i < |n.outputPortIds| && n.outputPortIds[i] == ports[k].id;
    if HasPortOn(c, n.outputPortIds[i], n.id, Output) {
      var j :| 0 <= j < |ports| && ports[j].id == ports[k].id && ports[j].direction == Output;
      SamePort(ports, j, k);
      assert false;
    }
  }

  /** The profile and route references derived for a device always resolve. */
  lemma {:induction false} DerivedReferencesResolve(p: Payload, d: nat)
    requires d < |p.devices|
    ensures var c := ContentsOf(p);
      var device := c.devices[d];
      && (forall i :: 0 <= i < |device.profileIds| ==> HasProfile(c, (device.id, device.profileIds[i])))
      && (forall i :: 0 <= i < |device.routeIds| ==> HasRoute(c, (device.id, device.routeIds[i])))
      && (forall i :: 0 <= i < |c.profiles| && c.profiles[i].deviceId == device.id ==>
           c.profiles[i].index in device.profileIds)
      && (forall i :: 0 <= i < |c.routes| && c.routes[i].deviceId == device.id ==>
           c.routes[i].index in device.routeIds)
  {
    ActiveMerged(p.profiles, ProfileKey, ActiveProfile);
    ActiveMerged(p.routes, RouteKey, ActiveRoute);
    var c := ContentsOf(p);
    var profiles := MergeAll(p.profiles, ProfileKey, ActiveProfile);
    var routes := MergeAll(p.routes, RouteKey, ActiveRoute);
    var device := c.devices[d];
    hide MergeAll, IdsOf, NodeOf, SomeActive;
    forall i | 0 <= i < |device.profileIds|
      ensures HasProfile(c, (device.id, device.profileIds[i]))
    {
      assert device.profileIds[i] in device.profileIds;
      var j :| 0 <= j < |profiles.keys| && profiles.keys[j] == (device.id, device.profileIds[i]);
      assert ProfileKey(c.profiles[j]) == (device.id, device.profileIds[i]);
    }
    forall i | 0 <= i < |device.routeIds|
      ensures HasRoute(c, (device.id, device.routeIds[i]))
    {
      assert device.routeIds[i] in device.routeIds;
      var j :| 0 <= j < |routes.keys| && routes.keys[j] == (device.id, device.routeIds[i]);
      assert RouteKey(c.routes[j]) == (device.id, device.routeIds[i]);
    }
    forall i | 0 <= i < |c.profiles| && c.profiles[i].deviceId == device.id
      ensures c.profiles[i].index in device.profileIds
    {
      assert profiles.keys[i] in profiles.keys;
      assert ProfileKey(c.profiles[i]) == profiles.keys[i];
    }
    forall i | 0 <= i < |c.routes| && c.routes[i].deviceId == device.id
      ensures c.routes[i].index in device.routeIds
    {
      assert routes.keys[i] in routes.keys;
      assert RouteKey(c.routes[i]) == routes.keys[i];
    }
  }

  // ----- what a payload becomes -----

  /** Counters and plain collections are taken over; devices and nodes keep their own fields. */
  lemma {:induction false} ContentsAre(p: Payload)
    ensures var c := ContentsOf(p);
      && c.generation == p.generation && c.sequence == p.sequence && c.healthGeneration == p.healthGeneration
      && c.ports == p.ports && c.links == p.links && c.metadata == p.metadata
      && c.parameters == p.parameters && c.defaults == p.defaults
      && |c.devices| == |p.devices| && |c.nodes| == |p.nodes|
      && (forall i :: 0 <= i < |p.devices| ==>
           c.devices[i].id == p.devices[i].id && c.devices[i].parameterIds == p.devices[i].parameterIds)
      && (forall i :: 0 <= i < |p.nodes| ==>
           && c.nodes[i].id == p.nodes[i].id && c.nodes[i].deviceId == p.nodes[i].deviceId
           && c.nodes[i].parameterIds == p.nodes[i].parameterIds
           && c.nodes[i] == NodeOf(p.ports, p.nodes[i]))
  {
    hide MergeAll, IdsOf, PortIds, Sort;
  }

  /** The candidate a key keeps: its first active one, or its first if none is. */
  ghost predicate Chosen<V(!new)>(candidates: seq<V>, key: V -> (nat, nat), active: V -> bool, k: (nat, nat), i: nat) {
    && i < |candidates| && key(candidates[i]) == k
    && (active(candidates[i]) ==> forall j :: 0 <= j < i && key(candidates[j]) == k ==> !active(candidates[j]))
    && (!active(candidates[i]) ==>
         forall j :: 0 <= j < |candidates| && key(candidates[j]) == k ==> i <= j && !active(candidates[j]))
  }

  lemma {:induction false} ChosenExtends<V(!new)>(
      front: seq<V>, key: V -> (nat, nat), active: V -> bool, v: V, k: (nat, nat), i: nat)
    requires Chosen(front, key, active, k, i)
    requires key(v) == k && active(v) ==> active(front[i])
    ensures Chosen(front + [v], key, active, k, i)
  {
  }

  lemma {:induction false} ChosenLast<V(!new)>(front: seq<V>, key: V -> (nat, nat), active: V -> bool, v: V)
    requires !Contains(front, key, key(v)) || (active(v) && !SomeActive(front, key, active, key(v)))
    ensures Chosen(front + [v], key, active, key(v), |front|)
  {
    var all := front + [v];
    assert forall j :: 0 <= j < |front| ==> all[j] == front[j];
  }

  lemma {:induction false} MergedIsChosen<V(!new)>(
      candidates: seq<V>, key: V -> (nat, nat), active: V -> bool, k: (nat, nat))
    requires k in MergeAll(candidates, key, active).values
    ensures exists i: nat ::
      Chosen(candidates, key, active, k, i) && candidates[i] == MergeAll(candidates, key, active).values[k]
  {
    var n := |candidates| - 1;
    var front, v := candidates[..n], candidates[n];
    var before, after := MergeAll(front, key, active), MergeAll(candidates, key, active);
    ActiveMerged(front, key, active);
    assert candidates == front + [v];
    assert after == Merge(before, key(v), v, active);
    if key(v) == k && (k !in before.values || (active(v) && !active(before.values[k]))) {
      ChosenLast(front, key, active, v);
      hide MergeAll, Chosen, SomeActive, Contains;
      assert candidates[n] == after.values[k];
    } else {
      MergedIsChosen(front, key, active, k);
      hide MergeAll, Chosen, SomeActive, Contains;
      var i: nat :| Chosen(front, key, active, k, i) && front[i] == before.values[k];
      assert i < |front| by { ChosenIn(front, key, active, k, i); }
      ChosenExtends(front, key, active, v, k, i);
      assert candidates[i] == after.values[k];
    }
  }

  lemma ChosenIn<V(!new)>(candidates: seq<V>, key: V -> (nat, nat), active: V -> bool, k: (nat, nat), i: nat)
    requires Chosen(candidates, key, active, k, i)
    ensures i < |candidates|
  {
  }

  /** The i-th candidate has key `a`, and none up to it has key `b`. */
  ghost predicate SeenBefore<V(!new)>(candidates: seq<V>, key: V -> (nat, nat), a: (nat, nat), b: (nat, nat), i: nat) {
    i < |candidates| && key(candidates[i]) == a && forall j :: 0 <= j <= i ==> key(candidates[j]) != b
  }

  ghost predicate Precedes<V(!new)>(candidates: seq<V>, key: V -> (nat, nat), a: (nat, nat), b: (nat, nat)) {
    exists i: nat :: SeenBefore(candidates, key, a, b, i)
  }

  /** Keys stand in the order of their first candidates. */
  ghost predicate InFirstOrder<V(!new)>(keys: seq<(nat, nat)>, candidates: seq<V>, key: V -> (nat, nat)) {
    forall a, b :: 0 <= a < b < |keys| ==> Precedes(candidates, key, keys[a], keys[b])
  }

  lemma {:induction false} PrecedesExtends<V(!new)>(front: seq<V>, key: V -> (nat, nat), v: V, a: (nat, nat), b: (nat, nat))
    ensures Precedes(front, key, a, b) ==> Precedes(front + [v], key, a, b)
    ensures Contains(front, key, a) && !Contains(front, key, b) ==> Precedes(front + [v], key, a, b)
  {
    var all := front + [v];
    assert forall j :: 0 <= j < |front| ==> all[j] == front[j];
    if Precedes(front, key, a, b) {
      var i: nat :| SeenBefore(front, key, a, b, i);
      assert SeenBefore(all, key, a, b, i);
    }
    if Contains(front, key, a) && !Contains(front, key, b) {
      var i :| 0 <= i < |front| && key(front[i]) == a;
      assert SeenBefore(all, key, a, b, i);
    }
  }

  lemma {:induction false} MergedInOrder<V(!new)>(candidates: seq<V>, key: V -> (nat, nat), active: V -> bool)
    ensures InFirstOrder(MergeAll(candidates, key, active).keys, candidates, key)
  {
    if candidates != [] {
      var n := |candidates| - 1;
      var front, v := candidates[..n], candidates[n];
      MergedInOrder(front, key, active);
      ActiveMerged(front, key, active);
      assert candidates == front + [v];
      var before, after := MergeAll(front, key, active), MergeAll(candidates, key, active);
      assert after.keys == before.keys || (after.keys == before.keys + [key(v)] && key(v) !in before.values);
      hide MergeAll, Precedes, SomeActive, Contains;
      forall a, b | 0 <= a < b < |after.keys|
        ensures Precedes(candidates, key, after.keys[a], after.keys[b])
      {
        PrecedesExtends(front, key, v, after.keys[a], after.keys[b]);
        if b == |before.keys| { assert before.keys[a] in before.keys; }
      }
    }
  }
}
