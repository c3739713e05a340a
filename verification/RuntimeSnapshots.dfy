/**
 * Runtime snapshots: the unique indexes beside the collections, the list of references that do not
 * resolve, and what the constructor accepts.
 */
module RuntimeSnapshots {
  import opened Wrappers
  import opened Events

  datatype Direction = Input | Output | UnknownDirection

  datatype Device = Device(id: nat, parameterIds: seq<string>, profileIds: seq<nat>, routeIds: seq<nat>)
  datatype Node = Node(
    id: nat, deviceId: Option<nat>, inputPortIds: seq<nat>, outputPortIds: seq<nat>, parameterIds: seq<string>)
  datatype Port = Port(id: nat, nodeId: nat, direction: Direction, parameterIds: seq<string>)
  datatype Link = Link(
    id: nat, outputNodeId: nat, outputPortId: nat, inputNodeId: nat, inputPortId: nat,
    owner: Option<string>, desiredId: Option<string>)
  datatype MetadataEntry = MetadataEntry(subject: nat, key: string, typeName: Option<string>, value: Option<string>)
  datatype Metadata = Metadata(id: nat, entries: seq<MetadataEntry>)
  datatype Parameter = Parameter(ownerType: string, ownerId: nat, id: string)
  datatype Profile = Profile(deviceId: nat, index: nat, active: bool)
  datatype Route = Route(deviceId: nat, index: nat, profileIds: seq<nat>, active: bool)

  /** A default target; `None` inside says that its name resolved to no node. */
  datatype Defaults = Defaults(
    metadataId: Option<nat>, audioSink: Option<Option<nat>>, audioSource: Option<Option<nat>>,
    videoSource: Option<Option<nat>>)

  datatype Contents = Contents(
    generation: nat, sequence: nat, healthGeneration: nat,
    devices: seq<Device>, nodes: seq<Node>, ports: seq<Port>, links: seq<Link>, metadata: seq<Metadata>,
    parameters: seq<Parameter>, profiles: seq<Profile>, routes: seq<Route>, defaults: Defaults)

  datatype Reason = Absent | WrongPort | WrongOutput | WrongInput | UnsupportedOwner

  datatype Reference =
    | Reference(sourceType: string, source: Identity, relation: string, targetType: string, target: Identity)

  datatype Unresolved = Unresolved(reference: Reference, reason: Reason)

  datatype Indexes = Indexes(
    devices: map<nat, Device>, nodes: map<nat, Node>, ports: map<nat, Port>, links: map<nat, Link>,
    metadata: map<nat, Metadata>, parameters: map<(string, nat, string), Parameter>,
    profiles: map<(nat, nat), Profile>, routes: map<(nat, nat), Route>)

  // ----- unique indexes -----

  predicate DistinctKeys<K(==), V>(values: seq<V>, key: V -> K) {
    forall i, j :: 0 <= i < j < |values| ==> key(values[i]) != key(values[j])
  }

  /** `_unique_index`; None is the duplicate-key error. */
  function UniqueIndex<K, V>(values: seq<V>, key: V -> K): (r: Option<map<K, V>>)
  {
    if values == [] then Some(map[])
    else
      var n := |values| - 1;
      match UniqueIndex(values[..n], key)
      case None => None
      case Some(m) => if key(values[n]) in m then None else Some(m[key(values[n]) := values[n]])
  }

  /** Linear search for a key. */
  predicate Contains<K(==), V>(values: seq<V>, key: V -> K, k: K) {
    exists i :: 0 <= i < |values| && key(values[i]) == k
  }

  /** An index that answers every question as a linear search would. */
  ghost predicate Agrees<K(!new), V>(m: map<K, V>, values: seq<V>, key: V -> K) {
    && (forall k :: k in m <==> Contains(values, key, k))
    && (forall i :: 0 <= i < |values| ==> key(values[i]) in m && m[key(values[i])] == values[i])
  }

  lemma {:induction false} AgreesExtends<K(!new), V>(m: map<K, V>, values: seq<V>, key: V -> K, v: V)
    requires Agrees(m, values, key) && key(v) !in m
    ensures Agrees(m[key(v) := v], values + [v], key)
  {
    var more := values + [v];
    forall k
      ensures k in m[key(v) := v] <==> Contains(more, key, k)
    {
      if Contains(values, key, k) {
        var i :| 0 <= i < |values| && key(values[i]) == k;
        assert key(more[i]) == k;
      }
      assert key(more[|values|]) == key(v);
      if Contains(more, key, k) && k != key(v) {
        var i :| 0 <= i < |more| && key(more[i]) == k;
        assert key(values[i]) == k;
      }
    }
  }

  lemma {:induction false} DistinctExtends<K(!new), V>(values: seq<V>, key: V -> K, v: V)
    ensures DistinctKeys(values + [v], key) <==> DistinctKeys(values, key) && !Contains(values, key, key(v))
  {
    var more, n := values + [v], |values|;
    assert forall i :: 0 <= i < n ==> more[i] == values[i];
    assert more[n] == v;
    if DistinctKeys(more, key) {
      assert forall i, j :: 0 <= i < j < n ==> key(more[i]) != key(more[j]);
      assert forall i :: 0 <= i < n ==> key(more[i]) != key(more[n]);
    }
  }

  /** An index exists exactly when no key repeats, and then agrees with linear search. */
  lemma {:induction false} UniqueIndexIff<K(!new), V>(values: seq<V>, key: V -> K)
    ensures UniqueIndex(values, key).Some? <==> DistinctKeys(values, key)
    ensures UniqueIndex(values, key).Some? ==> Agrees(UniqueIndex(values, key).value, values, key)
  {
    if values != [] {
      var n := |values| - 1;
      var front, v := values[..n], values[n];
      UniqueIndexIff(front, key);
      assert values == front + [v];
      DistinctExtends(front, key, v);
      var r := UniqueIndex(front, key);
      if r.Some? && key(v) !in r.value { AgreesExtends(r.value, front, key, v); }
      hide DistinctKeys, Contains;
    }
  }

  method BuildIndex<K(==), V>(values: seq<V>, key: V -> K) returns (r: Option<map<K, V>>)
    ensures r == UniqueIndex(values, key)
  {
    var result: map<K, V> := map[];
    var i := 0;
    while i < |values|
      invariant 0 <= i <= |values|
      invariant UniqueIndex(values[..i], key) == Some(result)
    {
      assert values[..i + 1][..i] == values[..i];
      var k := key(values[i]);
      if k in result {
        NoIndexBeyond(values, key, i + 1);
        return None;
      }
      result := result[k := values[i]];
      i := i + 1;
    }
    assert values[..i] == values;
    return Some(result);
  }

  lemma {:induction false} NoIndexBeyond<K, V>(values: seq<V>, key: V -> K, n: nat)
    requires n <= |values| && UniqueIndex(values[..n], key).None?
    ensures UniqueIndex(values, key).None?
    decreases |values|
  {
    if n < |values| {
      var front := values[..|values| - 1];
      assert front[..n] == values[..n];
      NoIndexBeyond(front, key, n);
    } else {
      assert values[..n] == values;
    }
  }

  function ParameterKey(p: Parameter): (string, nat, string) { (p.ownerType, p.ownerId, p.id) }
  function ProfileKey(p: Profile): (nat, nat) { (p.deviceId, p.index) }
  function RouteKey(r: Route): (nat, nat) { (r.deviceId, r.index) }
  function DeviceId(d: Device): nat { d.id }
  function NodeId(n: Node): nat { n.id }
  function PortId(p: Port): nat { p.id }
  function LinkId(l: Link): nat { l.id }
  function MetadataId(m: Metadata): nat { m.id }

  function IndexesOf(c: Contents): Option<Indexes> {
    var d, n := UniqueIndex(c.devices, DeviceId), UniqueIndex(c.nodes, NodeId);
    var p, l := UniqueIndex(c.ports, PortId), UniqueIndex(c.links, LinkId);
    var m, a := UniqueIndex(c.metadata, MetadataId), UniqueIndex(c.parameters, ParameterKey);
    var f, r := UniqueIndex(c.profiles, ProfileKey), UniqueIndex(c.routes, RouteKey);
    if d.Some? && n.Some? && p.Some? && l.Some? && m.Some? && a.Some? && f.Some? && r.Some?
    then Some(Indexes(d.value, n.value, p.value, l.value, m.value, a.value, f.value, r.value))
    else None
  }

  // ----- unresolved references -----

  function FlatMap<T, U>(values: seq<T>, f: T -> seq<U>): seq<U> {
    if values == [] then [] else f(values[0]) + FlatMap(values[1..], f)
  }

  lemma {:induction false} FlatMapEmpty<T, U>(values: seq<T>, f: T -> seq<U>)
    ensures FlatMap(values, f) == [] <==> forall i :: 0 <= i < |values| ==> f(values[i]) == []
  {
    if values != [] {
      FlatMapEmpty(values[1..], f);
      if f(values[0]) == [] && forall i :: 0 <= i < |values[1..]| ==> f(values[1..][i]) == [] {
        forall i | 0 <= i < |values| ensures f(values[i]) == [] {
          if i > 0 { assert values[1..][i - 1] == values[i]; }
        }
      }
      if forall i :: 0 <= i < |values| ==> f(values[i]) == [] {
        assert forall i :: 0 <= i < |values[1..]| ==> values[1..][i] == values[i + 1];
      }
    }
  }

  function Missing(broken: bool, sourceType: string, source: Identity, relation: string, targetType: string,
                   target: Identity, reason: Reason): seq<Unresolved> {
    if broken then [Unresolved(Reference(sourceType, source, relation, targetType, target), reason)] else []
  }

  function DeviceMissing(x: Indexes, d: Device): seq<Unresolved> {
    FlatMap(d.parameterIds, (id: string) =>
      Missing(("device", d.id, id) !in x.parameters, "device", Number(d.id), "parameter", "parameter", Text(id), Absent))
    + FlatMap(d.profileIds, (id: nat) =>
      Missing((d.id, id) !in x.profiles, "device", Number(d.id), "profile", "profile", Number(id), Absent))
    + FlatMap(d.routeIds, (id: nat) =>
      Missing((d.id, id) !in x.routes, "device", Number(d.id), "route", "route", Number(id), Absent))
  }

  function NodePortMissing(x: Indexes, n: Node, id: nat, direction: Direction, relation: string): seq<Unresolved> {
    if id !in x.ports then Missing(true, "node", Number(n.id), relation, "port", Number(id), Absent)
    else Missing(x.ports[id].nodeId != n.id || x.ports[id].direction != direction,
                 "node", Number(n.id), relation, "port", Number(id), WrongPort)
  }

  function NodeMissing(x: Indexes, n: Node): seq<Unresolved> {
    (if n.deviceId.Some? then
       Missing(n.deviceId.value !in x.devices, "node", Number(n.id), "device", "device", Number(n.deviceId.value), Absent)
     else [])
    + FlatMap(n.parameterIds, (id: string) =>
      Missing(("node", n.id, id) !in x.parameters, "node", Number(n.id), "parameter", "parameter", Text(id), Absent))
    + FlatMap(n.inputPortIds, (id: nat) => NodePortMissing(x, n, id, Input, "input_port"))
    + FlatMap(n.outputPortIds, (id: nat) => NodePortMissing(x, n, id, Output, "output_port"))
  }

  function PortMissing(x: Indexes, p: Port): seq<Unresolved> {
    Missing(p.nodeId !in x.nodes, "port", Number(p.id), "node", "node", Number(p.nodeId), Absent)
    + FlatMap(p.parameterIds, (id: string) =>
      Missing(("port", p.id, id) !in x.parameters, "port", Number(p.id), "parameter", "parameter", Text(id), Absent))
  }

  /** Whether a present port is not the given end of a link. */
  predicate Misplaced(x: Indexes, port: nat, node: nat, direction: Direction) {
    port in x.ports && (x.ports[port].nodeId != node || x.ports[port].direction != direction)
  }

  function LinkMissing(x: Indexes, l: Link): seq<Unresolved> {
    Missing(l.outputNodeId !in x.nodes, "link", Number(l.id), "output_node", "node", Number(l.outputNodeId), Absent)
    + Missing(l.inputNodeId !in x.nodes, "link", Number(l.id), "input_node", "node", Number(l.inputNodeId), Absent)
    + Missing(l.outputPortId !in x.ports, "link", Number(l.id), "output_port", "port", Number(l.outputPortId), Absent)
    + Missing(l.inputPortId !in x.ports, "link", Number(l.id), "input_port", "port", Number(l.inputPortId), Absent)
    + Missing(Misplaced(x, l.outputPortId, l.outputNodeId, Output),
              "link", Number(l.id), "output_endpoint", "port", Number(l.outputPortId), WrongOutput)
    + Missing(Misplaced(x, l.inputPortId, l.inputNodeId, Input),
              "link", Number(l.id), "input_endpoint", "port", Number(l.inputPortId), WrongInput)
  }

  function ProfileMissing(x: Indexes, p: Profile): seq<Unresolved> {
    Missing(p.deviceId !in x.devices, "profile", Number(p.index), "device", "device", Number(p.deviceId), Absent)
  }

  function RouteMissing(x: Indexes, r: Route): seq<Unresolved> {
    Missing(r.deviceId !in x.devices, "route", Number(r.index), "device", "device", Number(r.deviceId), Absent)
    + FlatMap(r.profileIds, (id: nat) =>
      Missing((r.deviceId, id) !in x.profiles, "route", Number(r.index), "profile", "profile", Number(id), Absent))
  }

  predicate SupportedOwner(ownerType: string) {
    ownerType in {"device", "node", "port", "link", "metadata"}
  }

  predicate OwnerPresent(x: Indexes, ownerType: string, id: nat) {
    if ownerType == "device" then id in x.devices
    else if ownerType == "node" then id in x.nodes
    else if ownerType == "port" then id in x.ports
    else if ownerType == "link" then id in x.links
    else id in x.metadata
  }

  /** Decimal digits, as the parameter's own identity spells its owner. */
  function Digits(n: nat): string {
    var digit := ['0' + (n % 10) as char];
    if n < 10 then digit else Digits(n / 10) + digit
  }

  function ParameterMissing(x: Indexes, p: Parameter): seq<Unresolved> {
    var source := Text(p.ownerType + ":" + Digits(p.ownerId) + ":" + p.id);
    if !SupportedOwner(p.ownerType) then
      Missing(true, "parameter", source, "owner", p.ownerType, Number(p.ownerId), UnsupportedOwner)
    else
      Missing(!OwnerPresent(x, p.ownerType, p.ownerId), "parameter", source, "owner", p.ownerType, Number(p.ownerId), Absent)
  }

  function TargetMissing(x: Indexes, name: string, target: Option<Option<nat>>): seq<Unresolved> {
    if target.Some? && target.value.Some? then
      Missing(target.value.value !in x.nodes, "defaults", Text(name), "resolved_node", "node",
              Number(target.value.value), Absent)
    else []
  }

  function DefaultsMissing(x: Indexes, d: Defaults): seq<Unresolved> {
    TargetMissing(x, "audio_sink", d.audioSink)
    + TargetMissing(x, "audio_source", d.audioSource)
    + TargetMissing(x, "video_source", d.videoSource)
    + (if d.metadataId.Some? then
         Missing(d.metadataId.value !in x.metadata, "defaults", Text("defaults"), "metadata", "metadata",
                 Number(d.metadataId.value), Absent)
       else [])
  }

  /** `_find_unresolved_relationships` */
  function FindUnresolved(x: Indexes, c: Contents): seq<Unresolved> {
    FlatMap(c.devices, (v: Device) => DeviceMissing(x, v))
    + FlatMap(c.nodes, (v: Node) => NodeMissing(x, v))
    + FlatMap(c.ports, (v: Port) => PortMissing(x, v))
    + FlatMap(c.links, (v: Link) => LinkMissing(x, v))
    + FlatMap(c.profiles, (v: Profile) => ProfileMissing(x, v))
    + FlatMap(c.routes, (v: Route) => RouteMissing(x, v))
    + FlatMap(c.parameters, (v: Parameter) => ParameterMissing(x, v))
    + DefaultsMissing(x, c.defaults)
  }

  /** Appends what each value misses, in order. */
  method Collect<T>(values: seq<T>, f: T -> seq<Unresolved>, before: seq<Unresolved>) returns (r: seq<Unresolved>)
    ensures r == before + FlatMap(values, f)
  {
    r := before;
    var i := 0;
    while i < |values|
      invariant 0 <= i <= |values|
      invariant r + FlatMap(values[i..], f) == before + FlatMap(values, f)
    {
      assert values[i..][1..] == values[i + 1..];
      r := r + f(values[i]);
      i := i + 1;
    }
  }

  method FindUnresolvedRelationships(x: Indexes, c: Contents) returns (r: seq<Unresolved>)
    ensures r == FindUnresolved(x, c)
  {
    hide DeviceMissing, NodeMissing, PortMissing, LinkMissing, ProfileMissing, RouteMissing, ParameterMissing;
    hide DefaultsMissing, FlatMap;
    r := Collect(c.devices, (v: Device) => DeviceMissing(x, v), []);
    r := Collect(c.nodes, (v: Node) => NodeMissing(x, v), r);
    r := Collect(c.ports, (v: Port) => PortMissing(x, v), r);
    r := Collect(c.links, (v: Link) => LinkMissing(x, v), r);
    r := Collect(c.profiles, (v: Profile) => ProfileMissing(x, v), r);
    r := Collect(c.routes, (v: Route) => RouteMissing(x, v), r);
    r := Collect(c.parameters, (v: Parameter) => ParameterMissing(x, v), r);
    r := r + DefaultsMissing(x, c.defaults);
  }

  // ----- coherence, said of the collections alone -----

  predicate HasDevice(c: Contents, id: nat) { Contains(c.devices, DeviceId, id) }
  predicate HasNode(c: Contents, id: nat) { Contains(c.nodes, NodeId, id) }
  predicate HasPort(c: Contents, id: nat) { Contains(c.ports, PortId, id) }
  predicate HasMetadata(c: Contents, id: nat) { Contains(c.metadata, MetadataId, id) }
  predicate HasParameter(c: Contents, k: (string, nat, string)) { Contains(c.parameters, ParameterKey, k) }
  predicate HasProfile(c: Contents, k: (nat, nat)) { Contains(c.profiles, ProfileKey, k) }
  predicate HasRoute(c: Contents, k: (nat, nat)) { Contains(c.routes, RouteKey, k) }

  /** A port of this id exists, on this node and in this direction. */
  predicate HasPortOn(c: Contents, id: nat, node: nat, direction: Direction) {
    exists i :: 0 <= i < |c.ports| && c.ports[i].id == id && c.ports[i].nodeId == node && c.ports[i].direction == direction
  }

  predicate DeviceResolves(c: Contents, d: Device) {
    && (forall i :: 0 <= i < |d.parameterIds| ==> HasParameter(c, ("device", d.id, d.parameterIds[i])))
    && (forall i :: 0 <= i < |d.profileIds| ==> HasProfile(c, (d.id, d.profileIds[i])))
    && (forall i :: 0 <= i < |d.routeIds| ==> HasRoute(c, (d.id, d.routeIds[i])))
  }

  predicate NodeResolves(c: Contents, n: Node) {
    && (n.deviceId.Some? ==> HasDevice(c, n.deviceId.value))
    && (forall i :: 0 <= i < |n.parameterIds| ==> HasParameter(c, ("node", n.id, n.parameterIds[i])))
    && (forall i :: 0 <= i < |n.inputPortIds| ==> HasPortOn(c, n.inputPortIds[i], n.id, Input))
    && (forall i :: 0 <= i < |n.outputPortIds| ==> HasPortOn(c, n.outputPortIds[i], n.id, Output))
  }

  predicate PortResolves(c: Contents, p: Port) {
    && HasNode(c, p.nodeId)
    && (forall i :: 0 <= i < |p.parameterIds| ==> HasParameter(c, ("port", p.id, p.parameterIds[i])))
  }

  predicate LinkResolves(c: Contents, l: Link) {
    && HasNode(c, l.outputNodeId) && HasNode(c, l.inputNodeId)
    && HasPortOn(c, l.outputPortId, l.outputNodeId, Output)
    && HasPortOn(c, l.inputPortId, l.inputNodeId, Input)
  }

  predicate RouteResolves(c: Contents, r: Route) {
    && HasDevice(c, r.deviceId)
    && (forall i :: 0 <= i < |r.profileIds| ==> HasProfile(c, (r.deviceId, r.profileIds[i])))
  }

  predicate OwnerResolves(c: Contents, p: Parameter) {
    (p.ownerType == "device" && HasDevice(c, p.ownerId))
    || (p.ownerType == "node" && HasNode(c, p.ownerId))
    || (p.ownerType == "port" && HasPort(c, p.ownerId))
    || (p.ownerType == "link" && Contains(c.links, LinkId, p.ownerId))
    || (p.ownerType == "metadata" && HasMetadata(c, p.ownerId))
  }

  predicate TargetResolves(c: Contents, target: Option<Option<nat>>) {
    target.Some? && target.value.Some? ==> HasNode(c, target.value.value)
  }

  predicate DefaultsResolve(c: Contents, d: Defaults) {
    && TargetResolves(c, d.audioSink) && TargetResolves(c, d.audioSource) && TargetResolves(c, d.videoSource)
    && (d.metadataId.Some? ==> HasMetadata(c, d.metadataId.value))
  }

  predicate DevicesResolve(c: Contents) { forall i :: 0 <= i < |c.devices| ==> DeviceResolves(c, c.devices[i]) }
  predicate NodesResolve(c: Contents) { forall i :: 0 <= i < |c.nodes| ==> NodeResolves(c, c.nodes[i]) }
  predicate PortsResolve(c: Contents) { forall i :: 0 <= i < |c.ports| ==> PortResolves(c, c.ports[i]) }
  predicate LinksResolve(c: Contents) { forall i :: 0 <= i < |c.links| ==> LinkResolves(c, c.links[i]) }
  predicate ProfilesResolve(c: Contents) { forall i :: 0 <= i < |c.profiles| ==> HasDevice(c, c.profiles[i].deviceId) }
  predicate RoutesResolve(c: Contents) { forall i :: 0 <= i < |c.routes| ==> RouteResolves(c, c.routes[i]) }
  predicate OwnersResolve(c: Contents) { forall i :: 0 <= i < |c.parameters| ==> OwnerResolves(c, c.parameters[i]) }

  /** Every reference in the snapshot leads to an object in it with the right owner and direction. */
  predicate Coherent(c: Contents) {
    && DevicesResolve(c)
    && NodesResolve(c)
    && PortsResolve(c)
    && LinksResolve(c)
    && ProfilesResolve(c)
    && RoutesResolve(c)
    && OwnersResolve(c)
    && DefaultsResolve(c, c.defaults)
  }

  // ----- indexes against collections -----

  /** Every index agrees with linear search over its collection. */
  ghost predicate Mirrors(x: Indexes, c: Contents) {
    && Agrees(x.devices, c.devices, DeviceId) && Agrees(x.nodes, c.nodes, NodeId)
    && Agrees(x.ports, c.ports, PortId) && Agrees(x.links, c.links, LinkId)
    && Agrees(x.metadata, c.metadata, MetadataId) && Agrees(x.parameters, c.parameters, ParameterKey)
    && Agrees(x.profiles, c.profiles, ProfileKey) && Agrees(x.routes, c.routes, RouteKey)
  }

  predicate NoDuplicates(c: Contents) {
    && DistinctKeys(c.devices, DeviceId) && DistinctKeys(c.nodes, NodeId)
    && DistinctKeys(c.ports, PortId) && DistinctKeys(c.links, LinkId)
    && DistinctKeys(c.metadata, MetadataId) && DistinctKeys(c.parameters, ParameterKey)
    && DistinctKeys(c.profiles, ProfileKey) && DistinctKeys(c.routes, RouteKey)
  }

  /** The indexes exist exactly when no key repeats, and then mirror the collections. */
  lemma {:induction false} IndexesIff(c: Contents)
    ensures IndexesOf(c).Some? <==> NoDuplicates(c)
    ensures IndexesOf(c).Some? ==> Mirrors(IndexesOf(c).value, c)
  {
    UniqueIndexIff(c.devices, DeviceId);
    UniqueIndexIff(c.nodes, NodeId);
    UniqueIndexIff(c.ports, PortId);
    UniqueIndexIff(c.links, LinkId);
    UniqueIndexIff(c.metadata, MetadataId);
    UniqueIndexIff(c.parameters, ParameterKey);
    UniqueIndexIff(c.profiles, ProfileKey);
    UniqueIndexIff(c.routes, RouteKey);
    hide UniqueIndex, Agrees, DistinctKeys;
  }

  lemma {:induction false} PortOnIff(x: Indexes, c: Contents, id: nat, node: nat, direction: Direction)
    requires Mirrors(x, c)
    ensures HasPortOn(c, id, node, direction)
       <==> id in x.ports && x.ports[id].nodeId == node && x.ports[id].direction == direction
  {
    if HasPortOn(c, id, node, direction) {
      var i :| 0 <= i < |c.ports| && c.ports[i].id == id && c.ports[i].nodeId == node && c.ports[i].direction == direction;
      assert PortId(c.ports[i]) == id;
    }
    if id in x.ports {
      assert Contains(c.ports, PortId, id);
      var i :| 0 <= i < |c.ports| && PortId(c.ports[i]) == id;
      assert x.ports[id] == c.ports[i];
    }
  }

  lemma {:induction false} DeviceIff(x: Indexes, c: Contents, d: Device)
    requires Mirrors(x, c)
    ensures DeviceMissing(x, d) == [] <==> DeviceResolves(c, d)
  {
    FlatMapEmpty(d.parameterIds, (id: string) =>
      Missing(("device", d.id, id) !in x.parameters, "device", Number(d.id), "parameter", "parameter", Text(id), Absent));
    FlatMapEmpty(d.profileIds, (id: nat) =>
      Missing((d.id, id) !in x.profiles, "device", Number(d.id), "profile", "profile", Number(id), Absent));
    FlatMapEmpty(d.routeIds, (id: nat) =>
      Missing((d.id, id) !in x.routes, "device", Number(d.id), "route", "route", Number(id), Absent));
    hide FlatMap, Contains;
  }

  lemma {:induction false} NodePortsIff(
      x: Indexes, c: Contents, n: Node, ids: seq<nat>, direction: Direction, relation: string)
    requires Mirrors(x, c)
    ensures FlatMap(ids, (id: nat) => NodePortMissing(x, n, id, direction, relation)) == []
       <==> forall i :: 0 <= i < |ids| ==> HasPortOn(c, ids[i], n.id, direction)
  {
    FlatMapEmpty(ids, (id: nat) => NodePortMissing(x, n, id, direction, relation));
    forall i | 0 <= i < |ids|
      ensures NodePortMissing(x, n, ids[i], direction, relation) == [] <==> HasPortOn(c, ids[i], n.id, direction)
    {
      PortOnIff(x, c, ids[i], n.id, direction);
    }
    hide FlatMap, HasPortOn, NodePortMissing, Mirrors;
  }

  lemma {:induction false} NodeIff(x: Indexes, c: Contents, n: Node)
    requires Mirrors(x, c)
    ensures NodeMissing(x, n) == [] <==> NodeResolves(c, n)
  {
    NodePortsIff(x, c, n, n.inputPortIds, Input, "input_port");
    NodePortsIff(x, c, n, n.outputPortIds, Output, "output_port");
    FlatMapEmpty(n.parameterIds, (id: string) =>
      Missing(("node", n.id, id) !in x.parameters, "node", Number(n.id), "parameter", "parameter", Text(id), Absent));
    hide FlatMap, Contains, HasPortOn, NodePortMissing;
  }

  lemma {:induction false} PortIff(x: Indexes, c: Contents, p: Port)
    requires Mirrors(x, c)
    ensures PortMissing(x, p) == [] <==> PortResolves(c, p)
  {
    FlatMapEmpty(p.parameterIds, (id: string) =>
      Missing(("port", p.id, id) !in x.parameters, "port", Number(p.id), "parameter", "parameter", Text(id), Absent));
    hide FlatMap, Contains;
  }

  lemma {:induction false} LinkIff(x: Indexes, c: Contents, l: Link)
    requires Mirrors(x, c)
    ensures LinkMissing(x, l) == [] <==> LinkResolves(c, l)
  {
    PortOnIff(x, c, l.outputPortId, l.outputNodeId, Output);
    PortOnIff(x, c, l.inputPortId, l.inputNodeId, Input);
    hide Contains, HasPortOn;
  }

  lemma {:induction false} RouteIff(x: Indexes, c: Contents, r: Route)
    requires Mirrors(x, c)
    ensures RouteMissing(x, r) == [] <==> RouteResolves(c, r)
  {
    FlatMapEmpty(r.profileIds, (id: nat) =>
      Missing((r.deviceId, id) !in x.profiles, "route", Number(r.index), "profile", "profile", Number(id), Absent));
    hide FlatMap, Contains;
  }

  lemma {:induction false} ParameterIff(x: Indexes, c: Contents, p: Parameter)
    requires Mirrors(x, c)
    ensures ParameterMissing(x, p) == [] <==> OwnerResolves(c, p)
  {
    hide Contains;
  }

  lemma {:induction false} DefaultsIff(x: Indexes, c: Contents)
    requires Mirrors(x, c)
    ensures DefaultsMissing(x, c.defaults) == [] <==> DefaultsResolve(c, c.defaults)
  {
    hide Contains;
  }

  lemma {:induction false} DevicesIff(x: Indexes, c: Contents)
    requires Mirrors(x, c)
    ensures FlatMap(c.devices, (v: Device) => DeviceMissing(x, v)) == []
       <==> DevicesResolve(c)
  {
    FlatMapEmpty(c.devices, (v: Device) => DeviceMissing(x, v));
    forall i | 0 <= i < |c.devices|
      ensures DeviceMissing(x, c.devices[i]) == [] <==> DeviceResolves(c, c.devices[i])
    {
      DeviceIff(x, c, c.devices[i]);
    }
    hide FlatMap, Mirrors, DeviceMissing, DeviceResolves;
  }

  lemma {:induction false} NodesIff(x: Indexes, c: Contents)
    requires Mirrors(x, c)
    ensures FlatMap(c.nodes, (v: Node) => NodeMissing(x, v)) == []
       <==> NodesResolve(c)
  {
    FlatMapEmpty(c.nodes, (v: Node) => NodeMissing(x, v));
    forall i | 0 <= i < |c.nodes|
      ensures NodeMissing(x, c.nodes[i]) == [] <==> NodeResolves(c, c.nodes[i])
    {
      NodeIff(x, c, c.nodes[i]);
    }
    hide FlatMap, Mirrors, NodeMissing, NodeResolves;
  }

  lemma {:induction false} PortsIff(x: Indexes, c: Contents)
    requires Mirrors(x, c)
    ensures FlatMap(c.ports, (v: Port) => PortMissing(x, v)) == []
       <==> PortsResolve(c)
  {
    FlatMapEmpty(c.ports, (v: Port) => PortMissing(x, v));
    forall i | 0 <= i < |c.ports|
      ensures PortMissing(x, c.ports[i]) == [] <==> PortResolves(c, c.ports[i])
    {
      PortIff(x, c, c.ports[i]);
    }
    hide FlatMap, Mirrors, PortMissing, PortResolves;
  }

  lemma {:induction false} LinksIff(x: Indexes, c: Contents)
    requires Mirrors(x, c)
    ensures FlatMap(c.links, (v: Link) => LinkMissing(x, v)) == []
       <==> LinksResolve(c)
  {
    FlatMapEmpty(c.links, (v: Link) => LinkMissing(x, v));
    forall i | 0 <= i < |c.links|
      ensures LinkMissing(x, c.links[i]) == [] <==> LinkResolves(c, c.links[i])
    {
      LinkIff(x, c, c.links[i]);
    }
    hide FlatMap, Mirrors, LinkMissing, LinkResolves;
  }

  lemma {:induction false} ProfilesIff(x: Indexes, c: Contents)
    requires Mirrors(x, c)
    ensures FlatMap(c.profiles, (v: Profile) => ProfileMissing(x, v)) == []
       <==> ProfilesResolve(c)
  {
    FlatMapEmpty(c.profiles, (v: Profile) => ProfileMissing(x, v));
    forall i | 0 <= i < |c.profiles|
      ensures ProfileMissing(x, c.profiles[i]) == [] <==> HasDevice(c, c.profiles[i].deviceId)
    {
      assert c.profiles[i].deviceId in x.devices <==> HasDevice(c, c.profiles[i].deviceId);
    }
    hide FlatMap, Mirrors, ProfileMissing, HasDevice;
  }

  lemma {:induction false} RoutesIff(x: Indexes, c: Contents)
    requires Mirrors(x, c)
    ensures FlatMap(c.routes, (v: Route) => RouteMissing(x, v)) == []
       <==> RoutesResolve(c)
  {
    FlatMapEmpty(c.routes, (v: Route) => RouteMissing(x, v));
    forall i | 0 <= i < |c.routes|
      ensures RouteMissing(x, c.routes[i]) == [] <==> RouteResolves(c, c.routes[i])
    {
      RouteIff(x, c, c.routes[i]);
    }
    hide FlatMap, Mirrors, RouteMissing, RouteResolves;
  }

  lemma {:induction false} ParametersIff(x: Indexes, c: Contents)
    requires Mirrors(x, c)
    ensures FlatMap(c.parameters, (v: Parameter) => ParameterMissing(x, v)) == []
       <==> OwnersResolve(c)
  {
    FlatMapEmpty(c.parameters, (v: Parameter) => ParameterMissing(x, v));
    forall i | 0 <= i < |c.parameters|
      ensures ParameterMissing(x, c.parameters[i]) == [] <==> OwnerResolves(c, c.parameters[i])
    {
      ParameterIff(x, c, c.parameters[i]);
    }
    hide FlatMap, Mirrors, ParameterMissing, OwnerResolves;
  }

  lemma {:induction false} EmptyParts<T>(
      a: seq<T>, b: seq<T>, c: seq<T>, d: seq<T>, e: seq<T>, f: seq<T>, g: seq<T>, h: seq<T>)
    ensures a + b + c + d + e + f + g + h == []
       <==> a == [] && b == [] && c == [] && d == [] && e == [] && f == [] && g == [] && h == []
  {
  }

  /** The computed list is empty exactly when every reference resolves. */
  lemma {:induction false} CoherentIff(x: Indexes, c: Contents)
    requires Mirrors(x, c)
    ensures FindUnresolved(x, c) == [] <==> Coherent(c)
  {
    DevicesIff(x, c);
    NodesIff(x, c);
    PortsIff(x, c);
    LinksIff(x, c);
    ProfilesIff(x, c);
    RoutesIff(x, c);
    ParametersIff(x, c);
    DefaultsIff(x, c);
    EmptyParts(
      FlatMap(c.devices, (v: Device) => DeviceMissing(x, v)), FlatMap(c.nodes, (v: Node) => NodeMissing(x, v)),
      FlatMap(c.ports, (v: Port) => PortMissing(x, v)), FlatMap(c.links, (v: Link) => LinkMissing(x, v)),
      FlatMap(c.profiles, (v: Profile) => ProfileMissing(x, v)), FlatMap(c.routes, (v: Route) => RouteMissing(x, v)),
      FlatMap(c.parameters, (v: Parameter) => ParameterMissing(x, v)), DefaultsMissing(x, c.defaults));
    hide Mirrors, FlatMap, DefaultsMissing, DefaultsResolve;
    hide DevicesResolve, NodesResolve, PortsResolve, LinksResolve, ProfilesResolve, RoutesResolve, OwnersResolve;
    hide DeviceMissing, NodeMissing, PortMissing, LinkMissing, ProfileMissing, RouteMissing, ParameterMissing;
  }

  // ----- construction -----

  datatype Snapshot = Snapshot(contents: Contents, indexes: Indexes, unresolved: seq<Unresolved>)

  /** The constructor; None is any of its errors. */
  function Construct(c: Contents, supplied: seq<Unresolved>): Option<Snapshot> {
    if c.healthGeneration != c.generation then None
    else match IndexesOf(c)
      case None => None
      case Some(x) =>
        var computed := FindUnresolved(x, c);
        if supplied != [] && supplied != computed then None else Some(Snapshot(c, x, computed))
  }

  /**
   * Construction succeeds exactly when the generations agree, no key repeats and a supplied list is
   * empty or the computed one; what it gives is coherent exactly when its contents are; and
   * building again from what it serializes gives the same indexes and list.
   */
  lemma {:induction false} ConstructIff(c: Contents, supplied: seq<Unresolved>)
    ensures Construct(c, supplied).Some? <==>
      && c.healthGeneration == c.generation
      && NoDuplicates(c)
      && (supplied == [] || (IndexesOf(c).Some? && supplied == FindUnresolved(IndexesOf(c).value, c)))
    ensures var s := Construct(c, supplied);
      s.Some? ==>
        && Mirrors(s.value.indexes, c)
        && (s.value.unresolved == [] <==> Coherent(c))
        && Construct(s.value.contents, s.value.unresolved) == s
  {
    IndexesIff(c);
    if IndexesOf(c).Some? { CoherentIff(IndexesOf(c).value, c); }
    hide FindUnresolved, IndexesOf, NoDuplicates, Mirrors, Coherent;
  }
}
