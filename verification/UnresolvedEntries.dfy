/** The list of unresolved references, entry by entry and said of the collections alone. */
module UnresolvedEntries {
  import opened Wrappers
  import opened Events
  import opened RuntimeSnapshots

  // ----- what the collections lack -----

  predicate NoDevice(c: Contents, id: nat) { forall k :: 0 <= k < |c.devices| ==> c.devices[k].id != id }
  predicate NoNode(c: Contents, id: nat) { forall k :: 0 <= k < |c.nodes| ==> c.nodes[k].id != id }
  predicate NoPort(c: Contents, id: nat) { forall k :: 0 <= k < |c.ports| ==> c.ports[k].id != id }
  predicate NoLink(c: Contents, id: nat) { forall k :: 0 <= k < |c.links| ==> c.links[k].id != id }
  predicate NoMetadata(c: Contents, id: nat) { forall k :: 0 <= k < |c.metadata| ==> c.metadata[k].id != id }

  predicate NoParameter(c: Contents, owner: string, id: nat, name: string) {
    forall k :: 0 <= k < |c.parameters| ==>
      c.parameters[k].ownerType != owner || c.parameters[k].ownerId != id || c.parameters[k].id != name
  }

  predicate NoProfile(c: Contents, device: nat, index: nat) {
    forall k :: 0 <= k < |c.profiles| ==> c.profiles[k].deviceId != device || c.profiles[k].index != index
  }

  predicate NoRoute(c: Contents, device: nat, index: nat) {
    forall k :: 0 <= k < |c.routes| ==> c.routes[k].deviceId != device || c.routes[k].index != index
  }

  /** There is such a port, but on another node or in another direction. */
  predicate PortElsewhere(c: Contents, id: nat, node: nat, direction: Direction) {
    exists k :: 0 <= k < |c.ports| && c.ports[k].id == id && (c.ports[k].nodeId != node || c.ports[k].direction != direction)
  }

  function Entry(kind: string, id: Identity, relation: string, targetKind: string, target: Identity, reason: Reason)
    : Unresolved
  {
    Unresolved(Reference(kind, id, relation, targetKind, target), reason)
  }

  // ----- the entries of one object -----

  predicate LacksParameter(c: Contents, kind: string, id: nat, names: seq<string>, u: Unresolved) {
    exists j :: 0 <= j < |names| && NoParameter(c, kind, id, names[j])
      && u == Entry(kind, Number(id), "parameter", "parameter", Text(names[j]), Absent)
  }

  predicate LacksProfile(c: Contents, kind: string, id: nat, device: nat, indexes: seq<nat>, u: Unresolved) {
    exists j :: 0 <= j < |indexes| && NoProfile(c, device, indexes[j])
      && u == Entry(kind, Number(id), "profile", "profile", Number(indexes[j]), Absent)
  }

  predicate LacksRoute(c: Contents, device: nat, indexes: seq<nat>, u: Unresolved) {
    exists j :: 0 <= j < |indexes| && NoRoute(c, device, indexes[j])
      && u == Entry("device", Number(device), "route", "route", Number(indexes[j]), Absent)
  }

  predicate OfDevice(c: Contents, d: Device, u: Unresolved) {
    || LacksParameter(c, "device", d.id, d.parameterIds, u)
    || LacksProfile(c, "device", d.id, d.id, d.profileIds, u)
    || LacksRoute(c, d.id, d.routeIds, u)
  }

  predicate LacksPort(c: Contents, n: Node, ids: seq<nat>, direction: Direction, relation: string, u: Unresolved) {
    exists j :: 0 <= j < |ids| && OfNodePort(c, n, ids[j], direction, relation, u)
  }

  predicate OfNode(c: Contents, n: Node, u: Unresolved) {
    || (n.deviceId.Some? && NoDevice(c, n.deviceId.value)
        && u == Entry("node", Number(n.id), "device", "device", Number(n.deviceId.value), Absent))
    || LacksParameter(c, "node", n.id, n.parameterIds, u)
    || LacksPort(c, n, n.inputPortIds, Input, "input_port", u)
    || LacksPort(c, n, n.outputPortIds, Output, "output_port", u)
  }

  predicate OfNodePort(c: Contents, n: Node, id: nat, direction: Direction, relation: string, u: Unresolved) {
    || (NoPort(c, id) && u == Entry("node", Number(n.id), relation, "port", Number(id), Absent))
    || (PortElsewhere(c, id, n.id, direction) && u == Entry("node", Number(n.id), relation, "port", Number(id), WrongPort))
  }

  predicate OfPort(c: Contents, p: Port, u: Unresolved) {
    || (NoNode(c, p.nodeId) && u == Entry("port", Number(p.id), "node", "node", Number(p.nodeId), Absent))
    || LacksParameter(c, "port", p.id, p.parameterIds, u)
  }

  predicate OfLink(c: Contents, l: Link, u: Unresolved) {
    || (NoNode(c, l.outputNodeId)
        && u == Entry("link", Number(l.id), "output_node", "node", Number(l.outputNodeId), Absent))
    || (NoNode(c, l.inputNodeId)
        && u == Entry("link", Number(l.id), "input_node", "node", Number(l.inputNodeId), Absent))
    || (NoPort(c, l.outputPortId)
        && u == Entry("link", Number(l.id), "output_port", "port", Number(l.outputPortId), Absent))
    || (NoPort(c, l.inputPortId)
        && u == Entry("link", Number(l.id), "input_port", "port", Number(l.inputPortId), Absent))
    || (PortElsewhere(c, l.outputPortId, l.outputNodeId, Output)
        && u == Entry("link", Number(l.id), "output_endpoint", "port", Number(l.outputPortId), WrongOutput))
    || (PortElsewhere(c, l.inputPortId, l.inputNodeId, Input)
        && u == Entry("link", Number(l.id), "input_endpoint", "port", Number(l.inputPortId), WrongInput))
  }

  predicate OfProfile(c: Contents, p: Profile, u: Unresolved) {
    NoDevice(c, p.deviceId) && u == Entry("profile", Number(p.index), "device", "device", Number(p.deviceId), Absent)
  }

  predicate OfRoute(c: Contents, r: Route, u: Unresolved) {
    || (NoDevice(c, r.deviceId) && u == Entry("route", Number(r.index), "device", "device", Number(r.deviceId), Absent))
    || LacksProfile(c, "route", r.index, r.deviceId, r.profileIds, u)
  }

  /** The owner's kind has a collection, and it lacks the owner. */
  predicate NoOwner(c: Contents, kind: string, id: nat) {
    || (kind == "device" && NoDevice(c, id))
    || (kind == "node" && NoNode(c, id))
    || (kind == "port" && NoPort(c, id))
    || (kind == "link" && NoLink(c, id))
    || (kind == "metadata" && NoMetadata(c, id))
  }

  /** "kind:number:name", the number in decimal digits. */
  function ParameterName(p: Parameter): string { p.ownerType + ":" + Digits(p.ownerId) + ":" + p.id }

  predicate OfParameter(c: Contents, p: Parameter, u: Unresolved) {
    || (p.ownerType != "device" && p.ownerType != "node" && p.ownerType != "port" && p.ownerType != "link"
        && p.ownerType != "metadata"
        && u == Entry("parameter", Text(ParameterName(p)), "owner", p.ownerType, Number(p.ownerId), UnsupportedOwner))
    || (NoOwner(c, p.ownerType, p.ownerId)
        && u == Entry("parameter", Text(ParameterName(p)), "owner", p.ownerType, Number(p.ownerId), Absent))
  }

  predicate OfTarget(c: Contents, name: string, target: Option<Option<nat>>, u: Unresolved) {
    target.Some? && target.value.Some? && NoNode(c, target.value.value)
    && u == Entry("defaults", Text(name), "resolved_node", "node", Number(target.value.value), Absent)
  }

  predicate OfDefaults(c: Contents, d: Defaults, u: Unresolved) {
    || OfTarget(c, "audio_sink", d.audioSink, u)
    || OfTarget(c, "audio_source", d.audioSource, u)
    || OfTarget(c, "video_source", d.videoSource, u)
    || (d.metadataId.Some? && NoMetadata(c, d.metadataId.value)
        && u == Entry("defaults", Text("defaults"), "metadata", "metadata", Number(d.metadataId.value), Absent))
  }

  /** The decimal digits of a number say which it is. */
  function ValueOf(digits: string): int {
    if digits == [] then 0 else 10 * ValueOf(digits[..|digits| - 1]) + (digits[|digits| - 1] as int - '0' as int)
  }

  lemma {:induction false} DigitsRead(n: nat)
    ensures ValueOf(Digits(n)) == n
    ensures forall i :: 0 <= i < |Digits(n)| ==> '0' <= Digits(n)[i] <= '9'
    ensures |Digits(n)| > 0 && (Digits(n)[0] == '0' ==> n == 0)
  {
    var last := ['0' + (n % 10) as char];
    assert last[..0] == [];
    if n >= 10 {
      DigitsRead(n / 10);
      var front := Digits(n / 10);
      assert (front + last)[..|front|] == front;
    } else {
      assert ValueOf(last) == 10 * ValueOf([]) + n;
    }
  }

  // ----- indexes against what the collections lack -----

  lemma {:induction false} LacksIff(x: Indexes, c: Contents)
    requires Mirrors(x, c)
    ensures forall id :: id !in x.devices <==> NoDevice(c, id)
    ensures forall id :: id !in x.nodes <==> NoNode(c, id)
    ensures forall id :: id !in x.ports <==> NoPort(c, id)
    ensures forall id :: id !in x.links <==> NoLink(c, id)
    ensures forall id :: id !in x.metadata <==> NoMetadata(c, id)
  {
  }

  lemma {:induction false} LacksKeyIff(x: Indexes, c: Contents, owner: string, id: nat, name: string, index: nat)
    requires Mirrors(x, c)
    ensures (owner, id, name) !in x.parameters <==> NoParameter(c, owner, id, name)
    ensures (id, index) !in x.profiles <==> NoProfile(c, id, index)
    ensures (id, index) !in x.routes <==> NoRoute(c, id, index)
  {
  }

  lemma {:induction false} ElsewhereIff(x: Indexes, c: Contents, id: nat, node: nat, direction: Direction)
    requires Mirrors(x, c)
    ensures PortElsewhere(c, id, node, direction)
       <==> id in x.ports && (x.ports[id].nodeId != node || x.ports[id].direction != direction)
  {
    if id in x.ports {
      assert Contains(c.ports, PortId, id);
      var k :| 0 <= k < |c.ports| && PortId(c.ports[k]) == id;
      assert x.ports[id] == c.ports[k];
    }
    if PortElsewhere(c, id, node, direction) {
      var k :| 0 <= k < |c.ports| && c.ports[k].id == id && (c.ports[k].nodeId != node || c.ports[k].direction != direction);
      assert PortId(c.ports[k]) == id && x.ports[id] == c.ports[k];
    }
  }

  lemma {:induction false} InFlatMap<T, U>(values: seq<T>, f: T -> seq<U>, u: U)
    ensures u in FlatMap(values, f) <==> exists i :: 0 <= i < |values| && u in f(values[i])
  {
    if values != [] {
      var rest := values[1..];
      InFlatMap(rest, f, u);
      if i :| 0 <= i < |rest| && u in f(rest[i]) { assert u in f(values[i + 1]); }
      if i :| 0 <= i < |values| && u in f(values[i]) {
        if i > 0 { assert u in f(rest[i - 1]); }
      }
    }
  }

  // ----- the entries of one object, against the code -----

  lemma {:induction false} ParameterReferences(
      x: Indexes, c: Contents, kind: string, id: nat, names: seq<string>, u: Unresolved)
    requires Mirrors(x, c)
    ensures u in FlatMap(names, (name: string) =>
        Missing((kind, id, name) !in x.parameters, kind, Number(id), "parameter", "parameter", Text(name), Absent))
      <==> LacksParameter(c, kind, id, names, u)
  {
    forall name: string ensures (kind, id, name) !in x.parameters <==> NoParameter(c, kind, id, name) {
      LacksKeyIff(x, c, kind, id, name, 0);
    }
    hide Mirrors, NoParameter;
    InFlatMap(names, (name: string) =>
      Missing((kind, id, name) !in x.parameters, kind, Number(id), "parameter", "parameter", Text(name), Absent), u);
    hide FlatMap;
  }

  lemma {:induction false} ProfileReferences(
      x: Indexes, c: Contents, kind: string, id: nat, device: nat, indexes: seq<nat>, u: Unresolved)
    requires Mirrors(x, c)
    ensures u in FlatMap(indexes, (index: nat) =>
        Missing((device, index) !in x.profiles, kind, Number(id), "profile", "profile", Number(index), Absent))
      <==> LacksProfile(c, kind, id, device, indexes, u)
  {
    forall index: nat ensures (device, index) !in x.profiles <==> NoProfile(c, device, index) {
      LacksKeyIff(x, c, "", device, "", index);
    }
    hide Mirrors, NoProfile;
    InFlatMap(indexes, (index: nat) =>
      Missing((device, index) !in x.profiles, kind, Number(id), "profile", "profile", Number(index), Absent), u);
    hide FlatMap;
  }

  lemma {:induction false} RouteReferences(x: Indexes, c: Contents, device: nat, indexes: seq<nat>, u: Unresolved)
    requires Mirrors(x, c)
    ensures u in FlatMap(indexes, (index: nat) =>
        Missing((device, index) !in x.routes, "device", Number(device), "route", "route", Number(index), Absent))
      <==> LacksRoute(c, device, indexes, u)
  {
    forall index: nat ensures (device, index) !in x.routes <==> NoRoute(c, device, index) {
      LacksKeyIff(x, c, "", device, "", index);
    }
    hide Mirrors, NoRoute;
    InFlatMap(indexes, (index: nat) =>
      Missing((device, index) !in x.routes, "device", Number(device), "route", "route", Number(index), Absent), u);
    hide FlatMap;
  }

  lemma {:induction false} DeviceEntries(x: Indexes, c: Contents, d: Device, u: Unresolved)
    requires Mirrors(x, c)
    ensures u in DeviceMissing(x, d) <==> OfDevice(c, d, u)
  {
    ParameterReferences(x, c, "device", d.id, d.parameterIds, u);
    ProfileReferences(x, c, "device", d.id, d.id, d.profileIds, u);
    RouteReferences(x, c, d.id, d.routeIds, u);
    hide Mirrors, FlatMap, Missing, LacksParameter, LacksProfile, LacksRoute;
  }

  lemma {:induction false} NodePortEntries(
      x: Indexes, c: Contents, n: Node, id: nat, direction: Direction, relation: string, u: Unresolved)
    requires Mirrors(x, c)
    ensures u in NodePortMissing(x, n, id, direction, relation) <==> OfNodePort(c, n, id, direction, relation, u)
  {
    LacksIff(x, c);
    ElsewhereIff(x, c, id, n.id, direction);
    hide Mirrors, NoPort, PortElsewhere, NoDevice, NoNode, NoLink, NoMetadata;
  }

  lemma {:induction false} PortReferences(
      x: Indexes, c: Contents, n: Node, ids: seq<nat>, direction: Direction, relation: string, u: Unresolved)
    requires Mirrors(x, c)
    ensures u in FlatMap(ids, (id: nat) => NodePortMissing(x, n, id, direction, relation))
      <==> LacksPort(c, n, ids, direction, relation, u)
  {
    forall id: nat
      ensures u in NodePortMissing(x, n, id, direction, relation) <==> OfNodePort(c, n, id, direction, relation, u)
    {
      NodePortEntries(x, c, n, id, direction, relation, u);
    }
    hide Mirrors, OfNodePort, NodePortMissing;
    InFlatMap(ids, (id: nat) => NodePortMissing(x, n, id, direction, relation), u);
    hide FlatMap;
  }

  lemma {:induction false} NodeEntries(x: Indexes, c: Contents, n: Node, u: Unresolved)
    requires Mirrors(x, c)
    ensures u in NodeMissing(x, n) <==> OfNode(c, n, u)
  {
    LacksIff(x, c);
    ParameterReferences(x, c, "node", n.id, n.parameterIds, u);
    PortReferences(x, c, n, n.inputPortIds, Input, "input_port", u);
    PortReferences(x, c, n, n.outputPortIds, Output, "output_port", u);
    hide Mirrors, FlatMap, NoDevice, NoNode, NoPort, NoLink, NoMetadata, LacksParameter, LacksPort, NodePortMissing;
  }

  lemma {:induction false} PortEntries(x: Indexes, c: Contents, p: Port, u: Unresolved)
    requires Mirrors(x, c)
    ensures u in PortMissing(x, p) <==> OfPort(c, p, u)
  {
    LacksIff(x, c);
    ParameterReferences(x, c, "port", p.id, p.parameterIds, u);
    hide Mirrors, FlatMap, NoDevice, NoNode, NoPort, NoLink, NoMetadata, LacksParameter;
  }

  lemma {:induction false} LinkEntries(x: Indexes, c: Contents, l: Link, u: Unresolved)
    requires Mirrors(x, c)
    ensures u in LinkMissing(x, l) <==> OfLink(c, l, u)
  {
    LacksIff(x, c);
    ElsewhereIff(x, c, l.outputPortId, l.outputNodeId, Output);
    ElsewhereIff(x, c, l.inputPortId, l.inputNodeId, Input);
    hide Mirrors, NoPort, PortElsewhere, NoDevice, NoNode, NoLink, NoMetadata;
  }

  lemma {:induction false} ProfileEntries(x: Indexes, c: Contents, p: Profile, u: Unresolved)
    requires Mirrors(x, c)
    ensures u in ProfileMissing(x, p) <==> OfProfile(c, p, u)
  {
    LacksIff(x, c);
    hide Mirrors, NoPort, NoDevice, NoNode, NoLink, NoMetadata;
  }

  lemma {:induction false} RouteEntries(x: Indexes, c: Contents, r: Route, u: Unresolved)
    requires Mirrors(x, c)
    ensures u in RouteMissing(x, r) <==> OfRoute(c, r, u)
  {
    LacksIff(x, c);
    ProfileReferences(x, c, "route", r.index, r.deviceId, r.profileIds, u);
    hide Mirrors, FlatMap, NoDevice, NoNode, NoPort, NoLink, NoMetadata, LacksProfile;
  }

  lemma {:induction false} ParameterEntries(x: Indexes, c: Contents, p: Parameter, u: Unresolved)
    requires Mirrors(x, c)
    ensures u in ParameterMissing(x, p) <==> OfParameter(c, p, u)
  {
    LacksIff(x, c);
    OwnerKindsDiffer();
    hide Mirrors, NoPort, NoDevice, NoNode, NoLink, NoMetadata, Digits;
  }

  lemma OwnerKindsDiffer()
    ensures "node" != "port" && "node" != "link" && "port" != "link"
    ensures "device" != "metadata" && "device" != "node" && "metadata" != "node"
  {
    assert "node"[0] != "port"[0] && "node"[0] != "link"[0] && "port"[0] != "link"[0];
  }

  lemma {:induction false} DefaultsEntries(x: Indexes, c: Contents, d: Defaults, u: Unresolved)
    requires Mirrors(x, c)
    ensures u in DefaultsMissing(x, d) <==> OfDefaults(c, d, u)
  {
    LacksIff(x, c);
    hide Mirrors, NoPort, NoDevice, NoNode, NoLink, NoMetadata;
  }

  // ----- the whole list -----

  /** One of the values has the dangling reference. */
  predicate Any<T>(values: seq<T>, of: T -> bool) {
    exists i :: 0 <= i < |values| && of(values[i])
  }

  /** An object of the snapshot has this dangling reference. */
  predicate Dangling(c: Contents, u: Unresolved) {
    || Any(c.devices, (v: Device) => OfDevice(c, v, u))
    || Any(c.nodes, (v: Node) => OfNode(c, v, u))
    || Any(c.ports, (v: Port) => OfPort(c, v, u))
    || Any(c.links, (v: Link) => OfLink(c, v, u))
    || Any(c.profiles, (v: Profile) => OfProfile(c, v, u))
    || Any(c.routes, (v: Route) => OfRoute(c, v, u))
    || Any(c.parameters, (v: Parameter) => OfParameter(c, v, u))
    || OfDefaults(c, c.defaults, u)
  }

  lemma {:induction false} AnyIff<T(!new)>(values: seq<T>, f: T -> seq<Unresolved>, of: T -> bool, u: Unresolved)
    requires forall v :: u in f(v) <==> of(v)
    ensures u in FlatMap(values, f) <==> Any(values, of)
  {
    InFlatMap(values, f, u);
  }

  lemma {:induction false} TopologyListed(x: Indexes, c: Contents, u: Unresolved)
    requires Mirrors(x, c)
    ensures u in FlatMap(c.devices, (v: Device) => DeviceMissing(x, v)) <==> Any(c.devices, (v: Device) => OfDevice(c, v, u))
    ensures u in FlatMap(c.nodes, (v: Node) => NodeMissing(x, v)) <==> Any(c.nodes, (v: Node) => OfNode(c, v, u))
    ensures u in FlatMap(c.ports, (v: Port) => PortMissing(x, v)) <==> Any(c.ports, (v: Port) => OfPort(c, v, u))
    ensures u in FlatMap(c.links, (v: Link) => LinkMissing(x, v)) <==> Any(c.links, (v: Link) => OfLink(c, v, u))
  {
    forall v: Device ensures u in DeviceMissing(x, v) <==> OfDevice(c, v, u) { DeviceEntries(x, c, v, u); }
    forall v: Node ensures u in NodeMissing(x, v) <==> OfNode(c, v, u) { NodeEntries(x, c, v, u); }
    forall v: Port ensures u in PortMissing(x, v) <==> OfPort(c, v, u) { PortEntries(x, c, v, u); }
    forall v: Link ensures u in LinkMissing(x, v) <==> OfLink(c, v, u) { LinkEntries(x, c, v, u); }
    hide *;
    AnyIff(c.devices, (v: Device) => DeviceMissing(x, v), (v: Device) => OfDevice(c, v, u), u);
    AnyIff(c.nodes, (v: Node) => NodeMissing(x, v), (v: Node) => OfNode(c, v, u), u);
    AnyIff(c.ports, (v: Port) => PortMissing(x, v), (v: Port) => OfPort(c, v, u), u);
    AnyIff(c.links, (v: Link) => LinkMissing(x, v), (v: Link) => OfLink(c, v, u), u);
  }

  lemma {:induction false} RecordsListed(x: Indexes, c: Contents, u: Unresolved)
    requires Mirrors(x, c)
    ensures u in FlatMap(c.profiles, (v: Profile) => ProfileMissing(x, v))
      <==> Any(c.profiles, (v: Profile) => OfProfile(c, v, u))
    ensures u in FlatMap(c.routes, (v: Route) => RouteMissing(x, v)) <==> Any(c.routes, (v: Route) => OfRoute(c, v, u))
    ensures u in FlatMap(c.parameters, (v: Parameter) => ParameterMissing(x, v))
      <==> Any(c.parameters, (v: Parameter) => OfParameter(c, v, u))
  {
    forall v: Profile ensures u in ProfileMissing(x, v) <==> OfProfile(c, v, u) { ProfileEntries(x, c, v, u); }
    forall v: Route ensures u in RouteMissing(x, v) <==> OfRoute(c, v, u) { RouteEntries(x, c, v, u); }
    forall v: Parameter ensures u in ParameterMissing(x, v) <==> OfParameter(c, v, u) { ParameterEntries(x, c, v, u); }
    hide *;
    AnyIff(c.profiles, (v: Profile) => ProfileMissing(x, v), (v: Profile) => OfProfile(c, v, u), u);
    AnyIff(c.routes, (v: Route) => RouteMissing(x, v), (v: Route) => OfRoute(c, v, u), u);
    AnyIff(c.parameters, (v: Parameter) => ParameterMissing(x, v), (v: Parameter) => OfParameter(c, v, u), u);
  }

  /** The list holds exactly the dangling references, each with its target and its reason. */
  lemma {:induction false} EntriesIff(x: Indexes, c: Contents, u: Unresolved)
    requires Mirrors(x, c)
    ensures u in FindUnresolved(x, c) <==> Dangling(c, u)
  {
    TopologyListed(x, c, u);
    RecordsListed(x, c, u);
    DefaultsEntries(x, c, c.defaults, u);
    hide Mirrors, FlatMap, Any, DefaultsMissing, OfDefaults;
  }

  // ----- relation by relation -----

  lemma KindsDiffer()
    ensures "node" != "port" && "node" != "link" && "port" != "link"
  {
    assert "node"[0] != "port"[0] && "node"[0] != "link"[0] && "port"[0] != "link"[0];
  }

  lemma {:induction false} TopologyKinds(c: Contents, u: Unresolved)
    ensures Any(c.devices, (v: Device) => OfDevice(c, v, u)) ==> u.reference.sourceType == "device"
    ensures Any(c.nodes, (v: Node) => OfNode(c, v, u)) ==> u.reference.sourceType == "node"
    ensures Any(c.ports, (v: Port) => OfPort(c, v, u)) ==> u.reference.sourceType == "port"
    ensures Any(c.links, (v: Link) => OfLink(c, v, u)) ==> u.reference.sourceType == "link"
  {
    hide NoDevice, NoNode, NoPort, NoParameter, NoProfile, NoRoute, PortElsewhere;
  }

  lemma {:induction false} RecordKinds(c: Contents, u: Unresolved)
    ensures Any(c.profiles, (v: Profile) => OfProfile(c, v, u)) ==> u.reference.sourceType == "profile"
    ensures Any(c.routes, (v: Route) => OfRoute(c, v, u)) ==> u.reference.sourceType == "route"
    ensures Any(c.parameters, (v: Parameter) => OfParameter(c, v, u)) ==> u.reference.sourceType == "parameter"
    ensures OfDefaults(c, c.defaults, u) ==> u.reference.sourceType == "defaults"
  {
    hide NoDevice, NoNode, NoMetadata, NoProfile, NoOwner;
  }

  /** Each entry belongs to an object of the kind it names. */
  lemma {:induction false} ByKind(x: Indexes, c: Contents, u: Unresolved)
    requires Mirrors(x, c)
    ensures var kind := u.reference.sourceType;
      && (kind == "device" ==> (u in FindUnresolved(x, c) <==> Any(c.devices, (v: Device) => OfDevice(c, v, u))))
      && (kind == "node" ==> (u in FindUnresolved(x, c) <==> Any(c.nodes, (v: Node) => OfNode(c, v, u))))
      && (kind == "port" ==> (u in FindUnresolved(x, c) <==> Any(c.ports, (v: Port) => OfPort(c, v, u))))
      && (kind == "link" ==> (u in FindUnresolved(x, c) <==> Any(c.links, (v: Link) => OfLink(c, v, u))))
      && (kind == "profile" ==> (u in FindUnresolved(x, c) <==> Any(c.profiles, (v: Profile) => OfProfile(c, v, u))))
      && (kind == "route" ==> (u in FindUnresolved(x, c) <==> Any(c.routes, (v: Route) => OfRoute(c, v, u))))
      && (kind == "parameter" ==> (u in FindUnresolved(x, c) <==> Any(c.parameters, (v: Parameter) => OfParameter(c, v, u))))
      && (kind == "defaults" ==> (u in FindUnresolved(x, c) <==> OfDefaults(c, c.defaults, u)))
  {
    EntriesIff(x, c, u);
    TopologyKinds(c, u);
    RecordKinds(c, u);
    KindsDiffer();
    hide Mirrors, FindUnresolved, Any, OfDefaults;
  }

  lemma {:induction false} DeviceShows(c: Contents, v: Device, id: nat, name: string, index: nat)
    ensures OfDevice(c, v, Entry("device", Number(id), "parameter", "parameter", Text(name), Absent))
       <==> NoParameter(c, "device", id, name) && v.id == id && name in v.parameterIds
    ensures OfDevice(c, v, Entry("device", Number(id), "profile", "profile", Number(index), Absent))
       <==> NoProfile(c, id, index) && v.id == id && index in v.profileIds
    ensures OfDevice(c, v, Entry("device", Number(id), "route", "route", Number(index), Absent))
       <==> NoRoute(c, id, index) && v.id == id && index in v.routeIds
  {
    hide NoDevice, NoNode, NoPort, NoParameter, NoProfile, NoRoute, PortElsewhere, NoOwner, Digits;
  }

  lemma {:induction false} DeviceListedIff(x: Indexes, c: Contents, id: nat, name: string, index: nat)
    requires Mirrors(x, c)
    ensures Entry("device", Number(id), "parameter", "parameter", Text(name), Absent) in FindUnresolved(x, c)
       <==> && NoParameter(c, "device", id, name)
            && exists i :: 0 <= i < |c.devices| && c.devices[i].id == id && name in c.devices[i].parameterIds
    ensures Entry("device", Number(id), "profile", "profile", Number(index), Absent) in FindUnresolved(x, c)
       <==> && NoProfile(c, id, index)
            && exists i :: 0 <= i < |c.devices| && c.devices[i].id == id && index in c.devices[i].profileIds
    ensures Entry("device", Number(id), "route", "route", Number(index), Absent) in FindUnresolved(x, c)
       <==> && NoRoute(c, id, index)
            && exists i :: 0 <= i < |c.devices| && c.devices[i].id == id && index in c.devices[i].routeIds
  {
    ByKind(x, c, Entry("device", Number(id), "parameter", "parameter", Text(name), Absent));
    ByKind(x, c, Entry("device", Number(id), "profile", "profile", Number(index), Absent));
    ByKind(x, c, Entry("device", Number(id), "route", "route", Number(index), Absent));
    forall v: Device
      ensures OfDevice(c, v, Entry("device", Number(id), "parameter", "parameter", Text(name), Absent)) <==> NoParameter(c, "device", id, name) && v.id == id && name in v.parameterIds
      ensures OfDevice(c, v, Entry("device", Number(id), "profile", "profile", Number(index), Absent)) <==> NoProfile(c, id, index) && v.id == id && index in v.profileIds
      ensures OfDevice(c, v, Entry("device", Number(id), "route", "route", Number(index), Absent)) <==> NoRoute(c, id, index) && v.id == id && index in v.routeIds
    {
      DeviceShows(c, v, id, name, index);
    }
    hide Mirrors, FindUnresolved, NoDevice, NoNode, NoPort, NoParameter, NoProfile, NoRoute, PortElsewhere, NoOwner, Digits;
    hide OfDevice, OfNode, OfPort, OfLink, OfProfile, OfRoute, OfParameter, OfDefaults;
  }

  lemma {:induction false} NodeShows(c: Contents, v: Node, id: nat, name: string, target: nat)
    ensures OfNode(c, v, Entry("node", Number(id), "device", "device", Number(target), Absent))
       <==> NoDevice(c, target) && v.id == id && v.deviceId == Some(target)
    ensures OfNode(c, v, Entry("node", Number(id), "parameter", "parameter", Text(name), Absent))
       <==> NoParameter(c, "node", id, name) && v.id == id && name in v.parameterIds
    ensures OfNode(c, v, Entry("node", Number(id), "input_port", "port", Number(target), Absent))
       <==> NoPort(c, target) && v.id == id && target in v.inputPortIds
    ensures OfNode(c, v, Entry("node", Number(id), "output_port", "port", Number(target), Absent))
       <==> NoPort(c, target) && v.id == id && target in v.outputPortIds
    ensures OfNode(c, v, Entry("node", Number(id), "input_port", "port", Number(target), WrongPort))
       <==> PortElsewhere(c, target, id, Input) && v.id == id && target in v.inputPortIds
    ensures OfNode(c, v, Entry("node", Number(id), "output_port", "port", Number(target), WrongPort))
       <==> PortElsewhere(c, target, id, Output) && v.id == id && target in v.outputPortIds
  {
    hide NoDevice, NoNode, NoPort, NoParameter, NoProfile, NoRoute, PortElsewhere, NoOwner, Digits;
  }

  lemma {:induction false} NodeListedIff(x: Indexes, c: Contents, id: nat, name: string, target: nat)
    requires Mirrors(x, c)
    ensures Entry("node", Number(id), "device", "device", Number(target), Absent) in FindUnresolved(x, c)
       <==> && NoDevice(c, target)
            && exists i :: 0 <= i < |c.nodes| && c.nodes[i].id == id && c.nodes[i].deviceId == Some(target)
    ensures Entry("node", Number(id), "parameter", "parameter", Text(name), Absent) in FindUnresolved(x, c)
       <==> && NoParameter(c, "node", id, name)
            && exists i :: 0 <= i < |c.nodes| && c.nodes[i].id == id && name in c.nodes[i].parameterIds
  {
    ByKind(x, c, Entry("node", Number(id), "device", "device", Number(target), Absent));
    ByKind(x, c, Entry("node", Number(id), "parameter", "parameter", Text(name), Absent));
    forall v: Node
      ensures OfNode(c, v, Entry("node", Number(id), "device", "device", Number(target), Absent)) <==> NoDevice(c, target) && v.id == id && v.deviceId == Some(target)
      ensures OfNode(c, v, Entry("node", Number(id), "parameter", "parameter", Text(name), Absent)) <==> NoParameter(c, "node", id, name) && v.id == id && name in v.parameterIds
    {
      NodeShows(c, v, id, name, target);
    }
    hide Mirrors, FindUnresolved, NoDevice, NoNode, NoPort, NoParameter, NoProfile, NoRoute, PortElsewhere, NoOwner, Digits;
    hide OfDevice, OfNode, OfPort, OfLink, OfProfile, OfRoute, OfParameter, OfDefaults;
  }

  lemma {:induction false} NodePortsListedIff(x: Indexes, c: Contents, id: nat, name: string, target: nat)
    requires Mirrors(x, c)
    ensures Entry("node", Number(id), "input_port", "port", Number(target), Absent) in FindUnresolved(x, c)
       <==> && NoPort(c, target)
            && exists i :: 0 <= i < |c.nodes| && c.nodes[i].id == id && target in c.nodes[i].inputPortIds
    ensures Entry("node", Number(id), "output_port", "port", Number(target), Absent) in FindUnresolved(x, c)
       <==> && NoPort(c, target)
            && exists i :: 0 <= i < |c.nodes| && c.nodes[i].id == id && target in c.nodes[i].outputPortIds
  {
    ByKind(x, c, Entry("node", Number(id), "input_port", "port", Number(target), Absent));
    ByKind(x, c, Entry("node", Number(id), "output_port", "port", Number(target), Absent));
    forall v: Node
      ensures OfNode(c, v, Entry("node", Number(id), "input_port", "port", Number(target), Absent)) <==> NoPort(c, target) && v.id == id && target in v.inputPortIds
      ensures OfNode(c, v, Entry("node", Number(id), "output_port", "port", Number(target), Absent)) <==> NoPort(c, target) && v.id == id && target in v.outputPortIds
    {
      NodeShows(c, v, id, name, target);
    }
    hide Mirrors, FindUnresolved, NoDevice, NoNode, NoPort, NoParameter, NoProfile, NoRoute, PortElsewhere, NoOwner, Digits;
    hide OfDevice, OfNode, OfPort, OfLink, OfProfile, OfRoute, OfParameter, OfDefaults;
  }

  lemma {:induction false} NodeMisplacedIff(x: Indexes, c: Contents, id: nat, name: string, target: nat)
    requires Mirrors(x, c)
    ensures Entry("node", Number(id), "input_port", "port", Number(target), WrongPort) in FindUnresolved(x, c)
       <==> && PortElsewhere(c, target, id, Input)
            && exists i :: 0 <= i < |c.nodes| && c.nodes[i].id == id && target in c.nodes[i].inputPortIds
    ensures Entry("node", Number(id), "output_port", "port", Number(target), WrongPort) in FindUnresolved(x, c)
       <==> && PortElsewhere(c, target, id, Output)
            && exists i :: 0 <= i < |c.nodes| && c.nodes[i].id == id && target in c.nodes[i].outputPortIds
  {
    ByKind(x, c, Entry("node", Number(id), "input_port", "port", Number(target), WrongPort));
    ByKind(x, c, Entry("node", Number(id), "output_port", "port", Number(target), WrongPort));
    forall v: Node
      ensures OfNode(c, v, Entry("node", Number(id), "input_port", "port", Number(target), WrongPort)) <==> PortElsewhere(c, target, id, Input) && v.id == id && target in v.inputPortIds
      ensures OfNode(c, v, Entry("node", Number(id), "output_port", "port", Number(target), WrongPort)) <==> PortElsewhere(c, target, id, Output) && v.id == id && target in v.outputPortIds
    {
      NodeShows(c, v, id, name, target);
    }
    hide Mirrors, FindUnresolved, NoDevice, NoNode, NoPort, NoParameter, NoProfile, NoRoute, PortElsewhere, NoOwner, Digits;
    hide OfDevice, OfNode, OfPort, OfLink, OfProfile, OfRoute, OfParameter, OfDefaults;
  }

  lemma {:induction false} PortShows(c: Contents, v: Port, id: nat, name: string, target: nat)
    ensures OfPort(c, v, Entry("port", Number(id), "node", "node", Number(target), Absent))
       <==> NoNode(c, target) && v.id == id && v.nodeId == target
    ensures OfPort(c, v, Entry("port", Number(id), "parameter", "parameter", Text(name), Absent))
       <==> NoParameter(c, "port", id, name) && v.id == id && name in v.parameterIds
  {
    hide NoDevice, NoNode, NoPort, NoParameter, NoProfile, NoRoute, PortElsewhere, NoOwner, Digits;
  }

  lemma {:induction false} PortListedIff(x: Indexes, c: Contents, id: nat, name: string, target: nat)
    requires Mirrors(x, c)
    ensures Entry("port", Number(id), "node", "node", Number(target), Absent) in FindUnresolved(x, c)
       <==> && NoNode(c, target)
            && exists i :: 0 <= i < |c.ports| && c.ports[i].id == id && c.ports[i].nodeId == target
    ensures Entry("port", Number(id), "parameter", "parameter", Text(name), Absent) in FindUnresolved(x, c)
       <==> && NoParameter(c, "port", id, name)
            && exists i :: 0 <= i < |c.ports| && c.ports[i].id == id && name in c.ports[i].parameterIds
  {
    ByKind(x, c, Entry("port", Number(id), "node", "node", Number(target), Absent));
    ByKind(x, c, Entry("port", Number(id), "parameter", "parameter", Text(name), Absent));
    forall v: Port
      ensures OfPort(c, v, Entry("port", Number(id), "node", "node", Number(target), Absent)) <==> NoNode(c, target) && v.id == id && v.nodeId == target
      ensures OfPort(c, v, Entry("port", Number(id), "parameter", "parameter", Text(name), Absent)) <==> NoParameter(c, "port", id, name) && v.id == id && name in v.parameterIds
    {
      PortShows(c, v, id, name, target);
    }
    hide Mirrors, FindUnresolved, NoDevice, NoNode, NoPort, NoParameter, NoProfile, NoRoute, PortElsewhere, NoOwner, Digits;
    hide OfDevice, OfNode, OfPort, OfLink, OfProfile, OfRoute, OfParameter, OfDefaults;
  }

  lemma {:induction false} LinkShows(c: Contents, v: Link, id: nat, target: nat)
    ensures OfLink(c, v, Entry("link", Number(id), "output_node", "node", Number(target), Absent))
       <==> NoNode(c, target) && v.id == id && v.outputNodeId == target
    ensures OfLink(c, v, Entry("link", Number(id), "input_node", "node", Number(target), Absent))
       <==> NoNode(c, target) && v.id == id && v.inputNodeId == target
    ensures OfLink(c, v, Entry("link", Number(id), "output_port", "port", Number(target), Absent))
       <==> NoPort(c, target) && v.id == id && v.outputPortId == target
    ensures OfLink(c, v, Entry("link", Number(id), "input_port", "port", Number(target), Absent))
       <==> NoPort(c, target) && v.id == id && v.inputPortId == target
    ensures OfLink(c, v, Entry("link", Number(id), "output_endpoint", "port", Number(target), WrongOutput))
       <==> v.id == id && v.outputPortId == target && PortElsewhere(c, target, v.outputNodeId, Output)
    ensures OfLink(c, v, Entry("link", Number(id), "input_endpoint", "port", Number(target), WrongInput))
       <==> v.id == id && v.inputPortId == target && PortElsewhere(c, target, v.inputNodeId, Input)
  {
    assert "output_node"[7] != "output_port"[7] && "input_node"[6] != "input_port"[6];
    hide NoDevice, NoNode, NoPort, NoParameter, NoProfile, NoRoute, PortElsewhere, NoOwner, Digits;
  }

  lemma {:induction false} LinkNodesListedIff(x: Indexes, c: Contents, id: nat, target: nat)
    requires Mirrors(x, c)
    ensures Entry("link", Number(id), "output_node", "node", Number(target), Absent) in FindUnresolved(x, c)
       <==> && NoNode(c, target)
            && exists i :: 0 <= i < |c.links| && c.links[i].id == id && c.links[i].outputNodeId == target
    ensures Entry("link", Number(id), "input_node", "node", Number(target), Absent) in FindUnresolved(x, c)
       <==> && NoNode(c, target)
            && exists i :: 0 <= i < |c.links| && c.links[i].id == id && c.links[i].inputNodeId == target
  {
    ByKind(x, c, Entry("link", Number(id), "output_node", "node", Number(target), Absent));
    ByKind(x, c, Entry("link", Number(id), "input_node", "node", Number(target), Absent));
    forall v: Link
      ensures OfLink(c, v, Entry("link", Number(id), "output_node", "node", Number(target), Absent)) <==> NoNode(c, target) && v.id == id && v.outputNodeId == target
      ensures OfLink(c, v, Entry("link", Number(id), "input_node", "node", Number(target), Absent)) <==> NoNode(c, target) && v.id == id && v.inputNodeId == target
    {
      LinkShows(c, v, id, target);
    }
    hide Mirrors, FindUnresolved, NoDevice, NoNode, NoPort, NoParameter, NoProfile, NoRoute, PortElsewhere, NoOwner, Digits;
    hide OfDevice, OfNode, OfPort, OfLink, OfProfile, OfRoute, OfParameter, OfDefaults;
  }

  lemma {:induction false} LinkPortsListedIff(x: Indexes, c: Contents, id: nat, target: nat)
    requires Mirrors(x, c)
    ensures Entry("link", Number(id), "output_port", "port", Number(target), Absent) in FindUnresolved(x, c)
       <==> && NoPort(c, target)
            && exists i :: 0 <= i < |c.links| && c.links[i].id == id && c.links[i].outputPortId == target
    ensures Entry("link", Number(id), "input_port", "port", Number(target), Absent) in FindUnresolved(x, c)
       <==> && NoPort(c, target)
            && exists i :: 0 <= i < |c.links| && c.links[i].id == id && c.links[i].inputPortId == target
  {
    ByKind(x, c, Entry("link", Number(id), "output_port", "port", Number(target), Absent));
    ByKind(x, c, Entry("link", Number(id), "input_port", "port", Number(target), Absent));
    forall v: Link
      ensures OfLink(c, v, Entry("link", Number(id), "output_port", "port", Number(target), Absent)) <==> NoPort(c, target) && v.id == id && v.outputPortId == target
      ensures OfLink(c, v, Entry("link", Number(id), "input_port", "port", Number(target), Absent)) <==> NoPort(c, target) && v.id == id && v.inputPortId == target
    {
      LinkShows(c, v, id, target);
    }
    hide Mirrors, FindUnresolved, NoDevice, NoNode, NoPort, NoParameter, NoProfile, NoRoute, PortElsewhere, NoOwner, Digits;
    hide OfDevice, OfNode, OfPort, OfLink, OfProfile, OfRoute, OfParameter, OfDefaults;
  }

  lemma {:induction false} LinkEndpointsListedIff(x: Indexes, c: Contents, id: nat, target: nat)
    requires Mirrors(x, c)
    ensures Entry("link", Number(id), "output_endpoint", "port", Number(target), WrongOutput) in FindUnresolved(x, c)
       <==> exists i :: 0 <= i < |c.links| && c.links[i].id == id && c.links[i].outputPortId == target && PortElsewhere(c, target, c.links[i].outputNodeId, Output)
    ensures Entry("link", Number(id), "input_endpoint", "port", Number(target), WrongInput) in FindUnresolved(x, c)
       <==> exists i :: 0 <= i < |c.links| && c.links[i].id == id && c.links[i].inputPortId == target && PortElsewhere(c, target, c.links[i].inputNodeId, Input)
  {
    ByKind(x, c, Entry("link", Number(id), "output_endpoint", "port", Number(target), WrongOutput));
    ByKind(x, c, Entry("link", Number(id), "input_endpoint", "port", Number(target), WrongInput));
    forall v: Link
      ensures OfLink(c, v, Entry("link", Number(id), "output_endpoint", "port", Number(target), WrongOutput)) <==> v.id == id && v.outputPortId == target && PortElsewhere(c, target, v.outputNodeId, Output)
      ensures OfLink(c, v, Entry("link", Number(id), "input_endpoint", "port", Number(target), WrongInput)) <==> v.id == id && v.inputPortId == target && PortElsewhere(c, target, v.inputNodeId, Input)
    {
      LinkShows(c, v, id, target);
    }
    hide Mirrors, FindUnresolved, NoDevice, NoNode, NoPort, NoParameter, NoProfile, NoRoute, PortElsewhere, NoOwner, Digits;
    hide OfDevice, OfNode, OfPort, OfLink, OfProfile, OfRoute, OfParameter, OfDefaults;
  }

  lemma {:induction false} ProfileShows(c: Contents, v: Profile, index: nat, device: nat)
    ensures OfProfile(c, v, Entry("profile", Number(index), "device", "device", Number(device), Absent))
       <==> NoDevice(c, device) && v.index == index && v.deviceId == device
  {
    hide NoDevice, NoNode, NoPort, NoParameter, NoProfile, NoRoute, PortElsewhere, NoOwner, Digits;
  }

  lemma {:induction false} ProfileListedIff(x: Indexes, c: Contents, index: nat, device: nat)
    requires Mirrors(x, c)
    ensures Entry("profile", Number(index), "device", "device", Number(device), Absent) in FindUnresolved(x, c)
       <==> && NoDevice(c, device)
            && exists i :: 0 <= i < |c.profiles| && c.profiles[i].index == index && c.profiles[i].deviceId == device
  {
    ByKind(x, c, Entry("profile", Number(index), "device", "device", Number(device), Absent));
    forall v: Profile
      ensures OfProfile(c, v, Entry("profile", Number(index), "device", "device", Number(device), Absent)) <==> NoDevice(c, device) && v.index == index && v.deviceId == device
    {
      ProfileShows(c, v, index, device);
    }
    hide Mirrors, FindUnresolved, NoDevice, NoNode, NoPort, NoParameter, NoProfile, NoRoute, PortElsewhere, NoOwner, Digits;
    hide OfDevice, OfNode, OfPort, OfLink, OfProfile, OfRoute, OfParameter, OfDefaults;
  }

  lemma {:induction false} RouteShows(c: Contents, v: Route, index: nat, device: nat, profile: nat)
    ensures OfRoute(c, v, Entry("route", Number(index), "device", "device", Number(device), Absent))
       <==> NoDevice(c, device) && v.index == index && v.deviceId == device
    ensures OfRoute(c, v, Entry("route", Number(index), "profile", "profile", Number(profile), Absent))
       <==> v.index == index && profile in v.profileIds && NoProfile(c, v.deviceId, profile)
  {
    hide NoDevice, NoNode, NoPort, NoParameter, NoProfile, NoRoute, PortElsewhere, NoOwner, Digits;
  }

  lemma {:induction false} RouteListedIff(x: Indexes, c: Contents, index: nat, device: nat, profile: nat)
    requires Mirrors(x, c)
    ensures Entry("route", Number(index), "device", "device", Number(device), Absent) in FindUnresolved(x, c)
       <==> && NoDevice(c, device)
            && exists i :: 0 <= i < |c.routes| && c.routes[i].index == index && c.routes[i].deviceId == device
    ensures Entry("route", Number(index), "profile", "profile", Number(profile), Absent) in FindUnresolved(x, c)
       <==> exists i :: 0 <= i < |c.routes| && c.routes[i].index == index && profile in c.routes[i].profileIds && NoProfile(c, c.routes[i].deviceId, profile)
  {
    ByKind(x, c, Entry("route", Number(index), "device", "device", Number(device), Absent));
    ByKind(x, c, Entry("route", Number(index), "profile", "profile", Number(profile), Absent));
    forall v: Route
      ensures OfRoute(c, v, Entry("route", Number(index), "device", "device", Number(device), Absent)) <==> NoDevice(c, device) && v.index == index && v.deviceId == device
      ensures OfRoute(c, v, Entry("route", Number(index), "profile", "profile", Number(profile), Absent)) <==> v.index == index && profile in v.profileIds && NoProfile(c, v.deviceId, profile)
    {
      RouteShows(c, v, index, device, profile);
    }
    hide Mirrors, FindUnresolved, NoDevice, NoNode, NoPort, NoParameter, NoProfile, NoRoute, PortElsewhere, NoOwner, Digits;
    hide OfDevice, OfNode, OfPort, OfLink, OfProfile, OfRoute, OfParameter, OfDefaults;
  }

  lemma {:induction false} ParameterShows(c: Contents, v: Parameter, source: string, kind: string, owner: nat)
    ensures OfParameter(c, v, Entry("parameter", Text(source), "owner", kind, Number(owner), Absent))
       <==> NoOwner(c, kind, owner) && ParameterName(v) == source && v.ownerType == kind && v.ownerId == owner
    ensures OfParameter(c, v, Entry("parameter", Text(source), "owner", kind, Number(owner), UnsupportedOwner))
       <==> kind !in {"device", "node", "port", "link", "metadata"} && ParameterName(v) == source && v.ownerType == kind && v.ownerId == owner
  {
    hide NoDevice, NoNode, NoPort, NoParameter, NoProfile, NoRoute, PortElsewhere, NoOwner, Digits;
  }

  lemma {:induction false} ParameterListedIff(x: Indexes, c: Contents, source: string, kind: string, owner: nat)
    requires Mirrors(x, c)
    ensures Entry("parameter", Text(source), "owner", kind, Number(owner), Absent) in FindUnresolved(x, c)
       <==> && NoOwner(c, kind, owner)
            && exists i :: 0 <= i < |c.parameters| && ParameterName(c.parameters[i]) == source && c.parameters[i].ownerType == kind && c.parameters[i].ownerId == owner
    ensures Entry("parameter", Text(source), "owner", kind, Number(owner), UnsupportedOwner) in FindUnresolved(x, c)
       <==> && kind !in {"device", "node", "port", "link", "metadata"}
            && exists i :: 0 <= i < |c.parameters| && ParameterName(c.parameters[i]) == source && c.parameters[i].ownerType == kind && c.parameters[i].ownerId == owner
  {
    ByKind(x, c, Entry("parameter", Text(source), "owner", kind, Number(owner), Absent));
    ByKind(x, c, Entry("parameter", Text(source), "owner", kind, Number(owner), UnsupportedOwner));
    forall v: Parameter
      ensures OfParameter(c, v, Entry("parameter", Text(source), "owner", kind, Number(owner), Absent)) <==> NoOwner(c, kind, owner) && ParameterName(v) == source && v.ownerType == kind && v.ownerId == owner
      ensures OfParameter(c, v, Entry("parameter", Text(source), "owner", kind, Number(owner), UnsupportedOwner)) <==> kind !in {"device", "node", "port", "link", "metadata"} && ParameterName(v) == source && v.ownerType == kind && v.ownerId == owner
    {
      ParameterShows(c, v, source, kind, owner);
    }
    hide Mirrors, FindUnresolved, NoDevice, NoNode, NoPort, NoParameter, NoProfile, NoRoute, PortElsewhere, NoOwner, Digits;
    hide OfDevice, OfNode, OfPort, OfLink, OfProfile, OfRoute, OfParameter, OfDefaults;
  }

  lemma {:induction false} DefaultsShow(c: Contents, target: nat)
    ensures OfDefaults(c, c.defaults, Entry("defaults", Text("audio_sink"), "resolved_node", "node", Number(target), Absent))
       <==> NoNode(c, target) && c.defaults.audioSink == Some(Some(target))
    ensures OfDefaults(c, c.defaults, Entry("defaults", Text("audio_source"), "resolved_node", "node", Number(target), Absent))
       <==> NoNode(c, target) && c.defaults.audioSource == Some(Some(target))
    ensures OfDefaults(c, c.defaults, Entry("defaults", Text("video_source"), "resolved_node", "node", Number(target), Absent))
       <==> NoNode(c, target) && c.defaults.videoSource == Some(Some(target))
    ensures OfDefaults(c, c.defaults, Entry("defaults", Text("defaults"), "metadata", "metadata", Number(target), Absent))
       <==> NoMetadata(c, target) && c.defaults.metadataId == Some(target)
  {
    assert "audio_source"[0] != "video_source"[0];
    hide NoNode, NoMetadata;
  }

  lemma {:induction false} DefaultsByKind(x: Indexes, c: Contents, u: Unresolved)
    requires Mirrors(x, c) && u.reference.sourceType == "defaults"
    ensures u in FindUnresolved(x, c) <==> OfDefaults(c, c.defaults, u)
  {
    ByKind(x, c, u);
    hide *;
  }

  lemma {:induction false} DefaultsListedIff(x: Indexes, c: Contents, target: nat)
    requires Mirrors(x, c)
    ensures Entry("defaults", Text("audio_sink"), "resolved_node", "node", Number(target), Absent) in FindUnresolved(x, c)
       <==> NoNode(c, target) && c.defaults.audioSink == Some(Some(target))
    ensures Entry("defaults", Text("audio_source"), "resolved_node", "node", Number(target), Absent) in FindUnresolved(x, c)
       <==> NoNode(c, target) && c.defaults.audioSource == Some(Some(target))
    ensures Entry("defaults", Text("video_source"), "resolved_node", "node", Number(target), Absent) in FindUnresolved(x, c)
       <==> NoNode(c, target) && c.defaults.videoSource == Some(Some(target))
    ensures Entry("defaults", Text("defaults"), "metadata", "metadata", Number(target), Absent) in FindUnresolved(x, c)
       <==> NoMetadata(c, target) && c.defaults.metadataId == Some(target)
  {
    hide Mirrors, FindUnresolved, OfDefaults, NoNode, NoMetadata;
    DefaultsByKind(x, c, Entry("defaults", Text("audio_sink"), "resolved_node", "node", Number(target), Absent));
    DefaultsByKind(x, c, Entry("defaults", Text("audio_source"), "resolved_node", "node", Number(target), Absent));
    DefaultsByKind(x, c, Entry("defaults", Text("video_source"), "resolved_node", "node", Number(target), Absent));
    DefaultsByKind(x, c, Entry("defaults", Text("defaults"), "metadata", "metadata", Number(target), Absent));
    DefaultsShow(c, target);
  }

  // ----- order -----

  /** The order in which the kinds are visited. */
  function Rank(kind: string): nat {
    if kind == "device" then 0 else if kind == "node" then 1 else if kind == "port" then 2 else if kind == "link" then 3
    else if kind == "profile" then 4 else if kind == "route" then 5 else if kind == "parameter" then 6 else 7
  }

  predicate InOrder(us: seq<Unresolved>, low: nat, high: nat) {
    && (forall i :: 0 <= i < |us| ==> low <= Rank(us[i].reference.sourceType) <= high)
    && (forall i, j :: 0 <= i < j < |us| ==> Rank(us[i].reference.sourceType) <= Rank(us[j].reference.sourceType))
  }

  lemma {:induction false} Appended(a: seq<Unresolved>, b: seq<Unresolved>, rank: nat)
    requires InOrder(a, 0, rank) && AllRank(b, rank + 1)
    ensures InOrder(a + b, 0, rank + 1)
  {
    hide Rank;
    assert forall i :: 0 <= i < |b| ==> b[i] in b;
  }

  /** The list goes through devices, nodes, ports, links, profiles, routes, parameters and the defaults. */
  lemma {:induction false} ListedInOrder(x: Indexes, c: Contents)
    requires Mirrors(x, c)
    ensures InOrder(FindUnresolved(x, c), 0, 7)
  {
    var devices := FlatMap(c.devices, (v: Device) => DeviceMissing(x, v));
    var nodes := FlatMap(c.nodes, (v: Node) => NodeMissing(x, v));
    var ports := FlatMap(c.ports, (v: Port) => PortMissing(x, v));
    var links := FlatMap(c.links, (v: Link) => LinkMissing(x, v));
    var profiles := FlatMap(c.profiles, (v: Profile) => ProfileMissing(x, v));
    var routes := FlatMap(c.routes, (v: Route) => RouteMissing(x, v));
    var parameters := FlatMap(c.parameters, (v: Parameter) => ParameterMissing(x, v));
    var defaults := DefaultsMissing(x, c.defaults);
    forall u
      ensures u in devices ==> Rank(u.reference.sourceType) == 0
      ensures u in nodes ==> Rank(u.reference.sourceType) == 1
      ensures u in ports ==> Rank(u.reference.sourceType) == 2
      ensures u in links ==> Rank(u.reference.sourceType) == 3
      ensures u in profiles ==> Rank(u.reference.sourceType) == 4
      ensures u in routes ==> Rank(u.reference.sourceType) == 5
      ensures u in parameters ==> Rank(u.reference.sourceType) == 6
      ensures u in defaults ==> Rank(u.reference.sourceType) == 7
    {
      hide *;
      Ranked(x, c, u);
    }
    hide Mirrors, FlatMap, Rank, DefaultsMissing;
    EightInOrder(devices, nodes, ports, links, profiles, routes, parameters, defaults);
  }

  predicate AllRank(us: seq<Unresolved>, rank: nat) { forall u :: u in us ==> Rank(u.reference.sourceType) == rank }

  lemma {:induction false} EightInOrder(
      a: seq<Unresolved>, b: seq<Unresolved>, c: seq<Unresolved>, d: seq<Unresolved>,
      e: seq<Unresolved>, f: seq<Unresolved>, g: seq<Unresolved>, h: seq<Unresolved>)
    requires AllRank(a, 0) && AllRank(b, 1) && AllRank(c, 2) && AllRank(d, 3)
    requires AllRank(e, 4) && AllRank(f, 5) && AllRank(g, 6) && AllRank(h, 7)
    ensures InOrder(a + b + c + d + e + f + g + h, 0, 7)
  {
    FirstInOrder(a);
    hide *;
    Appended(a, b, 0);
    Appended(a + b, c, 1);
    Appended(a + b + c, d, 2);
    Appended(a + b + c + d, e, 3);
    Appended(a + b + c + d + e, f, 4);
    Appended(a + b + c + d + e + f, g, 5);
    Appended(a + b + c + d + e + f + g, h, 6);
  }

  lemma {:induction false} FirstInOrder(a: seq<Unresolved>)
    requires AllRank(a, 0)
    ensures InOrder(a, 0, 0)
  {
    hide Rank;
    assert forall i :: 0 <= i < |a| ==> a[i] in a;
  }

  lemma {:induction false} Ranked(x: Indexes, c: Contents, u: Unresolved)
    requires Mirrors(x, c)
    ensures var rank := Rank(u.reference.sourceType);
      && (u in FlatMap(c.devices, (v: Device) => DeviceMissing(x, v)) ==> rank == 0)
      && (u in FlatMap(c.nodes, (v: Node) => NodeMissing(x, v)) ==> rank == 1)
      && (u in FlatMap(c.ports, (v: Port) => PortMissing(x, v)) ==> rank == 2)
      && (u in FlatMap(c.links, (v: Link) => LinkMissing(x, v)) ==> rank == 3)
      && (u in FlatMap(c.profiles, (v: Profile) => ProfileMissing(x, v)) ==> rank == 4)
      && (u in FlatMap(c.routes, (v: Route) => RouteMissing(x, v)) ==> rank == 5)
      && (u in FlatMap(c.parameters, (v: Parameter) => ParameterMissing(x, v)) ==> rank == 6)
      && (u in DefaultsMissing(x, c.defaults) ==> rank == 7)
  {
    TopologyListed(x, c, u);
    RecordsListed(x, c, u);
    DefaultsEntries(x, c, c.defaults, u);
    TopologyKinds(c, u);
    RecordKinds(c, u);
    KindsDiffer();
    hide Mirrors, FlatMap, Any, DefaultsMissing, OfDefaults;
  }
}
