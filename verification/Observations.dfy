/**
 * What a confirmation predicate looks at: the object a target selects in a snapshot, the path into
 * its JSON form, and the comparison at the end of it.
 */
module Observations {
  import opened Wrappers
  import opened Events
  import opened RuntimeSnapshots
  import Json = Envelopes

  /** The selector entries of the types the selection reads; any other entry counts as absent. */
  datatype Selector = Selector(
    owner: Option<string>, desiredId: Option<string>, profileIndex: Option<nat>, routeIndex: Option<nat>,
    parameterId: Option<string>, defaultsField: Option<string>, subject: Option<nat>, key: Option<string>)

  datatype Target = Target(kind: ObjectKind, id: Identity, selector: Selector)

  datatype Operator = Equals | ApproximatelyEquals | Present | Absent
  datatype Component = Name(name: string) | Position(position: nat)

  datatype Condition = Condition(
    target: Target, operator: Operator, path: seq<Component>, expected: Json.Json, tolerance: real)

  /** What a target selects. */
  datatype Selected =
    | SelectedDevice(device: Device) | SelectedNode(node: Node) | SelectedPort(port: Port)
    | SelectedLink(link: Link) | SelectedMetadata(metadata: Metadata)
    | SelectedProfile(profile: Profile) | SelectedRoute(route: Route) | SelectedParameter(parameter: Parameter)
    | SelectedDefault(field: string) | SelectedMethod(field: string) | SelectedEntry(entry: MetadataEntry)

  /** What an object has under a name that is none of its fields. */
  datatype Attribute = Missing | JsonAttribute | MethodAttribute

  /**
   * How objects that are not links are serialized, and which attributes the defaults object inherits.
   */
  datatype Context = Context(documents: Selected -> Json.Json, attributes: string -> Attribute)

  // ----- selection -----

  predicate Bears(l: Link, owner: string, desired: string) {
    l.owner == Some(owner) && l.desiredId == Some(desired)
  }

  function LinksBearing(links: seq<Link>, owner: string, desired: string): (r: seq<Link>)
    ensures forall l :: l in r <==> l in links && Bears(l, owner, desired)
  {
    if links == [] then []
    else
      assert links == [links[0]] + links[1..];
      (if Bears(links[0], owner, desired) then [links[0]] else []) + LinksBearing(links[1..], owner, desired)
  }

  function LastEntry(entries: seq<MetadataEntry>, subject: nat, key: string): Option<MetadataEntry> {
    if entries == [] then None
    else
      var last := entries[|entries| - 1];
      if last.subject == subject && last.key == key then Some(last)
      else LastEntry(entries[..|entries| - 1], subject, key)
  }

  function KindName(kind: ObjectKind): string {
    match kind
    case DeviceKind => "device"
    case NodeKind => "node"
    case PortKind => "port"
    case LinkKind => "link"
    case MetadataKind => "metadata"
    case ParameterKind => "parameter"
    case ProfileKind => "profile"
    case RouteKind => "route"
    case DefaultsKind => "defaults"
    case ConnectionKind => "connection"
    case RuntimeKind => "runtime"
  }

  /** `getattr(defaults, name, None)`: a field, a constant or method of the class, or what it inherits. */
  function DefaultsField(d: Defaults, name: string, attributes: string -> Attribute): Option<Selected> {
    if name == "metadata_id" then (if d.metadataId.Some? then Some(SelectedDefault(name)) else None)
    else if name == "audio_sink" then (if d.audioSink.Some? then Some(SelectedDefault(name)) else None)
    else if name == "audio_source" then (if d.audioSource.Some? then Some(SelectedDefault(name)) else None)
    else if name == "video_source" then (if d.videoSource.Some? then Some(SelectedDefault(name)) else None)
    else if name == "extra" || name == "VALUE_TYPE" || name == "SCHEMA_VERSION" then Some(SelectedDefault(name))
    else if name == "to_dict" || name == "from_dict" then Some(SelectedMethod(name))
    else match attributes(name)
      case Missing => None
      case JsonAttribute => Some(SelectedDefault(name))
      case MethodAttribute => Some(SelectedMethod(name))
  }

  function Found<K, V>(m: map<K, V>, k: K, wrap: V -> Selected): Option<Selected> {
    if k in m then Some(wrap(m[k])) else None
  }

  /** `_snapshot_observation` */
  function Select(s: Snapshot, t: Target, ctx: Context): Option<Selected> {
    var x, sel := s.indexes, t.selector;
    if t.kind == LinkKind && sel.owner.Some? && sel.desiredId.Some? then
      var matches := LinksBearing(s.contents.links, sel.owner.value, sel.desiredId.value);
      if |matches| == 1 then Some(SelectedLink(matches[0])) else None
    else if sel.profileIndex.Some? && t.id.Number? then
      Found(x.profiles, (t.id.id, sel.profileIndex.value), (v: Profile) => SelectedProfile(v))
    else if sel.routeIndex.Some? && t.id.Number? then
      Found(x.routes, (t.id.id, sel.routeIndex.value), (v: Route) => SelectedRoute(v))
    else if sel.parameterId.Some? && t.id.Number? then
      Found(x.parameters, (KindName(t.kind), t.id.id, sel.parameterId.value), (v: Parameter) => SelectedParameter(v))
    else if sel.defaultsField.Some? then DefaultsField(s.contents.defaults, sel.defaultsField.value, ctx.attributes)
    else if t.kind == MetadataKind && t.id.Number? && sel.subject.Some? && sel.key.Some? then
      if t.id.id !in x.metadata then None
      else match LastEntry(x.metadata[t.id.id].entries, sel.subject.value, sel.key.value)
        case None => None
        case Some(e) => Some(SelectedEntry(e))
    else if t.id.Text? then None
    else match t.kind
      case DeviceKind => Found(x.devices, t.id.id, (v: Device) => SelectedDevice(v))
      case NodeKind => Found(x.nodes, t.id.id, (v: Node) => SelectedNode(v))
      case PortKind => Found(x.ports, t.id.id, (v: Port) => SelectedPort(v))
      case LinkKind => Found(x.links, t.id.id, (v: Link) => SelectedLink(v))
      case MetadataKind => Found(x.metadata, t.id.id, (v: Metadata) => SelectedMetadata(v))
      case _ => None
  }

  // ----- documents and paths -----

  function NumberOf(n: nat): Json.Json { Json.JScalar(Json.Int(n)) }
  function TextOf(t: Option<string>): Json.Json {
    match t
    case None => Json.JScalar(Json.Null)
    case Some(s) => Json.JScalar(Json.Str(s))
  }

  /** The serialized form of a link. */
  function LinkDocument(l: Link): Json.Json {
    Json.JObject([
      Json.Member("schema_version", Json.VERSION), Json.Member("value_type", Json.JScalar(Json.Str("link"))),
      Json.Member("id", NumberOf(l.id)),
      Json.Member("output_node_id", NumberOf(l.outputNodeId)), Json.Member("output_port_id", NumberOf(l.outputPortId)),
      Json.Member("input_node_id", NumberOf(l.inputNodeId)), Json.Member("input_port_id", NumberOf(l.inputPortId)),
      Json.Member("owner", TextOf(l.owner)), Json.Member("desired_id", TextOf(l.desiredId))])
  }

  function Document(o: Selected, ctx: Context): Json.Json {
    if o.SelectedLink? then LinkDocument(o.link) else ctx.documents(o)
  }

  /** What a predicate is given to look at. A method is no JSON value. */
  datatype Observed = Nothing | Shown(document: Json.Json) | Method

  /** `_resolve_path` */
  function Resolve(j: Json.Json, path: seq<Component>): Option<Json.Json>
    decreases |path|
  {
    if path == [] then Some(j)
    else match path[0]
      case Name(name) =>
        if !j.JObject? then None
        else (match Json.Lookup(j.members, name)
              case None => None
              case Some(value) => Resolve(value, path[1..]))
      case Position(n) =>
        if !j.JList? || n >= |j.items| then None else Resolve(j.items[n], path[1..])
  }

  /** The number a scalar compares as; booleans compare as 0 and 1. */
  function Numeric(s: Json.Scalar): Option<real> {
    match s
    case Bool(b) => Some(if b then 1.0 else 0.0)
    case Int(n) => Some(n as real)
    case Float(x) => Some(x)
    case _ => None
  }

  predicate SameScalar(a: Json.Scalar, b: Json.Scalar) {
    if Numeric(a).Some? || Numeric(b).Some? then Numeric(a) == Numeric(b) else a == b && !a.NonFinite?
  }

  /** Equality of frozen JSON: numbers by value, mappings whatever their order. */
  predicate Same(a: Json.Json, b: Json.Json) {
    match a
    case JScalar(s) => b.JScalar? && SameScalar(s, b.scalar)
    case JList(items) =>
      b.JList? && |items| == |b.items| && forall i :: 0 <= i < |items| ==> Same(items[i], b.items[i])
    case JObject(members) =>
      && b.JObject?
      && |members| == |b.members|
      && forall i :: 0 <= i < |members| ==>
           Json.Lookup(b.members, members[i].name).Some?
           && Same(members[i].value, Json.Lookup(b.members, members[i].name).value)
  }

  function Abs(x: real): real { if x < 0.0 then -x else x }

  predicate Near(value: Json.Json, expected: Json.Json, tolerance: real) {
    && value.JScalar? && !value.scalar.Bool? && Numeric(value.scalar).Some?
    && expected.JScalar? && Numeric(expected.scalar).Some?
    && Abs(Numeric(value.scalar).value - Numeric(expected.scalar).value) <= tolerance
  }

  /** `ConfirmationPredicateValue.matches` where it returns; nothing is looked at as null. */
  predicate Matches(c: Condition, observed: Observed) {
    if observed.Method? then false
    else
      var value := if observed.Shown? then observed.document else Json.JScalar(Json.Null);
      var at := Resolve(value, c.path);
      match c.operator
      case Present => at.Some? && at.value != Json.JScalar(Json.Null)
      case Absent => at.None? || at.value == Json.JScalar(Json.Null)
      case ApproximatelyEquals => at.Some? && Near(at.value, c.expected, c.tolerance)
      case Equals => at.Some? && Same(at.value, c.expected)
  }

  /**
   * Where confirming raises instead: a method cannot be compared, and cannot be recorded as an
   * observation when it is present, or when nothing is found under a path into it.
   */
  predicate Refuses(c: Condition, observed: Observed) {
    && observed.Method?
    && match c.operator
       case Present => c.path == []
       case Equals => c.path == []
       case Absent => c.path != []
       case ApproximatelyEquals => false
  }

  function Observation(s: Snapshot, t: Target, ctx: Context): Observed {
    match Select(s, t, ctx)
    case None => Nothing
    case Some(o) => if o.SelectedMethod? then Method else Shown(Document(o, ctx))
  }

  /** Whether a snapshot satisfies a condition. */
  predicate Satisfies(s: Snapshot, c: Condition, ctx: Context) {
    Matches(c, Observation(s, c.target, ctx))
  }

  /** Whether confirming a condition in a snapshot raises. */
  predicate Rejects(s: Snapshot, c: Condition, ctx: Context) {
    Refuses(c, Observation(s, c.target, ctx))
  }

  // ----- selection against the collections -----

  const ANY: Selector := Selector(None, None, None, None, None, None, None, None)

  lemma {:induction false} FoundIff<K(!new), V>(
      m: map<K, V>, values: seq<V>, key: V -> K, k: K, wrap: V -> Selected, v: V)
    requires Agrees(m, values, key)
    requires forall a, b :: wrap(a) == wrap(b) ==> a == b
    ensures Found(m, k, wrap) == Some(wrap(v)) <==> exists i :: 0 <= i < |values| && values[i] == v && key(values[i]) == k
    ensures Found(m, k, wrap).None? <==> !Contains(values, key, k)
  {
    if k in m {
      var i :| 0 <= i < |values| && key(values[i]) == k;
      assert m[k] == values[i];
    }
  }

  /** A target by number selects exactly the object the collection holds under that id. */
  lemma {:induction false} SelectsById(s: Snapshot, id: nat, node: Node, device: Device, port: Port, ctx: Context)
    requires Mirrors(s.indexes, s.contents)
    ensures Select(s, Target(NodeKind, Number(id), ANY), ctx) == Some(SelectedNode(node))
      <==> exists i :: 0 <= i < |s.contents.nodes| && s.contents.nodes[i] == node && NodeId(s.contents.nodes[i]) == id
    ensures Select(s, Target(DeviceKind, Number(id), ANY), ctx) == Some(SelectedDevice(device))
      <==> exists i :: 0 <= i < |s.contents.devices| && s.contents.devices[i] == device && DeviceId(s.contents.devices[i]) == id
    ensures Select(s, Target(PortKind, Number(id), ANY), ctx) == Some(SelectedPort(port))
      <==> exists i :: 0 <= i < |s.contents.ports| && s.contents.ports[i] == port && PortId(s.contents.ports[i]) == id
  {
    FoundIff(s.indexes.nodes, s.contents.nodes, NodeId, id, (v: Node) => SelectedNode(v), node);
    FoundIff(s.indexes.devices, s.contents.devices, DeviceId, id, (v: Device) => SelectedDevice(v), device);
    FoundIff(s.indexes.ports, s.contents.ports, PortId, id, (v: Port) => SelectedPort(v), port);
    hide Found, LinksBearing;
  }

  /**
   * A profile, route or parameter selector selects exactly the object the collection holds under that
   * key, whatever the kind of the target; a parameter's key names that kind.
   */
  lemma {:induction false} SelectsByKey(
      s: Snapshot, kind: ObjectKind, id: nat, n: nat, name: string,
      profile: Profile, route: Route, parameter: Parameter, ctx: Context)
    requires Mirrors(s.indexes, s.contents)
    ensures Select(s, Target(kind, Number(id), ANY.(profileIndex := Some(n))), ctx) == Some(SelectedProfile(profile))
      <==> exists i :: 0 <= i < |s.contents.profiles| && s.contents.profiles[i] == profile && ProfileKey(s.contents.profiles[i]) == (id, n)
    ensures Select(s, Target(kind, Number(id), ANY.(routeIndex := Some(n))), ctx) == Some(SelectedRoute(route))
      <==> exists i :: 0 <= i < |s.contents.routes| && s.contents.routes[i] == route && RouteKey(s.contents.routes[i]) == (id, n)
    ensures Select(s, Target(kind, Number(id), ANY.(parameterId := Some(name))), ctx) == Some(SelectedParameter(parameter))
      <==> exists i :: 0 <= i < |s.contents.parameters| && s.contents.parameters[i] == parameter && ParameterKey(s.contents.parameters[i]) == (KindName(kind), id, name)
  {
    FoundIff(s.indexes.profiles, s.contents.profiles, ProfileKey, (id, n), (v: Profile) => SelectedProfile(v), profile);
    FoundIff(s.indexes.routes, s.contents.routes, RouteKey, (id, n), (v: Route) => SelectedRoute(v), route);
    FoundIff(s.indexes.parameters, s.contents.parameters, ParameterKey, (KindName(kind), id, name),
             (v: Parameter) => SelectedParameter(v), parameter);
    hide Found, LinksBearing, KindName;
  }

  predicate EntryAt(entries: seq<MetadataEntry>, i: nat, subject: nat, key: string) {
    i < |entries| && entries[i].subject == subject && entries[i].key == key
  }

  /** A metadata target selects the last entry for its subject and key. */
  lemma {:induction false} LastEntryIff(entries: seq<MetadataEntry>, subject: nat, key: string)
    ensures var r := LastEntry(entries, subject, key);
      && (r.None? <==> forall i: nat :: !EntryAt(entries, i, subject, key))
      && (r.Some? ==> exists i: nat :: EntryAt(entries, i, subject, key) && r.value == entries[i]
                        && forall j: nat :: i < j ==> !EntryAt(entries, j, subject, key))
  {
    if entries != [] {
      var n := |entries| - 1;
      var front := entries[..n];
      LastEntryIff(front, subject, key);
      assert forall i: nat :: i < n ==> (EntryAt(entries, i, subject, key) <==> EntryAt(front, i, subject, key));
      if EntryAt(entries, n, subject, key) {
        assert LastEntry(entries, subject, key) == Some(entries[n]);
      } else if LastEntry(front, subject, key).Some? {
        var i: nat :| EntryAt(front, i, subject, key) && LastEntry(front, subject, key).value == front[i]
          && forall j: nat :: i < j ==> !EntryAt(front, j, subject, key);
        assert EntryAt(entries, i, subject, key);
      }
    }
  }
}
