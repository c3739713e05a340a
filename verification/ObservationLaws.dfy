/** What a condition asks of a document: where a path leads, and what each operator compares. */
module ObservationLaws {
  import opened Wrappers
  import opened Events
  import opened RuntimeSnapshots
  import opened Observations
  import Json = Envelopes

  const NULL: Json.Json := Json.JScalar(Json.Null)

  // ----- paths -----

  /** The i-th member has the name and the value, and none before it has the name. */
  predicate FirstNamed(members: seq<Json.Member>, name: string, v: Json.Json, i: nat) {
    && i < |members| && members[i].name == name && members[i].value == v
    && forall k :: 0 <= k < i ==> members[k].name != name
  }

  /** One component: the first member of an object with the name, or the item of a list at the position. */
  ghost predicate Leads(j: Json.Json, component: Component, v: Json.Json) {
    match component
    case Name(name) =>
      && j.JObject?
      && exists i: nat :: FirstNamed(j.members, name, v, i)
    case Position(n) => j.JList? && n < |j.items| && j.items[n] == v
  }

  /** A document for each stage of the path. */
  ghost predicate Trail(j: Json.Json, path: seq<Component>, v: Json.Json, stages: seq<Json.Json>) {
    && |stages| == |path| + 1 && stages[0] == j && stages[|path|] == v
    && forall i :: 0 <= i < |path| ==> Leads(stages[i], path[i], stages[i + 1])
  }

  ghost predicate LeadsTo(j: Json.Json, path: seq<Component>, v: Json.Json) {
    exists stages :: Trail(j, path, v, stages)
  }

  lemma {:induction false} LookupFirst(members: seq<Json.Member>, name: string, v: Json.Json)
    ensures Json.Lookup(members, name) == Some(v) <==> exists i: nat :: FirstNamed(members, name, v, i)
  {
    if members != [] {
      var rest := members[1..];
      assert forall i :: 0 <= i < |rest| ==> rest[i] == members[i + 1];
      if members[0].name == name {
        if members[0].value == v { assert FirstNamed(members, name, v, 0); }
      } else {
        LookupFirst(rest, name, v);
        if i: nat :| FirstNamed(members, name, v, i) { assert FirstNamed(rest, name, v, i - 1); }
        if i: nat :| FirstNamed(rest, name, v, i) { assert FirstNamed(members, name, v, i + 1); }
      }
    }
  }

  lemma {:induction false} LookupLeads(members: seq<Json.Member>, name: string, v: Json.Json)
    ensures Json.Lookup(members, name) == Some(v) <==> Leads(Json.JObject(members), Component.Name(name), v)
  {
    LookupFirst(members, name, v);
    hide Json.Lookup, FirstNamed;
  }

  /** What one component gives, as the code resolves it. */
  function StepOf(j: Json.Json, component: Component): Option<Json.Json> {
    match component
    case Name(name) => if j.JObject? then Json.Lookup(j.members, name) else None
    case Position(n) => if j.JList? && n < |j.items| then Some(j.items[n]) else None
  }

  lemma {:induction false} StepLeads(j: Json.Json, component: Component, v: Json.Json)
    ensures StepOf(j, component) == Some(v) <==> Leads(j, component, v)
  {
    if component.Name? && j.JObject? { LookupLeads(j.members, component.name, v); }
  }

  /** A path resolves to a value exactly when its components lead there. */
  lemma {:induction false} ResolveIff(j: Json.Json, path: seq<Component>, v: Json.Json)
    ensures Resolve(j, path) == Some(v) <==> LeadsTo(j, path, v)
    decreases |path|
  {
    if path == [] {
      if LeadsTo(j, path, v) { var stages :| Trail(j, path, v, stages); }
      if j == v { assert Trail(j, path, v, [j]); }
    } else {
      var first := StepOf(j, path[0]);
      assert Resolve(j, path) == if first.None? then None else Resolve(first.value, path[1..]);
      hide Resolve, Leads;
      if first.Some? { ResolveIff(first.value, path[1..], v); StepLeads(j, path[0], first.value); }
      if LeadsTo(j, path, v) {
        var stages :| Trail(j, path, v, stages);
        StepLeads(j, path[0], stages[1]);
        TrailTail(j, path, v, stages);
      }
      if first.Some? && LeadsTo(first.value, path[1..], v) {
        var stages :| Trail(first.value, path[1..], v, stages);
        TrailCons(j, path, v, first.value, stages);
      }
    }
  }

  lemma {:induction false} TrailTail(j: Json.Json, path: seq<Component>, v: Json.Json, stages: seq<Json.Json>)
    requires path != [] && Trail(j, path, v, stages)
    ensures Trail(stages[1], path[1..], v, stages[1..])
  {
    hide Leads;
    forall i | 0 <= i < |path[1..]|
      ensures Leads(stages[1..][i], path[1..][i], stages[1..][i + 1])
    {
      assert Leads(stages[i + 1], path[i + 1], stages[i + 2]);
    }
  }

  lemma {:induction false} TrailCons(j: Json.Json, path: seq<Component>, v: Json.Json, next: Json.Json, stages: seq<Json.Json>)
    requires path != [] && Leads(j, path[0], next) && Trail(next, path[1..], v, stages)
    ensures Trail(j, path, v, [j] + stages)
  {
    hide Leads;
    var all := [j] + stages;
    forall i | 0 <= i < |path|
      ensures Leads(all[i], path[i], all[i + 1])
    {
      if i > 0 { assert Leads(stages[i - 1], path[1..][i - 1], stages[i]); }
    }
  }

  // ----- operators -----

  function Looked(observed: Observed): Json.Json {
    if observed.Shown? then observed.document else NULL
  }

  /** Something other than null is there. */
  lemma {:induction false} PresentIff(c: Condition, observed: Observed)
    requires !observed.Method?
    ensures c.operator == Operator.Present ==>
      (Matches(c, observed) <==> exists v :: v != NULL && LeadsTo(Looked(observed), c.path, v))
    ensures c.operator == Operator.Absent ==>
      (Matches(c, observed) <==> forall v :: LeadsTo(Looked(observed), c.path, v) ==> v == NULL)
    ensures Matches(c.(operator := Operator.Absent), observed) <==> !Matches(c.(operator := Operator.Present), observed)
  {
    forall v ensures Resolve(Looked(observed), c.path) == Some(v) <==> LeadsTo(Looked(observed), c.path, v) {
      ResolveIff(Looked(observed), c.path, v);
    }
    hide Resolve, LeadsTo;
    var at := Resolve(Looked(observed), c.path);
    if at.Some? { assert LeadsTo(Looked(observed), c.path, at.value); }
  }

  /** Equality and nearness are asked of the value the path leads to, and fail where it leads nowhere. */
  lemma {:induction false} ComparesIff(c: Condition, observed: Observed)
    requires !observed.Method?
    ensures c.operator == Equals ==>
      (Matches(c, observed) <==> exists v :: LeadsTo(Looked(observed), c.path, v) && Same(v, c.expected))
    ensures c.operator == ApproximatelyEquals ==>
      (Matches(c, observed) <==> exists v :: LeadsTo(Looked(observed), c.path, v) && Near(v, c.expected, c.tolerance))
  {
    forall v ensures Resolve(Looked(observed), c.path) == Some(v) <==> LeadsTo(Looked(observed), c.path, v) {
      ResolveIff(Looked(observed), c.path, v);
    }
    hide Resolve, LeadsTo, Same, Near;
    var at := Resolve(Looked(observed), c.path);
    if at.Some? { assert LeadsTo(Looked(observed), c.path, at.value); }
  }

  function Number(x: real): Json.Json { Json.JScalar(Json.Float(x)) }
  function Whole(n: int): Json.Json { Json.JScalar(Json.Int(n)) }
  function Flag(b: bool): Json.Json { Json.JScalar(Json.Bool(b)) }
  function Words(s: string): Json.Json { Json.JScalar(Json.Str(s)) }

  /** Numbers are compared by value whatever their kind, a flag as 0 or 1; text as text; null as null. */
  lemma {:induction false} ScalarsSame(x: real, n: int, m: int, b: bool, s: string, t: string)
    ensures Same(Whole(n), Whole(m)) <==> n == m
    ensures Same(Whole(n), Number(x)) <==> n as real == x
    ensures Same(Number(x), Whole(n)) <==> n as real == x
    ensures Same(Flag(b), Whole(n)) <==> n == (if b then 1 else 0)
    ensures Same(Words(s), Words(t)) <==> s == t
    ensures !Same(Words(s), Whole(n)) && !Same(Whole(n), Words(s)) && !Same(NULL, Whole(n)) && !Same(NULL, Words(s))
    ensures Same(NULL, NULL)
  {
  }

  /** Lists are compared item by item. */
  lemma {:induction false} ListsSame(xs: seq<Json.Json>, ys: seq<Json.Json>)
    ensures Same(Json.JList(xs), Json.JList(ys)) <==> |xs| == |ys| && forall i :: 0 <= i < |xs| ==> Same(xs[i], ys[i])
  {
  }

  predicate DistinctMembers(members: seq<Json.Member>) {
    forall i, j :: 0 <= i < j < |members| ==> members[i].name != members[j].name
  }

  /** One of the members has the same name and a value that compares as the same. */
  ghost predicate HasSame(x: Json.Member, ys: seq<Json.Member>) {
    exists k :: 0 <= k < |ys| && ys[k].name == x.name && Same(x.value, ys[k].value)
  }

  lemma {:induction false} HasSameIff(x: Json.Member, ys: seq<Json.Member>)
    requires DistinctMembers(ys)
    ensures HasSame(x, ys) <==> Json.Lookup(ys, x.name).Some? && Same(x.value, Json.Lookup(ys, x.name).value)
  {
    LookupOnly(ys, x.name);
    hide Json.Lookup, Same;
  }

  /** Objects without repeated names are the same when one has the members of the other in any order. */
  lemma {:induction false} ObjectsSame(xs: seq<Json.Member>, ys: seq<Json.Member>)
    requires DistinctMembers(ys)
    ensures Same(Json.JObject(xs), Json.JObject(ys)) <==> |xs| == |ys| && forall i :: 0 <= i < |xs| ==> HasSame(xs[i], ys)
  {
    forall i | 0 <= i < |xs|
      ensures HasSame(xs[i], ys) <==>
        Json.Lookup(ys, xs[i].name).Some? && Same(xs[i].value, Json.Lookup(ys, xs[i].name).value)
    {
      HasSameIff(xs[i], ys);
    }
    hide Json.Lookup, HasSame;
  }

  lemma {:induction false} LookupOnly(members: seq<Json.Member>, name: string)
    requires DistinctMembers(members)
    ensures forall k :: 0 <= k < |members| && members[k].name == name ==> Json.Lookup(members, name) == Some(members[k].value)
    ensures Json.Lookup(members, name).Some? ==> exists k :: 0 <= k < |members| && members[k].name == name
  {
    if members != [] {
      LookupOnly(members[1..], name);
      assert forall k :: 0 < k < |members| ==> members[k] == members[1..][k - 1];
      if Json.Lookup(members, name).Some? && members[0].name != name {
        var k :| 0 <= k < |members| - 1 && members[1..][k].name == name;
        assert members[k + 1].name == name;
      }
    }
  }

  /** Nearness is asked of numbers alone, and a flag is none. */
  lemma {:induction false} NumbersNear(x: real, y: real, n: int, b: bool, tolerance: real, s: string)
    ensures Near(Number(x), Number(y), tolerance) <==> -tolerance <= x - y <= tolerance
    ensures Near(Whole(n), Number(y), tolerance) <==> -tolerance <= n as real - y <= tolerance
    ensures !Near(Flag(b), Number(y), tolerance) && !Near(Words(s), Number(y), tolerance) && !Near(NULL, Number(y), tolerance)
  {
  }

  // ----- further selections -----

  /** A link or metadata object by number, and the four fields of the defaults by name. */
  lemma {:induction false} SelectsFurther(s: Snapshot, id: nat, kind: ObjectKind, link: Link, metadata: Metadata, ctx: Context)
    requires Mirrors(s.indexes, s.contents)
    ensures Select(s, Target(LinkKind, Events.Number(id), ANY), ctx) == Some(SelectedLink(link))
      <==> exists i :: 0 <= i < |s.contents.links| && s.contents.links[i] == link && LinkId(s.contents.links[i]) == id
    ensures Select(s, Target(MetadataKind, Events.Number(id), ANY), ctx) == Some(SelectedMetadata(metadata))
      <==> exists i :: 0 <= i < |s.contents.metadata| && s.contents.metadata[i] == metadata && MetadataId(s.contents.metadata[i]) == id
  {
    FoundIff(s.indexes.links, s.contents.links, LinkId, id, (v: Link) => SelectedLink(v), link);
    FoundIff(s.indexes.metadata, s.contents.metadata, MetadataId, id, (v: Metadata) => SelectedMetadata(v), metadata);
    hide Found, LinksBearing;
  }

  lemma {:induction false} SelectsDefaults(s: Snapshot, t: Target, ctx: Context, name: string)
    requires t.selector == ANY.(defaultsField := Some(name))
    ensures var d, r := s.contents.defaults, Select(s, t, ctx);
      && (name == "metadata_id" ==> r == if d.metadataId.Some? then Some(SelectedDefault(name)) else None)
      && (name == "audio_sink" ==> r == if d.audioSink.Some? then Some(SelectedDefault(name)) else None)
      && (name == "audio_source" ==> r == if d.audioSource.Some? then Some(SelectedDefault(name)) else None)
      && (name == "video_source" ==> r == if d.videoSource.Some? then Some(SelectedDefault(name)) else None)
  {
    assert "audio_source"[0] != "video_source"[0];
    hide LinksBearing, Found;
  }
}
