/** Snapshots through their envelopes: what a serialized snapshot is rebuilt to. */
module SnapshotRecords {
  import opened Wrappers
  import opened Envelopes
  import opened RuntimeSnapshots

  const RUNTIME_SNAPSHOT := "runtime_snapshot"

  /** How a record holds a snapshot's contents and its list of unresolved references. */
  datatype Layout = Layout(
    write: (Contents, seq<Unresolved>) -> seq<Field>,
    contents: seq<Field> -> Contents,
    listed: seq<Field> -> seq<Unresolved>)

  /** What is written is read back. */
  ghost predicate Lossless(layout: Layout) {
    forall c, u ::
      && layout.contents(layout.write(c, u)) == c
      && layout.listed(layout.write(c, u)) == u
  }

  /** The registered class has this layout, and its constructor is the snapshot's. */
  ghost predicate Registers(registry: Registry, layout: Layout) {
    && RUNTIME_SNAPSHOT in registry
    && DistinctNames(registry[RUNTIME_SNAPSHOT].declared)
    && (forall c, u :: FitsDeclaration(registry[RUNTIME_SNAPSHOT].declared, layout.write(c, u)))
    && (forall fields ::
          registry[RUNTIME_SNAPSHOT].accepts(fields)
          <==> Construct(layout.contents(fields), layout.listed(fields)).Some?)
  }

  predicate FieldsWellFormed(registry: Registry, fields: seq<Field>) {
    forall i :: 0 <= i < |fields| ==> WellFormed(registry, fields[i].value)
  }

  predicate FieldsUnmarked(fields: seq<Field>) {
    forall i :: 0 <= i < |fields| ==> Unmarked(fields[i].value)
  }

  /** The record of a snapshot, with the list its constructor computed. */
  function RecordOf(layout: Layout, s: Snapshot): Value {
    Record(RUNTIME_SNAPSHOT, layout.write(s.contents, s.unresolved))
  }

  /** Decoding a record, constructor included. */
  function Restore(registry: Registry, layout: Layout, j: Json): Option<Snapshot> {
    match Deserialize(registry, j)
    case Ok(Record(kind, fields)) =>
      if kind == RUNTIME_SNAPSHOT then Construct(layout.contents(fields), layout.listed(fields)) else None
    case _ => None
  }

  /**
    * Every snapshot a constructor builds, whether it was given the unresolved list or computed it, is a
    * record the constructor accepts; it decodes to that record exactly when none of its plain mappings
    * carries both markers, and then the snapshot restored has the same contents, indexes and list.
    */
  lemma {:induction false} RestoredSnapshot(
      registry: Registry, layout: Layout, c: Contents, supplied: seq<Unresolved>)
    requires Lossless(layout) && Registers(registry, layout)
    requires Construct(c, supplied).Some?
    requires FieldsWellFormed(registry, RecordOf(layout, Construct(c, supplied).value).fields)
    ensures var s := Construct(c, supplied).value;
      var v := RecordOf(layout, s);
      && WellFormed(registry, v)
      && (Deserialize(registry, Serialize(registry, v)) == Ok(v) <==> FieldsUnmarked(v.fields))
      && (FieldsUnmarked(v.fields) ==> Restore(registry, layout, Serialize(registry, v)) == Some(s))
  {
    ConstructIff(c, supplied);
    hide Construct, Serialize, Deserialize;
    EnvelopeRoundTripIff(registry, RecordOf(layout, Construct(c, supplied).value));
  }
}
