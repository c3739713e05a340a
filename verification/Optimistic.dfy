/**
 * Sequence-guarded controls beside a connection: a control takes the position its caller has
 * projected, captures a preflight snapshot, and submits its call against that capture.
 */
module Optimistic {
  import opened Wrappers
  import opened Events
  import opened EventStream
  import opened Dispatch
  import opened DispatchSafety
  import opened DispatchRuns
  import Projections

  datatype Stage =
    | Begun
    | Preflighted(generation: nat, sequence: nat)
    | Submitted(id: nat)
    | Refused

  /** A control and the caller's position it was given. */
  datatype Control = Control(expectedGeneration: nat, expectedSequence: nat, stage: Stage)

  datatype World = World(connection: Connection, controls: seq<Control>)

  datatype Deed =
    | Native(act: Act)
    | Begin(generation: nat, sequence: nat)
    | Preflight(control: nat, objects: Objects, captured: bool)
    | Submit(control: nat)

  /** The name under which a control captures. */
  function Reader(control: nat): nat { control + 1 }

  function Captures(w: World, k: nat, objects: Objects, captured: bool): World
    requires Numbered(w.connection.stream) && k < |w.controls|
  {
    var t := CaptureBaseline(w.connection.stream, objects, Reader(k), captured);
    var stage := if captured then Preflighted(t.generation, t.sequence) else Refused;
    World(w.connection.(stream := t), w.controls[k := w.controls[k].(stage := stage)])
  }

  /** The two staleness checks, and the dispatch against the preflight's own number. */
  function Submits(w: World, k: nat): World
    requires k < |w.controls| && w.controls[k].stage.Preflighted?
  {
    var control := w.controls[k];
    var n := control.stage.sequence;
    if control.stage.generation != control.expectedGeneration || n != control.expectedSequence + 1 then
      w.(controls := w.controls[k := control.(stage := Refused)])
    else
      World(Admit(w.connection, control.expectedGeneration, Some(n)),
            w.controls[k := control.(stage := Submitted(|w.connection.dispatch.calls|))])
  }

  function Perform(w: World, deed: Deed): (r: World)
    requires Numbered(w.connection.stream)
    ensures Numbered(r.connection.stream)
  {
    match deed
    case Native(act) => w.(connection := Do(w.connection, act))
    case Begin(g, s) => w.(controls := w.controls + [Control(g, s, Begun)])
    case Preflight(k, objects, captured) =>
      if k < |w.controls| && w.controls[k].stage.Begun? then Captures(w, k, objects, captured) else w
    case Submit(k) =>
      if k < |w.controls| && w.controls[k].stage.Preflighted? then Submits(w, k) else w
  }

  predicate Permitted(deed: Deed) { deed.Native? ==> Possible(deed.act) }

  function PerformAll(w: World, deeds: seq<Deed>): (r: World)
    requires Numbered(w.connection.stream)
    ensures Numbered(r.connection.stream)
    decreases |deeds|
  {
    if deeds == [] then w else PerformAll(Perform(w, deeds[0]), deeds[1..])
  }

  /** A number that was spent on a control's own preflight. */
  predicate OwnCapture(log: seq<seq<Entry>>, k: nat, generation: nat, sequence: nat) {
    && generation < |log|
    && 1 <= sequence <= |log[generation]|
    && log[generation][sequence - 1].Captured?
    && log[generation][sequence - 1].reader == Reader(k)
  }

  /** What a control's stage says of the history and of its call. */
  ghost predicate Backed(c: Connection, k: nat, control: Control) {
    match control.stage
    case Preflighted(g, n) => OwnCapture(c.stream.log, k, g, n)
    case Submitted(id) =>
      && id < |c.dispatch.calls|
      && c.dispatch.calls[id].expectedGeneration == control.expectedGeneration
      && c.dispatch.calls[id].expectedSequence == Some(control.expectedSequence + 1)
      && OwnCapture(c.stream.log, k, control.expectedGeneration, control.expectedSequence + 1)
    case _ => true
  }

  ghost predicate Sound(w: World) {
    && Inv(w.connection)
    && (forall k :: 0 <= k < |w.controls| ==> Backed(w.connection, k, w.controls[k]))
  }

  lemma {:induction false} BackedKept(c: Connection, r: Connection, k: nat, control: Control)
    requires Backed(c, k, control)
    requires Extends(c.stream.log, r.stream.log) && SameButStatus(c.dispatch.calls, r.dispatch.calls)
    ensures Backed(r, k, control)
  {
    if control.stage.Preflighted? {
      assert c.stream.log[control.stage.generation] <= r.stream.log[control.stage.generation];
    }
    if control.stage.Submitted? {
      assert c.stream.log[control.expectedGeneration] <= r.stream.log[control.expectedGeneration];
    }
  }

  lemma {:induction false} OnlyEventsTouchStream(c: Connection, act: Act)
    requires Numbered(c.stream)
    ensures Do(c, act).stream == if act.Events? then Apply(c.stream, act.step) else c.stream
  {
    hide CancelAll, Schedule, Verdict, CompleteCall, Apply;
  }

  lemma {:induction false} SoundNative(w: World, act: Act)
    requires Sound(w) && Possible(act)
    ensures Sound(Perform(w, Native(act)))
  {
    var c := w.connection;
    InvKeeps(c, act);
    CallsKept(c, act);
    OnlyEventsTouchStream(c, act);
    if act.Events? { HistoryGrows(c.stream, act.step); }
    hide Do, Apply;
    forall k | 0 <= k < |w.controls|
      ensures Backed(Do(c, act), k, w.controls[k])
    {
      BackedKept(c, Do(c, act), k, w.controls[k]);
    }
  }

  lemma {:induction false} SoundCapture(w: World, k: nat, objects: Objects, captured: bool)
    requires Sound(w) && k < |w.controls|
    ensures Sound(Captures(w, k, objects, captured))
  {
    var c := w.connection;
    var step := Capture(objects, Reader(k), captured);
    var r := Do(c, Events(step));
    InvKeeps(c, Events(step));
    HistoryGrows(c.stream, step);
    var t := CaptureBaseline(c.stream, objects, Reader(k), captured);
    assert r == c.(stream := t);
    if captured { assert t.log[t.generation][t.sequence - 1] == Captured(objects, Reader(k)); }
    hide Inv, Do, Apply, CaptureBaseline;
    var after := Captures(w, k, objects, captured);
    forall j | 0 <= j < |w.controls|
      ensures Backed(r, j, after.controls[j])
    {
      if j != k { BackedKept(c, r, j, w.controls[j]); }
    }
  }

  lemma {:induction false} AdmitKeeps(c: Connection, g: nat, n: Option<nat>)
    requires Inv(c)
    ensures var r, k := Admit(c, g, n), |c.dispatch.calls|;
      && Inv(r)
      && r.stream == c.stream
      && SameButStatus(c.dispatch.calls, r.dispatch.calls)
      && |r.dispatch.calls| == k + 1
      && r.dispatch.calls[k].expectedGeneration == g && r.dispatch.calls[k].expectedSequence == n
  {
    InvKeeps(c, Enqueue(g, n));
    assert Do(c, Enqueue(g, n)) == Admit(c, g, n);
    hide Inv;
  }

  lemma {:induction false} SoundSubmit(w: World, k: nat)
    requires Sound(w) && k < |w.controls| && w.controls[k].stage.Preflighted?
    ensures Sound(Submits(w, k))
  {
    var c, control := w.connection, w.controls[k];
    var after := Submits(w, k);
    var r := after.connection;
    AdmitKeeps(c, control.expectedGeneration, Some(control.stage.sequence));
    hide Inv, Admit;
    assert Backed(c, k, control);
    forall j | 0 <= j < |w.controls|
      ensures Backed(r, j, after.controls[j])
    {
      if j != k { BackedKept(c, r, j, w.controls[j]); }
    }
  }

  lemma {:induction false} SoundKeeps(w: World, deed: Deed)
    requires Sound(w) && Permitted(deed)
    ensures Sound(Perform(w, deed))
  {
    match deed
    case Native(act) => SoundNative(w, act);
    case Begin(_, _) => hide Inv;
    case Preflight(k, objects, captured) =>
      if k < |w.controls| && w.controls[k].stage.Begun? { SoundCapture(w, k, objects, captured); }
    case Submit(k) =>
      if k < |w.controls| && w.controls[k].stage.Preflighted? { SoundSubmit(w, k); }
  }

  lemma {:induction false} SoundRun(w: World, deeds: seq<Deed>)
    requires Sound(w) && forall i :: 0 <= i < |deeds| ==> Permitted(deeds[i])
    ensures Sound(PerformAll(w, deeds))
    decreases |deeds|
  {
    if deeds != [] {
      assert Permitted(deeds[0]);
      SoundKeeps(w, deeds[0]);
      hide Sound, Perform;
      SoundRun(Perform(w, deeds[0]), deeds[1..]);
    }
  }

  /**
   * In every run, a control that was given position (g, s) and whose call executed did so in
   * generation g when exactly s + 1 numbers had been issued, the last being its own preflight.
   */
  lemma {:induction false} GuardedExecution(capacity: nat, deeds: seq<Deed>, k: nat, i: nat)
    requires forall j :: 0 <= j < |deeds| ==> Permitted(deeds[j])
    requires var w := PerformAll(World(Fresh(capacity), []), deeds);
      && k < |w.controls| && w.controls[k].stage.Submitted?
      && i < |w.connection.dispatch.executed|
      && w.connection.dispatch.executed[i].id == w.controls[k].stage.id
    ensures var w := PerformAll(World(Fresh(capacity), []), deeds);
      var x, control := w.connection.dispatch.executed[i], w.controls[k];
      && x.generation == control.expectedGeneration
      && x.sequence == control.expectedSequence + 1
      && OwnCapture(w.connection.stream.log, k, x.generation, x.sequence)
  {
    var start := World(Fresh(capacity), []);
    FreshInv(capacity);
    SoundRun(start, deeds);
    var w := PerformAll(start, deeds);
    hide PerformAll, Placed, CompletedOnce, Scheduled, Drained, Ranked, Answers;
    assert Backed(w.connection, k, w.controls[k]);
    assert Proper(w.connection.dispatch, w.connection.dispatch.executed[i]);
  }

  /** The execution is under way for a control's call. */
  predicate Executes(w: World, k: nat, outcome: Outcome) {
    && Numbered(w.connection.stream)
    && k < |w.controls| && w.controls[k].stage.Submitted?
    && w.connection.dispatch.phase == Popped(w.controls[k].stage.id)
    && |Do(w.connection, Execute(outcome)).dispatch.executed| > |w.connection.dispatch.executed|
  }

  /**
   * At the moment a guarded control executes, the history of the generation is what the caller had
   * projected followed by the control's own capture: no event and no other capture in between. A
   * caller whose projection is faithful therefore acts on everything that has happened.
   */
  lemma {:induction false} NothingInBetween(w: World, k: nat, outcome: Outcome, v: Projections.View)
    requires Sound(w) && Executes(w, k, outcome)
    requires Projections.Faithful(w.connection.stream.log, v)
    requires v.projection.generation == w.controls[k].expectedGeneration
    requires v.projection.sequence == w.controls[k].expectedSequence
    ensures var log, g, s := w.connection.stream.log, v.projection.generation, v.projection.sequence;
      && |log| == g + 1
      && |log[g]| == s + 1
      && OwnCapture(log, k, g, s + 1)
      && var b := v.snapshot.sequence;
         && 1 <= b <= s
         && Projections.AllOrdinary(log[g][b..s])
         && v.projection.objects == Projections.Replay(v.snapshot.objects, log[g][b..s])
  {
    hide Placed, CompletedOnce, Scheduled, Drained, Ranked, Executions, Answers;
    assert Backed(w.connection, k, w.controls[k]);
  }

  /** Conversely, a guarded control that nothing disturbs does execute. */
  lemma {:induction false} UndisturbedExecutes(w: World, k: nat, objects: Objects)
    requires Sound(w) && k < |w.controls| && w.controls[k].stage.Begun?
    requires var c := w.connection;
      && c.om && c.ctx && c.thread && !c.stopRequested
      && c.dispatch.phase.Idle? && c.dispatch.queue == [] && c.dispatch.sources == 0
      && c.stream.generation == w.controls[k].expectedGeneration
      && c.stream.sequence == w.controls[k].expectedSequence
    ensures var submitted := Perform(Perform(w, Preflight(k, objects, true)), Submit(k));
      Executes(Perform(submitted, Native(Fire)), k, Ready)
  {
    hide Placed, CompletedOnce, Drained, Ranked, Executions, Answers;
    var submitted := Perform(Perform(w, Preflight(k, objects, true)), Submit(k));
    var id := |w.connection.dispatch.calls|;
    assert submitted.connection.dispatch.queue == [id] && submitted.connection.dispatch.sources == 1;
    assert submitted.controls[k].stage == Submitted(id);
    var fired := Perform(submitted, Native(Fire));
    assert fired.connection.dispatch.phase == Popped(id);
  }
}
