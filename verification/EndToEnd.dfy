/**
 * One connection with its client and its controls in one run: the client follows the stream, begins
 * controls at the position it has projected, and everything else happens in between.
 */
module EndToEnd {
  import opened Wrappers
  import opened Events
  import opened EventStream
  import opened Dispatch
  import opened DispatchSafety
  import opened DispatchRuns
  import P = Projections
  import O = Optimistic

  /** `basis` holds, for each control the client began, the view it began it from. */
  datatype Joint = Joint(world: O.World, view: Option<P.View>, phase: P.Phase, basis: seq<Option<P.View>>)

  datatype Turn =
    | Deed(deed: O.Deed)
    | Move(move: P.Move)
    | ClientBegins

  /** The client is the only reader of the queue, and its moves are its own. */
  predicate Fair(turn: Turn) {
    match turn
    case Deed(deed) => O.Permitted(deed) && !(deed.Native? && deed.act.Events? && deed.act.step.Take?)
    case Move(move) => !move.Native?
    case ClientBegins => true
  }

  function Seen(j: Joint): P.System { P.System(j.world.connection.stream, j.view, j.phase) }

  function Take(j: Joint, turn: Turn): (r: Joint)
    requires Numbered(j.world.connection.stream)
    ensures Numbered(r.world.connection.stream)
  {
    match turn
    case Deed(deed) =>
      j.(world := O.Perform(j.world, deed), basis := if deed.Begin? then j.basis + [None] else j.basis)
    case Move(move) =>
      var y := P.Go(Seen(j), move);
      j.(world := j.world.(connection := j.world.connection.(stream := y.stream)), view := y.view, phase := y.phase)
    case ClientBegins =>
      if j.view.None? then j
      else
        var p := j.view.value.projection;
        j.(world := O.Perform(j.world, O.Begin(p.generation, p.sequence)), basis := j.basis + [j.view])
  }

  function TakeAll(j: Joint, turns: seq<Turn>): (r: Joint)
    requires Numbered(j.world.connection.stream)
    ensures Numbered(r.world.connection.stream)
    decreases |turns|
  {
    if turns == [] then j else TakeAll(Take(j, turns[0]), turns[1..])
  }

  function Beginning(capacity: nat): Joint {
    Joint(O.World(Fresh(capacity), []), None, P.NeedsCapture, [])
  }

  /** A control's basis is faithful, and the control was given its position. */
  ghost predicate Based(log: seq<seq<Entry>>, control: O.Control, basis: Option<P.View>) {
    basis.Some? ==>
      && P.Faithful(log, basis.value)
      && control.expectedGeneration == basis.value.projection.generation
      && control.expectedSequence == basis.value.projection.sequence
  }

  ghost predicate JointInv(j: Joint) {
    && O.Sound(j.world)
    && P.Inv(Seen(j))
    && |j.basis| == |j.world.controls|
    && forall k :: 0 <= k < |j.basis| ==> Based(j.world.connection.stream.log, j.world.controls[k], j.basis[k])
  }

  // ----- what turns do to the stream -----

  /** The step of the stream that a client's move makes. */
  function StepOfMove(y: P.System, move: P.Move): Option<Step>
  {
    match move
    case ClientCapture(objects, captured, _) =>
      if y.phase.NeedsCapture? then Some(Capture(objects, P.CLIENT, captured)) else None
    case ClientDrain => if y.phase.NeedsDrain? then Some(Step.Take(0)) else None
    case ClientNext => if y.phase.Following? && y.view.Some? then Some(Step.Take(1)) else None
    case _ => None
  }

  lemma {:induction false} MoveSteps(y: P.System, move: P.Move)
    requires Numbered(y.stream) && !move.Native?
    ensures var step := StepOfMove(y, move);
      P.Go(y, move).stream == if step.Some? then Apply(y.stream, step.value) else y.stream
    ensures StepOfMove(y, move).Some? ==> !StepOfMove(y, move).value.Install?
  {
    hide P.FoldDrained, P.Advance, P.AllValid;
  }

  /** The step of the stream that a deed makes. */
  function StepOfDeed(w: O.World, deed: O.Deed): Option<Step> {
    match deed
    case Native(act) => if act.Events? then Some(act.step) else None
    case Preflight(k, objects, captured) =>
      if k < |w.controls| && w.controls[k].stage.Begun? then Some(Capture(objects, O.Reader(k), captured)) else None
    case _ => None
  }

  lemma {:induction false} DeedSteps(w: O.World, deed: O.Deed)
    requires Numbered(w.connection.stream)
    ensures var step := StepOfDeed(w, deed);
      O.Perform(w, deed).connection.stream
        == if step.Some? then Apply(w.connection.stream, step.value) else w.connection.stream
  {
    match deed
    case Native(act) => O.OnlyEventsTouchStream(w.connection, act);
    case Submit(k) => hide Schedule, Apply;
    case _ =>
  }

  /** Deeds only add controls, and never change what a control was given. */
  lemma {:induction false} GivenKept(w: O.World, deed: O.Deed)
    requires Numbered(w.connection.stream)
    ensures var r := O.Perform(w, deed);
      && |r.controls| == |w.controls| + (if deed.Begin? then 1 else 0)
      && (forall k :: 0 <= k < |w.controls| ==>
           && r.controls[k].expectedGeneration == w.controls[k].expectedGeneration
           && r.controls[k].expectedSequence == w.controls[k].expectedSequence)
  {
    hide Do, CaptureBaseline, Admit;
  }

  lemma {:induction false} BasedKept(log: seq<seq<Entry>>, newer: seq<seq<Entry>>, before: O.Control, after: O.Control,
                                     basis: Option<P.View>)
    requires Based(log, before, basis) && Extends(log, newer)
    requires after.expectedGeneration == before.expectedGeneration && after.expectedSequence == before.expectedSequence
    ensures Based(newer, after, basis)
  {
    if basis.Some? { P.FaithfulExtends(log, newer, basis.value); }
  }

  // ----- the joint invariant -----

  lemma {:induction false} DeedKeepsSeen(j: Joint, deed: O.Deed)
    requires JointInv(j) && Fair(Deed(deed))
    ensures P.Inv(Seen(Take(j, Deed(deed))))
    ensures Extends(j.world.connection.stream.log, O.Perform(j.world, deed).connection.stream.log)
  {
    DeedSteps(j.world, deed);
    var step := StepOfDeed(j.world, deed);
    hide O.Sound, O.Perform;
    if step.Some? {
      P.NativeKeeps(Seen(j), step.value);
      HistoryGrows(j.world.connection.stream, step.value);
      assert Seen(Take(j, Deed(deed))) == P.Go(Seen(j), P.Native(step.value));
    } else {
      assert Seen(Take(j, Deed(deed))) == Seen(j);
    }
    hide P.Inv;
  }

  lemma {:induction false} DeedKeeps(j: Joint, deed: O.Deed)
    requires JointInv(j) && Fair(Deed(deed))
    ensures JointInv(Take(j, Deed(deed)))
  {
    var r := Take(j, Deed(deed));
    DeedKeepsSeen(j, deed);
    O.SoundKeeps(j.world, deed);
    GivenKept(j.world, deed);
    hide O.Sound, O.Perform, P.Inv;
    forall k | 0 <= k < |r.basis|
      ensures Based(r.world.connection.stream.log, r.world.controls[k], r.basis[k])
    {
      if k < |j.basis| {
        assert r.basis[k] == j.basis[k];
        BasedKept(j.world.connection.stream.log, r.world.connection.stream.log,
                  j.world.controls[k], r.world.controls[k], j.basis[k]);
      }
    }
  }

  lemma {:induction false} MoveKeeps(j: Joint, move: P.Move)
    requires JointInv(j) && !move.Native?
    ensures JointInv(Take(j, Move(move)))
  {
    var r := Take(j, Move(move));
    MoveKeepsSound(j, move);
    P.GoKeeps(Seen(j), move);
    P.GoExtends(Seen(j), move);
    assert Seen(r) == P.Go(Seen(j), move);
    hide O.Sound, P.Inv, P.Go;
    forall k | 0 <= k < |r.basis|
      ensures Based(r.world.connection.stream.log, r.world.controls[k], r.basis[k])
    {
      BasedKept(j.world.connection.stream.log, r.world.connection.stream.log,
                j.world.controls[k], r.world.controls[k], j.basis[k]);
    }
  }

  lemma {:induction false} MoveKeepsSound(j: Joint, move: P.Move)
    requires JointInv(j) && !move.Native?
    ensures O.Sound(Take(j, Move(move)).world)
  {
    MoveSteps(Seen(j), move);
    var step := StepOfMove(Seen(j), move);
    hide P.Inv, P.Go, Apply;
    if step.Some? {
      O.SoundNative(j.world, Act.Events(step.value));
      hide O.Sound;
      assert Take(j, Move(move)).world == O.Perform(j.world, O.Native(Act.Events(step.value)));
    } else {
      hide O.Sound;
      assert Take(j, Move(move)).world == j.world;
    }
  }

  lemma {:induction false} BeginKeeps(j: Joint)
    requires JointInv(j)
    ensures JointInv(Take(j, ClientBegins))
  {
    if j.view.Some? {
      var p := j.view.value.projection;
      var r := Take(j, ClientBegins);
      O.SoundKeeps(j.world, O.Begin(p.generation, p.sequence));
      assert P.Faithful(j.world.connection.stream.log, j.view.value);
      assert r.world.connection == j.world.connection;
      assert Seen(r) == Seen(j);
      hide O.Sound, P.Inv, P.Faithful;
      forall k | 0 <= k < |r.basis|
        ensures Based(r.world.connection.stream.log, r.world.controls[k], r.basis[k])
      {
        if k < |j.basis| { assert Based(j.world.connection.stream.log, j.world.controls[k], j.basis[k]); }
      }
    }
  }

  lemma {:induction false} RunKeeps(j: Joint, turns: seq<Turn>)
    requires JointInv(j) && forall i :: 0 <= i < |turns| ==> Fair(turns[i])
    ensures JointInv(TakeAll(j, turns))
    decreases |turns|
  {
    if turns != [] {
      assert Fair(turns[0]);
      match turns[0] {
        case Deed(deed) => DeedKeeps(j, deed);
        case Move(move) => MoveKeeps(j, move);
        case ClientBegins => BeginKeeps(j);
      }
      hide JointInv, Take;
      RunKeeps(Take(j, turns[0]), turns[1..]);
    }
  }

  /**
   * In every run of the connection, its client and its controls: when a control that the client
   * began executes, the history of its generation is exactly what the client's projection stood for
   * when it began the control, followed by the control's own capture. The client acts on everything
   * that has happened: its projection is its snapshot with every event since.
   */
  lemma {:induction false} ActsOnWhatItSaw(capacity: nat, turns: seq<Turn>, k: nat, outcome: Outcome)
    requires capacity >= 1 && forall i :: 0 <= i < |turns| ==> Fair(turns[i])
    requires var j := TakeAll(Beginning(capacity), turns);
      O.Executes(j.world, k, outcome) && k < |j.basis| && j.basis[k].Some?
    ensures var j := TakeAll(Beginning(capacity), turns);
      var log, v := j.world.connection.stream.log, j.basis[k].value;
      var g, s := v.projection.generation, v.projection.sequence;
      && P.Faithful(log, v)
      && |log| == g + 1
      && |log[g]| == s + 1
      && O.OwnCapture(log, k, g, s + 1)
  {
    FreshInv(capacity);
    var start := Beginning(capacity);
    assert P.Inv(Seen(start));
    RunKeeps(start, turns);
    var j := TakeAll(start, turns);
    hide TakeAll, Inv, P.Inv, O.Executes;
    assert Based(j.world.connection.stream.log, j.world.controls[k], j.basis[k]);
    O.NothingInBetween(j.world, k, outcome, j.basis[k].value);
  }

  /** In the same runs the client's projection is faithful whatever the controls do. */
  lemma {:induction false} ClientStaysFaithful(capacity: nat, turns: seq<Turn>)
    requires capacity >= 1 && forall i :: 0 <= i < |turns| ==> Fair(turns[i])
    ensures var j := TakeAll(Beginning(capacity), turns);
      j.view.Some? ==> P.Faithful(j.world.connection.stream.log, j.view.value)
  {
    FreshInv(capacity);
    assert P.Inv(Seen(Beginning(capacity)));
    RunKeeps(Beginning(capacity), turns);
    hide TakeAll, O.Sound;
  }
}
