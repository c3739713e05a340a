/**
 * The confirmed mutation: preflight, at most one dispatch, then polling snapshots until every
 * condition is observed or the deadline passes. It returns an outcome or raises.
 */
module ConfirmedMutation {
  import opened Wrappers
  import opened Events
  import opened Outcomes
  import RuntimeSnapshots
  import opened Observations
  import Json = Envelopes

  /** `linkId` is the payload of a link removal. */
  datatype Request = Request(
    expectedGeneration: nat, expectedSequence: Option<nat>, conditions: seq<Condition>, linkId: Option<nat>)

  /** The constructor asks for at least one condition. */
  predicate ValidRequest(r: Request) { r.conditions != [] }

  datatype Confirmation = Confirmation(
    generation: nat, sequence: nat, condition: Condition, observation: Observed)

  datatype MutationOutcome = MutationOutcome(
    generation: nat, status: MutationStatus, confirmations: seq<Confirmation>, failure: Option<Failure>)

  /** The constraints of the outcome's constructor and of the values inside it. */
  predicate ValidOutcome(o: MutationOutcome) {
    && (forall i :: 0 <= i < |o.confirmations| ==>
         && o.confirmations[i].generation == o.generation
         && Matches(o.confirmations[i].condition, o.confirmations[i].observation))
    && (o.failure.Some? ==> ValidFailure(o.failure.value))
    && (o.status == Confirmed ==> o.failure.None? && o.confirmations != [])
    && (o.status != Confirmed ==> o.failure.Some? && o.failure.value.code in CodesOfStatus(o.status))
  }

  /** A capture may raise a RuntimeError, with its message, or any other exception. */
  datatype Capture = Captured(snapshot: RuntimeSnapshots.Snapshot) | Unavailable(message: string) | Unreadable

  /**
   * The surroundings of one execution: the n-th reading of the clock against the deadline, the n-th
   * capture, the ticket of a dispatch, None where dispatching raises, and the objects' context.
   */
  datatype Surroundings = Surroundings(
    expired: nat -> bool, capture: nat -> Capture, ticket: Request -> Option<Ticket>, context: Context)

  /** How an execution ends. */
  datatype AnyEnding = Returned(outcome: MutationOutcome) | Raised

  /** An outcome exists only if its constructor accepted it. */
  type Ending = e: AnyEnding | e.Returned? ==> ValidOutcome(e.outcome) witness Raised

  /** An ending, and the requests that reached the native dispatcher. */
  datatype Execution = Execution(ending: Ending, dispatched: seq<Request>)

  // ----- confirmations -----

  function Generation(s: RuntimeSnapshots.Snapshot): nat { s.contents.generation }
  function Sequence(s: RuntimeSnapshots.Snapshot): nat { s.contents.sequence }

  function Confirm(w: Surroundings, s: RuntimeSnapshots.Snapshot, c: Condition): Confirmation {
    Confirmation(Generation(s), Sequence(s), c, Observation(s, c.target, w.context))
  }

  /** Confirming some condition raises. */
  predicate Refused(w: Surroundings, s: RuntimeSnapshots.Snapshot, conditions: seq<Condition>) {
    exists i :: 0 <= i < |conditions| && Rejects(s, conditions[i], w.context)
  }

  predicate Satisfied(w: Surroundings, s: RuntimeSnapshots.Snapshot, conditions: seq<Condition>) {
    forall i :: 0 <= i < |conditions| ==> Satisfies(s, conditions[i], w.context)
  }

  /** `_confirmations_from_snapshot`, where it does not raise. */
  function Confirmations(w: Surroundings, s: RuntimeSnapshots.Snapshot, conditions: seq<Condition>): (r: seq<Confirmation>)
    ensures |r| <= |conditions|
  {
    if conditions == [] then []
    else
      var n := |conditions| - 1;
      Confirmations(w, s, conditions[..n])
      + (if Satisfies(s, conditions[n], w.context) then [Confirm(w, s, conditions[n])] else [])
  }

  /** None where it raises. */
  method CollectConfirmations(w: Surroundings, s: RuntimeSnapshots.Snapshot, conditions: seq<Condition>)
    returns (r: Option<seq<Confirmation>>)
    ensures r == if Refused(w, s, conditions) then None else Some(Confirmations(w, s, conditions))
  {
    hide Matches, Refuses, Observation;
    var collected := [];
    for i := 0 to |conditions|
      invariant collected == Confirmations(w, s, conditions[..i])
      invariant forall j :: 0 <= j < i ==> !Rejects(s, conditions[j], w.context)
    {
      assert conditions[..i + 1][..i] == conditions[..i];
      var observation := Observation(s, conditions[i].target, w.context);
      if Refuses(conditions[i], observation) {
        assert Rejects(s, conditions[i], w.context);
        return None;
      }
      if Matches(conditions[i], observation) {
        collected := collected + [Confirmation(Generation(s), Sequence(s), conditions[i], observation)];
      }
    }
    assert conditions[..|conditions|] == conditions;
    return Some(collected);
  }

  /**
   * There are as many confirmations as conditions exactly when the snapshot satisfies them all, and
   * then there is one for each, in order; in any case each one holds in the snapshot.
   */
  lemma {:induction false} ConfirmationsIff(w: Surroundings, s: RuntimeSnapshots.Snapshot, conditions: seq<Condition>)
    ensures var r := Confirmations(w, s, conditions);
      && (|r| == |conditions| <==> Satisfied(w, s, conditions))
      && (|r| == |conditions| ==> forall i :: 0 <= i < |r| ==> r[i] == Confirm(w, s, conditions[i]))
      && (forall i :: 0 <= i < |r| ==>
           r[i] == Confirm(w, s, r[i].condition) && Satisfies(s, r[i].condition, w.context))
  {
    if conditions != [] {
      var n := |conditions| - 1;
      var front := conditions[..n];
      ConfirmationsIff(w, s, front);
      hide Satisfies, Observation, Matches;
      var f, all := Confirmations(w, s, front), Confirmations(w, s, conditions);
      assert all == f || all == f + [Confirm(w, s, conditions[n])];
      assert |all| == |f| + (if Satisfies(s, conditions[n], w.context) then 1 else 0);
      hide Confirmations;
      assert forall i :: 0 <= i < n ==> front[i] == conditions[i];
      assert Satisfied(w, s, conditions) <==> Satisfied(w, s, front) && Satisfies(s, conditions[n], w.context);
    }
  }

  // ----- outcomes -----

  /** Constructing an outcome that fails a check raises. */
  function Finish(o: MutationOutcome): Ending {
    if ValidOutcome(o) then Returned(o) else Raised
  }

  function Fail(r: Request, status: MutationStatus, phase: FailurePhase, code: FailureCode, message: string,
                retryable: bool, confirmations: seq<Confirmation>): Ending {
    Finish(MutationOutcome(r.expectedGeneration, status, confirmations, Some(Failure(phase, code, message, retryable))))
  }

  function Lower(c: char): char { if 'A' <= c <= 'Z' then c + 32 as char else c }

  predicate MentionsAt(message: string, words: string, i: nat) {
    i + |words| <= |message| && forall j :: 0 <= j < |words| ==> Lower(message[i..][j]) == words[j]
  }

  predicate Mentions(message: string, words: string) {
    exists i :: 0 <= i <= |message| && MentionsAt(message, words, i)
  }

  /** `_runtime_unavailable_outcome` */
  function UnavailableOutcome(r: Request, message: string, confirmations: seq<Confirmation>): Ending {
    if Mentions(message, "stopped") || Mentions(message, "not ready")
    then Fail(r, CancelledStatus, Cancellation, FailureCode.RuntimeStopped, message, false, confirmations)
    else Fail(r, Failed, ExecutionPhase, InternalError, message, false, confirmations)
  }

  const DISPATCH_MESSAGE := "native mutation dispatch did not accept the request"

  /** `_ticket_failure_outcome` */
  function TicketOutcome(r: Request, t: Ticket): Ending {
    var code := if t.failure.Some? then t.failure.value else InternalError;
    var retryable := code == FailureCode.GenerationLost;
    if t.disposition.CancelledDisposition? then
      Fail(r, CancelledStatus, Cancellation, code, DISPATCH_MESSAGE, retryable, [])
    else if t.disposition.FailedDisposition? then
      Fail(r, Failed, ExecutionPhase, code, DISPATCH_MESSAGE, retryable, [])
    else if code == FailureCode.UnsupportedOperation then
      Fail(r, Rejected, Validation, code, DISPATCH_MESSAGE, retryable, [])
    else Fail(r, Rejected, Precondition, code, DISPATCH_MESSAGE, retryable, [])
  }

  function Confirms(r: Request, confirmations: seq<Confirmation>): Ending {
    Finish(MutationOutcome(r.expectedGeneration, Confirmed, confirmations, None))
  }

  function Expires(r: Request, confirmations: seq<Confirmation>): Ending {
    Fail(r, TimedOut, Deadline, DeadlineExpired, "mutation deadline expired", false, confirmations)
  }

  function Unconfirmed(r: Request, confirmations: seq<Confirmation>): Ending {
    Fail(r, TimedOut, ConfirmationPhase, ConfirmationTimeout,
         "native mutation was accepted but state was not confirmed", false, confirmations)
  }

  function Moved(r: Request, confirmations: seq<Confirmation>): Ending {
    Fail(r, CancelledStatus, Cancellation, FailureCode.GenerationLost,
         "connection generation changed before confirmation", false, confirmations)
  }

  function StaleIn(r: Request, code: FailureCode): Ending {
    Fail(r, Rejected, Precondition, code, "the preflight is not the expected one", false, [])
  }

  // ----- execution -----

  predicate StaleSequenceIn(r: Request, s: RuntimeSnapshots.Snapshot) {
    r.expectedSequence.Some? && Sequence(s) != r.expectedSequence.value + 1
  }

  /** The request as dispatched: guarded by the preflight's own number. */
  function Guarded(r: Request, preflight: RuntimeSnapshots.Snapshot): Request {
    if r.expectedSequence.Some? then r.(expectedSequence := Some(Sequence(preflight))) else r
  }

  /** The clock passes the deadline at the latest by its n-th reading. */
  ghost predicate Advances(w: Surroundings, n: nat) { forall i :: i >= n ==> w.expired(i) }

  /** The polling loop from clock reading `reading` and capture `at` on. */
  function Poll(w: Surroundings, r: Request, reading: nat, at: nat, latest: seq<Confirmation>, n: nat): Ending
    requires w.expired(n)
    decreases if reading <= n then n - reading + 1 else 0
  {
    if reading > n || w.expired(reading) then Unconfirmed(r, latest)
    else match w.capture(at)
      case Unreadable => Raised
      case Unavailable(message) => UnavailableOutcome(r, message, latest)
      case Captured(s) =>
        if Generation(s) != r.expectedGeneration then Moved(r, latest)
        else if Refused(w, s, r.conditions) then Raised
        else
          var confirmations := Confirmations(w, s, r.conditions);
          if |confirmations| == |r.conditions| then Confirms(r, confirmations)
          else Poll(w, r, reading + 1, at + 1, confirmations, n)
  }

  /** From a preflight snapshot on; `at` is the next capture. */
  function ExecuteFrom(w: Surroundings, r: Request, preflight: RuntimeSnapshots.Snapshot, at: nat, n: nat): Execution
    requires w.expired(n)
  {
    if Generation(preflight) != r.expectedGeneration then Execution(StaleIn(r, FailureCode.StaleGeneration), [])
    else if StaleSequenceIn(r, preflight) then Execution(StaleIn(r, FailureCode.StaleSequence), [])
    else if Refused(w, preflight, r.conditions) then Execution(Raised, [])
    else
      var confirmations := Confirmations(w, preflight, r.conditions);
      if |confirmations| == |r.conditions| then Execution(Confirms(r, confirmations), [])
      else if w.expired(1) then Execution(Expires(r, confirmations), [])
      else
        var guarded := Guarded(r, preflight);
        var ticket := w.ticket(guarded);
        if ticket.None? || !ValidTicket(ticket.value) then Execution(Raised, [guarded])
        else if !ticket.value.disposition.ReadyDisposition? then Execution(TicketOutcome(guarded, ticket.value), [guarded])
        else Execution(Poll(w, guarded, 2, at, [], n), [guarded])
  }

  /** `_execute_confirmed_mutation`; without a given preflight the first capture is the preflight. */
  function Execute(w: Surroundings, r: Request, given: Option<RuntimeSnapshots.Snapshot>, n: nat): Execution
    requires w.expired(n)
  {
    if w.expired(0) then Execution(Expires(r, []), [])
    else match given
      case Some(s) => ExecuteFrom(w, r, s, 0, n)
      case None =>
        match w.capture(0)
        case Unreadable => Execution(Raised, [])
        case Unavailable(message) => Execution(UnavailableOutcome(r, message, []), [])
        case Captured(s) => ExecuteFrom(w, r, s, 1, n)
  }

  /** The loop after a ready ticket; `start` is its first capture. */
  method PollSnapshots(w: Surroundings, r: Request, start: nat, ghost n: nat) returns (ending: Ending)
    requires Advances(w, n)
    ensures ending == Poll(w, r, 2, start, [], n)
  {
    hide Confirmations, Refused, UnavailableOutcome, Unconfirmed, Moved, Confirms;
    var latest := [];
    var reading, captures := 2, start;
    while !w.expired(reading)
      invariant Poll(w, r, 2, start, [], n) == Poll(w, r, reading, captures, latest, n)
      decreases if reading <= n then n - reading + 1 else 0
    {
      var next := w.capture(captures);
      match next {
        case Unreadable => return Raised;
        case Unavailable(message) => return UnavailableOutcome(r, message, latest);
        case Captured(s) =>
          if Generation(s) != r.expectedGeneration { return Moved(r, latest); }
          var confirmations := CollectConfirmations(w, s, r.conditions);
          if confirmations.None? { return Raised; }
          latest := confirmations.value;
          if |latest| == |r.conditions| { return Confirms(r, latest); }
      }
      reading, captures := reading + 1, captures + 1;
    }
    return Unconfirmed(r, latest);
  }

  method RunFrom(w: Surroundings, r: Request, preflight: RuntimeSnapshots.Snapshot, at: nat, ghost n: nat)
    returns (ending: Ending, dispatched: seq<Request>)
    requires Advances(w, n)
    ensures Execution(ending, dispatched) == ExecuteFrom(w, r, preflight, at, n)
  {
    hide Confirmations, Refused, Poll, TicketOutcome, StaleIn, Confirms, Expires, ValidTicket;
    if Generation(preflight) != r.expectedGeneration { return StaleIn(r, FailureCode.StaleGeneration), []; }
    if StaleSequenceIn(r, preflight) { return StaleIn(r, FailureCode.StaleSequence), []; }
    var confirmations := CollectConfirmations(w, preflight, r.conditions);
    if confirmations.None? { return Raised, []; }
    if |confirmations.value| == |r.conditions| { return Confirms(r, confirmations.value), []; }
    if w.expired(1) { return Expires(r, confirmations.value), []; }
    var guarded := Guarded(r, preflight);
    var ticket := w.ticket(guarded);
    dispatched := [guarded];
    if ticket.None? || !ValidTicket(ticket.value) { return Raised, dispatched; }
    if !ticket.value.disposition.ReadyDisposition? { return TicketOutcome(guarded, ticket.value), dispatched; }
    ending := PollSnapshots(w, guarded, at, n);
  }

  method Run(w: Surroundings, r: Request, given: Option<RuntimeSnapshots.Snapshot>, ghost n: nat)
    returns (ending: Ending, dispatched: seq<Request>)
    requires Advances(w, n)
    ensures Execution(ending, dispatched) == Execute(w, r, given, n)
  {
    hide ExecuteFrom, UnavailableOutcome, Expires;
    if w.expired(0) { return Expires(r, []), []; }
    if given.Some? {
      ending, dispatched := RunFrom(w, r, given.value, 0, n);
      return;
    }
    var first := w.capture(0);
    match first {
      case Unreadable => return Raised, [];
      case Unavailable(message) => return UnavailableOutcome(r, message, []), [];
      case Captured(s) => ending, dispatched := RunFrom(w, r, s, 1, n);
    }
  }

  // ----- when it dispatches -----

  /** The snapshot an execution takes as its preflight. */
  function PreflightOf(w: Surroundings, given: Option<RuntimeSnapshots.Snapshot>): Option<RuntimeSnapshots.Snapshot> {
    if given.Some? then given else if w.capture(0).Captured? then Some(w.capture(0).snapshot) else None
  }

  /** The first capture after the preflight. */
  function NextCapture(given: Option<RuntimeSnapshots.Snapshot>): nat { if given.Some? then 0 else 1 }

  predicate Fresh(r: Request, s: RuntimeSnapshots.Snapshot) {
    && Generation(s) == r.expectedGeneration
    && (r.expectedSequence.Some? ==> Sequence(s) == r.expectedSequence.value + 1)
  }

  /** The request is in time, current, and neither refused nor already satisfied. */
  predicate Proceeds(w: Surroundings, r: Request, given: Option<RuntimeSnapshots.Snapshot>) {
    && !w.expired(0) && !w.expired(1)
    && var p := PreflightOf(w, given);
       && p.Some? && Fresh(r, p.value)
       && !Refused(w, p.value, r.conditions) && !Satisfied(w, p.value, r.conditions)
  }

  /**
   * One request is dispatched exactly when the request is neither expired, stale, refused nor already
   * satisfied, otherwise none; what is dispatched is guarded by the preflight's own number.
   */
  lemma {:induction false} DispatchedIff(w: Surroundings, r: Request, given: Option<RuntimeSnapshots.Snapshot>, n: nat)
    requires w.expired(n)
    ensures Execute(w, r, given, n).dispatched
      == if Proceeds(w, r, given) then [Guarded(r, PreflightOf(w, given).value)] else []
  {
    var p := PreflightOf(w, given);
    if p.Some? { ConfirmationsIff(w, p.value, r.conditions); }
    hide Satisfied, Refused, Confirmations, Poll, ValidTicket, Finish, Mentions;
  }

  // ----- what confirmed means -----

  /** All conditions were observed in one snapshot of the expected generation. */
  ghost predicate ObservedAtOnce(w: Surroundings, r: Request, s: RuntimeSnapshots.Snapshot, o: MutationOutcome) {
    && Generation(s) == r.expectedGeneration
    && Satisfied(w, s, r.conditions)
    && |o.confirmations| == |r.conditions|
    && (forall i :: 0 <= i < |r.conditions| ==> o.confirmations[i] == Confirm(w, s, r.conditions[i]))
  }

  predicate IsConfirmed(e: Ending) { e.Returned? && e.outcome.status == Confirmed }

  lemma {:induction false} ConfirmsObserved(w: Surroundings, r: Request, s: RuntimeSnapshots.Snapshot)
    requires Generation(s) == r.expectedGeneration
    ensures var confirmations := Confirmations(w, s, r.conditions);
      |confirmations| == |r.conditions| && Confirms(r, confirmations).Returned? ==>
        ObservedAtOnce(w, r, s, Confirms(r, confirmations).outcome)
  {
    ConfirmationsIff(w, s, r.conditions);
    hide Satisfied, Confirmations, ValidOutcome, Matches;
  }

  lemma FailureIsNotConfirmed(r: Request, message: string, latest: seq<Confirmation>)
    ensures !IsConfirmed(UnavailableOutcome(r, message, latest))
    ensures !IsConfirmed(Unconfirmed(r, latest)) && !IsConfirmed(Moved(r, latest))
  {
    hide ValidOutcome, Mentions;
  }

  lemma {:induction false} PollConfirmed(
      w: Surroundings, r: Request, reading: nat, at: nat, latest: seq<Confirmation>, n: nat)
    requires w.expired(n)
    ensures var e := Poll(w, r, reading, at, latest, n);
      IsConfirmed(e) ==>
        exists i :: i >= at && w.capture(i).Captured? && ObservedAtOnce(w, r, w.capture(i).snapshot, e.outcome)
    decreases if reading <= n then n - reading + 1 else 0
  {
    hide ObservedAtOnce, Refused, Confirmations, Confirms, UnavailableOutcome, Unconfirmed, Moved;
    if !(reading > n || w.expired(reading)) && w.capture(at).Captured? {
      var s := w.capture(at).snapshot;
      FailureIsNotConfirmed(r, "", latest);
      if Generation(s) == r.expectedGeneration && !Refused(w, s, r.conditions) {
        var confirmations := Confirmations(w, s, r.conditions);
        if |confirmations| == |r.conditions| {
          ConfirmsObserved(w, r, s);
        } else {
          PollConfirmed(w, r, reading + 1, at + 1, confirmations, n);
        }
      }
    } else if !(reading > n || w.expired(reading)) && w.capture(at).Unavailable? {
      FailureIsNotConfirmed(r, w.capture(at).message, latest);
    } else {
      FailureIsNotConfirmed(r, "", latest);
    }
  }

  lemma {:induction false} ObservedGuarded(
      w: Surroundings, r: Request, preflight: RuntimeSnapshots.Snapshot, s: RuntimeSnapshots.Snapshot, o: MutationOutcome)
    requires ObservedAtOnce(w, Guarded(r, preflight), s, o)
    ensures ObservedAtOnce(w, r, s, o)
  {
  }

  /** Observed in the preflight, with nothing dispatched, or in a later capture, after the dispatch. */
  ghost predicate ProperlyConfirmed(
      w: Surroundings, r: Request, preflight: RuntimeSnapshots.Snapshot, at: nat, e: Execution)
    requires e.ending.Returned?
  {
    || (e.dispatched == [] && ObservedAtOnce(w, r, preflight, e.ending.outcome))
    || (&& e.dispatched == [Guarded(r, preflight)]
        && exists i :: i >= at && w.capture(i).Captured? && ObservedAtOnce(w, r, w.capture(i).snapshot, e.ending.outcome))
  }

  lemma {:induction false} PreflightConfirms(
      w: Surroundings, r: Request, preflight: RuntimeSnapshots.Snapshot, at: nat, n: nat)
    requires w.expired(n) && IsConfirmed(ExecuteFrom(w, r, preflight, at, n).ending)
    requires ExecuteFrom(w, r, preflight, at, n).dispatched == []
    ensures ObservedAtOnce(w, r, preflight, ExecuteFrom(w, r, preflight, at, n).ending.outcome)
  {
    ConfirmationsIff(w, preflight, r.conditions);
    hide Satisfied, Confirmations, Mentions, Poll, Refused, ValidOutcome, ValidTicket, TicketOutcome, Matches;
  }

  /** A ticket that is not ready never ends in a confirmation. */
  lemma {:induction false} DispatchPolls(
      w: Surroundings, r: Request, preflight: RuntimeSnapshots.Snapshot, at: nat, n: nat)
    requires w.expired(n) && IsConfirmed(ExecuteFrom(w, r, preflight, at, n).ending)
    requires ExecuteFrom(w, r, preflight, at, n).dispatched != []
    ensures ExecuteFrom(w, r, preflight, at, n)
      == Execution(Poll(w, Guarded(r, preflight), 2, at, [], n), [Guarded(r, preflight)])
  {
    hide Satisfied, Confirmations, Poll, Refused, ValidOutcome, ValidTicket, Matches;
  }

  lemma {:induction false} ConfirmedFrom(
      w: Surroundings, r: Request, preflight: RuntimeSnapshots.Snapshot, at: nat, n: nat)
    requires w.expired(n) && IsConfirmed(ExecuteFrom(w, r, preflight, at, n).ending)
    ensures ProperlyConfirmed(w, r, preflight, at, ExecuteFrom(w, r, preflight, at, n))
  {
    var e := ExecuteFrom(w, r, preflight, at, n);
    hide ExecuteFrom, ObservedAtOnce, Poll, ValidOutcome, Guarded;
    if e.dispatched == [] {
      PreflightConfirms(w, r, preflight, at, n);
    } else {
      DispatchPolls(w, r, preflight, at, n);
      var guarded := Guarded(r, preflight);
      PollConfirmed(w, guarded, 2, at, [], n);
      var i :| i >= at && w.capture(i).Captured? && ObservedAtOnce(w, guarded, w.capture(i).snapshot, e.ending.outcome);
      ObservedGuarded(w, r, preflight, w.capture(i).snapshot, e.ending.outcome);
    }
  }

  /**
   * A confirmed outcome holds one confirmation for each condition, all from one snapshot of the
   * expected generation that satisfies them: the preflight, with nothing dispatched, or one captured
   * after the dispatch.
   */
  lemma {:induction false} ConfirmedMeansObserved(
      w: Surroundings, r: Request, given: Option<RuntimeSnapshots.Snapshot>, n: nat)
    requires w.expired(n) && IsConfirmed(Execute(w, r, given, n).ending)
    ensures PreflightOf(w, given).Some?
    ensures ProperlyConfirmed(w, r, PreflightOf(w, given).value, NextCapture(given), Execute(w, r, given, n))
  {
    hide ExecuteFrom, ProperlyConfirmed, Mentions, ValidOutcome;
    var p := PreflightOf(w, given);
    assert Execute(w, r, given, n) == ExecuteFrom(w, r, p.value, NextCapture(given), n);
    ConfirmedFrom(w, r, p.value, NextCapture(given), n);
  }

  // ----- which runs return an outcome -----

  /** Confirmations that an outcome of this request may carry. */
  predicate Genuine(r: Request, confirmations: seq<Confirmation>) {
    forall i :: 0 <= i < |confirmations| ==>
      && confirmations[i].generation == r.expectedGeneration
      && Matches(confirmations[i].condition, confirmations[i].observation)
  }

  lemma {:induction false} GenuineConfirmations(w: Surroundings, r: Request, s: RuntimeSnapshots.Snapshot)
    requires Generation(s) == r.expectedGeneration
    ensures Genuine(r, Confirmations(w, s, r.conditions))
  {
    ConfirmationsIff(w, s, r.conditions);
    hide Confirmations, Matches, Observation;
  }

  /** A classified failure is returned exactly when it has a message. */
  lemma {:induction false} FailReturnsIff(r: Request, status: MutationStatus, phase: FailurePhase,
      code: FailureCode, message: string, retryable: bool, confirmations: seq<Confirmation>)
    requires status != Confirmed && code in CodesOf(phase) && code in CodesOfStatus(status)
    requires Genuine(r, confirmations)
    ensures Fail(r, status, phase, code, message, retryable, confirmations).Returned? <==> message != ""
  {
    hide Matches;
  }

  lemma {:induction false} FixedReturns(r: Request, confirmations: seq<Confirmation>)
    requires Genuine(r, confirmations)
    ensures Unconfirmed(r, confirmations).Returned? && Moved(r, confirmations).Returned? && Expires(r, confirmations).Returned?
    ensures StaleIn(r, FailureCode.StaleGeneration).Returned? && StaleIn(r, FailureCode.StaleSequence).Returned?
  {
    hide Matches;
  }

  lemma {:induction false} UnavailableReturnsIff(r: Request, message: string, confirmations: seq<Confirmation>)
    requires Genuine(r, confirmations)
    ensures UnavailableOutcome(r, message, confirmations).Returned? <==> message != ""
  {
    hide Matches, Mentions, Genuine, Finish;
    if Mentions(message, "stopped") || Mentions(message, "not ready") {
      FailReturnsIff(r, CancelledStatus, Cancellation, FailureCode.RuntimeStopped, message, false, confirmations);
    } else {
      FailReturnsIff(r, Failed, ExecutionPhase, InternalError, message, false, confirmations);
    }
  }

  /** Every ticket the validator accepts and that is not ready becomes an outcome. */
  lemma {:induction false} TicketReturns(r: Request, t: Ticket)
    requires ValidTicket(t) && !t.disposition.ReadyDisposition?
    ensures TicketOutcome(r, t).Returned?
  {
    hide Matches;
    assert |DISPATCH_MESSAGE| > 0;
  }

  lemma {:induction false} ConfirmsReturns(w: Surroundings, r: Request, s: RuntimeSnapshots.Snapshot)
    requires ValidRequest(r) && Generation(s) == r.expectedGeneration
    requires |Confirmations(w, s, r.conditions)| == |r.conditions|
    ensures Confirms(r, Confirmations(w, s, r.conditions)).Returned?
  {
    GenuineConfirmations(w, r, s);
    hide Matches, Confirmations;
  }

  /** A capture at which polling raises. */
  predicate Faulty(w: Surroundings, r: Request, c: Capture) {
    match c
    case Unreadable => true
    case Unavailable(message) => message == ""
    case Captured(s) => Generation(s) == r.expectedGeneration && Refused(w, s, r.conditions)
  }

  /** A capture after which polling goes on. */
  predicate Inconclusive(w: Surroundings, r: Request, c: Capture) {
    && c.Captured? && Generation(c.snapshot) == r.expectedGeneration
    && !Refused(w, c.snapshot, r.conditions) && !Satisfied(w, c.snapshot, r.conditions)
  }

  /** Polling from capture `at` on takes capture `k`: in time, and every earlier one was inconclusive. */
  predicate Reaches(w: Surroundings, r: Request, reading: nat, at: nat, k: nat) {
    && at <= k
    && (forall i :: reading <= i <= reading + (k - at) ==> !w.expired(i))
    && (forall i :: at <= i < k ==> Inconclusive(w, r, w.capture(i)))
  }

  /** Polling comes to a capture at which it raises. */
  ghost predicate MeetsFault(w: Surroundings, r: Request, reading: nat, at: nat) {
    exists k: nat :: Reaches(w, r, reading, at, k) && Faulty(w, r, w.capture(k))
  }

  lemma {:induction false} FaultStep(w: Surroundings, r: Request, reading: nat, at: nat)
    ensures w.expired(reading) ==> !MeetsFault(w, r, reading, at)
    ensures !w.expired(reading) && Faulty(w, r, w.capture(at)) ==> MeetsFault(w, r, reading, at)
    ensures !w.expired(reading) && !Faulty(w, r, w.capture(at)) && !Inconclusive(w, r, w.capture(at))
      ==> !MeetsFault(w, r, reading, at)
    ensures !w.expired(reading) && Inconclusive(w, r, w.capture(at))
      ==> (MeetsFault(w, r, reading, at) <==> MeetsFault(w, r, reading + 1, at + 1))
  {
    FaultyOrInconclusive(w, r, w.capture(at));
    hide Faulty, Inconclusive;
    if !w.expired(reading) && Faulty(w, r, w.capture(at)) {
      assert Reaches(w, r, reading, at, at);
    }
    if !w.expired(reading) && Inconclusive(w, r, w.capture(at)) {
      if MeetsFault(w, r, reading, at) {
        var k: nat :| Reaches(w, r, reading, at, k) && Faulty(w, r, w.capture(k));
        assert Reaches(w, r, reading + 1, at + 1, k);
      }
      if MeetsFault(w, r, reading + 1, at + 1) {
        var k: nat :| Reaches(w, r, reading + 1, at + 1, k) && Faulty(w, r, w.capture(k));
        assert Reaches(w, r, reading, at, k);
      }
    }
  }

  lemma FaultyOrInconclusive(w: Surroundings, r: Request, c: Capture)
    ensures !(Faulty(w, r, c) && Inconclusive(w, r, c))
  {
  }

  /** After an inconclusive capture polling goes on with its confirmations. */
  lemma {:induction false} PollContinues(
      w: Surroundings, r: Request, reading: nat, at: nat, latest: seq<Confirmation>, n: nat)
    requires Advances(w, n) && ValidRequest(r) && !w.expired(reading) && Inconclusive(w, r, w.capture(at))
    ensures w.capture(at).Captured?
    ensures var confirmations := Confirmations(w, w.capture(at).snapshot, r.conditions);
      && Poll(w, r, reading, at, latest, n) == Poll(w, r, reading + 1, at + 1, confirmations, n)
      && Genuine(r, confirmations)
  {
    SnapshotReturns(w, r, w.capture(at).snapshot);
    hide Confirms, Unconfirmed, Moved, UnavailableOutcome, Satisfied, Refused, Confirmations, Genuine, ValidOutcome;
  }

  /** At any other capture polling ends, and raises exactly when the capture is faulty. */
  lemma {:induction false} PollEnds(
      w: Surroundings, r: Request, reading: nat, at: nat, latest: seq<Confirmation>, n: nat)
    requires Advances(w, n) && ValidRequest(r) && Genuine(r, latest)
    requires !w.expired(reading) && !Inconclusive(w, r, w.capture(at))
    ensures Poll(w, r, reading, at, latest, n).Raised? <==> Faulty(w, r, w.capture(at))
  {
    FixedReturns(r, latest);
    match w.capture(at)
    case Unreadable =>
    case Unavailable(message) =>
      UnavailableReturnsIff(r, message, latest);
      hide UnavailableOutcome, ValidOutcome;
    case Captured(s) =>
      if Generation(s) == r.expectedGeneration && !Refused(w, s, r.conditions) { SnapshotReturns(w, r, s); }
      hide Confirms, Moved, Satisfied, Refused, Confirmations, Genuine, ValidOutcome;
  }

  lemma {:induction false} PollExpires(
      w: Surroundings, r: Request, reading: nat, at: nat, latest: seq<Confirmation>, n: nat)
    requires Advances(w, n) && Genuine(r, latest) && w.expired(reading)
    ensures Poll(w, r, reading, at, latest, n).Returned?
  {
    FixedReturns(r, latest);
    hide Unconfirmed, Genuine, ValidOutcome;
  }

  lemma ReadingsLeft(w: Surroundings, reading: nat, n: nat)
    requires Advances(w, n)
    ensures w.expired(n) && (!w.expired(reading) ==> reading < n)
  {
  }

  /** Polling raises exactly when it comes to a capture at which it must. */
  lemma {:induction false} PollRaisesIff(
      w: Surroundings, r: Request, reading: nat, at: nat, latest: seq<Confirmation>, n: nat)
    requires Advances(w, n) && ValidRequest(r) && Genuine(r, latest)
    ensures Poll(w, r, reading, at, latest, n).Raised? <==> MeetsFault(w, r, reading, at)
    decreases if reading <= n then n - reading + 1 else 0
  {
    hide *;
    FaultStep(w, r, reading, at);
    if w.expired(reading) {
      PollExpires(w, r, reading, at, latest, n);
    } else if Inconclusive(w, r, w.capture(at)) {
      PollContinues(w, r, reading, at, latest, n);
      ReadingsLeft(w, reading, n);
      PollRaisesIff(w, r, reading + 1, at + 1, Confirmations(w, w.capture(at).snapshot, r.conditions), n);
    } else {
      PollEnds(w, r, reading, at, latest, n);
    }
  }

  /** A snapshot of the expected generation either confirms, and that is returned, or is inconclusive. */
  lemma {:induction false} SnapshotReturns(w: Surroundings, r: Request, s: RuntimeSnapshots.Snapshot)
    requires ValidRequest(r) && Generation(s) == r.expectedGeneration && !Refused(w, s, r.conditions)
    ensures var confirmations := Confirmations(w, s, r.conditions);
      && Genuine(r, confirmations)
      && (if |confirmations| == |r.conditions| then Confirms(r, confirmations).Returned? && Satisfied(w, s, r.conditions)
          else !Satisfied(w, s, r.conditions))
  {
    ConfirmationsIff(w, s, r.conditions);
    GenuineConfirmations(w, r, s);
    hide Confirmations, Satisfied, Refused, Genuine;
    if |Confirmations(w, s, r.conditions)| == |r.conditions| { ConfirmsReturns(w, r, s); }
  }

  /** What comes after the dispatch raises: no acceptable ticket, or a capture at which polling raises. */
  ghost predicate RaisesAfter(w: Surroundings, guarded: Request, at: nat) {
    var ticket := w.ticket(guarded);
    || ticket.None? || !ValidTicket(ticket.value)
    || (ticket.value.disposition.ReadyDisposition? && MeetsFault(w, guarded, 2, at))
  }

  /** Everything that makes an execution raise, said of what it is given. */
  ghost predicate MustRaise(w: Surroundings, r: Request, given: Option<RuntimeSnapshots.Snapshot>) {
    var p := PreflightOf(w, given);
    && !w.expired(0)
    && (if p.None? then w.capture(0).Unreadable? || w.capture(0) == Unavailable("")
        else if !Fresh(r, p.value) then false
        else || Refused(w, p.value, r.conditions)
             || (Proceeds(w, r, given) && RaisesAfter(w, Guarded(r, p.value), NextCapture(given))))
  }

  /** From the dispatch on, an execution raises exactly where it must. */
  lemma {:induction false} AfterDispatch(w: Surroundings, guarded: Request, at: nat, n: nat)
    requires Advances(w, n) && ValidRequest(guarded)
    ensures var ticket := w.ticket(guarded);
      RaisesAfter(w, guarded, at) <==>
        || ticket.None? || !ValidTicket(ticket.value)
        || (if ticket.value.disposition.ReadyDisposition? then Poll(w, guarded, 2, at, [], n).Raised?
            else TicketOutcome(guarded, ticket.value).Raised?)
  {
    var ticket := w.ticket(guarded);
    if ticket.Some? && ValidTicket(ticket.value) && !ticket.value.disposition.ReadyDisposition? {
      TicketReturns(guarded, ticket.value);
    }
    NoneGenuine(guarded);
    PollRaisesIff(w, guarded, 2, at, [], n);
    hide Poll, TicketOutcome, MeetsFault, ValidTicket, Genuine;
  }

  lemma NoneGenuine(r: Request)
    ensures Genuine(r, [])
  {
    hide Matches;
  }

  lemma {:induction false} ExecuteFromRaisesIff(
      w: Surroundings, r: Request, preflight: RuntimeSnapshots.Snapshot, at: nat, n: nat)
    requires Advances(w, n) && ValidRequest(r)
    ensures ExecuteFrom(w, r, preflight, at, n).ending.Raised? <==>
      && Fresh(r, preflight)
      && (|| Refused(w, preflight, r.conditions)
          || (&& !Satisfied(w, preflight, r.conditions) && !w.expired(1)
              && RaisesAfter(w, Guarded(r, preflight), at)))
  {
    var guarded := Guarded(r, preflight);
    FixedReturns(r, []);
    ConfirmationsIff(w, preflight, r.conditions);
    hide ValidOutcome, Genuine, Matches, Mentions, Confirmations, Refused, Satisfied, Poll, Confirms, Expires, StaleIn;
    hide TicketOutcome, RaisesAfter, ValidTicket;
    if Fresh(r, preflight) && !Refused(w, preflight, r.conditions) {
      GenuineConfirmations(w, r, preflight);
      FixedReturns(r, Confirmations(w, preflight, r.conditions));
      if |Confirmations(w, preflight, r.conditions)| == |r.conditions| {
        ConfirmsReturns(w, r, preflight);
      } else {
        AfterDispatch(w, guarded, at, n);
      }
    }
  }

  /**
   * An execution returns an outcome, always one the constructor accepts, exactly unless it comes to
   * something that makes it raise: a capture that fails without a message or otherwise than as the
   * runtime being unavailable, an observation that cannot be recorded, or a dispatch without an
   * acceptable ticket. Only what the execution actually reads matters.
   */
  lemma {:induction false} ReturnsIff(w: Surroundings, r: Request, given: Option<RuntimeSnapshots.Snapshot>, n: nat)
    requires Advances(w, n) && ValidRequest(r)
    ensures Execute(w, r, given, n).ending.Returned? <==> !MustRaise(w, r, given)
    ensures Execute(w, r, given, n).ending.Returned? ==> ValidOutcome(Execute(w, r, given, n).ending.outcome)
  {
    hide Matches, Mentions, ExecuteFrom, Refused, Satisfied, RaisesAfter, Expires, UnavailableOutcome;
    FixedReturns(r, []);
    if given.Some? {
      ExecuteFromRaisesIff(w, r, given.value, 0, n);
    } else {
      match w.capture(0)
      case Unreadable =>
      case Unavailable(message) => UnavailableReturnsIff(r, message, []);
      case Captured(s) => ExecuteFromRaisesIff(w, r, s, 1, n);
    }
  }

  /** A capture that cannot be converted escapes without an outcome even after the dispatch. */
  lemma {:induction false} RaisesAfterDispatch(
      w: Surroundings, r: Request, given: Option<RuntimeSnapshots.Snapshot>, n: nat)
    requires Advances(w, n) && ValidRequest(r) && Proceeds(w, r, given)
    requires var ticket := w.ticket(Guarded(r, PreflightOf(w, given).value));
      ticket.Some? && ValidTicket(ticket.value) && ticket.value.disposition.ReadyDisposition?
    requires !w.expired(2) && (w.capture(NextCapture(given)).Unreadable? || w.capture(NextCapture(given)) == Unavailable(""))
    ensures Execute(w, r, given, n)
      == Execution(Raised, [Guarded(r, PreflightOf(w, given).value)])
  {
    var guarded, at := Guarded(r, PreflightOf(w, given).value), NextCapture(given);
    DispatchedIff(w, r, given, n);
    ReturnsIff(w, r, given, n);
    FaultStep(w, guarded, 2, at);
    hide Execute, Refused, Satisfied, MeetsFault;
  }

  /** A condition that the method `to_dict` of the defaults be present raises before anything is dispatched. */
  lemma {:induction false} MethodRaises(w: Surroundings, r: Request, s: RuntimeSnapshots.Snapshot, n: nat)
    requires Advances(w, n) && ValidRequest(r) && !w.expired(0) && Fresh(r, s)
    requires r.conditions == [Condition(
      Target(NodeKind, Number(0), ANY.(defaultsField := Some("to_dict"))), Operator.Present, [],
      Json.JScalar(Json.Null), 0.0)]
    ensures Execute(w, r, Some(s), n) == Execution(Raised, [])
  {
    var c := r.conditions[0];
    assert "to_dict"[0] != "metadata_id"[0] && "to_dict"[0] != "audio_sink"[0] && "to_dict"[0] != "video_source"[0];
    assert Select(s, c.target, w.context) == Some(SelectedMethod("to_dict"));
    assert Rejects(s, c, w.context);
    assert Refused(w, s, r.conditions);
    DispatchedIff(w, r, Some(s), n);
    ReturnsIff(w, r, Some(s), n);
    hide Execute, Refused, Satisfied;
  }
}
