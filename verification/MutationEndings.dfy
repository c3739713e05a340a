/**
 * How a confirmed mutation ends: for every status, phase and code, exactly which clocks, captures and
 * tickets lead to it.
 */
module MutationEndings {
  import opened Wrappers
  import opened Outcomes
  import opened Observations
  import opened ConfirmedMutation
  import RuntimeSnapshots

  /** What the caller sees of an ending. */
  datatype Mark = Success | Failing(status: MutationStatus, phase: FailurePhase, code: FailureCode) | Raising

  function MarkOf(e: Ending): Mark {
    match e
    case Raised => Raising
    case Returned(o) =>
      if o.failure.None? then Success else Failing(o.status, o.failure.value.phase, o.failure.value.code)
  }

  // ----- what a capture says -----

  /** What one capture means for a request under way. */
  datatype Verdict = Open | Observed | OtherGeneration | Stopped | Broken | Fault

  function Lowered(message: string): (r: string)
    ensures |r| == |message|
  {
    seq(|message|, i requires 0 <= i < |message| => Lower(message[i]))
  }

  /** The message contains the words, whatever their case. */
  ghost predicate Says(message: string, words: string) {
    exists before: string, after: string :: Lowered(message) == before + words + after
  }

  ghost function Judge(w: Surroundings, r: Request, c: Capture): Verdict {
    match c
    case Unreadable => Fault
    case Unavailable(message) =>
      if message == "" then Fault
      else if Says(message, "stopped") || Says(message, "not ready") then Stopped
      else Broken
    case Captured(s) =>
      if s.contents.generation != r.expectedGeneration then OtherGeneration
      else if Refused(w, s, r.conditions) then Fault
      else if Satisfied(w, s, r.conditions) then Observed
      else Open
  }

  lemma {:induction false} SaysIff(message: string, words: string)
    ensures Says(message, words) <==> Mentions(message, words)
  {
    var low := Lowered(message);
    if Says(message, words) {
      var before, after :| low == before + words + after;
      forall j | 0 <= j < |words| ensures Lower(message[|before|..][j]) == words[j] {
        assert low[|before| + j] == words[j];
      }
      assert MentionsAt(message, words, |before|);
    }
    if Mentions(message, words) {
      var i :| 0 <= i <= |message| && MentionsAt(message, words, i);
      forall j | 0 <= j < |words| ensures low[i + j] == words[j] {
        assert message[i..][j] == message[i + j];
      }
      assert low[i..i + |words|] == words;
      assert low == low[..i] + words + low[i + |words|..];
    }
  }

  // ----- the polling loop -----

  /** Polling comes, in time and past open captures only, to a capture with this verdict. */
  ghost predicate Meets(w: Surroundings, r: Request, reading: nat, at: nat, v: Verdict) {
    exists k: nat :: Reaches(w, r, reading, at, k) && Judge(w, r, w.capture(k)) == v
  }

  /** The clock passes the deadline when captures `at` to `k` are taken, all of them open. */
  ghost predicate OutAt(w: Surroundings, r: Request, reading: nat, at: nat, k: nat) {
    && at <= k
    && w.expired(reading + (k - at))
    && (forall i :: reading <= i < reading + (k - at) ==> !w.expired(i))
    && (forall i :: at <= i < k ==> Inconclusive(w, r, w.capture(i)))
  }

  ghost predicate RunsOut(w: Surroundings, r: Request, reading: nat, at: nat) {
    exists k: nat :: OutAt(w, r, reading, at, k)
  }

  lemma {:induction false} OpenIff(w: Surroundings, r: Request, c: Capture)
    ensures Judge(w, r, c) == Open <==> Inconclusive(w, r, c)
  {
  }

  /** What was confirmed so far when polling comes to capture `k`. */
  function Carried(w: Surroundings, r: Request, at: nat, latest: seq<Confirmation>, k: nat): seq<Confirmation> {
    if k <= at then latest
    else if w.capture(k - 1).Captured? then Confirmations(w, w.capture(k - 1).snapshot, r.conditions)
    else []
  }

  function CarriedBy(e: Ending): seq<Confirmation> {
    if e.Raised? then [] else e.outcome.confirmations
  }

  /** The ending at a capture that is not open. */
  lemma {:induction false} PollStops(
      w: Surroundings, r: Request, reading: nat, at: nat, latest: seq<Confirmation>, n: nat)
    requires Advances(w, n) && ValidRequest(r) && Genuine(r, latest)
    requires !w.expired(reading) && Judge(w, r, w.capture(at)) != Open
    ensures var e, v := Poll(w, r, reading, at, latest, n), Judge(w, r, w.capture(at));
      && (v == Observed ==> MarkOf(e) == Success)
      && (v == OtherGeneration ==> MarkOf(e) == Failing(CancelledStatus, Cancellation, FailureCode.GenerationLost))
      && (v == Stopped ==> MarkOf(e) == Failing(CancelledStatus, Cancellation, FailureCode.RuntimeStopped))
      && (v == Broken ==> MarkOf(e) == Failing(Failed, ExecutionPhase, InternalError))
      && (v == Fault ==> MarkOf(e) == Raising)
      && (v == OtherGeneration || v == Stopped || v == Broken ==> CarriedBy(e) == latest && !e.outcome.failure.value.retryable)
  {
    FixedReturns(r, latest);
    match w.capture(at)
    case Unreadable =>
    case Unavailable(message) =>
      UnavailableReturnsIff(r, message, latest);
      SaysIff(message, "stopped");
      SaysIff(message, "not ready");
      hide Mentions, Says, Genuine, ValidOutcome;
    case Captured(s) =>
      if Generation(s) == r.expectedGeneration && !Refused(w, s, r.conditions) { SnapshotReturns(w, r, s); }
      hide Satisfied, Refused, Confirmations, Genuine, ValidOutcome;
  }

  lemma {:induction false} PollMeets(
      w: Surroundings, r: Request, reading: nat, at: nat, latest: seq<Confirmation>, n: nat, k: nat)
    requires Advances(w, n) && ValidRequest(r) && Genuine(r, latest)
    requires Reaches(w, r, reading, at, k) && Judge(w, r, w.capture(k)) != Open
    ensures var e, v := Poll(w, r, reading, at, latest, n), Judge(w, r, w.capture(k));
      && (v == Observed ==> MarkOf(e) == Success)
      && (v == OtherGeneration ==> MarkOf(e) == Failing(CancelledStatus, Cancellation, FailureCode.GenerationLost))
      && (v == Stopped ==> MarkOf(e) == Failing(CancelledStatus, Cancellation, FailureCode.RuntimeStopped))
      && (v == Broken ==> MarkOf(e) == Failing(Failed, ExecutionPhase, InternalError))
      && (v == Fault ==> MarkOf(e) == Raising)
      && (v == OtherGeneration || v == Stopped || v == Broken ==>
           CarriedBy(e) == Carried(w, r, at, latest, k) && !e.outcome.failure.value.retryable)
    decreases k - at
  {
    hide Poll, Judge, Inconclusive, MarkOf, Genuine, CarriedBy, Confirmations;
    if k == at {
      PollStops(w, r, reading, at, latest, n);
    } else {
      PollContinues(w, r, reading, at, latest, n);
      ReadingsLeft(w, reading, n);
      PollMeets(w, r, reading + 1, at + 1, Confirmations(w, w.capture(at).snapshot, r.conditions), n, k);
    }
  }

  lemma {:induction false} PollLate(
      w: Surroundings, r: Request, reading: nat, at: nat, latest: seq<Confirmation>, n: nat)
    requires Advances(w, n) && Genuine(r, latest) && w.expired(reading)
    ensures var e := Poll(w, r, reading, at, latest, n);
      && MarkOf(e) == Failing(TimedOut, ConfirmationPhase, ConfirmationTimeout)
      && CarriedBy(e) == latest && !e.outcome.failure.value.retryable
  {
    FixedReturns(r, latest);
    hide ValidOutcome, Genuine;
  }

  lemma {:induction false} PollTimesOut(
      w: Surroundings, r: Request, reading: nat, at: nat, latest: seq<Confirmation>, n: nat, k: nat)
    requires Advances(w, n) && ValidRequest(r) && Genuine(r, latest) && OutAt(w, r, reading, at, k)
    ensures var e := Poll(w, r, reading, at, latest, n);
      && MarkOf(e) == Failing(TimedOut, ConfirmationPhase, ConfirmationTimeout)
      && CarriedBy(e) == Carried(w, r, at, latest, k) && !e.outcome.failure.value.retryable
    decreases k - at
  {
    hide Poll, MarkOf, CarriedBy, Genuine, Inconclusive, Confirmations;
    if k == at {
      PollLate(w, r, reading, at, latest, n);
    } else {
      PollContinues(w, r, reading, at, latest, n);
      PollTimesOut(w, r, reading + 1, at + 1, Confirmations(w, w.capture(at).snapshot, r.conditions), n, k);
    }
  }

  /** Polling always comes to a capture that is not open, or runs out of time. */
  lemma {:induction false} PollingEnds(w: Surroundings, r: Request, reading: nat, at: nat, n: nat)
    requires Advances(w, n)
    ensures RunsOut(w, r, reading, at) || exists v :: v != Open && Meets(w, r, reading, at, v)
    decreases if reading <= n then n - reading + 1 else 0
  {
    hide Judge, Inconclusive;
    OpenIff(w, r, w.capture(at));
    if w.expired(reading) {
      assert OutAt(w, r, reading, at, at);
    } else if Judge(w, r, w.capture(at)) != Open {
      assert Reaches(w, r, reading, at, at);
      assert Meets(w, r, reading, at, Judge(w, r, w.capture(at)));
    } else {
      PollingEnds(w, r, reading + 1, at + 1, n);
      if RunsOut(w, r, reading + 1, at + 1) {
        var k: nat :| OutAt(w, r, reading + 1, at + 1, k);
        assert OutAt(w, r, reading, at, k);
      } else {
        var v :| v != Open && Meets(w, r, reading + 1, at + 1, v);
        var k: nat :| Reaches(w, r, reading + 1, at + 1, k) && Judge(w, r, w.capture(k)) == v;
        assert Reaches(w, r, reading, at, k);
        assert Meets(w, r, reading, at, v);
      }
    }
  }

  /** Each ending of the polling loop, and exactly when it comes. */
  lemma {:induction false} PollEndingsIff(w: Surroundings, r: Request, at: nat, n: nat)
    requires Advances(w, n) && ValidRequest(r)
    ensures var mark := MarkOf(Poll(w, r, 2, at, [], n));
      && (mark == Success <==> Meets(w, r, 2, at, Observed))
      && (mark == Failing(TimedOut, ConfirmationPhase, ConfirmationTimeout) <==> RunsOut(w, r, 2, at))
      && (mark == Failing(CancelledStatus, Cancellation, FailureCode.GenerationLost) <==> Meets(w, r, 2, at, OtherGeneration))
      && (mark == Failing(CancelledStatus, Cancellation, FailureCode.RuntimeStopped) <==> Meets(w, r, 2, at, Stopped))
      && (mark == Failing(Failed, ExecutionPhase, InternalError) <==> Meets(w, r, 2, at, Broken))
      && (mark == Raising <==> Meets(w, r, 2, at, Fault))
      && (|| mark == Success || mark == Raising
          || mark == Failing(TimedOut, ConfirmationPhase, ConfirmationTimeout)
          || mark == Failing(CancelledStatus, Cancellation, FailureCode.GenerationLost)
          || mark == Failing(CancelledStatus, Cancellation, FailureCode.RuntimeStopped)
          || mark == Failing(Failed, ExecutionPhase, InternalError))
      && (mark.Failing? ==> !Poll(w, r, 2, at, [], n).outcome.failure.value.retryable)
  {
    hide Poll, Judge, Reaches, OutAt;
    var e := Poll(w, r, 2, at, [], n);
    PollingEnds(w, r, 2, at, n);
    if RunsOut(w, r, 2, at) {
      var k: nat :| OutAt(w, r, 2, at, k);
      PollTimesOut(w, r, 2, at, [], n, k);
    }
    forall v | v != Open && Meets(w, r, 2, at, v)
      ensures (v == Observed ==> MarkOf(e) == Success)
        && (v == OtherGeneration ==> MarkOf(e) == Failing(CancelledStatus, Cancellation, FailureCode.GenerationLost))
        && (v == Stopped ==> MarkOf(e) == Failing(CancelledStatus, Cancellation, FailureCode.RuntimeStopped))
        && (v == Broken ==> MarkOf(e) == Failing(Failed, ExecutionPhase, InternalError))
        && (v == Fault ==> MarkOf(e) == Raising)
        && (v == OtherGeneration || v == Stopped || v == Broken ==> !e.outcome.failure.value.retryable)
    {
      var k: nat :| Reaches(w, r, 2, at, k) && Judge(w, r, w.capture(k)) == v;
      PollMeets(w, r, 2, at, [], n, k);
    }
    hide Meets, RunsOut, MarkOf;
  }

  // ----- the whole execution -----

  /** What reaches the native side: the request, expecting the preflight's own number if it expects any. */
  function Sent(r: Request, s: RuntimeSnapshots.Snapshot): Request {
    Request(r.expectedGeneration, if r.expectedSequence.None? then None else Some(s.contents.sequence),
            r.conditions, r.linkId)
  }

  /** The execution has a preflight, in time, and it has the expected generation. */
  predicate Begun(w: Surroundings, r: Request, given: Option<RuntimeSnapshots.Snapshot>) {
    !w.expired(0) && PreflightOf(w, given).Some?
    && PreflightOf(w, given).value.contents.generation == r.expectedGeneration
  }

  /** And it is the next number after the expected one, if any. */
  predicate Current(w: Surroundings, r: Request, given: Option<RuntimeSnapshots.Snapshot>) {
    && Begun(w, r, given)
    && (r.expectedSequence.None? || PreflightOf(w, given).value.contents.sequence == r.expectedSequence.value + 1)
  }

  /** Its conditions can be confirmed in the preflight. */
  predicate Confirmable(w: Surroundings, r: Request, given: Option<RuntimeSnapshots.Snapshot>) {
    Current(w, r, given) && !Refused(w, PreflightOf(w, given).value, r.conditions)
  }

  /** The preflight leaves a condition open: the request has to be dispatched. */
  predicate Unmet(w: Surroundings, r: Request, given: Option<RuntimeSnapshots.Snapshot>) {
    Confirmable(w, r, given) && !Satisfied(w, PreflightOf(w, given).value, r.conditions)
  }

  /** The ticket of the dispatch, if there is one that its constructor accepts. */
  function Answer(w: Surroundings, r: Request, given: Option<RuntimeSnapshots.Snapshot>): Option<Ticket> {
    if !Unmet(w, r, given) || w.expired(1) then None
    else
      var ticket := w.ticket(Sent(r, PreflightOf(w, given).value));
      if ticket.Some? && ValidTicket(ticket.value) then ticket else None
  }

  predicate Accepted(w: Surroundings, r: Request, given: Option<RuntimeSnapshots.Snapshot>) {
    Answer(w, r, given).Some? && Answer(w, r, given).value.disposition == ReadyDisposition
  }

  /** The native side answered so. */
  predicate Told(w: Surroundings, r: Request, given: Option<RuntimeSnapshots.Snapshot>,
                 disposition: Disposition, code: FailureCode)
  {
    && Answer(w, r, given).Some?
    && Answer(w, r, given).value.disposition == disposition
    && Answer(w, r, given).value.failure == Some(code)
  }

  /** After an accepted dispatch polling comes to such a capture. */
  ghost predicate Then(w: Surroundings, r: Request, given: Option<RuntimeSnapshots.Snapshot>, v: Verdict) {
    && Accepted(w, r, given)
    && Meets(w, Sent(r, PreflightOf(w, given).value), 2, NextCapture(given), v)
  }

  /** After an accepted dispatch the deadline passes over open captures. */
  ghost predicate ThenTimesOut(w: Surroundings, r: Request, given: Option<RuntimeSnapshots.Snapshot>) {
    Accepted(w, r, given) && RunsOut(w, Sent(r, PreflightOf(w, given).value), 2, NextCapture(given))
  }

  /** The capture for the preflight fails so. */
  ghost predicate NoPreflight(w: Surroundings, r: Request, given: Option<RuntimeSnapshots.Snapshot>, v: Verdict) {
    !w.expired(0) && PreflightOf(w, given).None? && Judge(w, r, w.capture(0)) == v
  }

  function MarkAt(w: Surroundings, r: Request, given: Option<RuntimeSnapshots.Snapshot>, n: nat): Mark
    requires w.expired(n)
  {
    MarkOf(Execute(w, r, given, n).ending)
  }

  /** The mark of a ticket that is not ready. */
  lemma {:induction false} TicketMarks(r: Request, t: Ticket)
    requires ValidTicket(t) && t.disposition != ReadyDisposition
    ensures t.failure.Some?
    ensures var e, code := TicketOutcome(r, t), t.failure.value;
      && (t.disposition == CancelledDisposition ==> MarkOf(e) == Failing(CancelledStatus, Cancellation, code))
      && (t.disposition == FailedDisposition ==> MarkOf(e) == Failing(Failed, ExecutionPhase, code))
      && (t.disposition == RejectedDisposition && code == FailureCode.UnsupportedOperation ==>
           MarkOf(e) == Failing(Rejected, Validation, code))
      && (t.disposition == RejectedDisposition && code != FailureCode.UnsupportedOperation ==>
           MarkOf(e) == Failing(Rejected, Precondition, code))
      && e.Returned? && CarriedBy(e) == [] && (e.outcome.failure.value.retryable <==> code == FailureCode.GenerationLost)
  {
    TicketReturns(r, t);
    hide ValidOutcome;
  }

  /** An execution that does not come to a dispatch. */
  lemma {:induction false} EarlyMarks(w: Surroundings, r: Request, given: Option<RuntimeSnapshots.Snapshot>, n: nat)
    requires Advances(w, n) && ValidRequest(r)
    ensures var e := Execute(w, r, given, n).ending;
      && (w.expired(0) ==> MarkOf(e) == Failing(TimedOut, Deadline, DeadlineExpired))
      && (NoPreflight(w, r, given, Stopped) ==>
           MarkOf(e) == Failing(CancelledStatus, Cancellation, FailureCode.RuntimeStopped))
      && (NoPreflight(w, r, given, Broken) ==> MarkOf(e) == Failing(Failed, ExecutionPhase, InternalError))
      && (!w.expired(0) && PreflightOf(w, given).Some? && !Begun(w, r, given) ==>
           MarkOf(e) == Failing(Rejected, Precondition, FailureCode.StaleGeneration))
      && (Begun(w, r, given) && !Current(w, r, given) ==>
           MarkOf(e) == Failing(Rejected, Precondition, FailureCode.StaleSequence))
      && (MarkOf(e).Failing? && !Current(w, r, given) ==> CarriedBy(e) == [] && !e.outcome.failure.value.retryable)
  {
    FixedReturns(r, []);
    if !w.expired(0) && given.None? && w.capture(0).Unavailable? {
      UnavailableReturnsIff(r, w.capture(0).message, []);
      SaysIff(w.capture(0).message, "stopped");
      SaysIff(w.capture(0).message, "not ready");
    }
    hide ValidOutcome, Mentions, Says, Confirmations, Poll, TicketOutcome, Refused, Satisfied, ValidTicket, Genuine;
  }

  lemma SentIsGuarded(r: Request, s: RuntimeSnapshots.Snapshot)
    ensures Guarded(r, s) == Sent(r, s)
  {
  }

  /** An execution whose preflight is current, up to the dispatch. */
  lemma {:induction false} PreflightMarks(w: Surroundings, r: Request, given: Option<RuntimeSnapshots.Snapshot>, n: nat)
    requires Advances(w, n) && ValidRequest(r) && Current(w, r, given)
    ensures var e := Execute(w, r, given, n).ending;
      && (!Confirmable(w, r, given) ==> MarkOf(e) == Raising)
      && (Confirmable(w, r, given) && !Unmet(w, r, given) ==> MarkOf(e) == Success)
      && (Unmet(w, r, given) && w.expired(1) ==>
           && MarkOf(e) == Failing(TimedOut, Deadline, DeadlineExpired)
           && CarriedBy(e) == Confirmations(w, PreflightOf(w, given).value, r.conditions)
           && !e.outcome.failure.value.retryable)
  {
    var p := PreflightOf(w, given).value;
    hide ValidOutcome, Poll, TicketOutcome, Refused, Satisfied, ValidTicket, Genuine, Guarded;
    if Confirmable(w, r, given) {
      SnapshotReturns(w, r, p);
      FixedReturns(r, Confirmations(w, p, r.conditions));
    }
    hide Confirmations;
  }

  /** And from the dispatch on. */
  lemma {:induction false} DispatchedMarks(w: Surroundings, r: Request, given: Option<RuntimeSnapshots.Snapshot>, n: nat)
    requires Advances(w, n) && ValidRequest(r) && Unmet(w, r, given) && !w.expired(1)
    ensures var sent, answer := Sent(r, PreflightOf(w, given).value), Answer(w, r, given);
      Execute(w, r, given, n).ending
      == if answer.None? then Raised
         else if answer.value.disposition == ReadyDisposition then Poll(w, sent, 2, NextCapture(given), [], n)
         else TicketOutcome(sent, answer.value)
  {
    var p := PreflightOf(w, given).value;
    ConfirmationsIff(w, p, r.conditions);
    SentIsGuarded(r, p);
    hide ValidOutcome, Poll, TicketOutcome, Refused, Satisfied, ValidTicket, Genuine, Guarded, Confirmations, Expires, Confirms;
  }

  lemma {:induction false} TicketCodes(t: Ticket)
    requires ValidTicket(t) && t.disposition != ReadyDisposition
    ensures t.failure.Some?
    ensures t.disposition == CancelledDisposition ==> t.failure.value in {FailureCode.GenerationLost, FailureCode.RuntimeStopped}
    ensures t.disposition == FailedDisposition ==> t.failure.value in {FailureCode.NativeRejected, InternalError}
    ensures t.disposition == RejectedDisposition ==>
      t.failure.value !in {FailureCode.GenerationLost, FailureCode.RuntimeStopped, FailureCode.NativeRejected, InternalError}
  {
  }

  lemma {:induction false} NoPreflightMarks(w: Surroundings, r: Request, given: Option<RuntimeSnapshots.Snapshot>, n: nat)
    requires Advances(w, n) && !w.expired(0) && PreflightOf(w, given).None?
    ensures var v := Judge(w, r, w.capture(0));
      && (v == Stopped || v == Broken || v == Fault)
      && (v == Fault ==> MarkAt(w, r, given, n) == Raising)
  {
    if w.capture(0) == Unavailable("") { assert Execute(w, r, given, n).ending == UnavailableOutcome(r, "", []); }
    hide ExecuteFrom, Mentions, Says;
  }

  /** From the answer on: what a ticket that is not ready, or polling, ends in. */
  lemma {:induction false} AnswerMarks(w: Surroundings, r: Request, given: Option<RuntimeSnapshots.Snapshot>, n: nat)
    requires Advances(w, n) && ValidRequest(r) && Unmet(w, r, given) && !w.expired(1)
    ensures var mark, answer := MarkAt(w, r, given, n), Answer(w, r, given);
      && (answer.None? ==> mark == Raising)
      && (answer.Some? && !Accepted(w, r, given) ==>
           && answer.value.failure.Some?
           && mark == TicketMark(answer.value.disposition, answer.value.failure.value)
           && TicketCode(answer.value.disposition, answer.value.failure.value))
      && (Accepted(w, r, given) ==>
           && (mark == Success <==> Then(w, r, given, Observed))
           && (mark == Failing(TimedOut, ConfirmationPhase, ConfirmationTimeout) <==> ThenTimesOut(w, r, given))
           && (mark == Failing(CancelledStatus, Cancellation, FailureCode.GenerationLost)
               <==> Then(w, r, given, OtherGeneration))
           && (mark == Failing(CancelledStatus, Cancellation, FailureCode.RuntimeStopped) <==> Then(w, r, given, Stopped))
           && (mark == Failing(Failed, ExecutionPhase, InternalError) <==> Then(w, r, given, Broken))
           && (mark == Raising <==> Then(w, r, given, Fault))
           && mark != Failing(TimedOut, Deadline, DeadlineExpired)
           && (mark.Failing? ==> mark.status != Rejected && mark.code != FailureCode.NativeRejected))
  {
    DispatchedMarks(w, r, given, n);
    var sent, answer := Sent(r, PreflightOf(w, given).value), Answer(w, r, given);
    if Accepted(w, r, given) {
      PollEndingsIff(w, sent, NextCapture(given), n);
    } else if answer.Some? {
      TicketMarks(sent, answer.value);
      TicketCodes(answer.value);
    }
    hide Execute, Judge, Sent, PreflightOf, MarkOf, ValidTicket, Poll, TicketOutcome, Meets, RunsOut, Unmet;
  }

  function TicketMark(disposition: Disposition, code: FailureCode): Mark {
    match disposition
    case ReadyDisposition => Success
    case CancelledDisposition => Failing(CancelledStatus, Cancellation, code)
    case FailedDisposition => Failing(Failed, ExecutionPhase, code)
    case RejectedDisposition =>
      Failing(Rejected, if code == FailureCode.UnsupportedOperation then Validation else Precondition, code)
  }

  predicate TicketCode(disposition: Disposition, code: FailureCode) {
    match disposition
    case ReadyDisposition => false
    case CancelledDisposition => code == FailureCode.GenerationLost || code == FailureCode.RuntimeStopped
    case FailedDisposition => code == FailureCode.NativeRejected || code == InternalError
    case RejectedDisposition => true
  }

  /** The stages of an execution, each within the one before; only one verdict where there is no preflight. */
  lemma {:induction false} Stages(w: Surroundings, r: Request, given: Option<RuntimeSnapshots.Snapshot>)
    ensures Begun(w, r, given) ==> !w.expired(0) && PreflightOf(w, given).Some?
    ensures Current(w, r, given) ==> Begun(w, r, given)
    ensures Confirmable(w, r, given) ==> Current(w, r, given)
    ensures Unmet(w, r, given) ==> Confirmable(w, r, given)
    ensures Answer(w, r, given).Some? ==> Unmet(w, r, given) && !w.expired(1)
    ensures Accepted(w, r, given) ==> Answer(w, r, given).Some?
    ensures ThenTimesOut(w, r, given) ==> Accepted(w, r, given)
    ensures forall v :: Then(w, r, given, v) ==> Accepted(w, r, given)
    ensures forall v :: NoPreflight(w, r, given, v) ==> !w.expired(0) && PreflightOf(w, given).None?
    ensures forall u, v :: NoPreflight(w, r, given, u) && NoPreflight(w, r, given, v) ==> u == v
    ensures forall d, code :: Told(w, r, given, d, code) ==> Answer(w, r, given).Some?
    ensures forall d, code :: Told(w, r, given, d, code) && d != ReadyDisposition ==> !Accepted(w, r, given)
  {
    hide Refused, Satisfied, ValidTicket, Judge, Meets, RunsOut, Sent, PreflightOf;
  }

  /** The mark of every stage. */
  lemma {:induction false} StageMarks(w: Surroundings, r: Request, given: Option<RuntimeSnapshots.Snapshot>, n: nat)
    requires Advances(w, n) && ValidRequest(r)
    ensures var mark := MarkAt(w, r, given, n);
      && (w.expired(0) ==> mark == Failing(TimedOut, Deadline, DeadlineExpired))
      && (!w.expired(0) && PreflightOf(w, given).None? ==>
           || (NoPreflight(w, r, given, Stopped) && mark == Failing(CancelledStatus, Cancellation, FailureCode.RuntimeStopped))
           || (NoPreflight(w, r, given, Broken) && mark == Failing(Failed, ExecutionPhase, InternalError))
           || (NoPreflight(w, r, given, Fault) && mark == Raising))
      && (!w.expired(0) && PreflightOf(w, given).Some? && !Begun(w, r, given) ==>
           mark == Failing(Rejected, Precondition, FailureCode.StaleGeneration))
      && (Begun(w, r, given) && !Current(w, r, given) ==>
           mark == Failing(Rejected, Precondition, FailureCode.StaleSequence))
      && (Current(w, r, given) && !Confirmable(w, r, given) ==> mark == Raising)
      && (Confirmable(w, r, given) && !Unmet(w, r, given) ==> mark == Success)
      && (Unmet(w, r, given) && w.expired(1) ==> mark == Failing(TimedOut, Deadline, DeadlineExpired))
      && (Unmet(w, r, given) && !w.expired(1) && Answer(w, r, given).None? ==> mark == Raising)
  {
    EarlyMarks(w, r, given, n);
    if !w.expired(0) && PreflightOf(w, given).None? { NoPreflightMarks(w, r, given, n); }
    if Current(w, r, given) { PreflightMarks(w, r, given, n); }
    if Unmet(w, r, given) && !w.expired(1) { AnswerMarks(w, r, given, n); }
    hide Execute, Judge, Unmet, Confirmable, Current, Begun, PreflightOf, MarkOf, Answer, Then, ThenTimesOut;
  }

  /** Every execution ends with exactly one mark, and each that is no rejection comes exactly so. */
  lemma {:induction false} EndingsIff(w: Surroundings, r: Request, given: Option<RuntimeSnapshots.Snapshot>, n: nat)
    requires Advances(w, n) && ValidRequest(r)
    ensures MarkAt(w, r, given, n) == Success
       <==> (Confirmable(w, r, given) && !Unmet(w, r, given)) || Then(w, r, given, Observed)
    ensures MarkAt(w, r, given, n) == Failing(TimedOut, ConfirmationPhase, ConfirmationTimeout)
       <==> ThenTimesOut(w, r, given)
    ensures MarkAt(w, r, given, n) == Failing(TimedOut, Deadline, DeadlineExpired)
       <==> w.expired(0) || (Unmet(w, r, given) && w.expired(1))
    ensures MarkAt(w, r, given, n) == Failing(CancelledStatus, Cancellation, FailureCode.GenerationLost)
       <==> Then(w, r, given, OtherGeneration) || Told(w, r, given, CancelledDisposition, FailureCode.GenerationLost)
    ensures MarkAt(w, r, given, n) == Failing(CancelledStatus, Cancellation, FailureCode.RuntimeStopped)
       <==> || NoPreflight(w, r, given, Stopped)
            || Then(w, r, given, Stopped)
            || Told(w, r, given, CancelledDisposition, FailureCode.RuntimeStopped)
    ensures MarkAt(w, r, given, n) == Failing(Failed, ExecutionPhase, InternalError)
       <==> || NoPreflight(w, r, given, Broken)
            || Then(w, r, given, Broken)
            || Told(w, r, given, FailedDisposition, InternalError)
    ensures MarkAt(w, r, given, n) == Failing(Failed, ExecutionPhase, FailureCode.NativeRejected)
       <==> Told(w, r, given, FailedDisposition, FailureCode.NativeRejected)
    ensures MarkAt(w, r, given, n) == Raising
       <==> || NoPreflight(w, r, given, Fault)
            || (Current(w, r, given) && !Confirmable(w, r, given))
            || (Unmet(w, r, given) && !w.expired(1) && Answer(w, r, given).None?)
            || Then(w, r, given, Fault)
  {
    Stages(w, r, given);
    StageMarks(w, r, given, n);
    if Unmet(w, r, given) && !w.expired(1) { AnswerMarks(w, r, given, n); }
    hide Unmet, Confirmable, Current, Begun, PreflightOf, MarkAt, Answer, Then, ThenTimesOut, NoPreflight, Accepted;
  }

  /** And each rejection: by a stale preflight, or by the native side. */
  lemma {:induction false} RejectionsIff(
      w: Surroundings, r: Request, given: Option<RuntimeSnapshots.Snapshot>, n: nat, code: FailureCode)
    requires Advances(w, n) && ValidRequest(r)
    ensures code != FailureCode.UnsupportedOperation ==>
      (MarkAt(w, r, given, n) == Failing(Rejected, Precondition, code) <==>
        || (code == FailureCode.StaleGeneration
            && !w.expired(0) && PreflightOf(w, given).Some? && !Begun(w, r, given))
        || (code == FailureCode.StaleSequence && Begun(w, r, given) && !Current(w, r, given))
        || Told(w, r, given, RejectedDisposition, code))
    ensures MarkAt(w, r, given, n) == Failing(Rejected, Validation, FailureCode.UnsupportedOperation)
       <==> Told(w, r, given, RejectedDisposition, FailureCode.UnsupportedOperation)
  {
    Stages(w, r, given);
    StageMarks(w, r, given, n);
    if Unmet(w, r, given) && !w.expired(1) { AnswerMarks(w, r, given, n); }
    hide Unmet, Confirmable, Current, Begun, PreflightOf, MarkAt, Answer, Then, ThenTimesOut, NoPreflight, Accepted;
  }

  /**
   * What the outcome of a failure carries: what the last snapshot before it confirmed, and a hint to
   * retry exactly when the native side cancelled the request because its generation was lost.
   */
  lemma {:induction false} FailureCarries(w: Surroundings, r: Request, given: Option<RuntimeSnapshots.Snapshot>, n: nat)
    requires Advances(w, n) && ValidRequest(r) && MarkAt(w, r, given, n).Failing?
    ensures var e := Execute(w, r, given, n).ending;
      && (e.outcome.failure.value.retryable <==> Told(w, r, given, CancelledDisposition, FailureCode.GenerationLost))
      && (Unmet(w, r, given) && w.expired(1) ==>
           CarriedBy(e) == Confirmations(w, PreflightOf(w, given).value, r.conditions))
      && (!Accepted(w, r, given) && !(Unmet(w, r, given) && w.expired(1)) ==> CarriedBy(e) == [])
      && (Accepted(w, r, given) ==>
           forall k: nat ::
             var sent, at := Sent(r, PreflightOf(w, given).value), NextCapture(given);
             (OutAt(w, sent, 2, at, k) || (Reaches(w, sent, 2, at, k) && Judge(w, sent, w.capture(k)) != Open))
             ==> CarriedBy(e) == Carried(w, sent, at, [], k))
  {
    EarlyMarks(w, r, given, n);
    if !w.expired(0) && PreflightOf(w, given).None? { NoPreflightMarks(w, r, given, n); }
    if Current(w, r, given) { PreflightMarks(w, r, given, n); }
    if Unmet(w, r, given) && !w.expired(1) {
      DispatchedMarks(w, r, given, n);
      var sent, answer := Sent(r, PreflightOf(w, given).value), Answer(w, r, given);
      if Accepted(w, r, given) {
        PollCarries(w, sent, NextCapture(given), n);
      } else if answer.Some? {
        TicketMarks(sent, answer.value);
        TicketCodes(answer.value);
      }
    }
    hide Execute, Judge, Refused, Satisfied, Sent, PreflightOf, MarkOf, ValidTicket, Poll, TicketOutcome, Carried, OutAt, Reaches, Confirmations;
  }

  lemma {:induction false} PollCarries(w: Surroundings, r: Request, at: nat, n: nat)
    requires Advances(w, n) && ValidRequest(r)
    ensures var e := Poll(w, r, 2, at, [], n);
      MarkOf(e).Failing? ==>
        && !e.outcome.failure.value.retryable
        && forall k: nat ::
             (OutAt(w, r, 2, at, k) || (Reaches(w, r, 2, at, k) && Judge(w, r, w.capture(k)) != Open))
             ==> CarriedBy(e) == Carried(w, r, at, [], k)
  {
    PollEndingsIff(w, r, at, n);
    var e := Poll(w, r, 2, at, [], n);
    hide *;
    if MarkOf(e).Failing? {
      forall k: nat | OutAt(w, r, 2, at, k) || (Reaches(w, r, 2, at, k) && Judge(w, r, w.capture(k)) != Open)
        ensures CarriedBy(e) == Carried(w, r, at, [], k)
      {
        PollCarriesAt(w, r, at, n, k);
      }
    }
  }

  lemma {:induction false} PollCarriesAt(w: Surroundings, r: Request, at: nat, n: nat, k: nat)
    requires Advances(w, n) && ValidRequest(r)
    requires w.expired(n) && MarkOf(Poll(w, r, 2, at, [], n)).Failing?
    requires OutAt(w, r, 2, at, k) || (Reaches(w, r, 2, at, k) && Judge(w, r, w.capture(k)) != Open)
    ensures CarriedBy(Poll(w, r, 2, at, [], n)) == Carried(w, r, at, [], k)
  {
    NoneGenuine(r);
    hide *;
    if OutAt(w, r, 2, at, k) {
      PollTimesOut(w, r, 2, at, [], n, k);
    } else {
      PollMeets(w, r, 2, at, [], n, k);
    }
  }

  // ----- what is confirmed -----

  function CountSatisfied(w: Surroundings, s: RuntimeSnapshots.Snapshot, conditions: seq<Condition>): nat {
    if conditions == [] then 0
    else
      var n := |conditions| - 1;
      CountSatisfied(w, s, conditions[..n]) + (if Satisfies(s, conditions[n], w.context) then 1 else 0)
  }

  /** The i-th condition, if satisfied, is confirmed after those satisfied before it. */
  ghost predicate InPlace(
      w: Surroundings, s: RuntimeSnapshots.Snapshot, conditions: seq<Condition>, confirmed: seq<Confirmation>, i: nat)
    requires i < |conditions|
  {
    Satisfies(s, conditions[i], w.context) ==>
      var place := CountSatisfied(w, s, conditions[..i]);
      && place < |confirmed|
      && confirmed[place] == Confirmation(
        s.contents.generation, s.contents.sequence, conditions[i], Observation(s, conditions[i].target, w.context))
  }

  lemma {:induction false} InPlaceStays(
      w: Surroundings, s: RuntimeSnapshots.Snapshot, conditions: seq<Condition>, before: seq<Confirmation>,
      all: seq<Confirmation>, i: nat)
    requires i < |conditions| - 1 && before <= all
    requires InPlace(w, s, conditions[..|conditions| - 1], before, i)
    ensures InPlace(w, s, conditions, all, i)
  {
    hide Satisfies, Observation, Matches, CountSatisfied;
    var front := conditions[..|conditions| - 1];
    assert front[..i] == conditions[..i] && front[i] == conditions[i];
  }

  /** Exactly the satisfied conditions are confirmed, in their order, each with what was observed. */
  lemma {:induction false} ConfirmationsInOrder(w: Surroundings, s: RuntimeSnapshots.Snapshot, conditions: seq<Condition>)
    ensures |Confirmations(w, s, conditions)| == CountSatisfied(w, s, conditions)
    ensures forall i :: 0 <= i < |conditions| ==> InPlace(w, s, conditions, Confirmations(w, s, conditions), i)
  {
    if conditions != [] {
      var n := |conditions| - 1;
      var front := conditions[..n];
      ConfirmationsInOrder(w, s, front);
      hide Satisfies, Observation, Matches;
      var before, all := Confirmations(w, s, front), Confirmations(w, s, conditions);
      assert before <= all && |all| == CountSatisfied(w, s, conditions);
      assert InPlace(w, s, conditions, all, n);
      hide InPlace, CountSatisfied, Confirmations;
      forall i | 0 <= i < n ensures InPlace(w, s, conditions, all, i) {
        InPlaceStays(w, s, conditions, before, all, i);
      }
    }
  }
}
