/** How mutations end: failure classifications, native tickets and terminal outcomes. */
module Outcomes {
  import opened Wrappers
  import opened Events
  import Dispatch

  datatype FailurePhase =
    | Validation | Precondition | ExecutionPhase | ConfirmationPhase | Deadline | Cancellation

  datatype FailureCode =
    | InvalidRequest | UnsupportedOperation
    | StaleGeneration | StaleSequence | TargetNotFound | TargetIdentityChanged | TargetUnavailable
    | NotWritable | OwnershipConflict
    | NativeRejected | InternalError
    | ConfirmationTimeout | DeadlineExpired
    | GenerationLost | RuntimeStopped | CallerCancelled

  datatype MutationStatus = Confirmed | Rejected | Failed | TimedOut | CancelledStatus

  datatype Disposition = ReadyDisposition | RejectedDisposition | FailedDisposition | CancelledDisposition

  /** `_FAILURE_CODES_BY_PHASE` */
  function CodesOf(phase: FailurePhase): set<FailureCode> {
    match phase
    case Validation => {InvalidRequest, UnsupportedOperation}
    case Precondition => {StaleGeneration, StaleSequence, TargetNotFound, TargetIdentityChanged,
                          TargetUnavailable, NotWritable, OwnershipConflict}
    case ExecutionPhase => {NativeRejected, InternalError}
    case ConfirmationPhase => {ConfirmationTimeout}
    case Deadline => {DeadlineExpired}
    case Cancellation => {GenerationLost, RuntimeStopped, CallerCancelled}
  }

  // ----- tickets -----

  datatype Ticket = Ticket(
    order: nat, disposition: Disposition, expectedGeneration: nat, expectedSequence: Option<nat>,
    observedGeneration: nat, observedSequence: nat, failure: Option<FailureCode>)

  /** The constraints of `MutationDispatchTicketValue`. */
  predicate ValidTicket(t: Ticket) {
    && (t.disposition.ReadyDisposition? ==> t.failure.None? && t.order > 0)
    && (!t.disposition.ReadyDisposition? ==> t.failure.Some?)
    && (t.disposition.RejectedDisposition? ==>
         t.failure.value in {UnsupportedOperation, StaleGeneration, StaleSequence, TargetNotFound,
                             TargetIdentityChanged, TargetUnavailable, NotWritable, OwnershipConflict})
    && (t.disposition.FailedDisposition? ==> t.failure.value in {NativeRejected, InternalError})
    && (t.disposition.CancelledDisposition? ==> t.failure.value in {GenerationLost, RuntimeStopped})
  }

  /** `disposition` */
  function DispositionOf(result: Dispatch.Outcome): Disposition {
    match result
    case Ready => ReadyDisposition
    case NativeRejected => FailedDisposition
    case GenerationLost => CancelledDisposition
    case RuntimeStopped => CancelledDisposition
    case _ => RejectedDisposition
  }

  /** `failure_code` */
  function FailureOf(result: Dispatch.Outcome): Option<FailureCode> {
    match result
    case Ready => None
    case StaleGeneration => Some(StaleGeneration)
    case StaleSequence => Some(StaleSequence)
    case GenerationLost => Some(GenerationLost)
    case RuntimeStopped => Some(RuntimeStopped)
    case UnsupportedOperation => Some(UnsupportedOperation)
    case TargetNotFound => Some(TargetNotFound)
    case NotWritable => Some(NotWritable)
    case OwnershipConflict => Some(OwnershipConflict)
    case NativeRejected => Some(NativeRejected)
  }

  /** `call_to_payload` */
  function TicketOf(call: Dispatch.Call): Ticket
    requires call.status.Completed?
  {
    Ticket(call.order, DispositionOf(call.status.result), call.expectedGeneration, call.expectedSequence,
           call.status.generation, call.status.sequence, FailureOf(call.status.result))
  }

  /**
   * The validator accepts a native ticket exactly when it is not a ready one without an order, so
   * the dispatcher only has to see that every executed call was admitted.
   */
  lemma TicketAcceptedIff(call: Dispatch.Call)
    requires call.status.Completed?
    ensures ValidTicket(TicketOf(call)) <==> (call.status.result == Dispatch.Ready ==> call.order > 0)
  {
  }

  // ----- outcomes -----

  datatype Failure = Failure(phase: FailurePhase, code: FailureCode, message: string, retryable: bool)

  predicate ValidFailure(f: Failure) { f.code in CodesOf(f.phase) && f.message != "" }

  /** The failure codes a status may carry. */
  function CodesOfStatus(status: MutationStatus): set<FailureCode> {
    match status
    case Confirmed => {}
    case Rejected => CodesOf(Validation) + CodesOf(Precondition)
    case Failed => CodesOf(ExecutionPhase)
    case TimedOut => {ConfirmationTimeout, DeadlineExpired}
    case CancelledStatus => CodesOf(Cancellation)
  }
}
