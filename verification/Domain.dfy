/**
 Vocabulary of the recovery protocol: states and the transition table of
 internal/domain/state.go, the value types of internal/domain/types.go, and the error codes.

 Identifiers (UUIDs, random claim tokens) are opaque values that are only compared.
 Fingerprints are injective, so a fingerprint is represented by the content it covers.
 */
module Domain {
  datatype Option<+T> = None | Some(value: T)

  datatype Result<+T> = Ok(value: T) | Err(error: Error)

  datatype Error =
    | OperationNotFound
    | OperationStateConflict
    | OperationVersionConflict
    | FingerprintConflict
    | WorkflowMetadataConflict
    | DispatchNotAuthorized
    | ReceiptConflict
    | LeaseLost
    | AttemptConflict
    | InvalidObservation
    | InvalidManualOutcome
    | NotSelected          // the claim query does not return the row
    | ConstraintViolated   // PostgreSQL rejects the transaction
    | KeyConflict          // the email service refuses a reused idempotency key
    | VerificationFailed   // the verifier returns an error instead of an observation

  type Time = int          // milliseconds on the database clock
  type OpId = nat
  type Token = nat
  type AttemptId = nat
  type ReceiptId = nat
  type WorkflowId = nat
  type RunId = nat

  datatype State = Prepared | Confirmed | Reconciled | Retryable | Uncertain

  /** The table that the store itself never consults. */
  predicate CanTransition(from: State, to: State) {
    match from
    case Prepared => to.Confirmed? || to.Reconciled? || to.Retryable? || to.Uncertain?
    case Retryable => to.Prepared?
    case Uncertain => to.Reconciled? || to.Retryable?
    case Confirmed => false
    case Reconciled => false
  }

  predicate Terminal(s: State) {
    s.Confirmed? || s.Reconciled?
  }

  /** Terminal states are exactly those without an outgoing transition. */
  lemma TerminalIffStuck(s: State)
    ensures Terminal(s) <==> forall t :: !CanTransition(s, t)
  {
    if !Terminal(s) {
      assert CanTransition(s, if s.Retryable? then Prepared else Reconciled);
    }
  }

  datatype Profile = ReceiptStatus | IdempotencyOnly | IndirectUnique | NoEvidence

  datatype Strategy = BlindRetry | IdempotencyKeyRetry | CheckpointRecovery | Watchkeeper

  /** The three match fields of an email, in a request, an expected effect or an effect. */
  datatype Fields = Fields(recipient: string, template: string, messageKey: string)

  /** SHA-256 over target service, action and canonical request; "send" is the only action. */
  datatype Fingerprint = Fingerprint(target: string, request: Fields)

  predicate Complete(f: Fields) {
    f.recipient != "" && f.template != "" && f.messageKey != ""
  }

  datatype Mechanism =
    | ReceiptLookup | StatusLookup | IndirectLookup | IdempotentRepeat | NoMechanism
    | OtherMechanism(name: string)

  datatype Outcome =
    | Completed | Absent | Unknown | TransientError | Contradictory
    | OtherOutcome(name: string)

  datatype Observation = Observation(
    mechanism: Mechanism, outcome: Outcome, authoritative: bool, reference: Option<ReceiptId>)

  predicate ValidObservation(o: Observation) {
    !o.mechanism.OtherMechanism? && !o.outcome.OtherOutcome?
  }

  /** What a worker hands to the store after a send: the service's reply, verbatim. */
  datatype Receipt = Receipt(id: ReceiptId, operation: OpId, committedAt: Time)
}
