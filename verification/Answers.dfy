/**
 What each call of the store promises, stated on the operation before and after it: when it is
 accepted, which refusal it meets otherwise, what it changes and what it leaves alone.
 */
module Answers {
  import opened Domain
  import opened Transactions
  import opened History
  import Deferral

  /** The log grew by this event. */
  predicate Logs(op: Op, op': Op, e: Event) {
    op'.log == op.log + [e]
  }

  // ---- internal/store/dispatch.go

  /** A dispatch is granted once, to the present version, while no lease is recorded, expired or not. */
  lemma AuthorizeMeans(op: Op, version: nat, now: Time)
    ensures var r := Apply(op, now, Authorize(version));
      && (r.Ok? <==>
            && op.row.state.Prepared? && op.row.version == version
            && !op.row.dispatchAuthorized && op.row.leaseToken.None?)
      && (r.Err? ==> r.error.DispatchNotAuthorized?)
      && (r.Ok? ==>
            && r.value == op.(row := r.value.row, log := r.value.log)
            && r.value.row == op.row.(dispatchAuthorized := true, version := version + 1)
            && Logs(op, r.value, Event(DispatchGranted, Some(Prepared), Prepared, version +
              1, Worker, SingleSendAuthorized, None)))
  {
  }

  // ---- Confirm

  predicate IsStored(receipt: Option<StoredReceipt>, c: Confirmation) {
    receipt.Some? && receipt.value.serviceReceipt == c.serviceReceipt && receipt.value.payload == c.payload
  }

  /** An accepted confirmation leaves its own receipt stored; a second one is accepted only if it is the stored one. */
  lemma ConfirmMeans(op: Op, c: Confirmation, now: Time)
    requires Schema(op)
    ensures var r := Apply(op, now, Call.Confirm(c));
      && (r.Ok? <==> IsStored(op.receipt, c) || (op.row.state.Prepared? && op.row.version == c.version))
      && (r.Ok? ==> IsStored(r.value.receipt, c) && r.value.row.state.Confirmed?)
      && (r.Ok? && op.receipt.Some? ==> r.value == op)
      && (r.Err? ==> r == Err(
            if op.receipt.Some? then ReceiptConflict
            else if op.row.state.Prepared? then OperationVersionConflict
            else OperationStateConflict))
      && (r.Ok? && op.receipt.None? ==>
            && r.value == op.(row := r.value.row, receipt := r.value.receipt, log := r.value.log)
            && r.value.receipt.value.receivedAt == c.receivedAt
            && r.value.row == op.row.(state := Confirmed, version := op.row.version +
              1, confirmedAt := Some(now), resolvedAt := Some(now),
                                      leaseOwner := None, leaseToken := None, leaseExpires := None)
            && Logs(op, r.value, Event(ReceiptConfirmed, Some(Prepared), Confirmed, op.row.version +
              1, Api, ReceiptPersisted, None)))
  {
  }

  // ---- internal/store/recovery.go

  /** A new attempt of a retryable operation: the grant is withdrawn, the attempt counted, the lease left alone. */
  lemma BeginRetryMeans(op: Op, version: nat, reason: string, now: Time)
    ensures var r := Apply(op, now, Call.BeginRetry(version, reason));
      && (r.Ok? <==> op.row.state.Retryable? && op.row.version == version)
      && (r.Err? ==> r.error == if op.row.state.Retryable? then OperationVersionConflict else OperationStateConflict)
      && (r.Ok? ==>
            && r.value == op.(row := r.value.row, log := r.value.log)
            && r.value.row == op.row.(state := Prepared, version := version +
              1, attemptCount := op.row.attemptCount + 1,
                                      dispatchAuthorized := false, preparedAt := now, resolvedAt := None,
                                        nextReconcileAt := None)
            && Logs(op, r.value, Event(RetryStarted, Some(Retryable), Prepared, version +
              1, Worker, Given(reason), None)))
  {
  }

  /** An accepted request lets any coordinator claim an unleased row at once, whatever the grace period. */
  lemma RequestReconciliationMeans(op: Op, version: nat, reason: string, now: Time, grace: Time)
    ensures var r := Apply(op, now, Call.RequestReconciliation(version, reason));
      var open := op.row.state.Prepared? || op.row.state.Uncertain?;
      && (r.Ok? <==> open && op.row.version == version)
      && (r.Err? ==> r.error == if open then OperationVersionConflict else OperationStateConflict)
      && (r.Ok? && op.row.leaseExpires.None? ==> Claimable(r.value.row, now, grace))
      && (r.Ok? ==>
            && r.value == op.(row := r.value.row, log := r.value.log)
            && r.value.row == op.row.(version := version + 1, nextReconcileAt := Some(now))
            && Logs(op, r.value, Event(ReconciliationRequested, Some(op.row.state), op.row.state, version +
              1, Manual, Given(reason), None)))
  {
  }

  /** The lease, if there is one, has run out. */
  predicate Unleased(row: Row, now: Time) {
    row.leaseExpires.Some? ==> row.leaseExpires.value <= now
  }

  /**
   Which rows a coordinator may claim, by their schedule: a scheduled one once it is due, an
   unscheduled one only if it is prepared and the grace period has passed; never under a live lease.
   */
  lemma ClaimableIff(row: Row, now: Time, grace: Time)
    ensures Claimable(row, now, grace) <==>
      && Unleased(row, now)
      && match row.nextReconcileAt
         case Some(due) => due <= now && (row.state.Prepared? || row.state.Uncertain?)
         case None => row.state.Prepared? && row.preparedAt + grace <= now
  {
  }

  /** A claim records the lease and the next numbered attempt, still open, and changes nothing else. */
  lemma ClaimMeans(op: Op, owner: string, lease: Time, grace: Time, token: Token, attempt: AttemptId, now: Time)
    requires Schema(op)
    ensures var r := Apply(op, now, Claim(owner, lease, grace, token, attempt));
      && (r.Ok? <==> Claimable(op.row, now, grace) && forall a | a in op.attempts :: a.id != attempt)
      && (r.Ok? ==>
            && r.value == op.(row := r.value.row, attempts := r.value.attempts, log := r.value.log)
            && r.value.row == op.row.(leaseOwner := Some(owner), leaseToken := Some(token),
              leaseExpires := Some(now + lease),
                                      version := op.row.version + 1)
            && r.value.attempts == op.attempts + [Attempt(attempt, |op.attempts| + 1, owner, None, None)]
            && Logs(op, r.value, Event(RecoveryClaimed, Some(op.row.state), op.row.state, op.row.version +
              1, Coordinator, LeaseAcquired,
                                       Some(attempt))))
  {
    MaxNumberIsLength(op.attempts);
  }

  /** A renewal moves the expiry of a lease that is held and still runs, and nothing else. */
  lemma RenewMeans(op: Op, token: Token, duration: Time, now: Time)
    requires Schema(op)
    ensures var r := Apply(op, now, Renew(token, duration));
      && (r.Ok? <==> op.row.leaseToken == Some(token) && !Unleased(op.row, now))
      && (r.Err? ==> r.error.LeaseLost?)
      && (r.Ok? ==> r.value == op.(row := op.row.(leaseExpires := Some(now + duration))))
  {
  }

  /** The result's attempt is one of the operation's and still open. */
  predicate Answerable(attempts: seq<Attempt>, id: AttemptId) {
    exists i :: 0 <= i < |attempts| && attempts[i].id == id && attempts[i].finishedAt.None?
  }

  lemma AttemptFound(attempts: seq<Attempt>, i: nat)
    requires Numbered(attempts) && i < |attempts|
    ensures AttemptIndex(attempts, attempts[i].id) == i
  {
  }

  /** The policy would postpone the verification: a granted dispatch, no answer, one of the first four attempts. */
  predicate Postpones(op: Op, r: RecoveryResult) {
    && op.row.dispatchAuthorized && r.observation.outcome.TransientError?
    && exists i :: 0 <= i < |op.attempts| && op.attempts[i].id == r.attempt && op.attempts[i].number < 5
  }

  /**
   When a recovery result is accepted, and which refusal it meets otherwise. A reconciled row must keep
   its resolution time, so the database itself refuses to postpone there.
   */
  lemma SubmitAcceptedIff(op: Op, r: RecoveryResult, now: Time)
    requires Schema(op)
    ensures var result := Apply(op, now, Submit(r));
      var valid := ValidObservation(r.observation);
      var held := op.row.leaseToken == Some(r.token) && !Unleased(op.row, now);
      var unresolved := op.row.state.Reconciled? && Postpones(op, r);
      && (result.Ok? <==>
            valid && held && op.row.version == r.version && Answerable(op.attempts, r.attempt) && !unresolved)
      && (result.Err? ==> result == Err(
            if !valid then InvalidObservation
            else if !held then LeaseLost
            else if op.row.version != r.version then OperationVersionConflict
            else if !Answerable(op.attempts, r.attempt) then AttemptConflict
            else ConstraintViolated))
  {
    if i: nat :| i < |op.attempts| && op.attempts[i].id == r.attempt && op.attempts[i].finishedAt.None? {
      AttemptFound(op.attempts, i);
    }
    if i: nat :| i < |op.attempts| && op.attempts[i].id == r.attempt && op.attempts[i].number < 5 {
      AttemptFound(op.attempts, i);
    }
  }

  /** The attempts after the one with this ID was answered. */
  predicate Answers(attempts: seq<Attempt>, attempts': seq<Attempt>, id: AttemptId, outcome: Outcome, now: Time) {
    && |attempts'| == |attempts|
    && forall j | 0 <= j < |attempts| ::
         attempts'[j] == if attempts[j].id == id then attempts[j].(finishedAt := Some(now), result := Some(outcome))
           else attempts[j]
  }

  /** No decision row: the verification is postponed. */
  predicate Deferred(op: Op, op': Op) {
    op'.decisions == op.decisions
  }

  /** What an accepted result records, for every row, observation and attempt. */
  lemma SubmitRecords(op: Op, r: RecoveryResult, now: Time)
    requires Schema(op) && Apply(op, now, Submit(r)).Ok?
    ensures var op' := Apply(op, now, Submit(r)).value;
      && op'.receipt == op.receipt
      && op'.observations == op.observations + [(r.attempt, r.observation)]
      && Answers(op.attempts, op'.attempts, r.attempt, r.observation.outcome, now)
      && op'.row == op.row.(state := op'.row.state, version := op.row.version + 1, resolvedAt := op'.row.resolvedAt,
                            nextReconcileAt := op'.row.nextReconcileAt, leaseOwner := None, leaseToken := None,
                              leaseExpires := None)
      && |op'.log| == |op.log| + 1
      && Logs(op, op', Event(RecoveryResulted, Some(op.row.state), op'.row.state, op'.row.version, Coordinator,
                             op'.log[|op.log|].reason, Some(r.attempt)))
  {
    forall j | 0 <= j < |op.attempts| && op.attempts[j].id == r.attempt
      ensures AttemptIndex(op.attempts, r.attempt) == j {
      AttemptFound(op.attempts, j);
    }
  }

  /** Resolution time, schedule and decision row of an accepted result follow from the state it leads to. */
  lemma SubmitConcludes(op: Op, r: RecoveryResult, now: Time)
    requires Apply(op, now, Submit(r)).Ok?
    ensures var op' := Apply(op, now, Submit(r)).value;
      var to := op'.row.state;
      && (op'.row.resolvedAt == if !Deferred(op, op') && (to.Reconciled? || to.Uncertain?) then Some(now) else None)
      && (Deferred(op, op') <==> op'.row.nextReconcileAt.Some?)
      && (Deferred(op, op') ==> now < op'.row.nextReconcileAt.value <= now + 2000)
      && (!Deferred(op, op') ==>
            && (to.Reconciled? || to.Retryable? || to.Uncertain?)
            && op'.decisions == op.decisions + [Decision(
                 Some(r.attempt),
                 if to.Reconciled? then Reconcile else if to.Retryable? then Retry else MarkUncertain,
                 Coordinator, op'.log[|op.log|].reason, op.row.state, to, op'.row.version)])
  {
    Deferral.BackoffTable();
  }

  /** The state an accepted result leads to, and the reason it gives, by grant, attempt number and observation. */
  lemma SubmitDecides(op: Op, r: RecoveryResult, now: Time)
    requires Schema(op) && Apply(op, now, Submit(r)).Ok?
    ensures var op' := Apply(op, now, Submit(r)).value;
      var o, reason, granted := r.observation, op'.log[|op.log|].reason, op.row.dispatchAuthorized;
      var number := op.attempts[AttemptIndex(op.attempts, r.attempt)].number;
      var completed := o.authoritative && o.outcome.Completed?;
      var replay := op.row.intent.profile.IdempotencyOnly? && o.mechanism.IdempotentRepeat? && o.authoritative &&
        o.outcome.Unknown?;
      && (Deferred(op, op') <==> granted && o.outcome.TransientError? && number < 5)
      && (Deferred(op, op') ==> op'.row.state == op.row.state && reason.VerificationTransient?)
      && (!Deferred(op, op') ==>
            && (op'.row.state.Reconciled? <==> completed)
            && (op'.row.state.Retryable? <==> !completed && (if granted then replay else !o.outcome.Contradictory?))
            && reason ==
               if op'.row.state.Reconciled? then EffectCompleted
               else if op'.row.state.Retryable? then (if granted then ReplayGuaranteed else NeverAuthorized)
               else if o.outcome.Contradictory? then EvidenceContradictory
               else EvidenceInsufficient)
  {
  }

  /**
   An operator's word on an uncertain operation: state, resolution time and decision kind go
   together; the lease stays.
   */
  lemma ResolveMeans(op: Op, version: nat, outcome: ManualOutcome, reason: string, now: Time)
    ensures var r := Apply(op, now, Resolve(version, outcome, reason));
      && (r.Ok? <==> op.row.state.Uncertain? && op.row.version == version && !outcome.OtherManual?)
      && (r.Err? ==> r == Err(
            if !op.row.state.Uncertain? then OperationStateConflict
            else if op.row.version != version then OperationVersionConflict
            else InvalidManualOutcome))
      && (r.Ok? ==>
            var to := r.value.row.state;
            && (to.Reconciled? <==> outcome.ManuallyCompleted?)
            && (to.Retryable? <==> outcome.ManuallyAbsent?)
            && (to.Uncertain? <==> outcome.CompensationRecorded?)
            && r.value == op.(row := r.value.row, decisions := r.value.decisions, log := r.value.log)
            && r.value.row == op.row.(state := to, version := version + 1, nextReconcileAt := None,
                                      resolvedAt := if to.Reconciled? then Some(now) else None)
            && r.value.decisions == op.decisions + [Decision(
                 None,
                 if to.Reconciled? then Reconcile else if to.Retryable? then Retry else CompensateRecorded,
                 Manual, Given(reason), Uncertain, to, version + 1)]
            && Logs(op, r.value, Event(ManuallyResolved, Some(Uncertain), to, version +
              1, Manual, Given(reason), None)))
  {
  }

  // ---- Prepare

  /** The operation stored for this workflow and key. */
  predicate StoredFor(t: Tables, id: OpId, request: PrepareRequest) {
    && id in t.ops && t.ops[id].row.intent.workflow == request.workflow && t.ops[id].row.intent.key == request.key
  }

  predicate MetadataDiffer(t: Tables, request: PrepareRequest) {
    request.workflow in t.workflows &&
    (t.workflows[request.workflow].strategy != request.strategy || t.workflows[request.workflow].run != request.run)
  }

  lemma HeldUnderIndex(t: Tables, id: OpId, request: PrepareRequest)
    requires Indexed(t)
    ensures StoredFor(t, id, request) <==>
      (request.workflow, request.key) in t.index && t.index[(request.workflow, request.key)] == id && id in t.ops
  {
  }

  /** A repeated prepare returns the stored operation, or the conflict that forbids it, and changes nothing. */
  lemma PrepareRepeats(t: Tables, request: PrepareRequest, newId: OpId, now: Time, id: OpId)
    requires Indexed(t) && StoredFor(t, id, request)
    ensures var r := PrepareTx(t, request, newId, now);
      var stored := t.ops[id].row.intent.fingerprint;
      && (MetadataDiffer(t, request) ==> r == Err(WorkflowMetadataConflict))
      && (!MetadataDiffer(t, request) ==>
            if stored.target == request.target && stored.request == request.fields then
              r.Ok? && r.value.id == id && r.value.tables == t
            else r == Err(FingerprintConflict))
  {
    HeldUnderIndex(t, id, request);
  }

  /** A new operation carries everything the request said, and starts prepared, ungranted, unleased and unresolved. */
  lemma PrepareInserts(t: Tables, request: PrepareRequest, newId: OpId, now: Time)
    requires Indexed(t) && forall id :: !StoredFor(t, id, request)
    ensures var r := PrepareTx(t, request, newId, now);
      && (r.Ok? <==> !MetadataDiffer(t, request) && newId !in t.ops)
      && (MetadataDiffer(t, request) ==> r == Err(WorkflowMetadataConflict))
      && (r.Ok? ==>
            var t' := r.value.tables;
            && r.value.id == newId && t'.ops.Keys == t.ops.Keys + {newId}
            && (forall j | j in t.ops :: t'.ops[j] == t.ops[j])
            && t'.workflows.Keys == t.workflows.Keys + {request.workflow}
            && (forall w | w in t.workflows :: t'.workflows[w] == t.workflows[w])
            && t'.workflows[request.workflow].strategy == request.strategy &&
              t'.workflows[request.workflow].run == request.run
            && Reflects(t'.ops[newId].row.intent, request, now)
            && Begins(t'.ops[newId], now))
  {
    if (request.workflow, request.key) in t.index {
      HeldUnderIndex(t, t.index[(request.workflow, request.key)], request);
    }
  }

  /** Field by field, what the request asked for. */
  predicate Reflects(intent: Intent, request: PrepareRequest, now: Time) {
    && intent.workflow == request.workflow && intent.key == request.key && intent.target == request.target
    && intent.fingerprint.target == request.target && intent.fingerprint.request == request.fields
    && intent.expected == request.expected && intent.profile == request.profile && intent.createdAt == now
  }

  /** A first version with one event and nothing else on record. */
  predicate Begins(op: Op, now: Time) {
    && op.row.state.Prepared? && op.row.version == 1 && op.row.attemptCount == 1 && !op.row.dispatchAuthorized
    && op.row.preparedAt == now && op.row.confirmedAt.None? && op.row.resolvedAt.None? && op.row.nextReconcileAt.None?
    && op.row.leaseOwner.None? && op.row.leaseToken.None? && op.row.leaseExpires.None?
    && op.receipt.None? && op.attempts == [] && op.observations == [] && op.decisions == []
    && op.log == [Event(IntentPrepared, None, Prepared, 1, Api, IntentPersisted, None)]
  }
}
