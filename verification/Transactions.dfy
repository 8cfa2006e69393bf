/**
 The store's transactions (internal/store) as functions on one operation: its row and the
 rows of the other tables that reference it. Module Postgres proves that the step-by-step
 methods compute exactly these functions; the protocol theorems are proved about them.
 */
module Transactions {
  import opened Domain

  /** The part of an operations row that no transaction updates. */
  datatype Intent = Intent(
    workflow: WorkflowId, key: nat, target: string, fingerprint: Fingerprint,
    expected: Option<Fields>, profile: Profile, createdAt: Time)

  datatype Row = Row(
    intent: Intent,
    state: State,
    attemptCount: nat,
    version: nat,
    dispatchAuthorized: bool,
    preparedAt: Time,
    confirmedAt: Option<Time>,
    resolvedAt: Option<Time>,
    nextReconcileAt: Option<Time>,
    leaseOwner: Option<string>,
    leaseToken: Option<Token>,
    leaseExpires: Option<Time>)

  datatype StoredReceipt = StoredReceipt(serviceReceipt: ReceiptId, payload: Receipt, receivedAt: Time)

  type AttemptNumber = n: nat | n > 0 witness 1

  datatype Attempt = Attempt(
    id: AttemptId, number: AttemptNumber, owner: string,
    finishedAt: Option<Time>, result: Option<Outcome>)

  datatype Source = Api | Worker | Coordinator | Manual

  datatype DecisionKind = Reconcile | Retry | MarkUncertain | CompensateRecorded

  datatype Decision = Decision(
    attempt: Option<AttemptId>, kind: DecisionKind, source: Source, reason: Reason,
    from: State, to: State, version: nat)

  datatype EventKind =
    | IntentPrepared | DispatchGranted | ReceiptConfirmed | RetryStarted
    | ReconciliationRequested | RecoveryClaimed | RecoveryResulted | ManuallyResolved

  datatype Reason =
    | IntentPersisted | SingleSendAuthorized | ReceiptPersisted | LeaseAcquired
    | EffectCompleted | NeverAuthorized | ReplayGuaranteed | VerificationTransient
    | EvidenceContradictory | EvidenceInsufficient
    | Given(text: string)

  datatype Event = Event(
    kind: EventKind, from: Option<State>, to: State, version: nat,
    source: Source, reason: Reason, attempt: Option<AttemptId>)

  datatype Op = Op(
    row: Row,
    receipt: Option<StoredReceipt>,
    attempts: seq<Attempt>,
    observations: seq<(AttemptId, Observation)>,
    decisions: seq<Decision>,
    log: seq<Event>)

  datatype Confirmation = Confirmation(
    version: nat, serviceReceipt: ReceiptId, payload: Receipt, receivedAt: Time)

  datatype RecoveryResult = RecoveryResult(
    token: Token, version: nat, attempt: AttemptId, observation: Observation)

  datatype ManualOutcome =
    | ManuallyCompleted | ManuallyAbsent | CompensationRecorded | OtherManual(name: string)

  /** A row that the claim query returned, with the random token and the attempt UUID drawn for it. */
  datatype Pick = Pick(id: OpId, token: Token, attempt: AttemptId)

  datatype Call =
    | Authorize(version: nat)
    | Confirm(confirmation: Confirmation)
    | BeginRetry(version: nat, reason: string)
    | RequestReconciliation(version: nat, reason: string)
    | Claim(owner: string, lease: Time, grace: Time, token: Token, attempt: AttemptId)
    | Renew(token: Token, duration: Time)
    | Submit(result: RecoveryResult)
    | Resolve(version: nat, outcome: ManualOutcome, reason: string)

  /** A row as Prepare inserts it. */
  function NewOp(intent: Intent, now: Time): Op {
    Op(Row(intent, Prepared, 1, 1, false, now, None, None, None, None, None, None),
       None, [], [], [],
       [Event(IntentPrepared, None, Prepared, 1, Api, IntentPersisted, None)])
  }

  /** The event that the transaction moving `row` to state `to` appends. */
  function NextEvent(row: Row, kind: EventKind, to: State, source: Source, reason: Reason,
                     attempt: Option<AttemptId>): Event {
    Event(kind, Some(row.state), to, row.version + 1, source, reason, attempt)
  }

  // ---- internal/store/dispatch.go

  function AuthorizeTx(op: Op, version: nat): Result<Op> {
    var row := op.row;
    if row.state != Prepared || row.version != version || row.dispatchAuthorized || row.leaseToken.Some? then
      Err(DispatchNotAuthorized)
    else
      Ok(op.(row := row.(dispatchAuthorized := true, version := row.version + 1),
             log := op.log + [NextEvent(row, DispatchGranted, Prepared, Worker, SingleSendAuthorized, None)]))
  }

  // ---- internal/store/postgres.go

  function ConfirmTx(op: Op, c: Confirmation, now: Time): Result<Op> {
    var row := op.row;
    if op.receipt.Some? then
      if op.receipt.value.payload == c.payload && op.receipt.value.serviceReceipt == c.serviceReceipt
      then Ok(op) else Err(ReceiptConflict)
    else if row.state != Prepared then Err(OperationStateConflict)
    else if row.version != c.version then Err(OperationVersionConflict)
    else
      Ok(op.(row := row.(state := Confirmed, version := row.version + 1,
                         confirmedAt := Some(now), resolvedAt := Some(now),
                         leaseOwner := None, leaseToken := None, leaseExpires := None),
             receipt := Some(StoredReceipt(c.serviceReceipt, c.payload, c.receivedAt)),
             log := op.log + [NextEvent(row, ReceiptConfirmed, Confirmed, Api, ReceiptPersisted, None)]))
  }

  // ---- internal/store/recovery.go

  function BeginRetryTx(op: Op, version: nat, reason: string, now: Time): Result<Op> {
    var row := op.row;
    if row.state != Retryable then Err(OperationStateConflict)
    else if row.version != version then Err(OperationVersionConflict)
    else
      Ok(op.(row := row.(dispatchAuthorized := false, state := Prepared,
                         attemptCount := row.attemptCount + 1, version := row.version + 1,
                         preparedAt := now, resolvedAt := None, nextReconcileAt := None),
             log := op.log + [NextEvent(row, RetryStarted, Prepared, Worker, Given(reason), None)]))
  }

  function RequestReconciliationTx(op: Op, version: nat, reason: string, now: Time): Result<Op> {
    var row := op.row;
    if row.state != Prepared && row.state != Uncertain then Err(OperationStateConflict)
    else if row.version != version then Err(OperationVersionConflict)
    else
      Ok(op.(row := row.(version := row.version + 1, nextReconcileAt := Some(now)),
             log := op.log + [NextEvent(row, ReconciliationRequested, row.state, Manual, Given(reason), None)]))
  }

  /** `t <= now`, false when t is NULL. */
  predicate Due(t: Option<Time>, now: Time) {
    t.Some? && t.value <= now
  }

  /** The row conditions of the claim query. */
  predicate Claimable(row: Row, now: Time, grace: Time) {
    && (|| (row.state.Prepared? && (row.preparedAt <= now - grace || Due(row.nextReconcileAt, now)))
        || (row.state.Uncertain? && Due(row.nextReconcileAt, now)))
    && (row.nextReconcileAt.None? || Due(row.nextReconcileAt, now))
    && (row.leaseExpires.None? || Due(row.leaseExpires, now))
  }

  /** coalesce(max(attempt_number), 0). */
  function MaxNumber(attempts: seq<Attempt>): nat {
    if attempts == [] then 0
    else
      var rest := MaxNumber(attempts[..|attempts| - 1]);
      var last := attempts[|attempts| - 1].number;
      if last > rest then last else rest
  }

  /** Position of the attempt with this primary key, or |attempts|. */
  function AttemptIndex(attempts: seq<Attempt>, id: AttemptId): (i: nat)
    ensures i <= |attempts|
    ensures i < |attempts| ==> attempts[i].id == id
    ensures forall j | 0 <= j < i :: attempts[j].id != id
  {
    if attempts == [] then 0
    else if attempts[0].id == id then 0
    else 1 + AttemptIndex(attempts[1..], id)
  }

  function ClaimTx(op: Op, owner: string, lease: Time, grace: Time, token: Token, attempt: AttemptId,
      now: Time): Result<Op> {
    var row := op.row;
    if !Claimable(row, now, grace) then Err(NotSelected)
    else if AttemptIndex(op.attempts, attempt) < |op.attempts| then Err(ConstraintViolated)
    else
      Ok(op.(row := row.(leaseOwner := Some(owner), leaseToken := Some(token),
                         leaseExpires := Some(now + lease), version := row.version + 1),
             attempts := op.attempts + [Attempt(attempt, MaxNumber(op.attempts) + 1, owner, None, None)],
             log := op.log + [NextEvent(row, RecoveryClaimed, row.state, Coordinator, LeaseAcquired, Some(attempt))]))
  }

  /** The lease is held under this token and has not expired. */
  predicate HoldsLease(row: Row, token: Token, now: Time) {
    row.leaseToken == Some(token) && row.leaseExpires.Some? && row.leaseExpires.value > now
  }

  function RenewTx(op: Op, token: Token, duration: Time, now: Time): Result<Op> {
    if !HoldsLease(op.row, token, now) then Err(LeaseLost)
    else Ok(op.(row := op.row.(leaseExpires := Some(now + duration))))
  }

  function Shifted(n: nat): nat {
    if n == 0 then 1 else 2 * Shifted(n - 1)
  }

  /** Milliseconds before the next verification after attempt `number` met a transient error. */
  function Backoff(number: AttemptNumber): Time {
    var delay := 250 * Shifted(number - 1);
    if delay > 10000 then 10000 else delay
  }

  datatype Verdict = Verdict(to: State, reason: Reason, decision: Option<DecisionKind>, delay: Time, resolved: bool)

  /** The decision policy: an observation and the locked row determine the verdict. */
  function Decide(row: Row, number: AttemptNumber, o: Observation): Verdict {
    if o.authoritative && o.outcome.Completed? then
      Verdict(Reconciled, EffectCompleted, Some(Reconcile), 0, true)
    else if !row.dispatchAuthorized && !o.outcome.Contradictory? then
      Verdict(Retryable, NeverAuthorized, Some(Retry), 0, false)
    else if row.intent.profile.IdempotencyOnly? && o.mechanism.IdempotentRepeat? && o.authoritative &&
      o.outcome.Unknown? then
      Verdict(Retryable, ReplayGuaranteed, Some(Retry), 0, false)
    else if o.outcome.TransientError? && number < 5 then
      Verdict(row.state, VerificationTransient, None, Backoff(number), false)
    else if o.outcome.Contradictory? then
      Verdict(Uncertain, EvidenceContradictory, Some(MarkUncertain), 0, true)
    else
      Verdict(Uncertain, EvidenceInsufficient, Some(MarkUncertain), 0, true)
  }

  /** The row after a verdict; the lease is cleared. */
  function Ruled(row: Row, v: Verdict, now: Time): Row {
    row.(state := v.to, version := row.version + 1,
         resolvedAt := if v.resolved then Some(now) else None,
         nextReconcileAt := if v.delay > 0 then Some(now + v.delay) else None,
         leaseOwner := None, leaseToken := None, leaseExpires := None)
  }

  function Finished(attempts: seq<Attempt>, i: nat, outcome: Outcome, now: Time): seq<Attempt>
    requires i < |attempts|
  {
    attempts[i := attempts[i].(finishedAt := Some(now), result := Some(outcome))]
  }

  function DecisionRow(row: Row, v: Verdict, attempt: AttemptId): Option<Decision> {
    if v.decision.None? then None
    else Some(Decision(Some(attempt), v.decision.value, Coordinator, v.reason, row.state, v.to, row.version + 1))
  }

  function SubmitTx(op: Op, r: RecoveryResult, now: Time): Result<Op> {
    var row := op.row;
    var i := AttemptIndex(op.attempts, r.attempt);
    if !ValidObservation(r.observation) then Err(InvalidObservation)
    else if !HoldsLease(row, r.token, now) then Err(LeaseLost)
    else if row.version != r.version then Err(OperationVersionConflict)
    else if i == |op.attempts| || op.attempts[i].finishedAt.Some? then Err(AttemptConflict)
    else
      var v := Decide(row, op.attempts[i].number, r.observation);
      // CHECK (state <> 'reconciled' OR resolved_at IS NOT NULL)
      if v.to.Reconciled? && !v.resolved then Err(ConstraintViolated)
      else
        var d := DecisionRow(row, v, r.attempt);
        Ok(op.(row := Ruled(row, v, now),
               attempts := Finished(op.attempts, i, r.observation.outcome, now),
               observations := op.observations + [(r.attempt, r.observation)],
               decisions := if d.Some? then op.decisions + [d.value] else op.decisions,
               log := op.log + [NextEvent(row, RecoveryResulted, v.to, Coordinator, v.reason, Some(r.attempt))]))
  }

  function ResolveTx(op: Op, version: nat, outcome: ManualOutcome, reason: string, now: Time): Result<Op> {
    var row := op.row;
    if row.state != Uncertain then Err(OperationStateConflict)
    else if row.version != version then Err(OperationVersionConflict)
    else if outcome.OtherManual? then Err(InvalidManualOutcome)
    else
      var to := match outcome
        case ManuallyCompleted => Reconciled
        case ManuallyAbsent => Retryable
        case _ => Uncertain;
      var kind := match outcome
        case ManuallyCompleted => Reconcile
        case ManuallyAbsent => Retry
        case _ => CompensateRecorded;
      Ok(op.(row := row.(state := to, version := row.version + 1,
                         resolvedAt := if to.Reconciled? then Some(now) else None,
                         nextReconcileAt := None),
             decisions := op.decisions + [Decision(None, kind, Manual, Given(reason), row.state, to, row.version + 1)],
             log := op.log + [NextEvent(row, ManuallyResolved, to, Manual, Given(reason), None)]))
  }

  /** One transaction on an existing operation. */
  function Apply(op: Op, now: Time, call: Call): Result<Op> {
    match call
    case Authorize(version) => AuthorizeTx(op, version)
    case Confirm(c) => ConfirmTx(op, c, now)
    case BeginRetry(version, reason) => BeginRetryTx(op, version, reason, now)
    case RequestReconciliation(version, reason) => RequestReconciliationTx(op, version, reason, now)
    case Claim(owner, lease, grace, token, attempt) => ClaimTx(op, owner, lease, grace, token, attempt, now)
    case Renew(token, duration) => RenewTx(op, token, duration, now)
    case Submit(r) => SubmitTx(op, r, now)
    case Resolve(version, outcome, reason) => ResolveTx(op, version, outcome, reason, now)
  }

  /** The operation after the call: a refused transaction rolls back. */
  function After(op: Op, now: Time, call: Call): Op {
    var r := Apply(op, now, call);
    if r.Ok? then r.value else op
  }

  type Db = map<OpId, Op>

  function CallOn(db: Db, id: OpId, now: Time, call: Call): Result<Op> {
    if id in db then Apply(db[id], now, call) else Err(OperationNotFound)
  }

  function DbAfter(db: Db, id: OpId, now: Time, call: Call): Db {
    var r := CallOn(db, id, now, call);
    if r.Ok? then db[id := r.value] else db
  }

  // ---- Prepare: internal/store/postgres.go

  datatype Workflow = Workflow(strategy: Strategy, run: Option<RunId>)

  datatype PrepareRequest = PrepareRequest(
    workflow: WorkflowId, strategy: Strategy, run: Option<RunId>, key: nat, target: string,
    fields: Fields, expected: Option<Fields>, profile: Profile)

  /** `index` is the UNIQUE (workflow_id, logical_key) index of the operations table. */
  datatype Tables = Tables(workflows: map<WorkflowId, Workflow>, index: map<(WorkflowId, nat), OpId>, ops: Db)

  function IntentOf(r: PrepareRequest, now: Time): Intent {
    Intent(r.workflow, r.key, r.target, Fingerprint(r.target, r.fields), r.expected, r.profile, now)
  }

  datatype Prepared = PreparedOp(id: OpId, tables: Tables)

  /** `id` is the fresh UUID; an existing operation with the same fingerprint is returned instead. */
  function PrepareTx(t: Tables, r: PrepareRequest, id: OpId, now: Time): Result<Prepared> {
    var slot := (r.workflow, r.key);
    if r.workflow in t.workflows && t.workflows[r.workflow] != Workflow(r.strategy, r.run) then
      Err(WorkflowMetadataConflict)
    else if slot in t.index && t.index[slot] in t.ops then
      if t.ops[t.index[slot]].row.intent.fingerprint != Fingerprint(r.target, r.fields) then Err(FingerprintConflict)
      else Ok(PreparedOp(t.index[slot], t))
    else if id in t.ops then Err(ConstraintViolated)
    else
      Ok(PreparedOp(id, Tables(
        t.workflows[r.workflow := Workflow(r.strategy, r.run)],
        t.index[slot := id],
        t.ops[id := NewOp(IntentOf(r, now), now)])))
  }

  /** The index lists exactly the operations, each under its own workflow and key. */
  ghost predicate Indexed(t: Tables) {
    && (forall id | id in t.ops ::
          var i := t.ops[id].row.intent;
          i.workflow in t.workflows && (i.workflow, i.key) in t.index && t.index[(i.workflow, i.key)] == id)
    && (forall slot | slot in t.index ::
          t.index[slot] in t.ops &&
            (t.ops[t.index[slot]].row.intent.workflow, t.ops[t.index[slot]].row.intent.key) == slot)
  }
}
