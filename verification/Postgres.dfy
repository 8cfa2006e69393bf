/**
 The operation store (internal/store) as it is written: one class, one field per table, each
 method a transaction that updates the tables statement by statement. Every method is proved
 to compute the corresponding function of module Transactions and to leave the row-write books
 balanced.
 */
module Postgres {
  import opened Domain
  import opened Transactions
  import opened Pagination
  import opened Storage

  /** The columns the API returns. */
  function RowResult(r: Result<Op>): Result<Row> {
    match r
    case Ok(op) => Ok(op.row)
    case Err(e) => Err(e)
  }

  /** A recovery claim as the API returns it; the expiry and the version are the row's. */
  datatype Claimed = Claimed(id: OpId, row: Row, token: Token, attempt: AttemptId)

  function IdsOf(claims: seq<Claimed>): seq<OpId> {
    seq(|claims|, k requires 0 <= k < |claims| => claims[k].id)
  }

  function ClaimOf(p: Pick, owner: string, lease: Time, grace: Time): Call {
    Claim(owner, lease, grace, p.token, p.attempt)
  }

  /** The switch of SubmitRecoveryResult. */
  method Rule(op: Row, number: AttemptNumber, o: Observation) returns (v: Verdict)
    ensures v == Decide(op, number, o)
  {
    hide Shifted;
    var toState, reason, decision, delay, resolved := op.state, VerificationTransient, None, 0, false;
    if o.authoritative && o.outcome == Completed {
      toState, reason, decision, resolved := Reconciled, EffectCompleted, Some(Reconcile), true;
    } else if !op.dispatchAuthorized && o.outcome != Contradictory {
      toState, reason, decision := Retryable, NeverAuthorized, Some(Retry);
    } else if op.intent.profile == IdempotencyOnly && o.mechanism == IdempotentRepeat && o.authoritative &&
      o.outcome == Unknown {
      toState, reason, decision := Retryable, ReplayGuaranteed, Some(Retry);
    } else if o.outcome == TransientError && number < 5 {
      delay := 250 * Shifted(number - 1);
      if delay > 10000 { delay := 10000; }
    } else if o.outcome == Contradictory {
      toState, reason, decision, resolved := Uncertain, EvidenceContradictory, Some(MarkUncertain), true;
    } else {
      toState, reason, decision, resolved := Uncertain, EvidenceInsufficient, Some(MarkUncertain), true;
    }
    v := Verdict(toState, reason, decision, delay, resolved);
  }

  class Postgres {
    var workflows: map<WorkflowId, Workflow>
    var index: map<(WorkflowId, nat), OpId>
    var operations: map<OpId, Row>
    var receipts: map<OpId, StoredReceipt>
    var attempts: map<OpId, seq<Attempt>>
    var observations: map<OpId, seq<(AttemptId, Observation)>>
    var decisions: map<OpId, seq<Decision>>
    var events: seq<(OpId, Event)>
    var written: map<RunId, nat>           // rows inserted or updated, by experiment run
    ghost var renewals: map<RunId, nat>

    function State(): Rows
      reads this
    {
      Rows(workflows, index, operations, receipts, attempts, observations, decisions, events)
    }

    ghost predicate Valid()
      reads this
    {
      Balanced(State(), written, renewals)
    }

    constructor ()
      ensures Valid() && TablesOf(State()) == Tables(map[], map[], map[])
    {
      workflows, index, operations := map[], map[], map[];
      receipts, attempts, observations, decisions := map[], map[], map[], map[];
      events, written, renewals := [], map[], map[];
      new;
      assert forall run: RunId :: OfRun(workflows, run) == {};
    }

    // ---- Single statements

    /** UPDATE operations SET ... WHERE id = id. */
    method Update(id: OpId, row: Row)
      requires id in operations && operations[id].intent.workflow in workflows && row.intent == operations[id].intent
      modifies this`operations, this`written
      ensures State() == old(State()).(operations := old(operations)[id := row])
      ensures written == Bump(old(written), RunOf(old(State()), id))
    {
      operations := operations[id := row];
      written := Bump(written, workflows[row.intent.workflow].run);
    }

    /** INSERT INTO operation_events. */
    method Append(id: OpId, e: Event)
      requires id in operations && operations[id].intent.workflow in workflows
      modifies this`events, this`written
      ensures State() == old(State()).(events := old(events) + [(id, e)])
      ensures written == Bump(old(written), RunOf(State(), id))
    {
      events := events + [(id, e)];
      written := Bump(written, workflows[operations[id].intent.workflow].run);
    }

    /** INSERT INTO receipts. */
    method InsertReceipt(id: OpId, receipt: StoredReceipt)
      requires id in operations && operations[id].intent.workflow in workflows
      modifies this`receipts, this`written
      ensures State() == old(State()).(receipts := old(receipts)[id := receipt])
      ensures written == Bump(old(written), RunOf(State(), id))
    {
      receipts := receipts[id := receipt];
      written := Bump(written, workflows[operations[id].intent.workflow].run);
    }

    /** INSERT INTO recovery_decisions. */
    method InsertDecision(id: OpId, d: Decision)
      requires id in operations && operations[id].intent.workflow in workflows
      modifies this`decisions, this`written
      ensures State() == old(State()).(decisions := old(decisions)[id := old(Get(decisions, id)) + [d]])
      ensures written == Bump(old(written), RunOf(State(), id))
    {
      decisions := decisions[id := Get(decisions, id) + [d]];
      written := Bump(written, workflows[operations[id].intent.workflow].run);
    }

    /** The same, unless there is no decision. */
    method InsertDecisions(id: OpId, d: Option<Decision>)
      requires id in operations && operations[id].intent.workflow in workflows
      modifies this`decisions, this`written
      ensures State() == old(State()).(decisions := if d.Some?
        then old(decisions)[id := old(Get(decisions, id)) + [d.value]] else old(decisions))
      ensures written == Bumps(old(written), RunOf(State(), id), if d.Some? then 1 else 0)
    {
      if d.Some? { InsertDecision(id, d.value); }
    }

    /** INSERT INTO observations. */
    method InsertObservation(id: OpId, attempt: AttemptId, o: Observation)
      requires id in operations && operations[id].intent.workflow in workflows
      modifies this`observations, this`written
      ensures State() == old(State()).(observations := old(observations)[id := old(Get(observations, id)) +
        [(attempt, o)]])
      ensures written == Bump(old(written), RunOf(State(), id))
    {
      observations := observations[id := Get(observations, id) + [(attempt, o)]];
      written := Bump(written, workflows[operations[id].intent.workflow].run);
    }

    /** INSERT INTO reconciliation_attempts. */
    method InsertAttempt(id: OpId, a: Attempt)
      requires id in operations && operations[id].intent.workflow in workflows
      modifies this`attempts, this`written
      ensures State() == old(State()).(attempts := old(attempts)[id := old(Get(attempts, id)) + [a]])
      ensures written == Bump(old(written), RunOf(State(), id))
    {
      attempts := attempts[id := Get(attempts, id) + [a]];
      written := Bump(written, workflows[operations[id].intent.workflow].run);
    }

    /** UPDATE reconciliation_attempts SET finished_at = now(), result_class = outcome. */
    method FinishAttempt(id: OpId, i: nat, outcome: Outcome, now: Time)
      requires id in operations && operations[id].intent.workflow in workflows && i < |Get(attempts, id)|
      modifies this`attempts, this`written
      ensures State() == old(State()).(
        attempts := old(attempts)[id := Finished(old(Get(attempts, id)), i, outcome, now)])
      ensures written == Bump(old(written), RunOf(State(), id))
    {
      var mine := Get(attempts, id);
      attempts := attempts[id := mine[i := mine[i].(finishedAt := Some(now), result := Some(outcome))]];
      written := Bump(written, workflows[operations[id].intent.workflow].run);
    }

    // ---- Transactions

    method AuthorizeDispatch(id: OpId, version: nat, now: Time) returns (r: Result<Row>)
      requires Valid()
      modifies this`operations, this`events, this`written
      ensures Valid()
      ensures r == RowResult(CallOn(old(DbOf(State())), id, now, Authorize(version)))
      ensures DbOf(State()) == DbAfter(old(DbOf(State())), id, now, Authorize(version))
    {
      hide Linked, Balanced, Bump, DbOf, CallOn, DbAfter, OpOf, Apply;
      ghost var before := State();
      Lookup(before, id, now, Authorize(version));
      if id !in operations { return Err(OperationNotFound); }
      RowOf(before, id, written, renewals);
      AuthorizeIs(OpOf(before, id), now, version);
      var op := operations[id];
      var claimed := op.leaseToken.Some?;
      if op.state != Prepared || op.version != version || op.dispatchAuthorized || claimed {
        return Err(DispatchNotAuthorized);
      }
      Update(id, op.(dispatchAuthorized := true, version := op.version + 1));
      Append(id, Event(DispatchGranted, Some(Prepared), Prepared, version + 1, Worker, SingleSendAuthorized, None));
      RowAndEventWritten(before, State(), id, old(written), written, renewals, now, Authorize(version));
      return Ok(operations[id]);
    }

    method BeginRetry(id: OpId, version: nat, reason: string, now: Time) returns (r: Result<Row>)
      requires Valid()
      modifies this`operations, this`events, this`written
      ensures Valid()
      ensures r == RowResult(CallOn(old(DbOf(State())), id, now, Call.BeginRetry(version, reason)))
      ensures DbOf(State()) == DbAfter(old(DbOf(State())), id, now, Call.BeginRetry(version, reason))
    {
      hide Linked, Balanced, Bump, DbOf, CallOn, DbAfter, OpOf, Apply;
      ghost var before := State();
      Lookup(before, id, now, Call.BeginRetry(version, reason));
      if id !in operations { return Err(OperationNotFound); }
      RowOf(before, id, written, renewals);
      BeginRetryIs(OpOf(before, id), now, version, reason);
      var op := operations[id];
      if op.state != Retryable { return Err(OperationStateConflict); }
      if op.version != version { return Err(OperationVersionConflict); }
      var newVersion := op.version + 1;
      Update(id, op.(dispatchAuthorized := false, state := Prepared, attemptCount := op.attemptCount + 1,
                     version := newVersion, preparedAt := now, resolvedAt := None, nextReconcileAt := None));
      Append(id, Event(RetryStarted, Some(Retryable), Prepared, newVersion, Worker, Given(reason), None));
      RowAndEventWritten(before, State(), id, old(written), written, renewals, now, Call.BeginRetry(version, reason));
      return Ok(operations[id]);
    }

    method RequestReconciliation(id: OpId, version: nat, reason: string, now: Time) returns (r: Result<Row>)
      requires Valid()
      modifies this`operations, this`events, this`written
      ensures Valid()
      ensures r == RowResult(CallOn(old(DbOf(State())), id, now, Call.RequestReconciliation(version, reason)))
      ensures DbOf(State()) == DbAfter(old(DbOf(State())), id, now, Call.RequestReconciliation(version, reason))
    {
      hide Linked, Balanced, Bump, DbOf, CallOn, DbAfter, OpOf, Apply;
      ghost var before := State();
      Lookup(before, id, now, Call.RequestReconciliation(version, reason));
      if id !in operations { return Err(OperationNotFound); }
      RowOf(before, id, written, renewals);
      RequestReconciliationIs(OpOf(before, id), now, version, reason);
      var op := operations[id];
      if op.state != Prepared && op.state != Uncertain { return Err(OperationStateConflict); }
      if op.version != version { return Err(OperationVersionConflict); }
      var newVersion := op.version + 1;
      Update(id, op.(version := newVersion, nextReconcileAt := Some(now)));
      Append(id, Event(ReconciliationRequested, Some(op.state), op.state, newVersion, Manual, Given(reason), None));
      RowAndEventWritten(before, State(), id, old(written), written, renewals, now,
        Call.RequestReconciliation(version, reason));
      return Ok(operations[id]);
    }

    method Confirm(id: OpId, c: Confirmation, now: Time) returns (r: Result<Row>)
      requires Valid()
      modifies this`receipts, this`operations, this`events, this`written
      ensures Valid()
      ensures r == RowResult(CallOn(old(DbOf(State())), id, now, Call.Confirm(c)))
      ensures DbOf(State()) == DbAfter(old(DbOf(State())), id, now, Call.Confirm(c))
    {
      hide Linked, Balanced, Bump, DbOf, CallOn, DbAfter, OpOf, Apply;
      ghost var before := State();
      Lookup(before, id, now, Call.Confirm(c));
      if id !in operations { return Err(OperationNotFound); }
      RowOf(before, id, written, renewals);
      ConfirmIs(OpOf(before, id), now, c);
      var op := operations[id];
      if id in receipts {
        if receipts[id].payload != c.payload ||
          receipts[id].serviceReceipt != c.serviceReceipt { return Err(ReceiptConflict); }
        return Ok(op);
      }
      if op.state != Prepared { return Err(OperationStateConflict); }
      if op.version != c.version { return Err(OperationVersionConflict); }
      var receipt := StoredReceipt(c.serviceReceipt, c.payload, c.receivedAt);
      InsertReceipt(id, receipt);
      Update(id, op.(state := Confirmed, version := op.version + 1, confirmedAt := Some(now), resolvedAt := Some(now),
                     leaseOwner := None, leaseToken := None, leaseExpires := None));
      var newVersion := operations[id].version;
      Append(id, Event(ReceiptConfirmed, Some(Prepared), Confirmed, newVersion, Api, ReceiptPersisted, None));
      ReceiptWritten(before, State(), id, receipt, old(written), written, renewals, now, Call.Confirm(c));
      return Ok(operations[id]);
    }

    method ManualResolve(id: OpId, version: nat, outcome: ManualOutcome, reason: string, now: Time)
        returns (r: Result<Row>)
      requires Valid()
      modifies this`operations, this`decisions, this`events, this`written
      ensures Valid()
      ensures r == RowResult(CallOn(old(DbOf(State())), id, now, Resolve(version, outcome, reason)))
      ensures DbOf(State()) == DbAfter(old(DbOf(State())), id, now, Resolve(version, outcome, reason))
    {
      hide Linked, Balanced, Bump, DbOf, CallOn, DbAfter, OpOf, Apply;
      ghost var before := State();
      Lookup(before, id, now, Resolve(version, outcome, reason));
      if id !in operations { return Err(OperationNotFound); }
      RowOf(before, id, written, renewals);
      ResolveIs(OpOf(before, id), now, version, outcome, reason);
      var op := operations[id];
      if op.state != Uncertain { return Err(OperationStateConflict); }
      if op.version != version { return Err(OperationVersionConflict); }
      var toState := op.state;
      var decision := CompensateRecorded;
      match outcome {
        case ManuallyCompleted => toState := Reconciled; decision := Reconcile;
        case ManuallyAbsent => toState := Retryable; decision := Retry;
        case CompensationRecorded =>
        case OtherManual(_) => return Err(InvalidManualOutcome);
      }
      var newVersion := op.version + 1;
      Update(id, op.(state := toState, version := newVersion,
                     resolvedAt := if toState.Reconciled? then Some(now) else None, nextReconcileAt := None));
      var d := Decision(None, decision, Manual, Given(reason), op.state, toState, newVersion);
      InsertDecision(id, d);
      Append(id, Event(ManuallyResolved, Some(op.state), toState, newVersion, Manual, Given(reason), None));
      DecisionWritten(before, State(), id, d, old(written), written, renewals, now, Resolve(version, outcome, reason));
      return Ok(operations[id]);
    }

    method RenewClaim(id: OpId, token: Token, duration: Time, now: Time) returns (r: Result<Row>)
      requires Valid()
      modifies this`operations, this`written, this`renewals
      ensures Valid()
      ensures r == if id in old(operations)
        then RowResult(CallOn(old(DbOf(State())), id, now, Renew(token, duration))) else Err(LeaseLost)
      ensures DbOf(State()) == DbAfter(old(DbOf(State())), id, now, Renew(token, duration))
    {
      hide Linked, Balanced, Bump, DbOf, CallOn, DbAfter, OpOf, Apply;
      ghost var before := State();
      Lookup(before, id, now, Renew(token, duration));
      if id !in operations { return Err(LeaseLost); }
      RowOf(before, id, written, renewals);
      RenewIs(OpOf(before, id), now, token, duration);
      if !HoldsLease(operations[id], token, now) { return Err(LeaseLost); }
      Update(id, operations[id].(leaseExpires := Some(now + duration)));
      renewals := Bump(renewals, RunOf(before, id));
      Renewed(before, State(), id, old(written), old(renewals), token, duration, now);
      return Ok(operations[id]);
    }

    method SubmitRecoveryResult(id: OpId, result: RecoveryResult, now: Time) returns (r: Result<Row>)
      requires Valid()
      modifies this`observations, this`operations, this`attempts, this`decisions, this`events, this`written
      ensures Valid()
      ensures r == if !ValidObservation(result.observation) then Err(InvalidObservation)
                   else RowResult(CallOn(old(DbOf(State())), id, now, Submit(result)))
      ensures DbOf(State()) == DbAfter(old(DbOf(State())), id, now, Submit(result))
    {
      hide Linked, Balanced, Bump, DbOf, CallOn, DbAfter, OpOf, Apply, Decide, AttemptIndex;
      ghost var before := State();
      Lookup(before, id, now, Submit(result));
      if id in operations {
        DbOfRow(before, id);
        RowOf(before, id, written, renewals);
        SubmitIs(OpOf(before, id), now, result);
      }
      if !ValidObservation(result.observation) { return Err(InvalidObservation); }
      if id !in operations { return Err(OperationNotFound); }
      var op := operations[id];
      if op.leaseToken != Some(result.token) || op.leaseExpires.None? ||
        op.leaseExpires.value <= now { return Err(LeaseLost); }
      if op.version != result.version { return Err(OperationVersionConflict); }
      var mine := Get(attempts, id);
      var i := AttemptIndex(mine, result.attempt);
      if i == |mine| || mine[i].finishedAt.Some? { return Err(AttemptConflict); }
      var verdict := Rule(op, mine[i].number, result.observation);
      if verdict.to.Reconciled? && !verdict.resolved { return Err(ConstraintViolated); }
      r := StoreVerdict(id, result, i, verdict, now);
    }

    /** The statements of an accepted result before its decision: observation, operation, attempt. */
    method StoreFindings(id: OpId, result: RecoveryResult, i: nat, verdict: Verdict, now: Time)
      requires id in operations && operations[id].intent.workflow in workflows && i < |Get(attempts, id)|
      modifies this`observations, this`operations, this`attempts, this`written
      ensures State() == old(State()).(
        observations := old(observations)[id := old(Get(observations, id)) + [(result.attempt, result.observation)]],
        operations := old(operations)[id := Ruled(old(operations[id]), verdict, now)],
        attempts := old(attempts)[id := Finished(old(Get(attempts, id)), i, result.observation.outcome, now)])
      ensures var run := RunOf(old(State()), id); written == Bump(Bump(Bump(old(written), run), run), run)
    {
      hide Bump, Finished;
      InsertObservation(id, result.attempt, result.observation);
      var op := operations[id];
      Update(id, op.(state := verdict.to, version := op.version + 1,
                     resolvedAt := if verdict.resolved then Some(now) else None,
                     nextReconcileAt := if verdict.delay > 0 then Some(now + verdict.delay) else None,
                     leaseOwner := None, leaseToken := None, leaseExpires := None));
      FinishAttempt(id, i, result.observation.outcome, now);
    }

    /** The writing half of SubmitRecoveryResult. */
    method StoreVerdict(id: OpId, result: RecoveryResult, i: nat, verdict: Verdict, now: Time) returns (r: Result<Row>)
      requires Valid() && id in operations && operations[id].intent.workflow in workflows
      requires SubmitTx(OpOf(State(), id), result, now).Ok?
      requires i == AttemptIndex(Get(attempts, id), result.attempt) < |Get(attempts, id)|
      requires verdict == Decide(operations[id], Get(attempts, id)[i].number, result.observation)
      modifies this`observations, this`operations, this`attempts, this`decisions, this`events, this`written
      ensures Valid()
      ensures r == RowResult(CallOn(old(DbOf(State())), id, now, Submit(result)))
      ensures DbOf(State()) == DbAfter(old(DbOf(State())), id, now, Submit(result))
    {
      hide Linked, Balanced, Bump, Bumps, DbOf, CallOn, DbAfter, OpOf, Apply, Decide, AttemptIndex, SubmitTx, Finished;
      ghost var before := State();
      var op := operations[id];
      StoreFindings(id, result, i, verdict, now);
      var newVersion := op.version + 1;
      InsertDecisions(id, DecisionRow(op, verdict, result.attempt));
      Append(id, Event(RecoveryResulted, Some(op.state), verdict.to, newVersion, Coordinator, verdict.reason,
        Some(result.attempt)));
      ResultWritten(before, State(), id, result, i, verdict, old(written), written, renewals, now);
      return Ok(operations[id]);
    }

    /** One iteration of the claim loop. */
    method ClaimRow(id: OpId, owner: string, lease: Time, token: Token, attempt: AttemptId, now: Time,
        ghost grace: Time) returns (c: Claimed)
      requires Valid() && CallOn(DbOf(State()), id, now, Claim(owner, lease, grace, token, attempt)).Ok?
      modifies this`operations, this`attempts, this`events, this`written
      ensures Valid()
      ensures DbOf(State()) == DbAfter(old(DbOf(State())), id, now, Claim(owner, lease, grace, token, attempt))
      ensures id in operations && c == Claimed(id, operations[id], token, attempt)
    {
      hide Linked, Balanced, Bump, Bumps, DbOf, DbAfter, OpOf, Apply, MaxNumber, AttemptIndex, Claimable;
      ghost var before := State();
      DbOfRow(before, id);
      ClaimIs(OpOf(before, id), now, owner, lease, grace, token, attempt);
      RowOf(before, id, written, renewals);
      BumpsUnrolled(written, RunOf(before, id));
      var op := operations[id];
      var number := MaxNumber(Get(attempts, id)) + 1;
      Update(id, op.(leaseOwner := Some(owner), leaseToken := Some(token), leaseExpires := Some(now + lease),
        version := op.version + 1));
      InsertAttempt(id, Attempt(attempt, number, owner, None, None));
      Append(id, Event(RecoveryClaimed, Some(op.state), op.state, operations[id].version, Coordinator, LeaseAcquired,
        Some(attempt)));
      ClaimWritten(before, State(), id, owner, lease, grace, token, attempt, old(written), written, renewals, now);
      c := Claimed(id, operations[id], token, attempt);
    }

    /** The loop over the rows that the query returned. */
    method ClaimRows(owner: string, lease: Time, grace: Time, picked: seq<Pick>, now: Time)
        returns (claims: seq<Claimed>)
      requires Valid()
      requires forall j, k | 0 <= j < k < |picked| :: picked[j].id != picked[k].id
      requires forall k | 0 <= k < |picked| ::
        CallOn(DbOf(State()), picked[k].id, now, ClaimOf(picked[k], owner, lease, grace)).Ok?
      modifies this`operations, this`attempts, this`events, this`written
      ensures Valid()
      ensures DbOf(State()).Keys == old(DbOf(State())).Keys
      ensures forall id | id in old(DbOf(State())) && (forall k | 0 <= k < |picked| :: picked[k].id != id) ::
        DbOf(State())[id] == old(DbOf(State()))[id]
      ensures forall k | 0 <= k < |picked| ::
        picked[k].id in DbOf(State()) &&
        CallOn(old(DbOf(State())), picked[k].id, now, ClaimOf(picked[k], owner, lease, grace)) ==
          Ok(DbOf(State())[picked[k].id])
      ensures |claims| == |picked|
      ensures forall k | 0 <= k < |picked| ::
        picked[k].id in operations &&
          claims[k] == Claimed(picked[k].id, operations[picked[k].id], picked[k].token, picked[k].attempt)
    {
      hide Balanced, DbOf, Apply, ClaimTx;
      claims := [];
      for n := 0 to |picked|
        invariant Valid() && |claims| == n
        invariant DbOf(State()).Keys == old(DbOf(State())).Keys
        invariant forall id | id in old(DbOf(State())) && (forall k | 0 <= k < n :: picked[k].id != id) ::
          DbOf(State())[id] == old(DbOf(State()))[id]
        invariant forall k | 0 <= k < n ::
          picked[k].id in DbOf(State()) &&
          CallOn(old(DbOf(State())), picked[k].id, now, ClaimOf(picked[k], owner, lease, grace)) ==
            Ok(DbOf(State())[picked[k].id])
        invariant forall k | 0 <= k < n ::
          picked[k].id in operations &&
            claims[k] == Claimed(picked[k].id, operations[picked[k].id], picked[k].token, picked[k].attempt)
      {
        var p := picked[n];
        ghost var before := State();
        var c := ClaimRow(p.id, owner, lease, p.token, p.attempt, now, grace);
        claims := claims + [c];
        forall k | 0 <= k < n ensures picked[k].id in operations &&
          operations[picked[k].id] == before.operations[picked[k].id] {
          DbOfRow(before, picked[k].id);
          DbOfRow(State(), picked[k].id);
        }
      }
    }

    /** SELECT id ... WHERE ... ORDER BY ... FOR UPDATE SKIP LOCKED LIMIT limit; `order` is the table in that order. */
    method SelectClaimable(q: ClaimQuery, order: seq<OpId>, limit: nat, now: Time) returns (ids: seq<OpId>)
      requires InClaimOrder(State(), order)
      ensures TakesFirst(State(), q, order, limit, now, ids)
    {
      hide TakesFirst, InClaimOrder, Selectable, State;
      var rows := State();
      var p := (id: OpId) => Selectable(rows, q, id, now);
      ids := [];
      var n := 0;
      while n < |order| && |ids| < limit
        invariant n <= |order| && |ids| <= limit && ids == Keep(order[..n], p)
      {
        assert order[..n + 1][..n] == order[..n];
        if p(order[n]) { ids := ids + [order[n]]; }
        n := n + 1;
      }
      KeepPrefix(order[..n], order[n..], p);
      assert order == order[..n] + order[n..];
      assert ids == FirstSelectable(rows, q, order, limit, now);
      SelectedFirst(rows, q, order, limit, now);
    }

    /**
     ClaimRecoveryForWorkflow: the first `limit` selectable rows in claim order, each claimed with the
     token and attempt UUID drawn for it; every other operation stays as it is.
     */
    method ClaimRecovery(q: ClaimQuery, owner: string, lease: Time, order: seq<OpId>, limit: nat,
        drawn: seq<(Token, AttemptId)>, now: Time)
      returns (claims: seq<Claimed>)
      requires Valid() && InClaimOrder(State(), order) && Drawn(State(), drawn) && |drawn| >= limit
      modifies this`operations, this`attempts, this`events, this`written
      ensures Valid()
      ensures TakesFirst(old(State()), q, order, limit, now, IdsOf(claims))
      ensures DbOf(State()).Keys == old(DbOf(State())).Keys
      ensures forall id | id in old(DbOf(State())) && id !in IdsOf(claims) ::
        DbOf(State())[id] == old(DbOf(State()))[id]
      ensures forall k | 0 <= k < |claims| ::
        && claims[k].id in operations && claims[k].row == operations[claims[k].id] && claims[k].id in DbOf(State())
        && k < |drawn| && (claims[k].token, claims[k].attempt) == drawn[k]
        && CallOn(old(DbOf(State())), claims[k].id, now, Claim(owner, lease, q.grace, drawn[k].0, drawn[k].1)) ==
             Ok(DbOf(State())[claims[k].id])
    {
      hide Balanced, DbOf, CallOn;
      var ids := SelectClaimable(q, order, limit, now);
      assert |ids| <= limit && forall k | 0 <= k < |ids| :: Selectable(State(), q, ids[k], now);
      var picked := seq(|ids|, k requires 0 <= k < |ids| => Pick(ids[k], drawn[k].0, drawn[k].1));
      forall k | 0 <= k < |picked|
        ensures CallOn(DbOf(State()), picked[k].id, now, ClaimOf(picked[k], owner, lease, q.grace)).Ok? {
        SelectableIsClaimed(State(), q, ids[k], owner, lease, drawn, k, now);
      }
      claims := ClaimRows(owner, lease, q.grace, picked, now);
      assert forall k | 0 <= k < |ids| :: picked[k].id == ids[k];
      assert IdsOf(claims) == ids;
    }

    /** INSERT INTO workflows ... ON CONFLICT DO NOTHING, then compare the stored row with the request. */
    method EnsureWorkflow(request: PrepareRequest) returns (same: bool)
      requires Valid()
      modifies this`workflows, this`written
      ensures Valid()
      ensures same <==> SameMetadata(old(State()), request)
      ensures workflows == if same then old(workflows)[request.workflow := Workflow(request.strategy, request.run)]
        else old(workflows)
      ensures !same || request.workflow in old(workflows) ==> workflows == old(workflows) && written == old(written)
    {
      hide Balanced, Bump;
      if request.workflow !in workflows {
        WorkflowInserted(State(), request.workflow, Workflow(request.strategy, request.run), written, renewals);
        workflows := workflows[request.workflow := Workflow(request.strategy, request.run)];
        written := Bump(written, request.run);
      }
      var flow := workflows[request.workflow];
      same := flow.strategy == request.strategy && flow.run == request.run;
      assert same ==> workflows == workflows[request.workflow := flow];
    }

    /** INSERT INTO operations, INSERT INTO operation_events. */
    method InsertOperation(intent: Intent, newId: OpId, now: Time)
      requires Valid()
      requires intent.workflow in workflows && (intent.workflow, intent.key) !in index && newId !in operations
      modifies this`index, this`operations, this`events, this`written
      ensures Valid() && newId in operations && operations[newId] == NewOp(intent, now).row
      ensures index == old(index)[(intent.workflow, intent.key) := newId]
      ensures DbOf(State()) == old(DbOf(State()))[newId := NewOp(intent, now)]
    {
      hide Balanced, Bump, DbOf, NewOp;
      NewOpLog(intent, now);
      index := index[(intent.workflow, intent.key) := newId];
      operations := operations[newId := NewOp(intent, now).row];
      written := Bump(written, workflows[intent.workflow].run);
      events := events + [(newId, Event(IntentPrepared, None, Prepared, 1, Api, IntentPersisted, None))];
      written := Bump(written, workflows[intent.workflow].run);
      OperationStored(old(State()), State(), newId, intent, now, old(written), renewals);
    }

    /** `newId` is the fresh UUID. The boolean says whether an operation was created. */
    method Prepare(request: PrepareRequest, newId: OpId, now: Time) returns (r: Result<(Row, bool)>)
      requires Valid()
      modifies this`workflows, this`index, this`operations, this`events, this`written
      ensures Valid()
      ensures
        var done := PrepareTx(old(TablesOf(State())), request, newId, now);
        if done.Ok? then
          && TablesOf(State()) == done.value.tables && done.value.id in operations
          && r == Ok((operations[done.value.id], done.value.id !in old(operations)))
        else
          r == Err(done.error) && State() == old(State()) && written == old(written)
    {
      hide Balanced, DbOf, NewOp, PrepareTx, OpOf, SameMetadata;
      ghost var before := State();
      PrepareIs(before, request, newId, now, written, renewals);
      var saved, savedWritten := workflows, written;
      var same := EnsureWorkflow(request);
      SameOperations(before, State());
      if !same { return Err(WorkflowMetadataConflict); }
      var slot := (request.workflow, request.key);
      if slot in index {
        var existing := index[slot];
        if operations[existing].intent.fingerprint != Fingerprint(request.target, request.fields) {
          return Err(FingerprintConflict);
        }
        return Ok((operations[existing], false));
      }
      if newId in operations {
        workflows, written := saved, savedWritten;
        return Err(ConstraintViolated);
      }
      InsertOperation(IntentOf(request, now), newId, now);
      return Ok((operations[newId], true));
    }
  }
}
