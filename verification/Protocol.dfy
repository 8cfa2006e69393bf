/**
 The composed system: workflow processes running Worker.Execute step after step
 (internal/benchmark/child.go, internal/workflow/worker.go), coordinators
 (internal/recovery/coordinator.go), the operation store and the email service, interleaved in
 any order. One action is one atomic transaction, one reply received, or one local decision.

 Faults are actions that do not happen, or happen late. A crash is a process that takes no
 further step, or that is started again. A lost reply is a StoreCall executed for nobody. A
 request overtaken by its caller's timeout is a Late action. An accepted email may be
 delivered at any later time or never. A coordinator may verify a claim at any time, any number
 of times, and submit any of its results at any time.
 */
module Protocol {
  import opened Domain
  import opened Transactions
  import opened Ledger
  import opened Verifier

  /** A worker's local variable op: the operation as some earlier reply showed it. */
  datatype Copy = Copy(id: OpId, op: Op)

  datatype Pc =
    | Preparing
    | Looping(copy: Copy)                   // top of the for loop in Execute
    | Sending(copy: Copy)                   // holds a dispatch grant
    | Awaiting(copy: Copy, request: nat)    // the email is with the service
    | Confirming(copy: Copy, current: Op, receipt: Receipt, tries: nat)   // current is confirm's own op
    | Polling(copy: Copy)                   // about to re-read the operation
    | Stopped                               // ErrUncertain ends the process
    | Finished

  /** A child process: its steps, the step it is executing, and where it is in Execute. */
  datatype Process = Process(plan: seq<PrepareRequest>, step: nat, pc: Pc)

  datatype RecoveryClaim = RecoveryClaim(id: OpId, op: Op, token: Token, attempt: AttemptId)

  datatype Verified = Verified(claim: RecoveryClaim, observation: Observation)

  datatype Sys = Sys(
    now: Time,
    service: Profile,
    tables: Tables,
    ledger: Ledger,
    processes: map<nat, Process>,
    wire: map<nat, Request>,              // emails accepted or in transit, not yet committed
    sent: nat,                            // emails handed to the network so far
    replies: map<nat, Receipt>,           // 201 replies, by request number
    prepares: set<PrepareRequest>,        // prepare requests that may still arrive
    confirms: set<(OpId, Confirmation)>,  // confirmations that may still arrive
    claims: set<RecoveryClaim>,           // claims handed to coordinators
    verified: set<Verified>,              // results that coordinators may submit
    acknowledged: set<OpId>)              // operations for which Execute returned without error

  function Init(service: Profile): Sys {
    Sys(0, service, Tables(map[], map[], map[]), EMPTY, map[], map[], 0, map[], {}, {}, {}, {}, {})
  }

  datatype Action =
    | Tick(elapsed: nat)
    | Start(p: nat, plan: seq<PrepareRequest>)
    | IssuePrepare(p: nat)
    | LatePrepare(request: PrepareRequest, id: OpId)
    | Prepare(p: nat, id: OpId)
    | Acknowledge(p: nat)
    | StopUncertain(p: nat)
    | Retry(p: nat)
    | Grant(p: nat)
    | Send(p: nat)
    | Deliver(n: nat, id: ReceiptId)
    | Receive(p: nat)
    | IssueConfirm(p: nat)
    | LateConfirm(id: OpId, confirmation: Confirmation)
    | ConfirmReceipt(p: nat)
    | Reread(p: nat)
    | GiveUp(p: nat)
    | Poll(p: nat, answered: bool)
    | StoreCall(id: OpId, call: Call)
    | ClaimFor(id: OpId, owner: string, lease: Time, grace: Time, token: Token, attempt: AttemptId)
    | VerifyClaim(claim: RecoveryClaim, network: Network)
    | SubmitResult(result: Verified)

  /** The step is worked on and Execute is at this point. */
  predicate Runs(s: Sys, p: nat) {
    p in s.processes && s.processes[p].step < |s.processes[p].plan|
  }

  function Move(s: Sys, p: nat, pc: Pc): Sys
    requires p in s.processes
  {
    s.(processes := s.processes[p := s.processes[p].(pc := pc)])
  }

  /** Execute returned an error: the child loop starts over at the first step. */
  function Fail(s: Sys, p: nat): Sys
    requires p in s.processes
  {
    s.(processes := s.processes[p := Process(s.processes[p].plan, 0, Preparing)])
  }

  /** Execute returned without error for operation `id`: on to the next step. */
  function Done(s: Sys, p: nat, id: OpId): Sys
    requires p in s.processes
  {
    var q := s.processes[p];
    s.(acknowledged := s.acknowledged + {id},
       processes := s.processes[p := Process(q.plan, q.step + 1, if q.step + 1 < |q.plan| then Preparing
         else Finished)])
  }

  function Store(s: Sys, id: OpId, call: Call): Sys {
    s.(tables := s.tables.(ops := DbAfter(s.tables.ops, id, s.now, call)))
  }

  function Current(s: Sys, id: OpId): Copy
    requires id in s.tables.ops
  {
    Copy(id, s.tables.ops[id])
  }

  function ConfirmationOf(op: Op, receipt: Receipt): Confirmation {
    Confirmation(op.row.version, receipt.id, receipt, receipt.committedAt)
  }

  /** The email request Worker.send builds: keyed by the operation ID only under idempotency_only. */
  function RequestOf(copy: Copy, fields: Fields): Request {
    Request(copy.id, if copy.op.row.intent.profile.IdempotencyOnly? then Some(copy.id) else None, fields)
  }

  function ResultOf(v: Verified): RecoveryResult {
    RecoveryResult(v.claim.token, v.claim.op.row.version, v.claim.attempt, v.observation)
  }

  // ---- Worker.Execute, one switch case or reply at a time

  function DoPrepare(s: Sys, p: nat, id: OpId): Sys
    requires Runs(s, p)
  {
    var q := s.processes[p];
    var r := PrepareTx(s.tables, q.plan[q.step], id, s.now);
    if r.Err? then Fail(s, p)
    else
      var s' := s.(tables := r.value.tables);
      if r.value.id in s'.tables.ops then Move(s', p, Looping(Current(s', r.value.id))) else Fail(s', p)
  }

  function DoRetry(s: Sys, p: nat, c: Copy): Sys
    requires Runs(s, p)
  {
    var call := BeginRetry(c.op.row.version, "safe_recovery_retry");
    var r := CallOn(s.tables.ops, c.id, s.now, call);
    if r.Ok? then Move(Store(s, c.id, call), p, Polling(Copy(c.id, r.value))) else Fail(s, p)
  }

  function DoGrant(s: Sys, p: nat, c: Copy): Sys
    requires Runs(s, p)
  {
    var call := Authorize(c.op.row.version);
    var r := CallOn(s.tables.ops, c.id, s.now, call);
    if r.Ok? then Move(Store(s, c.id, call), p, Sending(Copy(c.id, r.value))) else Move(s, p, Polling(c))
  }

  function DoSend(s: Sys, p: nat, c: Copy): Sys
    requires Runs(s, p)
  {
    var request := RequestOf(c, s.processes[p].plan[s.processes[p].step].fields);
    Move(s.(wire := s.wire[s.sent := request], sent := s.sent + 1), p, Awaiting(c, s.sent))
  }

  function DoConfirm(s: Sys, p: nat, id: OpId, current: Op, receipt: Receipt): Sys
    requires Runs(s, p)
  {
    var call := Call.Confirm(ConfirmationOf(current, receipt));
    if CallOn(s.tables.ops, id, s.now, call).Ok? then Done(Store(s, id, call), p, id) else s
  }

  /** Worker.confirm after a failed attempt: decide by the operation as it is now. */
  function DoReread(s: Sys, p: nat, granted: Copy, receipt: Receipt, tries: nat): Sys
    requires Runs(s, p)
  {
    if granted.id !in s.tables.ops then Move(s, p, Polling(granted))
    else
      var op := s.tables.ops[granted.id];
      match op.row.state
      case Confirmed =>
        if op.receipt.Some? && op.receipt.value.serviceReceipt == receipt.id then Done(s, p, granted.id)
        else Move(s, p, Polling(granted))
      case Reconciled => Done(s, p, granted.id)
      case Prepared =>
        if tries + 1 < 5 then Move(s, p, Confirming(granted, op, receipt, tries + 1))
        else Move(s, p, Polling(granted))
      case _ => Move(s, p, Polling(granted))
  }

  /** A grant refused or lost, a send or a confirmation failed: sleep and read the operation again. */
  function DoGiveUp(s: Sys, p: nat): Sys
    requires Runs(s, p)
  {
    match s.processes[p].pc
    case Looping(c) => if c.op.row.state.Prepared? then Move(s, p, Polling(c)) else s
    case Sending(c) => Move(s, p, Polling(c))
    case Awaiting(c, _) => Move(s, p, Polling(c))
    case Confirming(c, _, _, _) => Move(s, p, Polling(c))
    case _ => s
  }

  function DoWork(s: Sys, a: Action): Sys {
    match a
    case Prepare(p, id) =>
      if Runs(s, p) && s.processes[p].pc.Preparing? then DoPrepare(s, p, id) else s
    case IssuePrepare(p) =>
      if Runs(s, p) && s.processes[p].pc.Preparing?
      then s.(prepares := s.prepares + {s.processes[p].plan[s.processes[p].step]}) else s
    case Acknowledge(p) =>
      if Runs(s, p) && s.processes[p].pc.Looping? && Terminal(s.processes[p].pc.copy.op.row.state)
      then Done(s, p, s.processes[p].pc.copy.id) else s
    case StopUncertain(p) =>
      if Runs(s, p) && s.processes[p].pc.Looping? && s.processes[p].pc.copy.op.row.state.Uncertain?
      then Move(s, p, Stopped) else s
    case Retry(p) =>
      if Runs(s, p) && s.processes[p].pc.Looping? && s.processes[p].pc.copy.op.row.state.Retryable?
      then DoRetry(s, p, s.processes[p].pc.copy) else s
    case Grant(p) =>
      if Runs(s, p) && s.processes[p].pc.Looping? && s.processes[p].pc.copy.op.row.state.Prepared?
         && !s.processes[p].pc.copy.op.row.dispatchAuthorized
      then DoGrant(s, p, s.processes[p].pc.copy) else s
    case Send(p) =>
      if Runs(s, p) && s.processes[p].pc.Sending? then DoSend(s, p, s.processes[p].pc.copy) else s
    case Receive(p) =>
      if Runs(s, p) && s.processes[p].pc.Awaiting? && s.processes[p].pc.request in s.replies then
        var c, receipt := s.processes[p].pc.copy, s.replies[s.processes[p].pc.request];
        Move(s, p, if receipt.operation == c.id then Confirming(c, c.op, receipt, 0) else Polling(c))
      else s
    case IssueConfirm(p) =>
      if Runs(s, p) && s.processes[p].pc.Confirming? then
        var pc := s.processes[p].pc;
        s.(confirms := s.confirms + {(pc.copy.id, ConfirmationOf(pc.current, pc.receipt))})
      else s
    case ConfirmReceipt(p) =>
      if Runs(s, p) && s.processes[p].pc.Confirming?
      then DoConfirm(s, p, s.processes[p].pc.copy.id, s.processes[p].pc.current, s.processes[p].pc.receipt) else s
    case Reread(p) =>
      if Runs(s, p) && s.processes[p].pc.Confirming?
      then DoReread(s, p, s.processes[p].pc.copy, s.processes[p].pc.receipt, s.processes[p].pc.tries) else s
    case GiveUp(p) =>
      if !Runs(s, p) then s
      else DoGiveUp(s, p)
    case Poll(p, answered) =>
      if Runs(s, p) && s.processes[p].pc.Polling? then
        var c := s.processes[p].pc.copy;
        Move(s, p, Looping(if answered && c.id in s.tables.ops then Current(s, c.id) else c))
      else s
    case _ => s
  }

  // ---- The email service commits an accepted request

  function DoDeliver(s: Sys, n: nat, id: ReceiptId): Sys
    requires n in s.wire
  {
    var request := s.wire[n];
    var s' := s.(wire := s.wire - {n});
    if !Complete(request.fields) then s'
    else
      match CommitTx(s.ledger, Gate(s.service, request), id, s.now)
      case Err(_) => s'
      case Ok(c) => s'.(ledger := c.ledger, replies := s.replies[n := ReceiptOf(c.effect)])
  }

  // ---- Everything

  function Do(s: Sys, a: Action): Sys {
    match a
    case Tick(elapsed) => s.(now := s.now + elapsed)
    case Start(p, plan) =>
      s.(processes := s.processes[p := Process(plan, 0, if plan == [] then Finished else Preparing)])
    case LatePrepare(request, id) =>
      if request in s.prepares && PrepareTx(s.tables, request, id, s.now).Ok?
      then s.(tables := PrepareTx(s.tables, request, id, s.now).value.tables) else s
    case Deliver(n, id) => if n in s.wire then DoDeliver(s, n, id) else s
    case LateConfirm(id, c) => if (id, c) in s.confirms then Store(s, id, Call.Confirm(c)) else s
    case StoreCall(id, call) => if call.Confirm? || call.Submit? then s else Store(s, id, call)
    case ClaimFor(id, owner, lease, grace, token, attempt) =>
      var call := Claim(owner, lease, grace, token, attempt);
      var r := CallOn(s.tables.ops, id, s.now, call);
      if r.Ok? then Store(s, id, call).(claims := s.claims + {RecoveryClaim(id, r.value, token, attempt)}) else s
    case VerifyClaim(claim, network) =>
      if claim in s.claims
      then s.(verified := s.verified +
        {Verified(claim, Observe(s.service, s.ledger.effects, claim.id, claim.op.row.intent, network))})
      else s
    case SubmitResult(v) => if v in s.verified then Store(s, v.claim.id, Submit(ResultOf(v))) else s
    case _ => DoWork(s, a)
  }

  /** The state after any sequence of actions. */
  function Run(service: Profile, actions: seq<Action>): Sys {
    if actions == [] then Init(service)
    else Do(Run(service, actions[..|actions| - 1]), actions[|actions| - 1])
  }

  lemma RunAppend(service: Profile, actions: seq<Action>, a: Action)
    ensures Run(service, actions + [a]) == Do(Run(service, actions), a)
  {
    assert (actions + [a])[..|actions|] == actions;
  }
}
