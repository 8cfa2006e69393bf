/**
 How stored operations evolve in the composed system. The key fact is that an operation's
 log only grows and, version being the log's length, two moments with the same version show
 the same operation up to a renewed lease. That fence is what keeps a result computed for an
 old moment from being applied to a new one.
 */
module Evolution {
  import opened Domain
  import opened Transactions
  import opened Ledger
  import opened Verifier
  import opened Protocol
  import opened History

  /** The same operation up to the expiry of a renewed lease. */
  predicate SameButExpiry(a: Op, b: Op) {
    b == a.(row := a.row.(leaseExpires := b.row.leaseExpires))
  }

  /** `b` is `a` at a later moment. */
  ghost predicate Evolves(a: Op, b: Op) {
    && a.row.intent == b.row.intent
    && |a.log| <= |b.log| && b.log[..|a.log|] == a.log
    && (Terminal(a.row.state) ==> b.row.state == a.row.state)
    && (a.receipt.Some? ==> b.receipt == a.receipt)
    && (|a.log| == |b.log| ==> SameButExpiry(a, b))
  }

  lemma EvolvesReflexive(a: Op)
    ensures Evolves(a, a)
  {
  }

  lemma EvolvesTransitive(a: Op, b: Op, c: Op)
    requires Evolves(a, b) && Evolves(b, c)
    ensures Evolves(a, c)
  {
    assert c.log[..|a.log|] == c.log[..|b.log|][..|a.log|];
  }

  /** A result may only be applied where the policy expects one: prepared or uncertain. */
  predicate Expected(op: Op, now: Time, call: Call) {
    call.Submit? && Apply(op, now, call).Ok? ==> op.row.state.Prepared? || op.row.state.Uncertain?
  }

  lemma EvolvesStep(op: Op, now: Time, call: Call)
    requires Sound(op) && Expected(op, now, call)
    ensures Evolves(op, After(op, now, call))
    ensures After(op, now, call).row.state == op.row.state ||
      CanTransition(op.row.state, After(op, now, call).row.state)
  {
    if Apply(op, now, call).Ok? {
      AppendsOne(op, now, call);
    }
  }

  // ---- What an action does to the tables

  datatype Change = NoChange | Called(id: OpId, call: Call) | Inserted(request: PrepareRequest, id: OpId)

  function ChangeOf(s: Sys, a: Action): Change {
    match a
    case Prepare(p, id) =>
      if Runs(s, p) && s.processes[p].pc.Preparing? then Inserted(s.processes[p].plan[s.processes[p].step], id)
        else NoChange
    case LatePrepare(request, id) => if request in s.prepares then Inserted(request, id) else NoChange
    case Retry(p) =>
      if Runs(s, p) && s.processes[p].pc.Looping? && s.processes[p].pc.copy.op.row.state.Retryable?
      then Called(s.processes[p].pc.copy.id, BeginRetry(s.processes[p].pc.copy.op.row.version, "safe_recovery_retry"))
      else NoChange
    case Grant(p) =>
      if Runs(s, p) && s.processes[p].pc.Looping? && s.processes[p].pc.copy.op.row.state.Prepared?
         && !s.processes[p].pc.copy.op.row.dispatchAuthorized
      then Called(s.processes[p].pc.copy.id, Authorize(s.processes[p].pc.copy.op.row.version)) else NoChange
    case ConfirmReceipt(p) =>
      if Runs(s, p) && s.processes[p].pc.Confirming?
      then Called(s.processes[p].pc.copy.id,
        Call.Confirm(ConfirmationOf(s.processes[p].pc.current, s.processes[p].pc.receipt)))
      else NoChange
    case LateConfirm(id, c) => if (id, c) in s.confirms then Called(id, Call.Confirm(c)) else NoChange
    case StoreCall(id, call) => if call.Confirm? || call.Submit? then NoChange else Called(id, call)
    case ClaimFor(id, owner, lease, grace, token, attempt) => Called(id, Claim(owner, lease, grace, token, attempt))
    case SubmitResult(v) => if v in s.verified then Called(v.claim.id, Submit(ResultOf(v))) else NoChange
    case _ => NoChange
  }

  function Changed(t: Tables, now: Time, c: Change): Tables {
    match c
    case NoChange => t
    case Called(id, call) => t.(ops := DbAfter(t.ops, id, now, call))
    case Inserted(request, id) =>
      var r := PrepareTx(t, request, id, now);
      if r.Ok? then r.value.tables else t
  }

  lemma WorkExact(s: Sys, a: Action)
    requires a.Retry? || a.Grant? || a.ConfirmReceipt? || a.Prepare?
    ensures DoWork(s, a).tables == Changed(s.tables, s.now, ChangeOf(s, a))
  {
    hide Apply, PrepareTx, ConfirmationOf;
  }

  lemma OtherWorkExact(s: Sys, a: Action)
    requires a.IssuePrepare? || a.Acknowledge? || a.StopUncertain? || a.Send? || a.Receive? || a.IssueConfirm? ||
      a.Reread? || a.GiveUp? || a.Poll?
    ensures DoWork(s, a).tables == s.tables
  {
    hide ConfirmationOf;
  }

  lemma ChangeExact(s: Sys, a: Action)
    ensures Do(s, a).tables == Changed(s.tables, s.now, ChangeOf(s, a))
  {
    hide DoWork, Apply, PrepareTx, CommitTx, Observe;
    if a.Retry? || a.Grant? || a.ConfirmReceipt? || a.Prepare? {
      WorkExact(s, a);
    } else if !(a.Tick? || a.Start? || a.LatePrepare? || a.Deliver? || a.LateConfirm? || a.StoreCall? ||
      a.ClaimFor? || a.VerifyClaim? || a.SubmitResult?) {
      OtherWorkExact(s, a);
    }
  }

  ghost predicate Later(t: Tables, t': Tables) {
    forall id | id in t.ops :: id in t'.ops && Evolves(t.ops[id], t'.ops[id])
  }

  ghost predicate Stored(t: Tables) {
    Indexed(t) && forall id | id in t.ops :: Sound(t.ops[id])
  }

  /** Replacing one stored operation by a later form of itself. */
  lemma Replaced(t: Tables, id: OpId, op: Op)
    requires Stored(t) && id in t.ops && Sound(op) && Evolves(t.ops[id], op)
    ensures var t' := t.(ops := t.ops[id := op]); Stored(t') && Later(t, t')
  {
    hide Sound, Evolves;
    SameIntent(t.ops[id], op);
    LaterReflexive(t);
  }

  lemma SameIntent(a: Op, b: Op)
    requires Evolves(a, b)
    ensures a.row.intent == b.row.intent
  {
  }

  lemma LaterReflexive(t: Tables)
    ensures Later(t, t)
  {
    forall j | j in t.ops ensures Evolves(t.ops[j], t.ops[j]) {
      EvolvesReflexive(t.ops[j]);
    }
  }

  lemma CalledStep(t: Tables, now: Time, id: OpId, call: Call)
    requires Stored(t)
    requires id in t.ops ==> Expected(t.ops[id], now, call)
    ensures var t' := Changed(t, now, Called(id, call));
      Stored(t') && Later(t, t') && t'.ops.Keys == t.ops.Keys
  {
    LaterReflexive(t);
    hide Sound, Evolves, Expected, Apply;
    if id in t.ops {
      var op := After(t.ops[id], now, call);
      EvolvesStep(t.ops[id], now, call);
      SoundStep(t.ops[id], now, call);
      Replaced(t, id, op);
    }
  }

  lemma InsertedStep(t: Tables, now: Time, request: PrepareRequest, id: OpId)
    requires Stored(t)
    ensures var t' := Changed(t, now, Inserted(request, id));
      Stored(t') && Later(t, t')
  {
    hide Sound, Evolves, NewOp, Indexed, PrepareTx;
    LaterReflexive(t);
    if PrepareTx(t, request, id, now).Ok? {
      InsertedIndexed(t, now, request, id);
      InsertedExact(t, now, request, id);
      InsertedKeeps(t, now, request, id);
      SoundNew(IntentOf(request, now), now);
    }
  }

  lemma InsertedKeeps(t: Tables, now: Time, request: PrepareRequest, id: OpId)
    requires PrepareTx(t, request, id, now).Ok?
    ensures forall j | j in t.ops ::
      j in PrepareTx(t, request, id, now).value.tables.ops &&
        PrepareTx(t, request, id, now).value.tables.ops[j] == t.ops[j]
  {
    hide NewOp;
  }

  lemma InsertedIndexed(t: Tables, now: Time, request: PrepareRequest, id: OpId)
    requires Indexed(t) && PrepareTx(t, request, id, now).Ok?
    ensures Indexed(PrepareTx(t, request, id, now).value.tables)
  {
  }

  /** A successful prepare yields the one operation with the request's workflow, key and fingerprint. */
  lemma InsertedExact(t: Tables, now: Time, request: PrepareRequest, id: OpId)
    requires Indexed(t) && PrepareTx(t, request, id, now).Ok?
    ensures var p := PrepareTx(t, request, id, now).value;
      && p.id in p.tables.ops
      && p.tables.ops[p.id].row.intent.workflow == request.workflow
      && p.tables.ops[p.id].row.intent.key == request.key
      && p.tables.ops[p.id].row.intent.fingerprint == Fingerprint(request.target, request.fields)
      && (forall j | j in p.tables.ops && j != p.id :: j in t.ops && p.tables.ops[j] == t.ops[j])
      && (if p.id in t.ops then p.tables == t else p.tables.ops[p.id] == NewOp(IntentOf(request, now), now))
  {
  }

  /** What an action does to one stored operation. */
  lemma OpExact(s: Sys, a: Action, id: OpId)
    requires Stored(s.tables) && id in s.tables.ops
    ensures id in Do(s, a).tables.ops
    ensures Do(s, a).tables.ops[id] ==
      if ChangeOf(s, a).Called? && ChangeOf(s, a).id == id then After(s.tables.ops[id], s.now, ChangeOf(s, a).call)
      else s.tables.ops[id]
  {
    ChangeExact(s, a);
    hide Do, ChangeOf, Apply, Sound;
    var change := ChangeOf(s, a);
    if change.Inserted? && PrepareTx(s.tables, change.request, change.id, s.now).Ok? {
      InsertedExact(s.tables, s.now, change.request, change.id);
    }
  }

  /** A new operation is one that Prepare inserted. */
  lemma NewExact(s: Sys, a: Action, id: OpId)
    requires Stored(s.tables) && id in Do(s, a).tables.ops && id !in s.tables.ops
    ensures ChangeOf(s, a).Inserted?
    ensures Do(s, a).tables.ops[id] == NewOp(IntentOf(ChangeOf(s, a).request, s.now), s.now)
  {
    ChangeExact(s, a);
    hide Do, ChangeOf, Apply, Sound;
  }
}
