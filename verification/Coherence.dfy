/**
 The base invariant of the composed system: every copy of an operation that a process or a
 coordinator holds is an earlier moment of the stored operation.
 */
module Coherence {
  import opened Domain
  import opened Transactions
  import opened Ledger
  import opened Verifier
  import opened Protocol
  import opened History
  import opened Evolution

  function CopiesOf(pc: Pc): set<Copy> {
    match pc
    case Looping(c) => {c}
    case Sending(c) => {c}
    case Awaiting(c, _) => {c}
    case Confirming(c, current, _, _) => {c, Copy(c.id, current)}
    case Polling(c) => {c}
    case _ => {}
  }

  ghost predicate Known(t: Tables, id: OpId, op: Op) {
    id in t.ops && Logged(op) && Evolves(op, t.ops[id])
  }

  /** A claim as ClaimTx returned it: leased, awaited by an open attempt, prepared or uncertain. */
  ghost predicate Leased(c: RecoveryClaim) {
    && (c.op.row.state.Prepared? || (c.op.row.state.Uncertain? && c.op.row.nextReconcileAt.Some?))
    && c.op.row.leaseToken == Some(c.token) && c.op.row.leaseExpires.Some?
    && var i := AttemptIndex(c.op.attempts, c.attempt);
       i < |c.op.attempts| && c.op.attempts[i].finishedAt.None?
  }

  ghost predicate Coherent(s: Sys) {
    && Stored(s.tables)
    && (forall p, c | p in s.processes && c in CopiesOf(s.processes[p].pc) :: Known(s.tables, c.id, c.op))
    && (forall c | c in s.claims :: Known(s.tables, c.id, c.op) && Leased(c))
    && (forall v | v in s.verified :: v.claim in s.claims && ValidObservation(v.observation))
  }

  /** The version fence: equal versions are the same moment. */
  lemma SameVersionSameMoment(a: Op, b: Op)
    requires Logged(a) && Logged(b) && Evolves(a, b) && a.row.version == b.row.version
    ensures SameButExpiry(a, b)
  {
  }

  lemma KnownLater(t: Tables, t': Tables, id: OpId, op: Op)
    requires Known(t, id, op) && Later(t, t')
    ensures Known(t', id, op)
  {
    EvolvesTransitive(op, t.ops[id], t'.ops[id]);
  }

  lemma KnownNow(t: Tables, id: OpId)
    requires Stored(t) && id in t.ops
    ensures Known(t, id, t.ops[id])
  {
    EvolvesReflexive(t.ops[id]);
  }

  /** Every result a coordinator submits is one the policy expects, though the store never asks. */
  lemma SubmissionsExpected(s: Sys, v: Verified)
    requires Coherent(s) && v in s.verified && SubmitTx(s.tables.ops[v.claim.id], ResultOf(v), s.now).Ok?
    ensures SameButExpiry(v.claim.op, s.tables.ops[v.claim.id])
    ensures s.tables.ops[v.claim.id].row.state.Prepared? || s.tables.ops[v.claim.id].row.state.Uncertain?
  {
    SameVersionSameMoment(v.claim.op, s.tables.ops[v.claim.id]);
  }

  /** Only coordinators submit, and only what they verified. */
  lemma SubmitIsVerified(s: Sys, a: Action)
    requires ChangeOf(s, a).Called? && ChangeOf(s, a).call.Submit?
    ensures a.SubmitResult? && a.result in s.verified
    ensures ChangeOf(s, a) == Called(a.result.claim.id, Submit(ResultOf(a.result)))
  {
  }

  lemma CallsExpected(s: Sys, a: Action)
    requires Coherent(s)
    ensures ChangeOf(s, a).Called? && ChangeOf(s, a).id in s.tables.ops ==>
      Expected(s.tables.ops[ChangeOf(s, a).id], s.now, ChangeOf(s, a).call)
  {
    hide ChangeOf, Stored, SubmitTx;
    var change := ChangeOf(s, a);
    if change.Called? && change.id in s.tables.ops && change.call.Submit? &&
      Apply(s.tables.ops[change.id], s.now, change.call).Ok? {
      SubmitIsVerified(s, a);
      SubmissionsExpected(s, a.result);
    }
  }

  lemma TablesStep(s: Sys, a: Action)
    requires Coherent(s)
    ensures Stored(Do(s, a).tables) && Later(s.tables, Do(s, a).tables)
  {
    hide Do, ChangeOf, Stored, Later, Expected, DbAfter, PrepareTx, Known, Leased;
    ChangeExact(s, a);
    CallsExpected(s, a);
    match ChangeOf(s, a)
    case NoChange =>
      LaterReflexive(s.tables);
      assert Changed(s.tables, s.now, NoChange) == s.tables;
    case Inserted(request, id) => InsertedStep(s.tables, s.now, request, id);
    case Called(id, call) => CalledStep(s.tables, s.now, id, call);
  }

  /** The process an action advances. */
  function Actor(a: Action): Option<nat> {
    match a
    case Start(p, _) => Some(p)
    case Prepare(p, _) => Some(p)
    case Acknowledge(p) => Some(p)
    case StopUncertain(p) => Some(p)
    case Retry(p) => Some(p)
    case Grant(p) => Some(p)
    case Send(p) => Some(p)
    case Receive(p) => Some(p)
    case ConfirmReceipt(p) => Some(p)
    case Reread(p) => Some(p)
    case GiveUp(p) => Some(p)
    case Poll(p, _) => Some(p)
    case _ => None
  }

  /** Only process p may have moved. */
  ghost predicate OnlyMoves(s: Sys, s': Sys, p: nat) {
    forall q | q in s'.processes && q != p :: q in s.processes && s'.processes[q] == s.processes[q]
  }

  lemma CallsMoveOne(s: Sys, p: nat)
    requires Runs(s, p)
    ensures forall id :: OnlyMoves(s, DoPrepare(s, p, id), p)
    ensures forall c :: OnlyMoves(s, DoRetry(s, p, c), p)
    ensures forall c :: OnlyMoves(s, DoGrant(s, p, c), p) && OnlyMoves(s, DoSend(s, p, c), p)
  {
    hide CallOn, PrepareTx;
  }

  lemma RepliesMoveOne(s: Sys, p: nat)
    requires Runs(s, p)
    ensures forall id, op, receipt :: OnlyMoves(s, DoConfirm(s, p, id, op, receipt), p)
    ensures forall c, receipt, tries :: OnlyMoves(s, DoReread(s, p, c, receipt, tries), p)
    ensures OnlyMoves(s, DoGiveUp(s, p), p)
  {
    hide CallOn;
  }

  lemma WorkMovesOne(s: Sys, a: Action, p: nat)
    requires p in DoWork(s, a).processes && Actor(a) != Some(p)
    ensures p in s.processes && DoWork(s, a).processes[p] == s.processes[p]
  {
    hide DoPrepare, DoRetry, DoGrant, DoSend, DoConfirm, DoReread, DoGiveUp;
    if Actor(a).Some? && Runs(s, Actor(a).value) {
      CallsMoveOne(s, Actor(a).value);
      RepliesMoveOne(s, Actor(a).value);
    }
  }

  lemma OthersStay(s: Sys, a: Action, p: nat)
    requires p in Do(s, a).processes && Actor(a) != Some(p)
    ensures p in s.processes && Do(s, a).processes[p] == s.processes[p]
  {
    hide DoWork, CallOn, PrepareTx, CommitTx, Observe;
    if p in DoWork(s, a).processes {
      WorkMovesOne(s, a, p);
    }
  }

  /** Everything but the clock, the tables, the processes and the acknowledgements is as it was. */
  predicate SameWorld(s: Sys, s': Sys) {
    && s'.service == s.service && s'.wire == s.wire && s'.sent == s.sent && s'.ledger == s.ledger &&
      s'.replies == s.replies
    && s'.prepares == s.prepares && s'.confirms == s.confirms && s'.claims == s.claims && s'.verified == s.verified
  }

  lemma CallsStayInside(s: Sys, p: nat)
    requires Runs(s, p)
    ensures forall id :: SameWorld(s, DoPrepare(s, p, id))
    ensures forall c :: SameWorld(s, DoRetry(s, p, c)) && SameWorld(s, DoGrant(s, p, c))
  {
    hide CallOn, PrepareTx;
  }

  lemma RepliesStayInside(s: Sys, p: nat)
    requires Runs(s, p)
    ensures forall id, op, receipt :: SameWorld(s, DoConfirm(s, p, id, op, receipt))
    ensures forall c, receipt, tries :: SameWorld(s, DoReread(s, p, c, receipt, tries))
    ensures SameWorld(s, DoGiveUp(s, p))
  {
    hide CallOn;
  }

  /** A worker's step reaches the rest of the world only by sending an email or issuing a request. */
  lemma WorkStaysInside(s: Sys, a: Action)
    requires !a.Send? && !a.IssuePrepare? && !a.IssueConfirm?
    ensures SameWorld(s, DoWork(s, a))
  {
    hide DoPrepare, DoRetry, DoGrant, DoSend, DoConfirm, DoReread, DoGiveUp;
    if Actor(a).Some? && Runs(s, Actor(a).value) {
      CallsStayInside(s, Actor(a).value);
      RepliesStayInside(s, Actor(a).value);
    }
  }

  /** What the three exceptions leave alone. */
  lemma RequestsStayInside(s: Sys, a: Action)
    requires a.Send? || a.IssuePrepare? || a.IssueConfirm?
    ensures var s' := DoWork(s, a);
      && s'.service == s.service && s'.ledger == s.ledger && s'.replies == s.replies
      && s'.claims == s.claims && s'.verified == s.verified && s'.tables == s.tables
      && (!a.Send? ==> s'.wire == s.wire && s'.sent == s.sent)
      && (!a.IssuePrepare? ==> s'.prepares == s.prepares) && (!a.IssueConfirm? ==> s'.confirms == s.confirms)
  {
  }

  /** The two in one: what a worker's step does not touch. */
  lemma WorkFrame(s: Sys, a: Action)
    ensures var s' := DoWork(s, a);
      && s'.service == s.service && s'.ledger == s.ledger && s'.replies == s.replies
      && s'.claims == s.claims && s'.verified == s.verified
      && (!a.Send? ==> s'.wire == s.wire && s'.sent == s.sent)
      && (!a.IssuePrepare? ==> s'.prepares == s.prepares) && (!a.IssueConfirm? ==> s'.confirms == s.confirms)
  {
    hide DoWork;
    if a.Send? || a.IssuePrepare? || a.IssueConfirm? {
      RequestsStayInside(s, a);
    } else {
      WorkStaysInside(s, a);
    }
  }

  lemma CopiesFromStore(s: Sys, a: Action, p: nat, c: Copy)
    requires a.Prepare? || a.Retry? || a.Grant? || a.ConfirmReceipt?
    requires Actor(a) == Some(p) && p in Do(s, a).processes && c in CopiesOf(Do(s, a).processes[p].pc)
    ensures (p in s.processes && c in CopiesOf(s.processes[p].pc)) ||
            (c.id in Do(s, a).tables.ops && c.op == Do(s, a).tables.ops[c.id])
  {
    hide Apply, PrepareTx, CommitTx, Observe;
  }

  lemma CopiesMovedLocally(s: Sys, a: Action, p: nat, c: Copy)
    requires !(a.Prepare? || a.Retry? || a.Grant? || a.ConfirmReceipt?)
    requires Actor(a) == Some(p) && p in Do(s, a).processes && c in CopiesOf(Do(s, a).processes[p].pc)
    ensures (p in s.processes && c in CopiesOf(s.processes[p].pc)) ||
            (c.id in Do(s, a).tables.ops && c.op == Do(s, a).tables.ops[c.id])
  {
    hide Apply, PrepareTx, CommitTx, Observe, Terminal;
  }

  /** A copy is either an old copy or the operation as it is after the action. */
  lemma CopiesExact(s: Sys, a: Action, p: nat, c: Copy)
    requires p in Do(s, a).processes && c in CopiesOf(Do(s, a).processes[p].pc)
    ensures (p in s.processes && c in CopiesOf(s.processes[p].pc)) ||
            (c.id in Do(s, a).tables.ops && c.op == Do(s, a).tables.ops[c.id])
  {
    hide Do, CopiesOf;
    if Actor(a) != Some(p) {
      OthersStay(s, a, p);
    } else if a.Prepare? || a.Retry? || a.Grant? || a.ConfirmReceipt? {
      CopiesFromStore(s, a, p, c);
    } else {
      CopiesMovedLocally(s, a, p, c);
    }
  }

  lemma ClaimLeases(op: Op, owner: string, lease: Time, grace: Time, token: Token, attempt: AttemptId, now: Time,
      id: OpId)
    requires ClaimTx(op, owner, lease, grace, token, attempt, now).Ok?
    ensures Leased(RecoveryClaim(id, ClaimTx(op, owner, lease, grace, token, attempt, now).value, token, attempt))
  {
    var op' := ClaimTx(op, owner, lease, grace, token, attempt, now).value;
    assert op'.attempts[|op.attempts|].id == attempt;
  }

  lemma ClaimsExact(s: Sys, a: Action, c: RecoveryClaim)
    requires c in Do(s, a).claims && c !in s.claims
    ensures c.id in Do(s, a).tables.ops && c.op == Do(s, a).tables.ops[c.id] && Leased(c)
  {
    hide Do, ClaimTx, Leased;
    ClaimsFrom(s, a, c);
    ClaimLeases(s.tables.ops[a.id], a.owner, a.lease, a.grace, a.token, a.attempt, s.now, a.id);
  }

  lemma ClaimsFrom(s: Sys, a: Action, c: RecoveryClaim)
    requires c in Do(s, a).claims && c !in s.claims
    ensures a.ClaimFor? && a.id in s.tables.ops &&
      Apply(s.tables.ops[a.id], s.now, Claim(a.owner, a.lease, a.grace, a.token, a.attempt)).Ok?
    ensures c == RecoveryClaim(a.id,
      After(s.tables.ops[a.id], s.now, Claim(a.owner, a.lease, a.grace, a.token, a.attempt)), a.token, a.attempt)
    ensures c.id in Do(s, a).tables.ops && c.op == Do(s, a).tables.ops[c.id]
  {
    hide DoWork, Apply, PrepareTx, CommitTx, Observe;
    WorkFrame(s, a);
  }

  lemma VerifiedExact(s: Sys, a: Action, v: Verified)
    requires v in Do(s, a).verified && v !in s.verified
    ensures a.VerifyClaim? && a.claim in s.claims
    ensures v == Verified(a.claim, Observe(s.service, s.ledger.effects, a.claim.id, a.claim.op.row.intent, a.network))
  {
    hide DoWork, Apply, PrepareTx, CommitTx, Observe;
    WorkFrame(s, a);
  }

  lemma ClaimsGrow(s: Sys, a: Action)
    ensures s.claims <= Do(s, a).claims && s.service == Do(s, a).service
  {
    hide DoWork, Apply, PrepareTx, CommitTx, Observe;
    WorkFrame(s, a);
  }

  lemma CoherentStep(s: Sys, a: Action)
    requires Coherent(s)
    ensures Coherent(Do(s, a))
  {
    hide Do, Stored, Known, Leased, Observe, Later, CopiesOf;
    var s' := Do(s, a);
    TablesStep(s, a);
    ClaimsGrow(s, a);
    forall p, c | p in s'.processes && c in CopiesOf(s'.processes[p].pc) ensures Known(s'.tables, c.id, c.op) {
      CopiesExact(s, a, p, c);
      if p in s.processes && c in CopiesOf(s.processes[p].pc) {
        KnownLater(s.tables, s'.tables, c.id, c.op);
      } else {
        KnownNow(s'.tables, c.id);
      }
    }
    forall c | c in s'.claims ensures Known(s'.tables, c.id, c.op) && Leased(c) {
      if c in s.claims {
        KnownLater(s.tables, s'.tables, c.id, c.op);
      } else {
        ClaimsExact(s, a, c);
        KnownNow(s'.tables, c.id);
      }
    }
    forall v | v in s'.verified ensures v.claim in s'.claims && ValidObservation(v.observation) {
      if v !in s.verified {
        VerifiedExact(s, a, v);
      }
    }
  }

  lemma {:induction false} AlwaysCoherent(service: Profile, actions: seq<Action>)
    ensures Coherent(Run(service, actions))
  {
    if actions != [] {
      AlwaysCoherent(service, actions[..|actions| - 1]);
      CoherentStep(Run(service, actions[..|actions| - 1]), actions[|actions| - 1]);
    }
  }
}
