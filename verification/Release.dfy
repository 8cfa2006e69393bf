/**
 What an operator's word is worth. Declaring an effect absent can lead to a second effect if and
 only if a send of the operation is outstanding or has landed; declaring it completed is a false
 completion if and only if the ledger holds no evidence for it.
 */
module Release {
  import opened Domain
  import opened Transactions
  import opened Ledger
  import opened Verifier
  import opened Protocol
  import opened Evolution
  import opened Coherence
  import opened Sends
  import opened Steps
  import opened Completion
  import opened Rounds
  import opened Workers

  // ---- Fresh identifiers

  function FreshReceipt(effects: seq<Effect>): (r: ReceiptId)
    ensures forall e | e in effects :: e.id < r
  {
    if effects == [] then 0
    else
      var before, last := effects[..|effects| - 1], effects[|effects| - 1];
      assert effects == before + [last];
      var r := FreshReceipt(before);
      if last.id < r then r else last.id + 1
  }

  function FreshAttempt(attempts: seq<Attempt>): (r: AttemptId)
    ensures forall a | a in attempts :: a.id < r
  {
    if attempts == [] then 0
    else
      var before, last := attempts[..|attempts| - 1], attempts[|attempts| - 1];
      assert attempts == before + [last];
      var r := FreshAttempt(before);
      if last.id < r then r else last.id + 1
  }

  // ---- A send that is under way lands

  /** No operator speaks. */
  predicate Quiet(more: seq<Action>) {
    forall a | a in more :: !(a.StoreCall? && a.call.Resolve?)
  }

  lemma DeliverStep(s: Sys, id: OpId, n: nat)
    requires Tracked(s) && n in s.wire && s.wire[n].operation == id && Complete(s.wire[n].fields) && !Keyed(s, id)
    ensures var s' := Do(s, Deliver(n, FreshReceipt(s.ledger.effects)));
      s'.tables == s.tables && s'.service == s.service && EffectCount(s', id) == EffectCount(s, id) + 1
  {
    assert RequestTracked(s, s.wire[n]);
    var r := FreshReceipt(s.ledger.effects);
    var s' := Do(s, Deliver(n, r));
    assert EffectIndex(s.ledger.effects, r) == |s.ledger.effects|;
    assert s'.ledger.effects == s.ledger.effects + [Effect(r, id, s.wire[n].fields, s.now)];
    assert s'.ledger.effects[..|s.ledger.effects|] == s.ledger.effects;
  }

  lemma HeldStep(s: Sys, id: OpId, p: nat)
    requires At(s, id, Held(p))
    ensures var s' := Do(s, Action.Send(p));
      && s'.tables == s.tables && s'.service == s.service && s'.ledger == s.ledger
      && s.sent in s'.wire && s'.wire[s.sent].operation == id
  {
  }

  /** The request of a stored operation can be committed at all. */
  predicate Sendable(s: Sys, id: OpId) {
    id in s.tables.ops && !Keyed(s, id) && Complete(s.tables.ops[id].row.intent.fingerprint.request)
  }

  lemma WireComplete(s: Sys, id: OpId, n: nat)
    requires Trustworthy(s) && Sendable(s, id) && n in s.wire && s.wire[n].operation == id
    ensures Tracked(s) && Complete(s.wire[n].fields)
  {
    hide Coherent, OnPlan, ReceiptsBacked, CompletionsBacked, AcknowledgedDone, Complete, Keyed;
    assert Carries(s.tables, s.wire[n].operation, s.wire[n].fields);
  }

  lemma LandFromWire(service: Profile, actions: seq<Action>, id: OpId, n: nat) returns (more: seq<Action>)
    requires Sendable(Run(service, actions), id) && At(Run(service, actions), id, OnWire(n))
    ensures Quiet(more)
    ensures var s, s' := Run(service, actions), Run(service, actions + more);
      s'.tables == s.tables && s'.service == s.service && EffectCount(s', id) == EffectCount(s, id) + 1
  {
    hide Run, Do, EffectCount, Trustworthy, Complete, Keyed;
    var s := Run(service, actions);
    AlwaysTrustworthy(service, actions);
    WireComplete(s, id, n);
    DeliverStep(s, id, n);
    more := [Deliver(n, FreshReceipt(s.ledger.effects))];
    RunAppend(service, actions, more[0]);
  }

  lemma LandFromWorker(service: Profile, actions: seq<Action>, id: OpId, p: nat) returns (more: seq<Action>)
    requires Sendable(Run(service, actions), id) && At(Run(service, actions), id, Held(p))
    ensures Quiet(more)
    ensures var s, s' := Run(service, actions), Run(service, actions + more);
      s'.tables == s.tables && s'.service == s.service && EffectCount(s', id) == EffectCount(s, id) + 1
  {
    hide Run, Do, Complete;
    var s := Run(service, actions);
    HeldStep(s, id, p);
    RunAppend(service, actions, Action.Send(p));
    var deliver := LandFromWire(service, actions + [Action.Send(p)], id, s.sent);
    more := [Action.Send(p)] + deliver;
    assert actions + more == (actions + [Action.Send(p)]) + deliver;
  }

  lemma LandedCounts(s: Sys, id: OpId, i: nat)
    requires At(s, id, Landed(i))
    ensures EffectCount(s, id) >= 1
  {
    SelectSound(s.ledger.effects, ByOperation(id));
    assert s.ledger.effects[i] in Select(s.ledger.effects, ByOperation(id));
  }

  /** A send lands, wherever it is. */
  lemma Land(service: Profile, actions: seq<Action>, id: OpId, x: Place) returns (more: seq<Action>)
    requires Sendable(Run(service, actions), id) && At(Run(service, actions), id, x)
    ensures Quiet(more)
    ensures var s, s' := Run(service, actions), Run(service, actions + more);
      s'.tables == s.tables && s'.service == s.service && EffectCount(s', id) >= 1
  {
    hide Run, EffectCount, Sendable;
    match x
    case Held(p) => more := LandFromWorker(service, actions, id, p);
    case OnWire(n) => more := LandFromWire(service, actions, id, n);
    case Landed(i) =>
      LandedCounts(Run(service, actions), id, i);
      more := [];
      assert actions + more == actions;
  }

  // ---- A retryable operation is sent once more

  /** The parts of the system that a continuation of the store and one worker leaves alone. */
  predicate SameOutside(s: Sys, s': Sys) {
    s'.ledger == s.ledger && s'.service == s.service
  }

  const GRACE: Time := 60000
  const LEASE: Time := 30000

  /** The retryable operation as its lease, if it has one, is about to be replaced. */
  lemma BeginStep(s: Sys, id: OpId)
    requires id in s.tables.ops && s.tables.ops[id].row.state.Retryable?
    ensures var s' := Do(s, StoreCall(id, BeginRetry(s.tables.ops[id].row.version, "safe_recovery_retry")));
      && SameOutside(s, s') && s'.now == s.now && id in s'.tables.ops
      && var row := s'.tables.ops[id].row;
         && row.state.Prepared? && !row.dispatchAuthorized && row.nextReconcileAt.None? && row.preparedAt == s.now
         && row.leaseExpires == s.tables.ops[id].row.leaseExpires
  {
  }

  function Wait(s: Sys, id: OpId): nat
    requires id in s.tables.ops
  {
    var e := s.tables.ops[id].row.leaseExpires;
    GRACE + if e.Some? && e.value > s.now then e.value - s.now else 0
  }

  function Reclaim(s: Sys, id: OpId): Action
    requires id in s.tables.ops
  {
    ClaimFor(id, "coordinator", LEASE, GRACE, 0, FreshAttempt(s.tables.ops[id].attempts))
  }

  lemma ReclaimStep(s: Sys, id: OpId)
    requires id in s.tables.ops
    requires var row := s.tables.ops[id].row;
      && row.state.Prepared? && !row.dispatchAuthorized && row.nextReconcileAt.None?
      && row.preparedAt <= s.now - GRACE && (row.leaseExpires.None? || row.leaseExpires.value <= s.now)
    ensures var s', a := Do(s, Reclaim(s, id)), Reclaim(s, id);
      && SameOutside(s, s') && id in s'.tables.ops
      && RecoveryClaim(id, s'.tables.ops[id], a.token, a.attempt) in s'.claims
      && s'.tables.ops[id].row.leaseExpires == Some(s'.now + LEASE) && !s'.tables.ops[id].row.dispatchAuthorized
  {
    var op, next := s.tables.ops[id], FreshAttempt(s.tables.ops[id].attempts);
    assert AttemptIndex(op.attempts, next) == |op.attempts|;
  }

  /** A verification whose requests are lost never contradicts and never completes. */
  lemma LostObservation(service: Profile, effects: seq<Effect>, id: OpId, intent: Intent)
    ensures var o := Observe(service, effects, id, intent, Lost);
      !o.outcome.Contradictory? && !o.outcome.Completed?
  {
  }

  lemma LostStep(s: Sys, c: RecoveryClaim)
    requires c in s.claims
    ensures var v := Verified(c, Observe(s.service, s.ledger.effects, c.id, c.op.row.intent, Lost));
      Do(s, VerifyClaim(c, Lost)) == s.(verified := s.verified + {v})
  {
    hide Observe;
  }

  lemma UngrantedResult(op: Op, r: RecoveryResult, now: Time)
    requires SubmitTx(op, r, now).Ok? && !op.row.dispatchAuthorized
    requires !r.observation.outcome.Contradictory? && !r.observation.outcome.Completed?
    ensures SubmitTx(op, r, now).value.row.state.Retryable? && SubmitTx(op, r, now).value.row.leaseToken.None?
  {
  }

  lemma GiveBackStep(s: Sys, v: Verified)
    requires Coherent(s) && v in s.verified && IsCurrent(s, v.claim) && IsLive(s, v.claim)
    requires !s.tables.ops[v.claim.id].row.dispatchAuthorized
    requires !v.observation.outcome.Contradictory? && !v.observation.outcome.Completed?
    ensures var s' := Do(s, SubmitResult(v));
      && SameOutside(s, s') && v.claim.id in s'.tables.ops
      && s'.tables.ops[v.claim.id].row.state.Retryable? && s'.tables.ops[v.claim.id].row.leaseToken.None?
  {
    hide Coherent, IsCurrent, IsLive, SubmitTx;
    AcceptedIff(s, v);
    UngrantedResult(s.tables.ops[v.claim.id], ResultOf(v), s.now);
  }

  /** A lease left over from an earlier round runs out; the next round, unanswered, gives the operation back. */
  lemma Unlease(service: Profile, actions: seq<Action>, id: OpId) returns (more: seq<Action>)
    requires id in Run(service, actions).tables.ops && Run(service, actions).tables.ops[id].row.state.Retryable?
    ensures Quiet(more)
    ensures var s, s' := Run(service, actions), Run(service, actions + more);
      && SameOutside(s, s') && id in s'.tables.ops
      && s'.tables.ops[id].row.state.Retryable? && s'.tables.ops[id].row.leaseToken.None?
  {
    hide Run, Do, Observe, Coherent;
    var s0 := Run(service, actions);
    BeginStep(s0, id);
    var a0 := StoreCall(id, BeginRetry(s0.tables.ops[id].row.version, "safe_recovery_retry"));
    RunAppend(service, actions, a0);
    var r1 := actions + [a0];
    var s1 := Run(service, r1);
    var a1 := Tick(Wait(s1, id));
    TickStep(s1, Wait(s1, id));
    RunAppend(service, r1, a1);
    var r2 := r1 + [a1];
    var s2 := Run(service, r2);
    ReclaimStep(s2, id);
    var a2 := Reclaim(s2, id);
    RunAppend(service, r2, a2);
    var r3 := r2 + [a2];
    var s3 := Run(service, r3);
    var c := RecoveryClaim(id, s3.tables.ops[id], a2.token, a2.attempt);
    LostStep(s3, c);
    RunAppend(service, r3, VerifyClaim(c, Lost));
    var r4 := r3 + [VerifyClaim(c, Lost)];
    var v := Verified(c, Observe(s3.service, s3.ledger.effects, c.id, c.op.row.intent, Lost));
    LostObservation(s3.service, s3.ledger.effects, c.id, c.op.row.intent);
    AlwaysCoherent(service, r4);
    GiveBackStep(Run(service, r4), v);
    RunAppend(service, r4, SubmitResult(v));
    more := [a0, a1, a2, VerifyClaim(c, Lost), SubmitResult(v)];
    assert actions + more == r4 + [SubmitResult(v)];
  }

  lemma TickStep(s: Sys, elapsed: nat)
    ensures Do(s, Tick(elapsed)) == s.(now := s.now + elapsed)
  {
  }

  /** The request that a restarted worker would prepare for this operation. */
  function RequestFor(s: Sys, id: OpId): PrepareRequest
    requires id in s.tables.ops && s.tables.ops[id].row.intent.workflow in s.tables.workflows
  {
    var intent := s.tables.ops[id].row.intent;
    var flow := s.tables.workflows[intent.workflow];
    PrepareRequest(intent.workflow, flow.strategy, flow.run, intent.key, intent.fingerprint.target,
                   intent.fingerprint.request, intent.expected, intent.profile)
  }

  /** A repeated prepare of `request` finds operation `id`. */
  predicate Finds(s: Sys, request: PrepareRequest, id: OpId) {
    && id in s.tables.ops && (request.workflow, request.key) in s.tables.index
    && s.tables.index[(request.workflow, request.key)] == id
    && request.workflow in s.tables.workflows
    && s.tables.workflows[request.workflow] == Workflow(request.strategy, request.run)
    && s.tables.ops[id].row.intent.fingerprint == Fingerprint(request.target, request.fields)
  }

  lemma RequestFinds(s: Sys, id: OpId)
    requires Stored(s.tables) && id in s.tables.ops
    ensures s.tables.ops[id].row.intent.workflow in s.tables.workflows && Finds(s, RequestFor(s, id), id)
  {
  }

  lemma RestartStep(s: Sys, request: PrepareRequest, id: OpId)
    requires Finds(s, request, id)
    ensures var s' := Do(Do(s, Start(0, [request])), Action.Prepare(0, id));
      && SameOutside(s, s') && s'.tables == s.tables
      && Stands(s', 0, [request], 0, Looping(Copy(id, s'.tables.ops[id])))
  {
  }

  lemma RetryStep(s: Sys, request: PrepareRequest, id: OpId)
    requires id in s.tables.ops && s.tables.ops[id].row.state.Retryable? && s.tables.ops[id].row.leaseToken.None?
    requires Stands(s, 0, [request], 0, Looping(Copy(id, s.tables.ops[id])))
    ensures var s' := Do(Do(s, Action.Retry(0)), Poll(0, true));
      && SameOutside(s, s') && id in s'.tables.ops
      && s'.tables.ops[id].row.state.Prepared? && s'.tables.ops[id].row.leaseToken.None?
      && !s'.tables.ops[id].row.dispatchAuthorized
      && Stands(s', 0, [request], 0, Looping(Copy(id, s'.tables.ops[id])))
  {
  }

  lemma GrantStep(s: Sys, request: PrepareRequest, id: OpId)
    requires id in s.tables.ops && s.tables.ops[id].row.state.Prepared? && s.tables.ops[id].row.leaseToken.None?
    requires !s.tables.ops[id].row.dispatchAuthorized && Stands(s, 0, [request], 0, Looping(Copy(id, s.tables.ops[id])))
    ensures var s' := Do(s, Action.Grant(0)); SameOutside(s, s') && At(s', id, Held(0))
  {
  }

  /** The run continued by two more actions. */
  lemma RunTwo(service: Profile, actions: seq<Action>, a: Action, b: Action)
    ensures Run(service, actions + [a, b]) == Do(Do(Run(service, actions), a), b)
  {
    hide Do;
    assert actions + [a, b] == (actions + [a]) + [b];
    RunAppend(service, actions, a);
    RunAppend(service, actions + [a], b);
  }

  /** A worker restarted on the step is granted a new dispatch. */
  lemma Regrant(service: Profile, actions: seq<Action>, id: OpId) returns (more: seq<Action>)
    requires var s := Run(service, actions);
      id in s.tables.ops && s.tables.ops[id].row.state.Retryable? && s.tables.ops[id].row.leaseToken.None?
    ensures Quiet(more)
    ensures var s, s' := Run(service, actions), Run(service, actions + more);
      SameOutside(s, s') && At(s', id, Held(0))
  {
    hide Run, Do, Finds, Stored, Coherent, At;
    AlwaysCoherent(service, actions);
    StoredNow(Run(service, actions));
    RequestFinds(Run(service, actions), id);
    var request := RequestFor(Run(service, actions), id);
    RestartStep(Run(service, actions), request, id);
    RunTwo(service, actions, Start(0, [request]), Action.Prepare(0, id));
    var r1 := actions + [Start(0, [request]), Action.Prepare(0, id)];
    RetryStep(Run(service, r1), request, id);
    RunTwo(service, r1, Action.Retry(0), Poll(0, true));
    var r2 := r1 + [Action.Retry(0), Poll(0, true)];
    GrantStep(Run(service, r2), request, id);
    RunAppend(service, r2, Action.Grant(0));
    more := [Start(0, [request]), Action.Prepare(0, id), Action.Retry(0), Poll(0, true), Action.Grant(0)];
    assert actions + more == r2 + [Action.Grant(0)];
  }

  lemma SendableLater(service: Profile, actions: seq<Action>, more: seq<Action>, id: OpId)
    requires Sendable(Run(service, actions), id)
    ensures Sendable(Run(service, actions + more), id)
  {
    hide Run, Complete;
    RunLater(service, actions, more);
    AlwaysGuarded(service, actions);
    AlwaysGuarded(service, actions + more);
    assert Evolves(Run(service, actions).tables.ops[id], Run(service, actions + more).tables.ops[id]);
  }

  /** A retryable operation gets one more effect, whatever has landed before. */
  lemma SendAgain(service: Profile, actions: seq<Action>, id: OpId) returns (more: seq<Action>)
    requires Sendable(Run(service, actions), id) && Run(service, actions).tables.ops[id].row.state.Retryable?
    ensures Quiet(more)
    ensures EffectCount(Run(service, actions + more), id) == EffectCount(Run(service, actions), id) + 1
  {
    hide Run, Sendable, At;
    assert id in Run(service, actions).tables.ops by { SendableIsStored(Run(service, actions), id); }
    var unlease := Unlease(service, actions, id);
    var regrant := Regrant(service, actions + unlease, id);
    SendableLater(service, actions, unlease + regrant, id);
    assert actions + (unlease + regrant) == actions + unlease + regrant;
    var land := LandFromWorker(service, actions + unlease + regrant, id, 0);
    more := unlease + regrant + land;
    assert actions + more == actions + unlease + regrant + land;
  }

  lemma SendableIsStored(s: Sys, id: OpId)
    requires Sendable(s, id)
    ensures id in s.tables.ops
  {
  }

  // ---- "Absent"

  /** The operator's call. */
  function Absent(s: Sys, id: OpId, reason: string): Action
    requires id in s.tables.ops
  {
    StoreCall(id, Resolve(s.tables.ops[id].row.version, ManuallyAbsent, reason))
  }

  lemma AbsentStep(s: Sys, id: OpId, reason: string)
    requires id in s.tables.ops && s.tables.ops[id].row.state.Uncertain?
    ensures var s' := Do(s, Absent(s, id, reason));
      && SameOutside(s, s') && s'.wire == s.wire && s'.processes == s.processes
      && id in s'.tables.ops && s'.tables.ops[id].row.state.Retryable? && Releases(s, Absent(s, id, reason), id)
  {
  }

  lemma AtStays(s: Sys, s': Sys, id: OpId, x: Place)
    requires At(s, id, x) && s'.wire == s.wire && s'.processes == s.processes && s'.ledger == s.ledger
    ensures At(s', id, x)
  {
  }

  lemma QuietIsCareful(service: Profile, actions: seq<Action>, more: seq<Action>, id: OpId)
    requires Quiet(more)
    ensures CarefulSince(service, actions + more, |actions|, id)
  {
    hide Run, Sent;
    forall k | |actions| <= k < |actions + more|
      ensures !Releases(Run(service, (actions + more)[..k]), (actions + more)[k], id) {
      assert (actions + more)[k] == more[k - |actions|];
      ReleaseIsSpoken(Run(service, (actions + more)[..k]), (actions + more)[k], id);
    }
  }

  lemma ReleaseIsSpoken(s: Sys, a: Action, id: OpId)
    requires !(a.StoreCall? && a.call.Resolve?)
    ensures !Releases(s, a, id)
  {
  }

  /** With a send outstanding or landed, "absent" can lead to a second effect. */
  lemma AbsentDuplicates(service: Profile, actions: seq<Action>, id: OpId, x: Place, reason: string)
      returns (more: seq<Action>)
    requires var s := Run(service, actions);
      Sendable(s, id) && s.tables.ops[id].row.state.Uncertain? && At(s, id, x)
    ensures var after := actions + [Absent(Run(service, actions), id, reason)];
      CarefulSince(service, after + more, |after|, id) && EffectCount(Run(service, after + more), id) >= 2
  {
    hide Run, Do, At, Releases, EffectCount, CarefulSince, Sendable;
    var s := Run(service, actions);
    SendableIsStored(s, id);
    var a := Absent(s, id, reason);
    var after := actions + [a];
    AbsentStep(s, id, reason);
    RunAppend(service, actions, a);
    AtStays(s, Run(service, after), id, x);
    SendableLater(service, actions, [a], id);
    var land := Land(service, after, id, x);
    SendableLater(service, after, land, id);
    var again := SendAgain(service, after + land, id);
    more := land + again;
    assert after + more == after + land + again;
    QuietIsCareful(service, after, more, id);
  }

  // ---- The other direction

  lemma {:induction false} EffectsComplete(service: Profile, actions: seq<Action>)
    ensures forall e | e in Run(service, actions).ledger.effects :: Complete(e.fields)
  {
    if actions != [] {
      hide Do, Run, Complete, CommitTx;
      var before, a := actions[..|actions| - 1], actions[|actions| - 1];
      assert actions == before + [a];
      RunAppend(service, before, a);
      EffectsComplete(service, before);
      var s := Run(service, before);
      LedgerExact(s, a);
      forall e | e in Do(s, a).ledger.effects && e !in s.ledger.effects ensures Complete(e.fields) {
        EffectOrigin(s, a, e);
      }
    }
  }

  /** An email the service refuses for its fields never has an effect. */
  lemma IncompleteNeverLands(service: Profile, actions: seq<Action>, id: OpId)
    requires id in Run(service, actions).tables.ops
    requires !Complete(Run(service, actions).tables.ops[id].row.intent.fingerprint.request)
    ensures EffectCount(Run(service, actions), id) == 0
  {
    hide Run, Complete;
    var s := Run(service, actions);
    AlwaysTrustworthy(service, actions);
    EffectsComplete(service, actions);
    forall i | 0 <= i < |s.ledger.effects| ensures !Matches(ByOperation(id), s.ledger.effects[i]) {
      assert Carries(s.tables, s.ledger.effects[i].operation, s.ledger.effects[i].fields);
    }
    SelectNone(s.ledger.effects, ByOperation(id));
  }

  lemma CarefulJoin(service: Profile, actions: seq<Action>, a: Action, more: seq<Action>, id: OpId)
    requires Careful(service, actions, id) && !Sent(Run(service, actions), id)
    requires CarefulSince(service, actions + [a] + more, |actions + [a]|, id)
    ensures Careful(service, actions + [a] + more, id)
  {
    hide Run, Releases, Sent;
    var all := actions + [a] + more;
    forall k | 0 <= k < |all|
      ensures Releases(Run(service, all[..k]), all[k], id) ==> !Sent(Run(service, all[..k]), id) {
      if k < |actions| {
        assert all[..k] == actions[..k] && all[k] == actions[k];
      } else if k == |actions| {
        assert all[..k] == actions;
      }
    }
  }

  /** Without one, or where it could not land twice, "absent" is harmless as long as later ones are. */
  lemma AbsentHarmless(service: Profile, actions: seq<Action>, id: OpId, reason: string, more: seq<Action>)
    requires var s := Run(service, actions);
      id in s.tables.ops && Careful(service, actions, id) && !(Sendable(s, id) && Sent(s, id))
    requires var after := actions + [Absent(Run(service, actions), id, reason)];
      CarefulSince(service, after + more, |after|, id)
    ensures EffectCount(Run(service, actions + [Absent(Run(service, actions), id, reason)] + more), id) <= 1
  {
    hide Run, Careful, CarefulSince, Sent, EffectCount, Complete;
    var s, a := Run(service, actions), Absent(Run(service, actions), id, reason);
    assert actions + [a] + more == actions + ([a] + more);
    RunLater(service, actions, [a] + more);
    AlwaysGuarded(service, actions);
    AlwaysGuarded(service, actions + [a] + more);
    assert Evolves(s.tables.ops[id], Run(service, actions + [a] + more).tables.ops[id]);
    if Keyed(s, id) {
      AtMostOneKeyedEffect(service, actions + [a] + more, id);
    } else if !Complete(s.tables.ops[id].row.intent.fingerprint.request) {
      IncompleteNeverLands(service, actions + [a] + more, id);
    } else {
      CarefulJoin(service, actions, a, more, id);
      AtMostOneEffect(service, actions + [a] + more, id);
    }
  }

  /**
   Exactly when an operator's "absent" is dangerous. In every reachable state, after restraint so
   far and whatever restraint follows, it can lead to a second effect if and only if a send of the
   operation is held by a worker, on the wire or landed, the email is one the service accepts, and
   the operation and the service do not both honour keys.
   */
  lemma AbsentDuplicatesIff(service: Profile, actions: seq<Action>, id: OpId, reason: string)
    requires var s := Run(service, actions);
      id in s.tables.ops && s.tables.ops[id].row.state.Uncertain? && Careful(service, actions, id)
    ensures var s := Run(service, actions);
      var after := actions + [Absent(s, id, reason)];
      (exists more :: CarefulSince(service, after + more, |after|, id) &&
        EffectCount(Run(service, after + more), id) >= 2)
      <==> Sendable(s, id) && Sent(s, id)
  {
    hide Run, At, Careful, CarefulSince, EffectCount, Sendable;
    var s := Run(service, actions);
    var after := actions + [Absent(s, id, reason)];
    if Sendable(s, id) && Sent(s, id) {
      var x :| At(s, id, x);
      var more := AbsentDuplicates(service, actions, id, x, reason);
    } else {
      forall more | CarefulSince(service, after + more, |after|, id)
        ensures EffectCount(Run(service, after + more), id) <= 1 {
        AbsentHarmless(service, actions, id, reason, more);
      }
    }
  }

  /** The stored log tells of an accepted "absent". */
  ghost predicate Released(log: seq<Event>) {
    exists i :: 0 <= i < |log| && log[i].kind.ManuallyResolved? && log[i].to.Retryable?
  }

  lemma ReleaseIsLogged(s: Sys, a: Action, id: OpId)
    requires Releases(s, a, id) && Coherent(s)
    ensures id in Do(s, a).tables.ops && Released(Do(s, a).tables.ops[id].log)
  {
    hide Do, ChangeOf, Coherent, Stored;
    StoredNow(s);
    OpExact(s, a, id);
    LastIsRelease(s.tables.ops[id], s.now, ChangeOf(s, a).call);
  }

  lemma LastIsRelease(op: Op, now: Time, call: Call)
    requires call.Resolve? && call.outcome.ManuallyAbsent? && Apply(op, now, call).Ok?
    ensures Released(After(op, now, call).log)
  {
    assert After(op, now, call).log[|op.log|].kind.ManuallyResolved?;
  }

  /** An operation whose log holds no "absent" was treated with care. */
  lemma UnreleasedIsCareful(service: Profile, actions: seq<Action>, id: OpId)
    requires id in Run(service, actions).tables.ops && !Released(Run(service, actions).tables.ops[id].log)
    ensures Careful(service, actions, id)
  {
    hide Run, Do, Releases, Sent, Coherent;
    forall k | 0 <= k < |actions| ensures !Releases(Run(service, actions[..k]), actions[k], id) {
      if Releases(Run(service, actions[..k]), actions[k], id) {
        AlwaysCoherent(service, actions[..k]);
        ReleaseIsLogged(Run(service, actions[..k]), actions[k], id);
        assert actions[..k + 1] == actions[..k] + [actions[k]] && actions == actions[..k + 1] + actions[k + 1..];
        RunAppend(service, actions[..k], actions[k]);
        RunLater(service, actions[..k + 1], actions[k + 1..]);
        ReleasedLater(Run(service, actions[..k + 1]).tables.ops[id], Run(service, actions).tables.ops[id]);
      }
    }
  }

  lemma ReleasedLater(a: Op, b: Op)
    requires Evolves(a, b) && Released(a.log)
    ensures Released(b.log)
  {
    var i :| 0 <= i < |a.log| && a.log[i].kind.ManuallyResolved? && a.log[i].to.Retryable?;
    assert b.log[i] == b.log[..|a.log|][i];
  }

  // ---- "Completed"

  /** The operator's call. */
  function Completed(s: Sys, id: OpId, reason: string): Action
    requires id in s.tables.ops
  {
    StoreCall(id, Resolve(s.tables.ops[id].row.version, ManuallyCompleted, reason))
  }

  /** "Completed" is a false completion if and only if the ledger holds no evidence when it is said. */
  lemma CompletedIsFalseIff(service: Profile, actions: seq<Action>, id: OpId, reason: string)
    requires var s := Run(service, actions); id in s.tables.ops && s.tables.ops[id].row.state.Uncertain?
    ensures var s := Run(service, actions);
      var s' := Run(service, actions + [Completed(s, id, reason)]);
      && id in s'.tables.ops && Terminal(s'.tables.ops[id].row.state)
      && (Evident(s', id) <==> Evident(s, id))
  {
    hide Run, Evident;
    RunAppend(service, actions, Completed(Run(service, actions), id, reason));
    CompletedStep(Run(service, actions), id, reason);
  }

  lemma CompletedStep(s: Sys, id: OpId, reason: string)
    requires id in s.tables.ops && s.tables.ops[id].row.state.Uncertain?
    ensures var s' := Do(s, Completed(s, id, reason));
      && id in s'.tables.ops && Terminal(s'.tables.ops[id].row.state)
      && (Evident(s', id) <==> Evident(s, id))
  {
  }
}
