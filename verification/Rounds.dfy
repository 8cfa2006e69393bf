/**
 Whole-run theorems about recovery rounds and state transitions. A claim and its accepted
 result frame a stretch in which the operation only had its lease renewed, so a round acts
 as one atomic step no matter how many coordinators compete.
 */
module Rounds {
  import opened Domain
  import opened Transactions
  import opened Protocol
  import opened History
  import opened Evolution
  import opened Coherence
  import opened Sends

  // ---- Continuations of a run

  lemma {:induction false} RunLater(service: Profile, actions: seq<Action>, more: seq<Action>)
    ensures Later(Run(service, actions).tables, Run(service, actions + more).tables)
    ensures Run(service, actions).claims <= Run(service, actions + more).claims
  {
    if more == [] {
      assert actions + more == actions;
      LaterReflexive(Run(service, actions).tables);
    } else {
      var before, a := more[..|more| - 1], more[|more| - 1];
      RunLater(service, actions, before);
      assert actions + more == (actions + before) + [a];
      RunAppend(service, actions + before, a);
      var s, m := Run(service, actions), Run(service, actions + before);
      AlwaysCoherent(service, actions + before);
      TablesStep(m, a);
      ClaimsGrow(m, a);
      hide Do, Run, Evolves, Coherent;
      forall id | id in s.tables.ops ensures Evolves(s.tables.ops[id], Do(m, a).tables.ops[id]) {
        EvolvesTransitive(s.tables.ops[id], m.tables.ops[id], Do(m, a).tables.ops[id]);
      }
    }
  }

  /**
   The version fence: whenever the store shows the same version twice, it is the same moment up to
   a renewed lease.
   */
  lemma EqualVersionsSameMoment(service: Profile, actions: seq<Action>, more: seq<Action>, id: OpId)
    requires id in Run(service, actions).tables.ops && id in Run(service, actions + more).tables.ops
    requires Run(service, actions).tables.ops[id].row.version == Run(service, actions + more).tables.ops[id].row.version
    ensures SameButExpiry(Run(service, actions).tables.ops[id], Run(service, actions + more).tables.ops[id])
  {
    hide Run, Chained, Replay, SameButExpiry;
    RunLater(service, actions, more);
    EveryRunIsSound(service, actions, id);
    EveryRunIsSound(service, actions + more, id);
    SameVersionSameMoment(Run(service, actions).tables.ops[id], Run(service, actions + more).tables.ops[id]);
  }

  // ---- Transition refinement

  /** Every state change in every run is one that the transition table allows. */
  lemma TransitionsAllowed(service: Profile, actions: seq<Action>, a: Action, id: OpId)
    requires id in Run(service, actions).tables.ops
    ensures id in Run(service, actions + [a]).tables.ops
    ensures var from := Run(service, actions).tables.ops[id].row.state;
      var to := Run(service, actions + [a]).tables.ops[id].row.state;
      from == to || CanTransition(from, to)
  {
    var s := Run(service, actions);
    RunAppend(service, actions, a);
    AlwaysCoherent(service, actions);
    OpExact(s, a, id);
    CallsExpected(s, a);
    hide Do, Run, ChangeOf, After, Known, Leased, Expected;
    assert Sound(s.tables.ops[id]);
    if ChangeOf(s, a).Called? && ChangeOf(s, a).id == id {
      EvolvesStep(s.tables.ops[id], s.now, ChangeOf(s, a).call);
    }
  }

  /** Confirmed and Reconciled are absorbing, and a stored receipt never changes. */
  lemma TerminalIsForever(service: Profile, actions: seq<Action>, more: seq<Action>, id: OpId)
    requires id in Run(service, actions).tables.ops && Terminal(Run(service, actions).tables.ops[id].row.state)
    ensures id in Run(service, actions + more).tables.ops
    ensures var op, op' := Run(service, actions).tables.ops[id], Run(service, actions + more).tables.ops[id];
      op'.row.state == op.row.state && op'.receipt == op.receipt
  {
    RunLater(service, actions, more);
    AlwaysCoherent(service, actions);
    AlwaysCoherent(service, actions + more);
    hide Run, Known, Leased, Logged, Fenced;
    var op, op' := Run(service, actions).tables.ops[id], Run(service, actions + more).tables.ops[id];
    assert Evolves(op, op') && Sound(op) && Sound(op');
  }

  /** The audit trail and the schema hold for every stored operation of every run. */
  lemma EveryRunIsSound(service: Profile, actions: seq<Action>, id: OpId)
    requires id in Run(service, actions).tables.ops
    ensures Sound(Run(service, actions).tables.ops[id])
  {
    AlwaysCoherent(service, actions);
    hide Run, Sound, Known, Leased;
  }

  // ---- The store by itself does not enforce the table

  /**
   Exactly which accepted results obey the table, by the locked row and the observation: all on a
   prepared or uncertain row; on a reconciled one only another authoritative completion; on a
   retryable one only what leaves it retryable. The store itself does not look.
   */
  lemma ResultLawfulIff(op: Op, r: RecoveryResult, now: Time)
    requires Schema(op) && SubmitTx(op, r, now).Ok?
    ensures var from, to := op.row.state, SubmitTx(op, r, now).value.row.state;
      var o, number := r.observation, op.attempts[AttemptIndex(op.attempts, r.attempt)].number;
      var completed := o.authoritative && o.outcome.Completed?;
      (from == to || CanTransition(from, to)) <==>
      || from.Prepared? || from.Uncertain?
      || (from.Reconciled? && completed)
      || (from.Retryable? && !completed &&
          (|| (!op.row.dispatchAuthorized && !o.outcome.Contradictory?)
           || (o.outcome.TransientError? && number < 5)
           || (op.row.intent.profile.IdempotencyOnly? && o.mechanism.IdempotentRepeat? && o.authoritative &&
             o.outcome.Unknown?)))
  {
  }

  /** Every claim in the log was issued on a prepared or uncertain row. */
  ghost predicate ClaimsOpen(log: seq<Event>) {
    forall i | 0 <= i < |log| && log[i].kind.RecoveryClaimed? :: log[i].to.Prepared? || log[i].to.Uncertain?
  }

  lemma ClaimsOpenStep(op: Op, now: Time, call: Call)
    requires ClaimsOpen(op.log)
    ensures ClaimsOpen(After(op, now, call).log)
  {
    if Apply(op, now, call).Ok? {
      AppendsOne(op, now, call);
    }
  }

  lemma {:induction false} EveryLifeClaimsOpen(intent: Intent, born: Time, calls: seq<(Time, Call)>)
    ensures ClaimsOpen(Life(intent, born, calls).log)
  {
    if calls != [] {
      var before, last := calls[..|calls| - 1], calls[|calls| - 1];
      EveryLifeClaimsOpen(intent, born, before);
      ClaimsOpenStep(Life(intent, born, before), last.0, last.1);
    }
  }

  /** The result carries the version that the store reported for its own claim. */
  ghost predicate EchoesClaim(log: seq<Event>, r: RecoveryResult) {
    exists i :: 0 <= i < |log| && log[i].kind.RecoveryClaimed? && log[i].attempt == Some(r.attempt) &&
      log[i].version == r.version
  }

  /**
   The client's side of the bargain suffices: after any calls by anyone, an accepted result that
   echoes its claim is lawful.
   */
  lemma EchoedResultIsLawful(intent: Intent, born: Time, calls: seq<(Time, Call)>, r: RecoveryResult, now: Time)
    requires var op := Life(intent, born, calls); SubmitTx(op, r, now).Ok? && EchoesClaim(op.log, r)
    ensures var op := Life(intent, born, calls); var to := SubmitTx(op, r, now).value.row.state;
      && (op.row.state.Prepared? || op.row.state.Uncertain?)
      && (op.row.state == to || CanTransition(op.row.state, to))
  {
    hide Life;
    EveryLifeIsSound(intent, born, calls);
    EveryLifeClaimsOpen(intent, born, calls);
    EchoMeetsClaim(Life(intent, born, calls), r, now);
    ResultLawfulIff(Life(intent, born, calls), r, now);
  }

  lemma EchoMeetsClaim(op: Op, r: RecoveryResult, now: Time)
    requires Sound(op) && ClaimsOpen(op.log) && SubmitTx(op, r, now).Ok? && EchoesClaim(op.log, r)
    ensures op.row.state.Prepared? || op.row.state.Uncertain?
  {
    var i :| 0 <= i < |op.log| && op.log[i].kind.RecoveryClaimed? && op.log[i].attempt == Some(r.attempt) &&
      op.log[i].version == r.version;
    assert i == |op.log| - 1;
    assert Replay(op.log).state == op.log[i].to;
  }

  lemma LifeAppend(intent: Intent, born: Time, calls: seq<(Time, Call)>, at: Time, call: Call)
    ensures Life(intent, born, calls + [(at, call)]) == After(Life(intent, born, calls), at, call)
  {
    assert (calls + [(at, call)])[..|calls|] == calls;
  }

  /** Every one of the calls is accepted. */
  ghost predicate AllAccepted(intent: Intent, born: Time, calls: seq<(Time, Call)>) {
    forall k | 0 <= k < |calls| :: Apply(Life(intent, born, calls[..k]), calls[k].0, calls[k].1).Ok?
  }

  lemma AcceptedAppend(intent: Intent, born: Time, calls: seq<(Time, Call)>, at: Time, call: Call)
    requires AllAccepted(intent, born, calls) && Apply(Life(intent, born, calls), at, call).Ok?
    ensures AllAccepted(intent, born, calls + [(at, call)])
    ensures Life(intent, born, calls + [(at, call)]) == Apply(Life(intent, born, calls), at, call).value
  {
    hide Life, Apply;
    LifeAppend(intent, born, calls, at, call);
    var all := calls + [(at, call)];
    assert all[..|calls|] == calls;
    forall k | 0 <= k < |calls| ensures Apply(Life(intent, born, all[..k]), all[k].0, all[k].1).Ok? {
      assert all[..k] == calls[..k] && all[k] == calls[k];
    }
  }

  const BAD := Observation(StatusLookup, Contradictory, false, None)

  const CLAIM_1 := Claim("coordinator-1", 5000, 30000, 1, 1)
  const RESULT_1 := Submit(RecoveryResult(1, 2, 1, BAD))
  const REQUEST := RequestReconciliation(3, "check again")
  const CLAIM_2 := Claim("coordinator-1", 5000, 30000, 2, 2)
  const RESOLVE := Resolve(5, ManuallyCompleted, "the provider confirms it")
  const RESULT_2 := Submit(RecoveryResult(2, 6, 2, BAD))

  predicate Doubted(op: Op) {
    op.row.state.Uncertain? && op.row.version == 3 && op.row.leaseExpires.None? && |op.attempts| == 1 &&
      op.attempts[0].id == 1
  }

  /** A first round that ends in doubt. */
  lemma RoundInDoubt(intent: Intent)
    ensures var op := NewOp(intent, 0);
      && Apply(op, 30000, CLAIM_1).Ok?
      && Apply(Apply(op, 30000, CLAIM_1).value, 31000, RESULT_1).Ok?
      && Doubted(Apply(Apply(op, 30000, CLAIM_1).value, 31000, RESULT_1).value)
  {
    var op := Apply(NewOp(intent, 0), 30000, CLAIM_1).value;
    assert AttemptIndex(op.attempts, 1) == 0;
  }

  predicate ReclaimedInDoubt(op: Op) {
    && op.row.state.Uncertain? && op.row.version == 5
    && op.row.leaseToken == Some(2) && op.row.leaseExpires == Some(38000)
    && |op.attempts| == 2 && op.attempts[0].id == 1 && op.attempts[1].id == 2 && op.attempts[1].finishedAt.None?
  }

  /** An operator asks for another round, which is claimed. */
  lemma ClaimedAgain(op: Op)
    requires Doubted(op)
    ensures Apply(op, 32000, REQUEST).Ok?
    ensures Apply(Apply(op, 32000, REQUEST).value, 33000, CLAIM_2).Ok?
    ensures ReclaimedInDoubt(Apply(Apply(op, 32000, REQUEST).value, 33000, CLAIM_2).value)
  {
    var op1 := Apply(op, 32000, REQUEST).value;
    assert AttemptIndex(op1.attempts, 2) == 1;
  }

  /**
   The operator resolves the operation while that claim's lease runs, and a result under the new
   version is applied.
   */
  lemma AppliedAnyway(op: Op)
    requires ReclaimedInDoubt(op)
    ensures Apply(op, 34000, RESOLVE).Ok? && Apply(op, 34000, RESOLVE).value.row.state.Reconciled?
    ensures Apply(Apply(op, 34000, RESOLVE).value, 35000, RESULT_2).Ok?
    ensures Apply(Apply(op, 34000, RESOLVE).value, 35000, RESULT_2).value.row.state.Uncertain?
  {
    assert AttemptIndex(op.attempts, 2) == 1;
  }

  /** Accepted calls, one after another, after which another accepted result leaves Reconciled. */
  lemma ReconciledCanBeLeft(intent: Intent) returns (calls: seq<(Time, Call)>, at: Time, last: Call)
    ensures AllAccepted(intent, 0, calls) && Life(intent, 0, calls).row.state.Reconciled?
    ensures Apply(Life(intent, 0, calls), at, last).Ok? &&
      Apply(Life(intent, 0, calls), at, last).value.row.state.Uncertain?
    ensures !CanTransition(Reconciled, Uncertain)
  {
    var c0: seq<(Time, Call)> := [];
    assert Life(intent, 0, c0) == NewOp(intent, 0);
    hide Life, Apply, NewOp, Doubted, ReclaimedInDoubt;
    RoundInDoubt(intent);
    AcceptedAppend(intent, 0, c0, 30000, CLAIM_1);
    var c1 := c0 + [(30000, CLAIM_1)];
    AcceptedAppend(intent, 0, c1, 31000, RESULT_1);
    var c2 := c1 + [(31000, RESULT_1)];
    ClaimedAgain(Life(intent, 0, c2));
    AcceptedAppend(intent, 0, c2, 32000, REQUEST);
    var c3 := c2 + [(32000, REQUEST)];
    AcceptedAppend(intent, 0, c3, 33000, CLAIM_2);
    var c4 := c3 + [(33000, CLAIM_2)];
    AppliedAnyway(Life(intent, 0, c4));
    AcceptedAppend(intent, 0, c4, 34000, RESOLVE);
    calls := c4 + [(34000, RESOLVE)];
    at, last := 35000, RESULT_2;
  }

  // ---- The table has no idle entry

  const CONFIRM := Call.Confirm(Confirmation(1, 7, Receipt(7, 1, 0), 0))

  /** A first round, with this observation. */
  function FirstResult(o: Observation): Call {
    Submit(RecoveryResult(1, 2, 1, o))
  }

  /** An observation after which a first round of an ungranted operation ends in this state. */
  function Leading(to: State): Observation {
    match to
    case Reconciled => Observation(StatusLookup, Completed, true, None)
    case Retryable => Observation(StatusLookup, Unknown, false, None)
    case _ => BAD
  }

  lemma FirstRound(intent: Intent, to: State)
    requires to.Reconciled? || to.Retryable? || to.Uncertain?
    ensures var op := NewOp(intent, 0);
      && Apply(op, 30000, CLAIM_1).Ok? && Apply(op, 30000, CLAIM_1).value.row.state.Prepared?
      && var op' := Apply(Apply(op, 30000, CLAIM_1).value, 31000, FirstResult(Leading(to)));
         op'.Ok? && op'.value.row.state == to && op'.value.row.version == 3
  {
    var op := Apply(NewOp(intent, 0), 30000, CLAIM_1).value;
    assert AttemptIndex(op.attempts, 1) == 0;
  }

  lemma NextTransition(op: Op, from: State, to: State)
    requires op.row.state == from && op.row.version == 3 && (from.Retryable? || from.Uncertain?)
    requires CanTransition(from, to)
    ensures Apply(op, 32000, Departing(to)).Ok? && Apply(op, 32000, Departing(to)).value.row.state == to
  {
  }

  /** A call that takes a retryable or uncertain operation at version 3 to this state. */
  function Departing(to: State): Call {
    match to
    case Prepared => BeginRetry(3, "safe_recovery_retry")
    case Reconciled => Resolve(3, ManuallyCompleted, "the provider confirms it")
    case _ => Resolve(3, ManuallyAbsent, "the provider denies it")
  }

  /** Every transition of the table is taken by some sequence of accepted calls. */
  lemma EveryTransitionOccurs(intent: Intent, from: State, to: State)
      returns (calls: seq<(Time, Call)>, at: Time, last: Call)
    requires CanTransition(from, to)
    ensures AllAccepted(intent, 0, calls) && Life(intent, 0, calls).row.state == from
    ensures Apply(Life(intent, 0, calls), at, last).Ok? &&
      Apply(Life(intent, 0, calls), at, last).value.row.state == to
  {
    var c0: seq<(Time, Call)> := [];
    assert Life(intent, 0, c0) == NewOp(intent, 0);
    if to.Confirmed? {
      calls, at, last := c0, 0, CONFIRM;
    } else {
      var first := if from.Prepared? then to else from;
      FirstRound(intent, first);
      hide Life, Apply, NewOp;
      AcceptedAppend(intent, 0, c0, 30000, CLAIM_1);
      var c1 := c0 + [(30000, CLAIM_1)];
      if from.Prepared? {
        calls, at, last := c1, 31000, FirstResult(Leading(to));
      } else {
        AcceptedAppend(intent, 0, c1, 31000, FirstResult(Leading(from)));
        calls, at, last := c1 + [(31000, FirstResult(Leading(from)))], 32000, Departing(to);
        NextTransition(Life(intent, 0, calls), from, to);
      }
    }
  }

  // ---- Recovery rounds are atomic

  /** Nothing but renewals happened to the operation since this claim. */
  predicate IsCurrent(s: Sys, c: RecoveryClaim) {
    c.id in s.tables.ops && |c.op.log| == |s.tables.ops[c.id].log|
  }

  predicate IsLive(s: Sys, c: RecoveryClaim) {
    c.id in s.tables.ops && s.tables.ops[c.id].row.leaseExpires.Some? &&
      s.tables.ops[c.id].row.leaseExpires.value > s.now
  }

  predicate Accepted(s: Sys, v: Verified) {
    v.claim.id in s.tables.ops && SubmitTx(s.tables.ops[v.claim.id], ResultOf(v), s.now).Ok?
  }

  lemma EchoAcceptedIff(c: RecoveryClaim, op: Op, o: Observation, now: Time)
    requires Logged(c.op) && Logged(op) && Evolves(c.op, op) && Leased(c) && ValidObservation(o)
    ensures SubmitTx(op, RecoveryResult(c.token, c.op.row.version, c.attempt, o), now).Ok? <==>
      |c.op.log| == |op.log| && op.row.leaseExpires.Some? && op.row.leaseExpires.value > now
  {
    hide Chained, Replay;
  }

  /** A coordinator's result is accepted exactly when its claim is still the latest event and live. */
  lemma AcceptedIff(s: Sys, v: Verified)
    requires Coherent(s) && v in s.verified
    ensures Accepted(s, v) <==> IsCurrent(s, v.claim) && IsLive(s, v.claim)
  {
    hide Coherent, Leased, Evolves, Logged, SubmitTx, ValidObservation;
    VerifiedKnown(s, v);
    EchoAcceptedIff(v.claim, s.tables.ops[v.claim.id], v.observation, s.now);
  }

  lemma VerifiedKnown(s: Sys, v: Verified)
    requires Coherent(s) && v in s.verified
    ensures Known(s.tables, v.claim.id, v.claim.op) && Leased(v.claim) && ValidObservation(v.observation)
    ensures Logged(s.tables.ops[v.claim.id])
  {
    hide Leased, Evolves, Chained, Replay;
  }

  /** Between a claim and its accepted result only lease renewals touched the operation. */
  lemma RoundIsAtomic(service: Profile, actions: seq<Action>, more: seq<Action>, v: Verified)
    requires v.claim in Run(service, actions).claims
    requires v in Run(service, actions + more).verified && Accepted(Run(service, actions + more), v)
    ensures v.claim.id in Run(service, actions).tables.ops
    ensures SameButExpiry(v.claim.op, Run(service, actions).tables.ops[v.claim.id])
  {
    var m, s := Run(service, actions), Run(service, actions + more);
    AlwaysCoherent(service, actions);
    AlwaysCoherent(service, actions + more);
    RunLater(service, actions, more);
    AcceptedIff(s, v);
    hide Run, Coherent, Leased, Logged, Stored;
    ClaimKnown(m, v.claim);
    assert Evolves(m.tables.ops[v.claim.id], s.tables.ops[v.claim.id]);
  }

  lemma ClaimKnown(s: Sys, c: RecoveryClaim)
    requires Coherent(s) && c in s.claims
    ensures Known(s.tables, c.id, c.op) && Leased(c)
  {
  }

  /** Once a result for a claim was accepted, every result for that claim is refused and changes nothing. */
  lemma AcceptedOnce(service: Profile, actions: seq<Action>, more: seq<Action>, v: Verified, w: Verified)
    requires v in Run(service, actions).verified && Accepted(Run(service, actions), v)
    requires w.claim == v.claim && w in Run(service, actions + [SubmitResult(v)] + more).verified
    ensures !Accepted(Run(service, actions + [SubmitResult(v)] + more), w)
    ensures Run(service, actions + [SubmitResult(v)] + more + [SubmitResult(w)]) ==
      Run(service, actions + [SubmitResult(v)] + more)
  {
    var s := Run(service, actions);
    var after := actions + [SubmitResult(v)];
    var s1, s2 := Run(service, after), Run(service, after + more);
    RunAppend(service, actions, SubmitResult(v));
    RunAppend(service, after + more, SubmitResult(w));
    AlwaysCoherent(service, actions);
    AlwaysCoherent(service, after + more);
    RunLater(service, after, more);
    hide Run, Coherent, Do, Accepted, Leased, Logged;
    AcceptedIff(s, v);
    AcceptedLengthens(s, v);
    assert Evolves(s1.tables.ops[v.claim.id], s2.tables.ops[v.claim.id]);
    AcceptedIff(s2, w);
    RefusedChangesNothing(s2, w);
  }

  lemma AcceptedLengthens(s: Sys, v: Verified)
    requires v in s.verified && Accepted(s, v)
    ensures var id := v.claim.id;
      id in Do(s, SubmitResult(v)).tables.ops &&
        |Do(s, SubmitResult(v)).tables.ops[id].log| == |s.tables.ops[id].log| + 1
  {
  }

  lemma RefusedChangesNothing(s: Sys, v: Verified)
    requires !Accepted(s, v)
    ensures Do(s, SubmitResult(v)) == s
  {
    hide SubmitTx;
  }

  // ---- Live claims are honoured

  /** No two claims were issued at the same version. */
  ghost predicate ClaimsDistinct(s: Sys) {
    forall c, d | c in s.claims && d in s.claims && c.id == d.id && |c.op.log| == |d.op.log| :: c == d
  }

  lemma ClaimLengthens(op: Op, owner: string, lease: Time, grace: Time, token: Token, attempt: AttemptId, now: Time)
    requires ClaimTx(op, owner, lease, grace, token, attempt, now).Ok?
    ensures |ClaimTx(op, owner, lease, grace, token, attempt, now).value.log| == |op.log| + 1
  {
  }

  lemma NewClaimIsLatest(s: Sys, a: Action, c: RecoveryClaim, d: RecoveryClaim)
    requires Coherent(s) && c in Do(s, a).claims && c !in s.claims && d in s.claims && d.id == c.id
    ensures |d.op.log| < |c.op.log|
  {
    hide Do, Coherent, ClaimTx, Leased, Logged;
    ClaimsFrom(s, a, c);
    ClaimKnown(s, d);
    ClaimLengthens(s.tables.ops[a.id], a.owner, a.lease, a.grace, a.token, a.attempt, s.now);
  }

  lemma ClaimsDistinctStep(s: Sys, a: Action)
    requires Coherent(s) && ClaimsDistinct(s)
    ensures ClaimsDistinct(Do(s, a))
  {
    hide Do, Coherent, Apply;
    forall c, d | c in Do(s, a).claims && d in Do(s, a).claims && c.id == d.id && |c.op.log| == |d.op.log|
      ensures c == d {
      if c !in s.claims && d !in s.claims {
        ClaimsFrom(s, a, c);
        ClaimsFrom(s, a, d);
      } else if c !in s.claims {
        NewClaimIsLatest(s, a, c, d);
      } else if d !in s.claims {
        NewClaimIsLatest(s, a, d, c);
      }
    }
  }

  lemma {:induction false} AlwaysDistinct(service: Profile, actions: seq<Action>)
    ensures ClaimsDistinct(Run(service, actions))
  {
    if actions != [] {
      hide Do, ClaimsDistinct;
      AlwaysDistinct(service, actions[..|actions| - 1]);
      AlwaysCoherent(service, actions[..|actions| - 1]);
      ClaimsDistinctStep(Run(service, actions[..|actions| - 1]), actions[|actions| - 1]);
    }
  }

  /**
   What displaces a live claim: an accepted receipt, an operator the store obeys, or the claim's
   own accepted result.
   */
  predicate Displaces(s: Sys, a: Action, c: RecoveryClaim) {
    var change := ChangeOf(s, a);
    change.Called? && change.id == c.id && CallOn(s.tables.ops, c.id, s.now, change.call).Ok? &&
    (change.call.Confirm? || change.call.RequestReconciliation? || change.call.Resolve? ||
     (a.SubmitResult? && a.result.claim == c))
  }

  /** Grants, retries and other claims bounce off a live claim; renewals leave it current. */
  lemma LeaseShields(op: Op, now: Time, call: Call)
    requires Schema(op) && op.row.leaseToken.Some? && op.row.leaseExpires.Some? && op.row.leaseExpires.value > now
    requires op.row.state.Prepared? || op.row.state.Uncertain?
    requires call.Authorize? || call.BeginRetry? || call.Claim? || call.Renew?
    ensures After(op, now, call).log == op.log
  {
  }

  lemma AcceptedClaimIs(s: Sys, c: RecoveryClaim, v: Verified)
    requires Coherent(s) && ClaimsDistinct(s) && c in s.claims && IsCurrent(s, c)
    requires v in s.verified && v.claim.id == c.id && Accepted(s, v)
    ensures v.claim == c
  {
    AcceptedIff(s, v);
    hide Accepted, Stored, Known, Leased;
  }

  /** While a claim is current and live, its lease protects the operation. */
  lemma LiveClaimLeases(s: Sys, c: RecoveryClaim)
    requires Coherent(s) && c in s.claims && IsCurrent(s, c) && IsLive(s, c)
    ensures var row := s.tables.ops[c.id].row;
      Stored(s.tables) && Schema(s.tables.ops[c.id]) && row.leaseToken.Some? &&
        (row.state.Prepared? || row.state.Uncertain?)
  {
    hide Logged, Replay, Schema, Stored;
    EachIsSound(s, c.id);
    ClaimKnown(s, c);
    assert Leased(c);
  }

  lemma LiveClaimStep(s: Sys, a: Action, c: RecoveryClaim)
    requires Coherent(s) && ClaimsDistinct(s) && c in s.claims
    requires IsCurrent(s, c) && IsLive(s, c) && !Displaces(s, a, c)
    ensures IsCurrent(Do(s, a), c)
  {
    hide Do, ChangeOf, Apply, Coherent, ClaimsDistinct, Schema, Stored, Accepted;
    LiveClaimLeases(s, c);
    OpExact(s, a, c.id);
    var op, change := s.tables.ops[c.id], ChangeOf(s, a);
    if change.Called? && change.id == c.id {
      if change.call.Submit? {
        SubmitIsVerified(s, a);
        if Accepted(s, a.result) {
          AcceptedClaimIs(s, c, a.result);
        } else {
          RefusedChangesNothing(s, a.result);
        }
      } else if Apply(op, s.now, change.call).Ok? {
        LeaseShields(op, s.now, change.call);
      }
    }
  }

  /** The claim stayed live and nothing displaced it during `more`. */
  ghost predicate Undisturbed(service: Profile, actions: seq<Action>, more: seq<Action>, c: RecoveryClaim) {
    forall k | 0 <= k < |more| ::
      var m := Run(service, actions + more[..k]);
      IsLive(m, c) && !Displaces(m, more[k], c)
  }

  lemma UndisturbedPrefix(service: Profile, actions: seq<Action>, before: seq<Action>, a: Action, c: RecoveryClaim)
    requires Undisturbed(service, actions, before + [a], c)
    ensures Undisturbed(service, actions, before, c)
    ensures IsLive(Run(service, actions + before), c) && !Displaces(Run(service, actions + before), a, c)
  {
    hide Run, IsLive, Displaces;
    var more := before + [a];
    assert more[..|before|] == before && more[|before|] == a;
    forall k | 0 <= k < |before|
      ensures IsLive(Run(service, actions + before[..k]), c) &&
        !Displaces(Run(service, actions + before[..k]), before[k], c)
    {
      assert before[..k] == more[..k] && before[k] == more[k];
    }
  }

  lemma {:induction false} LiveClaimStaysCurrent(service: Profile, actions: seq<Action>, more: seq<Action>,
      c: RecoveryClaim)
    requires c in Run(service, actions).claims && IsCurrent(Run(service, actions), c)
    requires Undisturbed(service, actions, more, c)
    ensures IsCurrent(Run(service, actions + more), c)
  {
    hide Run, Do, IsLive, IsCurrent, Displaces, Coherent, ClaimsDistinct, Later, Undisturbed;
    if more == [] {
      assert actions + more == actions;
    } else {
      var before, a := more[..|more| - 1], more[|more| - 1];
      assert more == before + [a] && actions + more == (actions + before) + [a];
      UndisturbedPrefix(service, actions, before, a, c);
      LiveClaimStaysCurrent(service, actions, before, c);
      RunAppend(service, actions + before, a);
      RunLater(service, actions, before);
      AlwaysCoherent(service, actions + before);
      AlwaysDistinct(service, actions + before);
      LiveClaimStep(Run(service, actions + before), a, c);
    }
  }

  /**
   An unexpired claim's first result is refused only if the store accepted a confirmation or
   obeyed an operator in between: otherwise, whatever else is attempted, any observation the
   verifier makes is accepted.
   */
  lemma LiveClaimsAreHonoured(service: Profile, actions: seq<Action>, more: seq<Action>, v: Verified)
    requires v.claim in Run(service, actions).claims && IsCurrent(Run(service, actions), v.claim)
    requires Undisturbed(service, actions, more, v.claim)
    requires v in Run(service, actions + more).verified && IsLive(Run(service, actions + more), v.claim)
    ensures Accepted(Run(service, actions + more), v)
  {
    LiveClaimStaysCurrent(service, actions, more, v.claim);
    AlwaysCoherent(service, actions + more);
    AcceptedIff(Run(service, actions + more), v);
  }

  // ---- Uncertain waits for an operator

  /** Uncertain with no verification scheduled. */
  predicate AwaitsOperator(op: Op) {
    op.row.state.Uncertain? && op.row.nextReconcileAt.None?
  }

  lemma EntersAwaiting(op: Op, now: Time, call: Call)
    requires !op.row.state.Uncertain? && After(op, now, call).row.state.Uncertain?
    ensures AwaitsOperator(After(op, now, call))
  {
  }

  /** The store obeys an operator. */
  predicate Obeys(op: Op, now: Time, call: Call) {
    (call.RequestReconciliation? || call.Resolve?) && Apply(op, now, call).Ok?
  }

  predicate Intervenes(s: Sys, a: Action, id: OpId) {
    var change := ChangeOf(s, a);
    change.Called? && change.id == id && id in s.tables.ops && Obeys(s.tables.ops[id], s.now, change.call)
  }

  lemma AwaitingHolds(op: Op, now: Time, call: Call)
    requires Schema(op) && AwaitsOperator(op) && !Obeys(op, now, call) && !(call.Submit? && Apply(op, now, call).Ok?)
    ensures SameButExpiry(op, After(op, now, call))
  {
  }

  lemma AwaitingRefusesResults(s: Sys, v: Verified)
    requires Coherent(s) && v in s.verified && v.claim.id in s.tables.ops && AwaitsOperator(s.tables.ops[v.claim.id])
    ensures !Apply(s.tables.ops[v.claim.id], s.now, Submit(ResultOf(v))).Ok?
  {
    hide Stored, Known;
    ClaimKnown(s, v.claim);
    if Accepted(s, v) {
      SubmissionsExpected(s, v);
    }
  }

  lemma AwaitingStep(s: Sys, a: Action, id: OpId)
    requires Coherent(s) && id in s.tables.ops && AwaitsOperator(s.tables.ops[id])
    requires !Intervenes(s, a, id)
    ensures id in Do(s, a).tables.ops && SameButExpiry(s.tables.ops[id], Do(s, a).tables.ops[id])
  {
    OpExact(s, a, id);
    EachIsSound(s, id);
    hide Do, ChangeOf, Coherent, Apply, Schema, SameButExpiry, AwaitsOperator, ResultOf;
    var change := ChangeOf(s, a);
    if change.Called? && change.id == id {
      if change.call.Submit? {
        SubmitIsVerified(s, a);
        AwaitingRefusesResults(s, a.result);
      }
      AwaitingHolds(s.tables.ops[id], s.now, change.call);
    } else {
      SameIsSame(s.tables.ops[id]);
    }
  }

  lemma SameIsSame(op: Op)
    ensures SameButExpiry(op, op)
  {
  }

  lemma EachIsSound(s: Sys, id: OpId)
    requires Coherent(s) && id in s.tables.ops
    ensures Sound(s.tables.ops[id]) && Schema(s.tables.ops[id])
  {
  }

  /** The store obeys no operator about the operation during `more`. */
  ghost predicate Unattended(service: Profile, actions: seq<Action>, more: seq<Action>, id: OpId) {
    forall k | 0 <= k < |more| :: !Intervenes(Run(service, actions + more[..k]), more[k], id)
  }

  lemma UnattendedPrefix(service: Profile, actions: seq<Action>, before: seq<Action>, a: Action, id: OpId)
    requires Unattended(service, actions, before + [a], id)
    ensures Unattended(service, actions, before, id) && !Intervenes(Run(service, actions + before), a, id)
  {
    hide Run, Intervenes;
    var more := before + [a];
    assert more[..|before|] == before && more[|before|] == a;
    forall k | 0 <= k < |before| ensures !Intervenes(Run(service, actions + before[..k]), before[k], id) {
      assert before[..k] == more[..k] && before[k] == more[k];
    }
  }

  /**
   An uncertain operation stays exactly as it is, with no grant, claim, retry or confirmation,
   until the store obeys an operator.
   */
  lemma {:induction false} UncertainWaits(service: Profile, actions: seq<Action>, more: seq<Action>, id: OpId)
    requires id in Run(service, actions).tables.ops && AwaitsOperator(Run(service, actions).tables.ops[id])
    requires Unattended(service, actions, more, id)
    ensures id in Run(service, actions + more).tables.ops
    ensures SameButExpiry(Run(service, actions).tables.ops[id], Run(service, actions + more).tables.ops[id])
  {
    hide Run, Do, ChangeOf, Coherent, Unattended;
    if more == [] {
      assert actions + more == actions;
    } else {
      var before, a := more[..|more| - 1], more[|more| - 1];
      assert more == before + [a] && actions + more == (actions + before) + [a];
      UnattendedPrefix(service, actions, before, a, id);
      UncertainWaits(service, actions, before, id);
      RunAppend(service, actions + before, a);
      AlwaysCoherent(service, actions + before);
      AwaitingStep(Run(service, actions + before), a, id);
    }
  }

  // ---- Stale workers are never granted

  /** A grant goes only to a worker whose copy is the present moment: no claim, retry or other event has intervened. */
  lemma GrantsAreFresh(service: Profile, actions: seq<Action>, p: nat)
    requires Granted(Run(service, actions), Action.Grant(p), p)
    ensures var s := Run(service, actions);
      var c := s.processes[p].pc.copy;
      c.id in s.tables.ops && c.op.log == s.tables.ops[c.id].log && SameButExpiry(c.op, s.tables.ops[c.id])
  {
    hide Run, Coherent, Granted;
    AlwaysCoherent(service, actions);
    GrantedCopy(Run(service, actions), Action.Grant(p), p);
    GrantedKnown(Run(service, actions), p);
  }

  lemma GrantedKnown(s: Sys, p: nat)
    requires Granted(s, Action.Grant(p), p)
    ensures s.processes[p].pc.copy.id in s.tables.ops
  {
  }
}
