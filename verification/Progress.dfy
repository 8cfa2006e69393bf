/**
 What the protocol achieves when it is left alone: from every reachable state an undisturbed step
 is carried out and confirmed, and a step whose reply was lost is reconciled by a coordinator and
 acknowledged without a second email.
 */
module Progress {
  import opened Domain
  import opened Transactions
  import opened Ledger
  import opened Verifier
  import opened Protocol
  import opened History
  import opened Evolution
  import opened Coherence
  import opened Steps
  import opened Completion
  import opened Answers
  import opened Workers

  /** The database and the service have never heard of this operation. */
  ghost predicate Unheard(s: Sys, request: PrepareRequest, id: OpId, receipt: ReceiptId) {
    && (forall j :: !StoredFor(s.tables, j, request)) && !MetadataDiffer(s.tables, request)
    && id !in s.tables.ops && id !in s.ledger.keys && Unused(s.ledger, receipt)
  }

  /** Only the tables, the process and the network have moved. */
  predicate SameElsewhere(s: Sys, s': Sys) {
    s'.now == s.now && s'.service == s.service && s'.ledger == s.ledger && s'.sent == s.sent && s'.wire == s.wire
  }

  lemma PrepareElsewhere(s: Sys, p: nat, id: OpId)
    ensures SameElsewhere(s, Do(s, Action.Prepare(p, id)))
  {
    hide PrepareTx;
  }

  lemma PrepareSucceeds(s: Sys, p: nat, plan: seq<PrepareRequest>, step: nat, id: OpId, receipt: ReceiptId)
    requires Indexed(s.tables) && Stands(s, p, plan, step, Preparing) && Unheard(s, plan[step], id, receipt)
    ensures var s' := Do(s, Action.Prepare(p, id));
      && SameElsewhere(s, s') && id in s'.tables.ops
      && Stands(s', p, plan, step, Looping(Copy(id, s'.tables.ops[id])))
      && Begins(s'.tables.ops[id], s.now) && Reflects(s'.tables.ops[id].row.intent, plan[step], s.now)
  {
    hide PrepareTx, Do;
    PrepareInserts(s.tables, plan[step], id, s.now);
    PrepareMoves(s, p, plan, step, id);
    PrepareStores(s, p, plan, step, id);
    PrepareElsewhere(s, p, id);
  }

  lemma CalledStores(s: Sys, a: Action, id: OpId, call: Call)
    requires ChangeOf(s, a) == Called(id, call) && id in s.tables.ops && Apply(s.tables.ops[id], s.now, call).Ok?
    ensures Do(s, a).tables == s.tables.(ops := s.tables.ops[id := Apply(s.tables.ops[id], s.now, call).value])
  {
    hide Do, ChangeOf, Apply;
    ChangeExact(s, a);
  }

  lemma GrantElsewhere(s: Sys, p: nat)
    ensures SameElsewhere(s, Do(s, Action.Grant(p)))
  {
    hide CallOn;
  }

  lemma GrantCalls(s: Sys, p: nat, plan: seq<PrepareRequest>, step: nat, c: Copy)
    requires Stands(s, p, plan, step, Looping(c)) && c.op.row.state.Prepared? && !c.op.row.dispatchAuthorized
    ensures ChangeOf(s, Action.Grant(p)) == Called(c.id, Authorize(c.op.row.version))
  {
  }

  lemma GrantSucceeds(s: Sys, p: nat, plan: seq<PrepareRequest>, step: nat, id: OpId)
    requires id in s.tables.ops && Stands(s, p, plan, step, Looping(Copy(id, s.tables.ops[id])))
    requires s.tables.ops[id].row.state.Prepared? && !s.tables.ops[id].row.dispatchAuthorized
    requires s.tables.ops[id].row.leaseToken.None?
    ensures var s' := Do(s, Action.Grant(p)); var op := s.tables.ops[id];
      && SameElsewhere(s, s') && id in s'.tables.ops
      && Stands(s', p, plan, step, Sending(Copy(id, s'.tables.ops[id])))
      && s'.tables.ops[id].row == op.row.(dispatchAuthorized := true, version := op.row.version + 1)
      && s'.tables.ops[id].receipt == op.receipt
  {
    hide Do, Apply, ChangeOf;
    var c := Copy(id, s.tables.ops[id]);
    AuthorizeMeans(c.op, c.op.row.version, s.now);
    GrantCalls(s, p, plan, step, c);
    CalledStores(s, Action.Grant(p), id, Authorize(c.op.row.version));
    GrantMoves(s, p, plan, step, c);
    GrantElsewhere(s, p);
  }

  lemma SendSucceeds(s: Sys, p: nat, plan: seq<PrepareRequest>, step: nat, c: Copy)
    requires Stands(s, p, plan, step, Sending(c))
    ensures var s' := Do(s, Action.Send(p));
      && Stands(s', p, plan, step, Awaiting(c, s.sent)) && s.sent in s'.wire
      && s'.wire[s.sent].operation == c.id && s'.wire[s.sent].fields == plan[step].fields
      && (s'.wire[s.sent].key.Some? ==> s'.wire[s.sent].key.value == c.id)
      && s'.now == s.now && s'.service == s.service && s'.ledger == s.ledger && s'.tables == s.tables
  {
  }

  lemma DeliverSucceeds(s: Sys, p: nat, plan: seq<PrepareRequest>, step: nat, c: Copy, n: nat, receipt: ReceiptId)
    requires Stands(s, p, plan, step, Awaiting(c, n)) && n in s.wire
    requires s.wire[n].operation == c.id && s.wire[n].fields == plan[step].fields && Complete(plan[step].fields)
    requires s.wire[n].key.Some? ==> s.wire[n].key.value == c.id && c.id !in s.ledger.keys
    requires Consistent(s.ledger) && Unused(s.ledger, receipt)
    ensures var s' := Do(s, Deliver(n, receipt));
      && Stands(s', p, plan, step, Awaiting(c, n)) && n in s'.replies && s'.replies[n] == Receipt(receipt, c.id, s.now)
      && s'.ledger.effects == s.ledger.effects + [Effect(receipt, c.id, plan[step].fields, s.now)]
      && s'.now == s.now && s'.service == s.service && s'.tables == s.tables
  {
    hide CommitTx;
    CommitMeans(s.ledger, Gate(s.service, s.wire[n]), receipt, s.now);
  }

  lemma ReceiveElsewhere(s: Sys, p: nat)
    ensures var s' := Do(s, Receive(p)); SameElsewhere(s, s') && s'.tables == s.tables
  {
  }

  lemma ConfirmElsewhere(s: Sys, p: nat)
    ensures SameElsewhere(s, Do(s, ConfirmReceipt(p)))
  {
    hide CallOn;
  }

  lemma ConfirmCalls(s: Sys, p: nat, plan: seq<PrepareRequest>, step: nat, c: Copy, receipt: Receipt)
    requires Stands(s, p, plan, step, Confirming(c, c.op, receipt, 0))
    ensures ChangeOf(s, ConfirmReceipt(p)) == Called(c.id, Call.Confirm(ConfirmationOf(c.op, receipt)))
  {
    hide ConfirmationOf;
  }

  lemma ConfirmSucceeds(s: Sys, p: nat, plan: seq<PrepareRequest>, step: nat, c: Copy, receipt: Receipt)
    requires Stands(s, p, plan, step, Confirming(c, c.op, receipt, 0))
    requires c.id in s.tables.ops && s.tables.ops[c.id] == c.op && c.op.row.state.Prepared? && Schema(c.op)
    ensures var s' := Do(s, ConfirmReceipt(p));
      && SameElsewhere(s, s') && Advanced(s', p, plan, step, c.id) && c.id in s'.tables.ops
      && s'.tables.ops[c.id].row.state.Confirmed?
      && s'.tables.ops[c.id].receipt == Some(StoredReceipt(receipt.id, receipt, receipt.committedAt))
  {
    hide Do, Apply, ChangeOf, Schema;
    var confirmation := ConfirmationOf(c.op, receipt);
    ConfirmMeans(c.op, confirmation, s.now);
    ConfirmCalls(s, p, plan, step, c, receipt);
    CalledStores(s, ConfirmReceipt(p), c.id, Call.Confirm(confirmation));
    ConfirmMoves(s, p, plan, step, c, c.op, receipt, 0);
    ConfirmElsewhere(s, p);
  }

  /** The state after these actions, from any state. */
  ghost function Follow(s: Sys, path: seq<Action>): Sys
    decreases |path|
  {
    if path == [] then s else Follow(Do(s, path[0]), path[1..])
  }

  lemma {:induction false} RunFollows(service: Profile, actions: seq<Action>, path: seq<Action>)
    ensures Run(service, actions + path) == Follow(Run(service, actions), path)
    decreases |path|
  {
    hide Do, Run;
    if path == [] {
      assert actions + path == actions;
    } else {
      RunAppend(service, actions, path[0]);
      RunFollows(service, actions + [path[0]], path[1..]);
      assert (actions + [path[0]]) + path[1..] == actions + path;
    }
  }

  // ---- Nothing goes wrong

  function Undisturbed(p: nat, id: OpId, n: nat, receipt: ReceiptId): seq<Action> {
    [Action.Prepare(p, id), Action.Grant(p), Action.Send(p), Deliver(n, receipt), Receive(p), ConfirmReceipt(p)]
  }

  lemma FollowUndisturbed(s: Sys, p: nat, id: OpId, n: nat, receipt: ReceiptId)
    ensures Follow(s, Undisturbed(p, id, n, receipt)) ==
      Do(Do(Do(Do(Do(Do(s, Action.Prepare(p, id)), Action.Grant(p)), Action.Send(p)), Deliver(n, receipt)),
        Receive(p)), ConfirmReceipt(p))
  {
    hide Do;
    var a, b, c, d := Do(s, Action.Prepare(p, id)), Action.Send(p), Deliver(n, receipt), Receive(p);
    FollowOne(s, Action.Prepare(p, id), [Action.Grant(p), b, c, d, ConfirmReceipt(p)]);
    FollowOne(a, Action.Grant(p), [b, c, d, ConfirmReceipt(p)]);
    FollowOne(Do(a, Action.Grant(p)), b, [c, d, ConfirmReceipt(p)]);
    FollowOne(Do(Do(a, Action.Grant(p)), b), c, [d, ConfirmReceipt(p)]);
    FollowOne(Do(Do(Do(a, Action.Grant(p)), b), c), d, [ConfirmReceipt(p)]);
    FollowOne(Do(Do(Do(Do(a, Action.Grant(p)), b), c), d), ConfirmReceipt(p), []);
  }

  lemma FollowOne(s: Sys, a: Action, rest: seq<Action>)
    ensures Follow(s, [a] + rest) == Follow(Do(s, a), rest)
    ensures forall path | path == [a] + rest :: Follow(s, path) == Follow(Do(s, a), rest)
    ensures rest == [] ==> Follow(s, [a]) == Do(s, a)
  {
    hide Do;
    assert ([a] + rest)[1..] == rest;
  }

  /**
   From every reachable state, a worker about to prepare a step that nobody has heard of is done with it
   after six undisturbed actions: one email, committed once, and its receipt stored.
   */
  lemma UndisturbedStepCompletes(service: Profile, actions: seq<Action>, p: nat, plan: seq<PrepareRequest>, step: nat,
      id: OpId, receipt: ReceiptId)
    requires var s := Run(service, actions);
      Stands(s, p, plan, step, Preparing) && Unheard(s, plan[step], id, receipt) && Complete(plan[step].fields)
    ensures var s := Run(service, actions); var s' := Run(service, actions + Undisturbed(p, id, s.sent, receipt));
      && Advanced(s', p, plan, step, id) && id in s'.tables.ops && s'.tables.ops[id].row.state.Confirmed?
      && s'.ledger.effects == s.ledger.effects + [Effect(receipt, id, plan[step].fields, s.now)]
      && s'.tables.ops[id].receipt == Some(StoredReceipt(receipt, Receipt(receipt, id, s.now), s.now))
  {
    hide Do, Run, Coherent, Unheard, Advanced, Follow, Complete;
    var s := Run(service, actions);
    RunFollows(service, actions, Undisturbed(p, id, s.sent, receipt));
    AlwaysTrustworthy(service, actions);
    UndisturbedSteps(s, p, plan, step, id, receipt);
  }

  lemma UndisturbedSteps(s: Sys, p: nat, plan: seq<PrepareRequest>, step: nat, id: OpId, receipt: ReceiptId)
    requires Trustworthy(s) && Stands(s, p, plan, step, Preparing) && Complete(plan[step].fields)
    requires Unheard(s, plan[step], id, receipt)
    ensures var s' := Follow(s, Undisturbed(p, id, s.sent, receipt));
      && Advanced(s', p, plan, step, id) && id in s'.tables.ops && s'.tables.ops[id].row.state.Confirmed?
      && s'.ledger.effects == s.ledger.effects + [Effect(receipt, id, plan[step].fields, s.now)]
      && s'.tables.ops[id].receipt == Some(StoredReceipt(receipt, Receipt(receipt, id, s.now), s.now))
  {
    hide Do, Follow, Coherent, Advanced, Complete, OnPlan, Faithful, ReceiptsBacked, CompletionsBacked, Schema;
    FollowUndisturbed(s, p, id, s.sent, receipt);
    StoredNow(s);
    StoredIsIndexed(s.tables);
    PrepareSucceeds(s, p, plan, step, id, receipt);
    var s1 := Do(s, Action.Prepare(p, id));
    GrantSucceeds(s1, p, plan, step, id);
    var s2 := Do(s1, Action.Grant(p));
    var c := Copy(id, s2.tables.ops[id]);
    SendSucceeds(s2, p, plan, step, c);
    var s3 := Do(s2, Action.Send(p));
    DeliverSucceeds(s3, p, plan, step, c, s.sent, receipt);
    var s4 := Do(s3, Deliver(s.sent, receipt));
    ReceiveMoves(s4, p, plan, step, c, s.sent);
    ReceiveElsewhere(s4, p);
    var s5 := Do(s4, Receive(p));
    CoherentStep(s, Action.Prepare(p, id));
    CoherentStep(s1, Action.Grant(p));
    StoredSchema(s2, id);
    ConfirmSucceeds(s5, p, plan, step, c, s4.replies[s.sent]);
  }

  lemma StoredSchema(s: Sys, id: OpId)
    requires Coherent(s) && id in s.tables.ops
    ensures Schema(s.tables.ops[id])
  {
  }

  // ---- The reply was lost

  /** A coordinator's claim, as it asks for it. */
  datatype Asking = Asking(owner: string, lease: Time, grace: Time, token: Token, attempt: AttemptId)

  function ClaimCall(k: Asking): Call {
    Claim(k.owner, k.lease, k.grace, k.token, k.attempt)
  }

  /** Prepared and neither leased nor scheduled, past the grace period at this time, and the attempt ID is new. */
  ghost predicate Abandoned(op: Op, k: Asking, at: Time) {
    && op.row.state.Prepared? && op.row.nextReconcileAt.None? && op.row.leaseExpires.None?
    && op.row.preparedAt + k.grace <= at && k.lease > 0 && forall a | a in op.attempts :: a.id != k.attempt
  }

  lemma ClaimSucceeds(s: Sys, id: OpId, k: Asking)
    requires id in s.tables.ops && Schema(s.tables.ops[id]) && Abandoned(s.tables.ops[id], k, s.now)
    ensures var r := Apply(s.tables.ops[id], s.now, ClaimCall(k));
      var s' := Do(s, ClaimFor(id, k.owner, k.lease, k.grace, k.token, k.attempt));
      && r.Ok? && RecoveryClaim(id, r.value, k.token, k.attempt) in s'.claims
      && s'.tables == s.tables.(ops := s.tables.ops[id := r.value])
      && s'.processes == s.processes && SameElsewhere(s, s')
  {
    hide Apply, Schema;
    ClaimMeans(s.tables.ops[id], k.owner, k.lease, k.grace, k.token, k.attempt, s.now);
  }

  lemma VerifySucceeds(s: Sys, claim: RecoveryClaim)
    requires claim in s.claims
    ensures var v := Verified(claim, Observe(s.service, s.ledger.effects, claim.id, claim.op.row.intent, Delivered));
      var s' := Do(s, VerifyClaim(claim, Delivered));
      v in s'.verified && s'.tables == s.tables && s'.processes == s.processes && SameElsewhere(s, s')
  {
    hide Observe;
  }

  /** The result that a claim's evidence of completion leads to. */
  lemma CompletionAccepted(op: Op, k: Asking, o: Observation, at: Time)
    requires Schema(op) && Abandoned(op, k, at) && Apply(op, at, ClaimCall(k)).Ok?
    requires Schema(Apply(op, at, ClaimCall(k)).value)
    requires ValidObservation(o) && o.authoritative && o.outcome.Completed?
    ensures var claimed := Apply(op, at, ClaimCall(k)).value;
      var r := Apply(claimed, at, Submit(RecoveryResult(k.token, claimed.row.version, k.attempt, o)));
      r.Ok? && r.value.row.state.Reconciled?
  {
    ClaimMeans(op, k.owner, k.lease, k.grace, k.token, k.attempt, at);
    hide Apply, Schema;
    var claimed := Apply(op, at, ClaimCall(k)).value;
    var result := RecoveryResult(k.token, claimed.row.version, k.attempt, o);
    assert claimed.attempts[|op.attempts|] == Attempt(k.attempt, |op.attempts| + 1, k.owner, None, None);
    SubmitAcceptedIff(claimed, result, at);
    SubmitDecides(claimed, result, at);
  }

  lemma SubmitSucceeds(s: Sys, v: Verified)
    requires v in s.verified && v.claim.id in s.tables.ops
    requires Apply(s.tables.ops[v.claim.id], s.now, Submit(ResultOf(v))).Ok?
    ensures var s' := Do(s, SubmitResult(v));
      && s'.tables == s.tables.(ops := s.tables.ops[v.claim.id :=
           Apply(s.tables.ops[v.claim.id], s.now, Submit(ResultOf(v))).value])
      && s'.processes == s.processes && SameElsewhere(s, s')
  {
    hide Apply, ResultOf;
  }

  lemma ReadElsewhere(s: Sys, p: nat)
    ensures SameElsewhere(s, Do(s, Poll(p, true))) && Do(s, Poll(p, true)).tables == s.tables
    ensures SameElsewhere(s, Do(s, Acknowledge(p))) && Do(s, Acknowledge(p)).tables == s.tables
  {
  }

  /** What the coordinator gets hold of and concludes, after this much time. */
  ghost function ClaimAfter(s: Sys, id: OpId, k: Asking, elapsed: nat): RecoveryClaim
    requires id in s.tables.ops && Apply(s.tables.ops[id], s.now + elapsed, ClaimCall(k)).Ok?
  {
    RecoveryClaim(id, Apply(s.tables.ops[id], s.now + elapsed, ClaimCall(k)).value, k.token, k.attempt)
  }

  function Evidence(s: Sys, claim: RecoveryClaim): Verified {
    Verified(claim, Observe(s.service, s.ledger.effects, claim.id, claim.op.row.intent, Delivered))
  }

  function Recovery(p: nat, k: Asking, v: Verified): seq<Action> {
    [ClaimFor(v.claim.id, k.owner, k.lease, k.grace, k.token, k.attempt), VerifyClaim(v.claim, Delivered),
     SubmitResult(v), Poll(p, true), Acknowledge(p)]
  }

  lemma FollowRecovery(s: Sys, p: nat, k: Asking, v: Verified)
    ensures Follow(s, Recovery(p, k, v)) ==
      Do(Do(Do(Do(Do(s, ClaimFor(v.claim.id, k.owner, k.lease, k.grace, k.token, k.attempt)),
        VerifyClaim(v.claim, Delivered)), SubmitResult(v)), Poll(p, true)), Acknowledge(p))
  {
    hide Do;
    var a, b := ClaimFor(v.claim.id, k.owner, k.lease, k.grace, k.token, k.attempt), VerifyClaim(v.claim, Delivered);
    FollowOne(s, a, [b, SubmitResult(v), Poll(p, true), Acknowledge(p)]);
    FollowOne(Do(s, a), b, [SubmitResult(v), Poll(p, true), Acknowledge(p)]);
    FollowOne(Do(Do(s, a), b), SubmitResult(v), [Poll(p, true), Acknowledge(p)]);
    FollowOne(Do(Do(Do(s, a), b), SubmitResult(v)), Poll(p, true), [Acknowledge(p)]);
    FollowOne(Do(Do(Do(Do(s, a), b), SubmitResult(v)), Poll(p, true)), Acknowledge(p), []);
  }

  lemma AbandonedIsClaimed(op: Op, k: Asking, at: Time)
    requires Schema(op) && Abandoned(op, k, at)
    ensures var r := Apply(op, at, ClaimCall(k));
      r.Ok? && Schema(r.value) && r.value.row.intent == op.row.intent
  {
    hide Apply, Schema;
    ClaimMeans(op, k.owner, k.lease, k.grace, k.token, k.attempt, at);
    SchemaStep(op, at, ClaimCall(k));
  }

  /** This verification of this claim proves the effect of an abandoned operation. */
  ghost predicate Concludes(s: Sys, id: OpId, k: Asking, v: Verified) {
    && id in s.tables.ops && Abandoned(s.tables.ops[id], k, s.now)
    && Apply(s.tables.ops[id], s.now, ClaimCall(k)).Ok? && v == Evidence(s, ClaimAfter(s, id, k, 0))
    && v.observation.authoritative && v.observation.outcome.Completed?
  }

  /** The worker goes on, the operation is reconciled, and neither an email nor an effect is added. */
  predicate Recovered(s: Sys, s': Sys, p: nat, plan: seq<PrepareRequest>, step: nat, id: OpId) {
    && Advanced(s', p, plan, step, id) && id in s'.tables.ops && s'.tables.ops[id].row.state.Reconciled?
    && s'.ledger == s.ledger && s'.sent == s.sent && s'.wire == s.wire
  }

  lemma RecoverySteps(s: Sys, p: nat, plan: seq<PrepareRequest>, step: nat, c: Copy, k: Asking, v: Verified)
    requires Coherent(s) && Stands(s, p, plan, step, Polling(c)) && Concludes(s, c.id, k, v)
    ensures Recovered(s, Follow(s, Recovery(p, k, v)), p, plan, step, c.id)
  {
    hide Do, Apply, Coherent, Schema, Abandoned, Observe, Advanced, Follow;
    FollowRecovery(s, p, k, v);
    var op := s.tables.ops[c.id];
    StoredSchema(s, c.id);
    AbandonedIsClaimed(op, k, s.now);
    CompletionAccepted(op, k, v.observation, s.now);
    ClaimSucceeds(s, c.id, k);
    var s1 := Do(s, ClaimFor(c.id, k.owner, k.lease, k.grace, k.token, k.attempt));
    VerifySucceeds(s1, v.claim);
    var s2 := Do(s1, VerifyClaim(v.claim, Delivered));
    SubmitSucceeds(s2, v);
    var s3 := Do(s2, SubmitResult(v));
    PollMoves(s3, p, plan, step, c, true);
    ReadElsewhere(s3, p);
    var s4 := Do(s3, Poll(p, true));
    AcknowledgeMoves(s4, p, plan, step, Copy(c.id, s3.tables.ops[c.id]));
    ReadElsewhere(s4, p);
  }

  lemma TimePasses(s: Sys, elapsed: nat)
    ensures Do(s, Tick(elapsed)) == s.(now := s.now + elapsed)
  {
  }

  /**
   From every reachable state in which a worker waits for an abandoned operation whose effect the service
   can prove, a coordinator's undisturbed round lets the worker go on: the operation is reconciled, and
   neither an email nor an effect is added.
   */
  lemma LostReplyIsRecovered(service: Profile, actions: seq<Action>, p: nat, plan: seq<PrepareRequest>, step: nat,
      c: Copy, k: Asking, elapsed: nat)
    requires var s := Run(service, actions);
      && Stands(s, p, plan, step, Polling(c)) && c.id in s.tables.ops
      && Abandoned(s.tables.ops[c.id], k, s.now + elapsed)
      && var o := Observe(s.service, s.ledger.effects, c.id, s.tables.ops[c.id].row.intent, Delivered);
         o.authoritative && o.outcome.Completed?
    ensures var s := Run(service, actions);
      && Apply(s.tables.ops[c.id], s.now + elapsed, ClaimCall(k)).Ok?
      && var v := Evidence(s, ClaimAfter(s, c.id, k, elapsed));
         Recovered(s, Run(service, actions + [Tick(elapsed)] + Recovery(p, k, v)), p, plan, step, c.id)
  {
    hide Do, Run, Apply, Coherent, Schema, Abandoned, Observe, Advanced, Follow;
    var s := Run(service, actions);
    AlwaysCoherent(service, actions);
    StoredSchema(s, c.id);
    AbandonedIsClaimed(s.tables.ops[c.id], k, s.now + elapsed);
    var v := Evidence(s, ClaimAfter(s, c.id, k, elapsed));
    AlwaysCoherent(service, actions + [Tick(elapsed)]);
    RunAppend(service, actions, Tick(elapsed));
    TimePasses(s, elapsed);
    RunFollows(service, actions + [Tick(elapsed)], Recovery(p, k, v));
    RecoverySteps(Do(s, Tick(elapsed)), p, plan, step, c, k, v);
  }
}
