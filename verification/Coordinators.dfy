/**
 The coordinator in the form it is written in (internal/recovery/coordinator.go): claim a batch,
 verify and submit each claim, count what was accepted. Its loops move in the same world as the
 worker's, take only steps of the composed system, and stop early for a fault alone.
 */
module Coordinators {
  import opened Domain
  import opened Transactions
  import opened Verifier
  import opened Protocol
  import opened Coherence
  import opened Rounds
  import opened Workers

  /** The m-th action submits a result for this claim, with what a verification of this claim observed. */
  ghost predicate SubmittedAt(service: Profile, trace: seq<Action>, m: nat, c: RecoveryClaim) {
    && m < |trace| && trace[m].SubmitResult? && trace[m].result.claim == c
    && exists j, n :: 0 <= j < m && ObservedAt(service, trace, j, c, n, trace[m].result.observation)
  }

  ghost predicate ObservedAt(service: Profile, trace: seq<Action>, j: nat, c: RecoveryClaim, n: Network,
      o: Observation) {
    && j < |trace| && trace[j] == VerifyClaim(c, n)
    && o == Observe(service, Run(service, trace[..j]).ledger.effects, c.id, c.op.row.intent, n)
  }

  /** The m-th action submits a result that the store accepts, and its reply comes back. */
  ghost predicate CountsAt(service: Profile, trace: seq<Action>, faults: set<nat>, m: nat) {
    m < |trace| && trace[m].SubmitResult? && Accepted(Run(service, trace[..m]), trace[m].result) && m !in faults
  }

  ghost function Counted(service: Profile, trace: seq<Action>, faults: set<nat>, at: seq<nat>): nat {
    if at == [] then 0
    else
      Counted(service, trace, faults, at[..|at| - 1]) +
        if CountsAt(service, trace, faults, at[|at| - 1]) then 1 else 0
  }

  lemma {:induction false} CountedLonger(service: Profile, before: seq<Action>, after: seq<Action>, faults: set<nat>,
      faults': set<nat>, at: seq<nat>)
    requires before <= after && forall m | 0 <= m < |before| :: m in faults <==> m in faults'
    requires forall k | 0 <= k < |at| :: at[k] < |before|
    ensures Counted(service, after, faults', at) == Counted(service, before, faults, at)
  {
    hide Run, Accepted;
    if at != [] {
      CountedLonger(service, before, after, faults, faults', at[..|at| - 1]);
      var m := at[|at| - 1];
      assert after[..m] == before[..m] && after[m] == before[m];
    }
  }

  lemma SubmittedLonger(service: Profile, before: seq<Action>, after: seq<Action>, m: nat, c: RecoveryClaim)
    requires before <= after && SubmittedAt(service, before, m, c)
    ensures SubmittedAt(service, after, m, c)
  {
    hide Run, Observe;
    var j, n :| 0 <= j < m && ObservedAt(service, before, j, c, n, before[m].result.observation);
    assert after[..j] == before[..j] && after[j] == before[j] && after[m] == before[m];
    assert ObservedAt(service, after, j, c, n, after[m].result.observation);
  }

  lemma ClaimAppears(s: Sys, id: OpId, owner: string, lease: Time, grace: Time, token: Token, attempt: AttemptId)
    ensures var r := CallOn(s.tables.ops, id, s.now, Claim(owner, lease, grace, token, attempt));
      r.Ok? ==>
        RecoveryClaim(id, r.value, token, attempt) in Do(s, ClaimFor(id, owner, lease, grace, token, attempt)).claims
    ensures s.claims <= Do(s, ClaimFor(id, owner, lease, grace, token, attempt)).claims
  {
    hide CallOn;
  }

  lemma VerifyRecords(s: Sys, c: RecoveryClaim, n: Network)
    requires c in s.claims
    ensures var v := Verified(c, Observe(s.service, s.ledger.effects, c.id, c.op.row.intent, n));
      v in Do(s, VerifyClaim(c, n)).verified
    ensures s.claims <= Do(s, VerifyClaim(c, n)).claims
  {
    hide Observe;
  }

  /** The claim transaction for the i-th picked row is accepted, in a batch that begins at this position. */
  ghost predicate TakenAt(service: Profile, trace: seq<Action>, start: nat, i: nat, owner: string, lease: Time,
      grace: Time, x: Pick) {
    && start + i <= |trace|
    && var s := Run(service, trace[..start + i]);
       CallOn(s.tables.ops, x.id, s.now, Claim(owner, lease, grace, x.token, x.attempt)).Ok?
  }

  predicate Includes(claims: seq<RecoveryClaim>, x: Pick) {
    exists c :: c in claims && c.id == x.id && c.token == x.token && c.attempt == x.attempt
  }

  /** One claim transaction over the rows the store picked: every row it grants is handed out. */
  method ClaimBatch(w: World, owner: string, lease: Time, grace: Time, picked: seq<Pick>)
      returns (claims: seq<RecoveryClaim>)
    requires w.Valid()
    modifies w`sys, w`trace
    ensures w.Valid() && old(w.trace) <= w.trace && |w.trace| == |old(w.trace)| + |picked| && |claims| <= |picked|
    ensures forall c | c in claims :: c in w.sys.claims
    ensures forall i | 0 <= i < |picked| &&
      TakenAt(w.service, w.trace, |old(w.trace)|, i, owner, lease, grace, picked[i])
      :: Includes(claims, picked[i])
  {
    hide Do, Run, CallOn;
    claims := [];
    for i := 0 to |picked|
      invariant w.Valid() && |w.trace| == |old(w.trace)| + i && old(w.trace) <= w.trace && |claims| <= i
      invariant forall c | c in claims :: c in w.sys.claims
      invariant forall k | 0 <= k < i && TakenAt(w.service, w.trace, |old(w.trace)|, k, owner, lease, grace, picked[k])
        :: Includes(claims, picked[k])
    {
      var x := picked[i];
      ghost var before, earlier := w.trace, claims;
      var r := CallOn(w.sys.tables.ops, x.id, w.sys.now, Claim(owner, lease, grace, x.token, x.attempt));
      ClaimAppears(w.sys, x.id, owner, lease, grace, x.token, x.attempt);
      w.Take(ClaimFor(x.id, owner, lease, grace, x.token, x.attempt));
      if r.Ok? { claims := claims + [RecoveryClaim(x.id, r.value, x.token, x.attempt)]; }
      assert w.trace[..|before|] == before;
      forall k | 0 <= k <= i && TakenAt(w.service, w.trace, |old(w.trace)|, k, owner, lease, grace, picked[k])
        ensures Includes(claims, picked[k])
      {
        if k < i {
          assert w.trace[..|old(w.trace)| + k] == before[..|old(w.trace)| + k];
          assert Includes(earlier, picked[k]);
        } else {
          assert claims[|claims| - 1].id == x.id;
        }
      }
    }
  }

  /** How one claim of the batch ends. */
  datatype Round = Interrupted | Skipped | Processed

  /** The m-th action records what this verification of the claim observed. */
  ghost predicate VerifiedAt(service: Profile, trace: seq<Action>, j: nat, v: Verified) {
    exists n :: ObservedAt(service, trace, j, v.claim, n, v.observation)
  }

  lemma VerifiedLonger(service: Profile, before: seq<Action>, after: seq<Action>, j: nat, v: Verified)
    requires before <= after && VerifiedAt(service, before, j, v)
    ensures VerifiedAt(service, after, j, v)
  {
    hide Run, Observe;
    var n :| ObservedAt(service, before, j, v.claim, n, v.observation);
    assert after[..j] == before[..j] && after[j] == before[j];
    assert ObservedAt(service, after, j, v.claim, n, v.observation);
  }

  /** Verifier.Verify for a claim, over a network that may lose or replace the replies. */
  method VerifyOne(w: World, claim: RecoveryClaim) returns (v: Verified, ghost j: nat)
    requires w.Valid() && claim in w.sys.claims
    modifies w`sys, w`trace
    ensures w.Valid() && old(w.trace) <= w.trace && old(w.sys.claims) <= w.sys.claims && !w.Faulty()
    ensures v.claim == claim && v in w.sys.verified && j < |w.trace| && VerifiedAt(w.service, w.trace, j, v)
  {
    hide Do, Run, Observe;
    w.Anyone();
    var network: Network := *;
    ghost var before := w.trace;
    j := |before|;
    v := Verified(claim, Observe(w.sys.service, w.sys.ledger.effects, claim.id, claim.op.row.intent, network));
    VerifyRecords(w.sys, claim, network);
    ServiceStays(w.service, w.trace);
    w.Take(VerifyClaim(claim, network));
    assert w.trace[..j] == before && w.trace[j] == VerifyClaim(claim, network);
    assert ObservedAt(w.service, w.trace, j, claim, network, v.observation);
    w.Anyone();
    VerifiedLonger(w.service, before + [VerifyClaim(claim, network)], w.trace, j, v);
  }

  /** SubmitRecoveryResult under the claim's own version, attempt and token. */
  method SubmitOne(w: World, v: Verified, ghost j: nat) returns (ok: bool, ghost at: nat)
    requires w.Valid() && !w.Faulty() && v.claim in w.sys.claims
    requires j < |w.trace| && VerifiedAt(w.service, w.trace, j, v)
    modifies w
    ensures w.Valid() && old(w.trace) <= w.trace && old(w.sys.claims) <= w.sys.claims && !w.Faulty()
    ensures forall m | 0 <= m < |old(w.trace)| :: m in w.faults <==> m in old(w.faults)
    ensures |old(w.trace)| <= at < |w.trace| && SubmittedAt(w.service, w.trace, at, v.claim)
    ensures ok <==> CountsAt(w.service, w.trace, w.faults, at)
  {
    hide Do, Run, Accepted, CallOn, Observe, VerifiedAt, ObservedAt;
    var lost := w.Fault();
    ghost var before := w.trace;
    at := |before|;
    var done := CallOn(w.sys.tables.ops, v.claim.id, w.sys.now, Submit(ResultOf(v))).Ok?;
    AcceptedIsOk(w.sys, v);
    VerifiedGrows(w.sys, SubmitResult(v));
    w.Take(SubmitResult(v));
    assert w.trace[..at] == before && w.trace[at] == SubmitResult(v);
    VerifiedLonger(w.service, before, w.trace, j, v);
    Submitted(w.service, w.trace, at, v, j);
    ok := done && !lost;
  }

  lemma Submitted(service: Profile, trace: seq<Action>, m: nat, v: Verified, j: nat)
    requires m < |trace| && trace[m] == SubmitResult(v) && j < m && VerifiedAt(service, trace, j, v)
    ensures SubmittedAt(service, trace, m, v.claim)
  {
    hide Run, Observe, ObservedAt;
  }

  /** The body of RunOnce's loop. */
  method ProcessClaim(w: World, claim: RecoveryClaim) returns (r: Round, ghost at: Option<nat>)
    requires w.Valid() && claim in w.sys.claims
    modifies w
    ensures w.Valid() && old(w.trace) <= w.trace && old(w.sys.claims) <= w.sys.claims
    ensures forall m | 0 <= m < |old(w.trace)| :: m in w.faults <==> m in old(w.faults)
    ensures at.Some? ==>
      |old(w.trace)| <= at.value < |w.trace| && SubmittedAt(w.service, w.trace, at.value, claim)
    ensures r.Interrupted? ==> w.Faulty()
    ensures !r.Interrupted? ==> at.Some? && (r.Processed? <==> CountsAt(w.service, w.trace, w.faults, at.value))
  {
    hide Do, Run, Accepted, VerifiedAt, ObservedAt, SubmittedAt;
    var stopped := w.Fault();                       // recovery_claimed
    if stopped { return Interrupted, None; }
    var v; ghost var j;
    v, j := VerifyOne(w, claim);
    stopped := w.Fault();                           // coordinator_before_result
    if stopped { return Interrupted, None; }
    var ok; ghost var m;
    ok, m := SubmitOne(w, v, j);
    at := Some(m);
    if !ok { return Skipped, at; }
    stopped := w.Fault();                           // coordinator_after_result
    r := if stopped then Interrupted else Processed;
  }

  /** RunOnce's loop: every claim in turn, until a hook fails; `at` is where the results were submitted. */
  method ProcessAll(w: World, claims: seq<RecoveryClaim>) returns (processed: nat, failed: bool, ghost at: seq<nat>)
    requires w.Valid() && forall c | c in claims :: c in w.sys.claims
    modifies w
    ensures w.Valid() && old(w.trace) <= w.trace && |at| <= |claims|
    ensures forall k | 0 <= k < |at| :: SubmittedAt(w.service, w.trace, at[k], claims[k])
    ensures forall j, k | 0 <= j < k < |at| :: at[j] < at[k]
    ensures failed ==> w.Faulty()
    ensures !failed ==> |at| == |claims| && processed == Counted(w.service, w.trace, w.faults, at)
    ensures processed <= Counted(w.service, w.trace, w.faults, at) <= processed + 1
  {
    hide Do, Run, CountsAt, SubmittedAt;
    processed, failed, at := 0, false, [];
    for i := 0 to |claims|
      invariant w.Valid() && old(w.trace) <= w.trace && !failed && |at| == i
      invariant forall c | c in claims :: c in w.sys.claims
      invariant forall k | 0 <= k < |at| :: at[k] < |w.trace| && SubmittedAt(w.service, w.trace, at[k], claims[k])
      invariant forall j, k | 0 <= j < k < |at| :: at[j] < at[k]
      invariant processed == Counted(w.service, w.trace, w.faults, at)
    {
      ghost var before, faults := w.trace, w.faults;
      var round; ghost var m;
      round, m := ProcessClaim(w, claims[i]);
      forall k | 0 <= k < |at| ensures SubmittedAt(w.service, w.trace, at[k], claims[k]) {
        SubmittedLonger(w.service, before, w.trace, at[k], claims[k]);
      }
      CountedLonger(w.service, before, w.trace, faults, w.faults, at);
      if m.Some? {
        CountedAppend(w.service, w.trace, w.faults, at, m.value);
        at := at + [m.value];
      }
      match round {
        case Interrupted => failed := true; return;
        case Processed => processed := processed + 1;
        case Skipped =>
      }
    }
  }

  /**
   Claim, then process: every row the store grants is handed out, every claim is submitted unless a hook
   fails, and what is counted is what the store accepted and said so.
   */
  method RunOnce(w: World, owner: string, lease: Time, grace: Time, picked: seq<Pick>)
      returns (processed: nat, failed: bool, ghost claims: seq<RecoveryClaim>, ghost at: seq<nat>)
    requires w.Valid()
    modifies w
    ensures w.Valid() && old(w.trace) <= w.trace && |at| <= |claims| <= |picked|
    ensures forall i | 0 <= i < |picked| &&
      TakenAt(w.service, w.trace, |old(w.trace)|, i, owner, lease, grace, picked[i])
      :: Includes(claims, picked[i])
    ensures forall k | 0 <= k < |at| :: SubmittedAt(w.service, w.trace, at[k], claims[k])
    ensures forall j, k | 0 <= j < k < |at| :: at[j] < at[k]
    ensures failed ==> w.Faulty()
    ensures !failed ==> |at| == |claims| && processed == Counted(w.service, w.trace, w.faults, at)
    ensures processed <= Counted(w.service, w.trace, w.faults, at) <= processed + 1
  {
    hide Do, Run, CountsAt, SubmittedAt, TakenAt, Includes;
    ghost var start := |w.trace|;
    var batch := ClaimBatch(w, owner, lease, grace, picked);
    claims := batch;
    ghost var first := w.trace;
    failed := w.Fault();                            // the reply with the claims is lost
    if failed { return 0, true, batch, []; }
    processed, failed, at := ProcessAll(w, batch);
    forall i | 0 <= i < |picked| && TakenAt(w.service, w.trace, start, i, owner, lease, grace, picked[i])
      ensures Includes(claims, picked[i])
    {
      TakenEarlier(w.service, first, w.trace, start, i, owner, lease, grace, picked[i]);
    }
  }

  lemma TakenEarlier(service: Profile, before: seq<Action>, after: seq<Action>, start: nat, i: nat, owner: string,
      lease: Time, grace: Time, x: Pick)
    requires before <= after && start + i <= |before| && TakenAt(service, after, start, i, owner, lease, grace, x)
    ensures TakenAt(service, before, start, i, owner, lease, grace, x)
  {
    hide Run, CallOn;
    assert after[..start + i] == before[..start + i];
  }

  lemma CountedAppend(service: Profile, trace: seq<Action>, faults: set<nat>, at: seq<nat>, m: nat)
    ensures Counted(service, trace, faults, at + [m]) ==
      Counted(service, trace, faults, at) + if CountsAt(service, trace, faults, m) then 1 else 0
  {
    hide CountsAt;
    assert (at + [m])[..|at|] == at;
  }

  lemma AcceptedIsOk(s: Sys, v: Verified)
    ensures Accepted(s, v) <==> CallOn(s.tables.ops, v.claim.id, s.now, Submit(ResultOf(v))).Ok?
  {
    hide SubmitTx, ResultOf;
  }

  lemma {:induction false} ServiceStays(service: Profile, trace: seq<Action>)
    ensures Run(service, trace).service == service
  {
    if trace != [] {
      hide Do;
      ServiceStays(service, trace[..|trace| - 1]);
      ClaimsGrow(Run(service, trace[..|trace| - 1]), trace[|trace| - 1]);
    }
  }
}
