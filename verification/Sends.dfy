/**
 At most one effect. A dispatch grant turns into a send held by a process, then into a
 request on the wire, then into an effect in the ledger; each place holds it at most once. For
 an operation whose profile and service do not both honour idempotency keys a second grant is
 impossible; for the others the service's key table absorbs repeated sends.
 */
module Sends {
  import opened Domain
  import opened Transactions
  import opened Ledger
  import opened Verifier
  import opened Protocol
  import opened History
  import opened Evolution
  import opened Coherence

  // ---- What an action does to the wire and the ledger

  lemma SendExact(s: Sys, p: nat)
    ensures var s' := DoWork(s, Action.Send(p));
      if Runs(s, p) && s.processes[p].pc.Sending? then
        && s'.sent == s.sent + 1
        && s'.wire == s.wire[
             s.sent := RequestOf(s.processes[p].pc.copy, s.processes[p].plan[s.processes[p].step].fields)]
      else s' == s
  {
  }

  lemma WireExact(s: Sys, a: Action, n: nat)
    requires n in Do(s, a).wire && (forall m | m in s.wire :: m < s.sent)
    ensures if n in s.wire then
        Do(s, a).wire[n] == s.wire[n] && !(a.Deliver? && a.n == n) && n < Do(s, a).sent
      else
        && a.Send? && Runs(s, a.p) && s.processes[a.p].pc.Sending? && n == s.sent < Do(s, a).sent
        && Do(s, a).wire[n] == RequestOf(s.processes[a.p].pc.copy, s.processes[a.p].plan[s.processes[a.p].step].fields)
  {
    hide DoWork, Apply, PrepareTx, CommitTx, Observe;
    WorkFrame(s, a);
    if a.Send? { SendExact(s, a.p); }
  }

  /** The request reaches Commit, which accepts it. */
  predicate Commits(s: Sys, n: nat, id: ReceiptId) {
    n in s.wire && Complete(s.wire[n].fields) && CommitTx(s.ledger, Gate(s.service, s.wire[n]), id, s.now).Ok?
  }

  lemma LedgerExact(s: Sys, a: Action)
    ensures if a.Deliver? && Commits(s, a.n, a.id) then
        && Do(s, a).ledger == CommitTx(s.ledger, Gate(s.service, s.wire[a.n]), a.id, s.now).value.ledger
        && Do(s, a).replies == s.replies[
             a.n := ReceiptOf(CommitTx(s.ledger, Gate(s.service, s.wire[a.n]), a.id, s.now).value.effect)]
      else Do(s, a).ledger == s.ledger && Do(s, a).replies == s.replies
  {
    hide DoWork, Apply, PrepareTx, CommitTx, Observe;
    WorkFrame(s, a);
  }

  /** A commit appends at most one effect, and that one is the request's. */
  lemma EffectsExact(s: Sys, a: Action)
    ensures var effects, effects' := s.ledger.effects, Do(s, a).ledger.effects;
      || effects' == effects
      || (a.Deliver? && a.n in s.wire && |effects'| == |effects| + 1 && effects'[..|effects|] == effects
          && effects'[|effects|].operation == s.wire[a.n].operation && effects'[|effects|].fields == s.wire[a.n].fields)
  {
    LedgerExact(s, a);
    hide Do, EffectIndex;
  }

  lemma EffectOrigin(s: Sys, a: Action, e: Effect)
    requires e in Do(s, a).ledger.effects && e !in s.ledger.effects
    ensures a.Deliver? && a.n in s.wire && e.operation == s.wire[a.n].operation && e.fields == s.wire[a.n].fields
  {
    EffectsExact(s, a);
    hide Do;
    var effects, effects' := s.ledger.effects, Do(s, a).ledger.effects;
    assert effects' == effects'[..|effects|] + effects'[|effects|..];
  }

  lemma EffectsStay(s: Sys, a: Action)
    ensures forall e | e in s.ledger.effects :: e in Do(s, a).ledger.effects
  {
    EffectsExact(s, a);
    hide Do;
    var effects, effects' := s.ledger.effects, Do(s, a).ledger.effects;
    assert effects' == effects || effects' == effects + effects'[|effects|..];
  }

  /** A process is about to send only if it was, or was just granted the dispatch. */
  predicate Granted(s: Sys, a: Action, p: nat) {
    a == Action.Grant(p) && Runs(s, p) && s.processes[p].pc.Looping? &&
    var c := s.processes[p].pc.copy;
    c.id in s.tables.ops && Apply(s.tables.ops[c.id], s.now, Authorize(c.op.row.version)).Ok?
  }

  /** Only a granted dispatch makes a process about to send. */
  lemma SendingByCall(s: Sys, a: Action, p: nat)
    requires a.Prepare? || a.Retry? || a.Grant? || a.Send?
    requires Actor(a) == Some(p) && p in Do(s, a).processes && Do(s, a).processes[p].pc.Sending?
    ensures if Granted(s, a, p) then
        Do(s, a).processes[p].pc.copy.id == s.processes[p].pc.copy.id
      else
        && p in s.processes && s.processes[p] == Do(s, a).processes[p]
        && !(a == Action.Send(p) && Runs(s, p))
  {
    hide Apply, PrepareTx;
  }

  lemma SendingElsewhere(s: Sys, a: Action, p: nat)
    requires !(a.Prepare? || a.Retry? || a.Grant? || a.Send?)
    requires Actor(a) == Some(p) && p in Do(s, a).processes && Do(s, a).processes[p].pc.Sending?
    ensures p in s.processes && s.processes[p] == Do(s, a).processes[p]
  {
    hide Apply, Terminal;
  }

  lemma SendingExact(s: Sys, a: Action, p: nat)
    requires p in Do(s, a).processes && Do(s, a).processes[p].pc.Sending?
    ensures if Granted(s, a, p) then
        Do(s, a).processes[p].pc.copy.id == s.processes[p].pc.copy.id
      else
        && p in s.processes && s.processes[p] == Do(s, a).processes[p]
        && !(a == Action.Send(p) && Runs(s, p))
  {
    hide Do, Apply;
    if Actor(a) != Some(p) {
      OthersStay(s, a, p);
    } else if a.Prepare? || a.Retry? || a.Grant? || a.Send? {
      SendingByCall(s, a, p);
    } else {
      SendingElsewhere(s, a, p);
    }
  }

  // ---- Where a send of an operation can be

  datatype Place = Held(p: nat) | OnWire(n: nat) | Landed(i: nat)

  predicate At(s: Sys, id: OpId, place: Place) {
    match place
    case Held(p) => Runs(s, p) && s.processes[p].pc.Sending? && s.processes[p].pc.copy.id == id
    case OnWire(n) => n in s.wire && s.wire[n].operation == id
    case Landed(i) => i < |s.ledger.effects| && s.ledger.effects[i].operation == id
  }

  /** Where a send that is now at `place` was before the action. */
  function Before(s: Sys, a: Action, place: Place): Place {
    if a.Send? && place == OnWire(s.sent) then Held(a.p)
    else if a.Deliver? && place == Landed(|s.ledger.effects|) then OnWire(a.n)
    else place
  }

  predicate GrantedFor(s: Sys, a: Action, id: OpId) {
    a.Grant? && Granted(s, a, a.p) && s.processes[a.p].pc.copy.id == id
  }

  lemma SendsMove(s: Sys, a: Action, id: OpId, place: Place)
    requires At(Do(s, a), id, place) && (forall n | n in s.wire :: n < s.sent)
    ensures At(s, id, Before(s, a, place)) || (GrantedFor(s, a, id) && place == Held(a.p))
  {
    match place
    case Held(p) => SendingExact(s, a, p);
    case OnWire(n) => WireExact(s, a, n);
    case Landed(i) =>
      EffectsExact(s, a);
      assert i < |s.ledger.effects| ==> Do(s, a).ledger.effects[..|s.ledger.effects|] == s.ledger.effects;
  }

  lemma SendsDoNotFork(s: Sys, a: Action, id: OpId, x: Place, y: Place)
    requires At(Do(s, a), id, x) && At(Do(s, a), id, y) && (forall n | n in s.wire :: n < s.sent)
    requires Before(s, a, x) == Before(s, a, y)
    ensures x == y
  {
    if x.Held? { SendingExact(s, a, x.p); }
    if y.Held? { SendingExact(s, a, y.p); }
    if x.OnWire? { WireExact(s, a, x.n); }
    if y.OnWire? { WireExact(s, a, y.n); }
    hide Do;
  }

  // ---- Every send belongs to a stored operation; keyed effects are on record

  /** The operation and the service both honour idempotency keys. */
  predicate Keyed(s: Sys, id: OpId) {
    s.service.IdempotencyOnly? && id in s.tables.ops && s.tables.ops[id].row.intent.profile.IdempotencyOnly?
  }

  ghost predicate RequestTracked(s: Sys, r: Request) {
    && r.operation in s.tables.ops
    && r.key == if s.tables.ops[r.operation].row.intent.profile.IdempotencyOnly? then Some(r.operation) else None
  }

  ghost predicate EffectTracked(s: Sys, e: Effect) {
    && e.operation in s.tables.ops
    && (Keyed(s, e.operation) ==> e.operation in s.ledger.keys && s.ledger.keys[e.operation].receipt == e.id)
  }

  ghost predicate Tracked(s: Sys) {
    && (forall n | n in s.wire :: n < s.sent)
    && (forall n | n in s.wire :: RequestTracked(s, s.wire[n]))
    && (forall e | e in s.ledger.effects :: EffectTracked(s, e))
    && Consistent(s.ledger)
  }

  lemma RequestStays(s: Sys, s': Sys, r: Request)
    requires RequestTracked(s, r) && Later(s.tables, s'.tables)
    ensures RequestTracked(s', r)
  {
    assert Evolves(s.tables.ops[r.operation], s'.tables.ops[r.operation]);
  }

  lemma SentIsTracked(s: Sys, c: Copy, fields: Fields)
    requires Known(s.tables, c.id, c.op)
    ensures RequestTracked(s, RequestOf(c, fields))
  {
  }

  lemma RequestsStayTracked(s: Sys, a: Action)
    requires Coherent(s) && Tracked(s)
    ensures var s' := Do(s, a);
      && (forall n | n in s'.wire :: n < s'.sent)
      && (forall n | n in s'.wire :: RequestTracked(s', s'.wire[n]))
  {
    var s' := Do(s, a);
    TablesStep(s, a);
    hide Do, Stored, Known, Leased, EffectTracked, Consistent, Later, RequestTracked, RequestOf;
    forall n | n in s'.wire ensures n < s'.sent && RequestTracked(s', s'.wire[n]) {
      WireExact(s, a, n);
      if n !in s.wire {
        var c := s.processes[a.p].pc.copy;
        assert c in CopiesOf(s.processes[a.p].pc);
        SentIsTracked(s, c, s.processes[a.p].plan[s.processes[a.p].step].fields);
        RequestStays(s, s', s'.wire[n]);
      } else {
        RequestStays(s, s', s'.wire[n]);
      }
    }
  }

  /** A commit under a key finds or writes the key's row; without one it only appends. */
  lemma CommitRecords(l: Ledger, r: Request, id: ReceiptId, now: Time)
    requires CommitTx(l, r, id, now).Ok?
    ensures var l' := CommitTx(l, r, id, now).value.ledger;
      && (forall k | k in l.keys :: k in l'.keys && l'.keys[k] == l.keys[k])
      && (forall e | e in l'.effects && e !in l.effects ::
            e.operation == r.operation &&
              (r.key.Some? ==> r.key.value in l'.keys && l'.keys[r.key.value].receipt == e.id))
  {
    hide EffectIndex;
  }

  lemma EffectsStayTracked(s: Sys, a: Action)
    requires Coherent(s) && Tracked(s)
    ensures Consistent(Do(s, a).ledger)
    ensures forall e | e in Do(s, a).ledger.effects :: EffectTracked(Do(s, a), e)
  {
    hide Do, Stored, Sound, Logged, Leased, Coherent, SameButExpiry, CommitTx, Consistent;
    var s' := Do(s, a);
    TablesStep(s, a);
    LedgerExact(s, a);
    ClaimsGrow(s, a);
    if a.Deliver? && Commits(s, a.n, a.id) {
      CommitRecords(s.ledger, Gate(s.service, s.wire[a.n]), a.id, s.now);
      ConsistentStep(s.ledger, Gate(s.service, s.wire[a.n]), a.id, s.now);
    }
  }

  lemma TrackedStep(s: Sys, a: Action)
    requires Coherent(s) && Tracked(s)
    ensures Tracked(Do(s, a))
  {
    RequestsStayTracked(s, a);
    EffectsStayTracked(s, a);
    hide Do, Consistent, RequestTracked, EffectTracked;
  }

  // ---- One send for an unkeyed operation

  /** The store accepts an operator's word that the effect is absent, which permits another dispatch. */
  predicate Releases(s: Sys, a: Action, id: OpId) {
    var change := ChangeOf(s, a);
    && change.Called? && change.id == id && change.call.Resolve? && change.call.outcome.ManuallyAbsent?
    && id in s.tables.ops && Apply(s.tables.ops[id], s.now, change.call).Ok?
  }

  /** Permission to repeat is only ever reported where keys are honoured. */
  ghost predicate RepeatsSound(s: Sys) {
    forall v | v in s.verified && v.observation.authoritative && v.observation.mechanism.IdempotentRepeat? ::
      s.service.IdempotencyOnly? && v.claim.op.row.intent.profile.IdempotencyOnly?
  }

  lemma RepeatsSoundStep(s: Sys, a: Action)
    requires RepeatsSound(s)
    ensures RepeatsSound(Do(s, a))
  {
    var s' := Do(s, a);
    ClaimsGrow(s, a);
    forall v | v in s'.verified && v !in s.verified
      ensures v.observation.authoritative && v.observation.mechanism.IdempotentRepeat? ==>
        s.service.IdempotencyOnly? && v.claim.op.row.intent.profile.IdempotencyOnly?
    {
      VerifiedExact(s, a, v);
      ObservationSound(s.service, s.ledger.effects, a.claim.id, a.claim.op.row.intent, a.network);
    }
    hide Do, Observe;
  }

  /** Once granted, an unkeyed operation is never retried by the protocol itself. */
  lemma GrantIsFinal(op: Op, now: Time, call: Call)
    requires op.row.dispatchAuthorized && !op.row.state.Retryable?
    requires call.Submit? ==>
      var o := call.result.observation;
      o.authoritative && o.mechanism.IdempotentRepeat? ==> !op.row.intent.profile.IdempotencyOnly?
    requires !(call.Resolve? && call.outcome.ManuallyAbsent? && Apply(op, now, call).Ok?)
    ensures After(op, now, call).row.dispatchAuthorized && !After(op, now, call).row.state.Retryable?
  {
  }

  /** A send of the operation is held by a worker, on the wire, or has landed in the ledger. */
  ghost predicate Sent(s: Sys, id: OpId) {
    exists x :: At(s, id, x)
  }

  /** There is one send at most, and while there is one its grant stands. */
  ghost predicate SingleSend(s: Sys, id: OpId) {
    && (forall x, y | At(s, id, x) && At(s, id, y) :: x == y)
    && (forall x | At(s, id, x) ::
          id in s.tables.ops && s.tables.ops[id].row.dispatchAuthorized && !s.tables.ops[id].row.state.Retryable?)
  }

  lemma RepeatsNeedKeys(s: Sys, a: Action, id: OpId, r: RecoveryResult)
    requires Coherent(s) && RepeatsSound(s) && id in s.tables.ops && ChangeOf(s, a) == Called(id, Submit(r))
    requires r.observation.authoritative && r.observation.mechanism.IdempotentRepeat?
    ensures Keyed(s, id)
  {
    SubmitIsVerified(s, a);
    assert Known(s.tables, id, a.result.claim.op);
    hide ChangeOf, Stored, Logged, Leased;
  }

  /** The grant of an unkeyed operation survives every action but a release. */
  lemma RowsStep(s: Sys, a: Action, id: OpId)
    requires Coherent(s) && RepeatsSound(s) && id in s.tables.ops && !Keyed(s, id) && !Releases(s, a, id)
    requires s.tables.ops[id].row.dispatchAuthorized && !s.tables.ops[id].row.state.Retryable?
    ensures id in Do(s, a).tables.ops
    ensures Do(s, a).tables.ops[id].row.dispatchAuthorized && !Do(s, a).tables.ops[id].row.state.Retryable?
  {
    hide Do, ChangeOf, Apply, After, Known, Leased, RepeatsSound, Stored;
    OpExact(s, a, id);
    var change := ChangeOf(s, a);
    if change.Called? && change.id == id {
      var call := change.call;
      if call.Submit? && call.result.observation.authoritative && call.result.observation.mechanism.IdempotentRepeat? {
        RepeatsNeedKeys(s, a, id, call.result);
      }
      GrantIsFinal(s.tables.ops[id], s.now, call);
    }
  }

  /** A granted worker's copy is the present moment. */
  lemma GrantedCopy(s: Sys, a: Action, p: nat)
    requires Coherent(s) && Granted(s, a, p)
    ensures Stored(s.tables)
    ensures SameButExpiry(s.processes[p].pc.copy.op, s.tables.ops[s.processes[p].pc.copy.id])
  {
    hide Leased, Evolves, Chained, Replay;
    var c := s.processes[p].pc.copy;
    assert c in CopiesOf(s.processes[p].pc) && Known(s.tables, c.id, c.op);
    GrantChecksVersion(s.tables.ops[c.id], s.now, c.op.row.version);
    SameVersionSameMoment(c.op, s.tables.ops[c.id]);
  }

  lemma GrantChecksVersion(op: Op, now: Time, version: nat)
    requires Apply(op, now, Authorize(version)).Ok?
    ensures op.row.state.Prepared? && op.row.version == version && !op.row.dispatchAuthorized
  {
  }

  lemma GrantIsCall(s: Sys, a: Action, id: OpId)
    requires Coherent(s) && GrantedFor(s, a, id)
    ensures Stored(s.tables) && id in s.tables.ops
    ensures ChangeOf(s, a) == Called(id, Authorize(s.processes[a.p].pc.copy.op.row.version))
    ensures Apply(s.tables.ops[id], s.now, Authorize(s.processes[a.p].pc.copy.op.row.version)).Ok?
  {
    hide Coherent, Stored, Apply;
    GrantedCopy(s, a, a.p);
    GrantChecksVersion(s.tables.ops[id], s.now, s.processes[a.p].pc.copy.op.row.version);
  }

  lemma AuthorizeSetsFlag(op: Op, now: Time, version: nat)
    requires Apply(op, now, Authorize(version)).Ok?
    ensures !op.row.dispatchAuthorized
    ensures After(op, now, Authorize(version)).row.dispatchAuthorized &&
      After(op, now, Authorize(version)).row.state.Prepared?
  {
  }

  lemma GrantSetsFlag(s: Sys, a: Action, id: OpId)
    requires Coherent(s) && GrantedFor(s, a, id)
    ensures id in s.tables.ops && !s.tables.ops[id].row.dispatchAuthorized
    ensures id in Do(s, a).tables.ops
    ensures Do(s, a).tables.ops[id].row.dispatchAuthorized && !Do(s, a).tables.ops[id].row.state.Retryable?
  {
    hide Do, Coherent, GrantedFor, Stored, ChangeOf, Apply, After;
    GrantIsCall(s, a, id);
    OpExact(s, a, id);
    AuthorizeSetsFlag(s.tables.ops[id], s.now, ChangeOf(s, a).call.version);
  }

  lemma SendsStayGranted(s: Sys, a: Action, id: OpId, x: Place)
    requires Coherent(s) && Tracked(s) && RepeatsSound(s)
    requires SingleSend(s, id) && id in s.tables.ops && !Keyed(s, id)
    requires Releases(s, a, id) ==> !Sent(s, id)
    requires At(Do(s, a), id, x)
    ensures id in Do(s, a).tables.ops
    ensures Do(s, a).tables.ops[id].row.dispatchAuthorized && !Do(s, a).tables.ops[id].row.state.Retryable?
  {
    hide Do, Coherent, RepeatsSound, Releases, At, Before, GrantedFor, Keyed, Consistent, RequestTracked, EffectTracked;
    SendsMove(s, a, id, x);
    if GrantedFor(s, a, id) {
      GrantSetsFlag(s, a, id);
    } else {
      assert Sent(s, id);
      RowsStep(s, a, id);
    }
  }

  lemma SendsStaySingle(s: Sys, a: Action, id: OpId, x: Place, y: Place)
    requires Coherent(s) && Tracked(s) && SingleSend(s, id)
    requires At(Do(s, a), id, x) && At(Do(s, a), id, y)
    ensures x == y
  {
    hide Do, Coherent, At, Before, GrantedFor, Consistent, RequestTracked, EffectTracked;
    SendsMove(s, a, id, x);
    SendsMove(s, a, id, y);
    if GrantedFor(s, a, id) {
      GrantSetsFlag(s, a, id);
    } else {
      SendsDoNotFork(s, a, id, x, y);
    }
  }

  /** Every action keeps the single send, an operator's release included when nothing has been sent. */
  lemma SingleSendStep(s: Sys, a: Action, id: OpId)
    requires Coherent(s) && Tracked(s) && RepeatsSound(s)
    requires SingleSend(s, id) && id in s.tables.ops && !Keyed(s, id)
    requires Releases(s, a, id) ==> !Sent(s, id)
    ensures SingleSend(Do(s, a), id)
  {
    hide Do, Coherent, Tracked, RepeatsSound, Releases, Sent, At, Keyed;
    forall x | At(Do(s, a), id, x)
      ensures id in Do(s, a).tables.ops
      ensures Do(s, a).tables.ops[id].row.dispatchAuthorized && !Do(s, a).tables.ops[id].row.state.Retryable?
    {
      SendsStayGranted(s, a, id, x);
    }
    forall x, y | At(Do(s, a), id, x) && At(Do(s, a), id, y) ensures x == y {
      SendsStaySingle(s, a, id, x, y);
    }
  }

  lemma SentIsStored(s: Sys, id: OpId, x: Place)
    requires Coherent(s) && Tracked(s) && At(s, id, x)
    ensures id in s.tables.ops
  {
    match x
    case Held(p) => assert s.processes[p].pc.copy in CopiesOf(s.processes[p].pc);
    case OnWire(n) => assert RequestTracked(s, s.wire[n]);
    case Landed(i) => assert EffectTracked(s, s.ledger.effects[i]);
  }

  lemma SendsAreOfOldOperations(s: Sys, a: Action, id: OpId)
    requires Coherent(s) && Tracked(s)
    ensures forall x | At(Do(s, a), id, x) :: id in s.tables.ops
  {
    assert forall n | n in s.wire :: n < s.sent;
    forall x | At(Do(s, a), id, x) ensures id in s.tables.ops {
      hide Do, Coherent, Tracked, At, Before;
      SendsMove(s, a, id, x);
      if !GrantedFor(s, a, id) {
        SentIsStored(s, id, Before(s, a, x));
      }
    }
  }

  /** Nothing has been sent for an operation that has only just been prepared. */
  lemma NewIsUnsent(s: Sys, a: Action, id: OpId)
    requires Coherent(s) && Tracked(s) && id !in s.tables.ops
    ensures SingleSend(Do(s, a), id)
  {
    hide Do, At;
    SendsAreOfOldOperations(s, a, id);
  }

  // ---- At most one effect

  ghost predicate Guarded(s: Sys) {
    Coherent(s) && Tracked(s) && RepeatsSound(s)
  }

  lemma {:induction false} AlwaysGuarded(service: Profile, actions: seq<Action>)
    ensures Guarded(Run(service, actions)) && Run(service, actions).service == service
  {
    if actions != [] {
      hide Do, Coherent, Tracked, RepeatsSound;
      var s, a := Run(service, actions[..|actions| - 1]), actions[|actions| - 1];
      AlwaysGuarded(service, actions[..|actions| - 1]);
      CoherentStep(s, a);
      TrackedStep(s, a);
      RepeatsSoundStep(s, a);
      ClaimsGrow(s, a);
    }
  }

  /** From action `start` on, operators declared the effect absent only while no send was outstanding or had landed. */
  ghost predicate CarefulSince(service: Profile, actions: seq<Action>, start: nat, id: OpId) {
    forall k | start <= k < |actions| ::
      Releases(Run(service, actions[..k]), actions[k], id) ==> !Sent(Run(service, actions[..k]), id)
  }

  ghost predicate Careful(service: Profile, actions: seq<Action>, id: OpId) {
    CarefulSince(service, actions, 0, id)
  }

  lemma CarefulPrefix(service: Profile, before: seq<Action>, a: Action, id: OpId)
    requires Careful(service, before + [a], id)
    ensures Careful(service, before, id)
    ensures Releases(Run(service, before), a, id) ==> !Sent(Run(service, before), id)
  {
    hide Run, Releases, Sent;
    var actions := before + [a];
    assert actions[..|before|] == before && actions[|before|] == a;
    forall k | 0 <= k < |before|
      ensures Releases(Run(service, before[..k]), before[k], id) ==> !Sent(Run(service, before[..k]), id)
    {
      assert before[..k] == actions[..k] && before[k] == actions[k];
    }
  }

  lemma KeyedBefore(s: Sys, a: Action, id: OpId)
    requires Coherent(s) && id in s.tables.ops && Keyed(s, id)
    ensures Keyed(Do(s, a), id)
  {
    hide Do, Coherent, Stored, Known;
    TablesStep(s, a);
    ClaimsGrow(s, a);
    assert Evolves(s.tables.ops[id], Do(s, a).tables.ops[id]);
  }

  lemma {:induction false} CarefulMeansSingle(service: Profile, actions: seq<Action>, id: OpId)
    requires Careful(service, actions, id) && !Keyed(Run(service, actions), id)
    ensures SingleSend(Run(service, actions), id)
  {
    if actions != [] {
      hide Do, Run, Careful, Keyed, SingleSend, Releases, Sent, Coherent, Tracked, RepeatsSound;
      var before, a := actions[..|actions| - 1], actions[|actions| - 1];
      assert actions == before + [a];
      CarefulPrefix(service, before, a, id);
      RunAppend(service, before, a);
      AlwaysGuarded(service, before);
      var s := Run(service, before);
      if id in s.tables.ops {
        if Keyed(s, id) { KeyedBefore(s, a, id); }
        CarefulMeansSingle(service, before, id);
        SingleSendStep(s, a, id);
      } else {
        NewIsUnsent(s, a, id);
      }
    }
  }

  /** The number of effects the ledger holds for an operation: the service's ground truth. */
  function EffectCount(s: Sys, id: OpId): nat {
    |Select(s.ledger.effects, ByOperation(id))|
  }

  lemma DistinctEffectsCount(s: Sys, id: OpId)
    requires Tracked(s) && (Keyed(s, id) || SingleSend(s, id))
    ensures EffectCount(s, id) <= 1
  {
    forall i, j | 0 <= i < j < |s.ledger.effects|
      ensures !(Matches(ByOperation(id), s.ledger.effects[i]) && Matches(ByOperation(id), s.ledger.effects[j]))
    {
      EffectsDistinct(s, id, i, j);
    }
    SelectAtMostOne(s.ledger.effects, ByOperation(id));
  }

  lemma EffectsDistinct(s: Sys, id: OpId, i: nat, j: nat)
    requires Tracked(s) && (Keyed(s, id) || SingleSend(s, id)) && i < j < |s.ledger.effects|
    ensures !(s.ledger.effects[i].operation == id && s.ledger.effects[j].operation == id)
  {
    assert EffectTracked(s, s.ledger.effects[i]) && EffectTracked(s, s.ledger.effects[j]);
    assert At(s, id, Landed(i)) <==> s.ledger.effects[i].operation == id;
    assert At(s, id, Landed(j)) <==> s.ledger.effects[j].operation == id;
  }

  /**
   In every interleaving, whatever crashes, late commits and lost replies it contains, and for
   every pairing of operation profile and service profile, an operation has at most one effect,
   provided that operators declared it absent only while nothing of it was outstanding or landed.
   */
  lemma AtMostOneEffect(service: Profile, actions: seq<Action>, id: OpId)
    requires Careful(service, actions, id)
    ensures EffectCount(Run(service, actions), id) <= 1
  {
    hide Run, Careful, Keyed, SingleSend, EffectCount, Coherent, Tracked, RepeatsSound;
    AlwaysGuarded(service, actions);
    if !Keyed(Run(service, actions), id) {
      CarefulMeansSingle(service, actions, id);
    }
    DistinctEffectsCount(Run(service, actions), id);
  }

  /** Where both sides honour keys, operations need no operator's restraint. */
  lemma AtMostOneKeyedEffect(service: Profile, actions: seq<Action>, id: OpId)
    requires Keyed(Run(service, actions), id)
    ensures EffectCount(Run(service, actions), id) <= 1
  {
    hide Run, Keyed, EffectCount, Coherent, Tracked, RepeatsSound;
    AlwaysGuarded(service, actions);
    DistinctEffectsCount(Run(service, actions), id);
  }
}
