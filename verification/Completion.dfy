/**
 No false completion. Every receipt and every authoritative observation that travels through
 the system is backed by an effect in the ledger, and nothing but a receipt, such an
 observation or an operator's word makes an operation terminal.
 */
module Completion {
  import opened Domain
  import opened Transactions
  import opened Ledger
  import opened Verifier
  import opened Protocol
  import opened Evolution
  import opened Coherence
  import opened Sends
  import opened Steps

  /** The service really committed the effect this receipt speaks of. */
  ghost predicate Backed(effects: seq<Effect>, r: Receipt) {
    exists e :: e in effects && ReceiptOf(e) == r
  }

  ghost predicate ReceiptsBacked(s: Sys) {
    && (forall n | n in s.replies :: Backed(s.ledger.effects, s.replies[n]))
    && (forall p | Runs(s, p) && s.processes[p].pc.Confirming? ::
          s.processes[p].pc.receipt.operation == s.processes[p].pc.copy.id &&
            Backed(s.ledger.effects, s.processes[p].pc.receipt))
    && (forall m | m in s.confirms :: m.1.payload.operation == m.0 && Backed(s.ledger.effects, m.1.payload))
  }

  ghost predicate CompletionsBacked(s: Sys) {
    forall v | v in s.verified && v.observation.authoritative && v.observation.outcome.Completed? ::
      HasEvidence(s.ledger.effects, v.claim.id, v.claim.op.row.intent)
  }

  lemma BackedStays(s: Sys, a: Action, r: Receipt)
    requires Backed(s.ledger.effects, r)
    ensures Backed(Do(s, a).ledger.effects, r)
  {
    EffectsStay(s, a);
  }

  lemma EvidenceStays(s: Sys, a: Action, id: OpId, intent: Intent)
    requires HasEvidence(s.ledger.effects, id, intent)
    ensures HasEvidence(Do(s, a).ledger.effects, id, intent)
  {
    EffectsStay(s, a);
  }

  lemma ReplyBacked(s: Sys, a: Action, n: nat)
    requires n in Do(s, a).replies && (n in s.replies ==> Backed(s.ledger.effects, s.replies[n]))
    ensures Backed(Do(s, a).ledger.effects, Do(s, a).replies[n])
  {
    LedgerExact(s, a);
    if n in s.replies {
      BackedStays(s, a, s.replies[n]);
    }
    hide Do, EffectIndex;
    if a.Deliver? && Commits(s, a.n, a.id) && n == a.n {
      var c := CommitTx(s.ledger, Gate(s.service, s.wire[a.n]), a.id, s.now).value;
      assert c.effect in c.ledger.effects;
    }
  }

  lemma ConfirmingByCall(s: Sys, a: Action, p: nat)
    requires Actor(a) == Some(p) && (a.Start? || a.Prepare? || a.Retry? || a.Grant? || a.Send?)
    requires Runs(Do(s, a), p) && Do(s, a).processes[p].pc.Confirming?
    ensures Runs(s, p) && s.processes[p] == Do(s, a).processes[p]
  {
    hide Apply, PrepareTx;
  }

  lemma ConfirmingByReply(s: Sys, a: Action, p: nat)
    requires Actor(a) == Some(p) && !(a.Start? || a.Prepare? || a.Retry? || a.Grant? || a.Send?)
    requires Runs(Do(s, a), p) && Do(s, a).processes[p].pc.Confirming?
    ensures var pc := Do(s, a).processes[p].pc;
      || (Runs(s, p) && s.processes[p].pc.Confirming? && pc.receipt == s.processes[p].pc.receipt &&
        pc.copy.id == s.processes[p].pc.copy.id)
      || (exists n :: n in s.replies && pc.receipt == s.replies[n] && pc.receipt.operation == pc.copy.id)
  {
    hide Apply, Terminal;
  }

  /** A receipt reaches Worker.confirm only as a reply to this worker about its own operation. */
  lemma ConfirmingExact(s: Sys, a: Action, p: nat)
    requires Runs(Do(s, a), p) && Do(s, a).processes[p].pc.Confirming?
    ensures var pc := Do(s, a).processes[p].pc;
      || (Runs(s, p) && s.processes[p].pc.Confirming? && pc.receipt == s.processes[p].pc.receipt &&
        pc.copy.id == s.processes[p].pc.copy.id)
      || (exists n :: n in s.replies && pc.receipt == s.replies[n] && pc.receipt.operation == pc.copy.id)
  {
    hide Do;
    if Actor(a) != Some(p) {
      OthersStay(s, a, p);
    } else if a.Start? || a.Prepare? || a.Retry? || a.Grant? || a.Send? {
      ConfirmingByCall(s, a, p);
    } else {
      ConfirmingByReply(s, a, p);
    }
  }

  lemma IssueConfirmExact(s: Sys, p: nat)
    ensures DoWork(s, IssueConfirm(p)).confirms == s.confirms +
      if Runs(s, p) && s.processes[p].pc.Confirming?
      then {(s.processes[p].pc.copy.id, ConfirmationOf(s.processes[p].pc.current, s.processes[p].pc.receipt))}
      else {}
  {
  }

  lemma ConfirmsExact(s: Sys, a: Action, m: (OpId, Confirmation))
    requires m in Do(s, a).confirms && m !in s.confirms
    ensures a.IssueConfirm? && Runs(s, a.p) && s.processes[a.p].pc.Confirming?
    ensures m == (s.processes[a.p].pc.copy.id, ConfirmationOf(s.processes[a.p].pc.current, s.processes[a.p].pc.receipt))
  {
    hide DoWork, Apply, PrepareTx, CommitTx, Observe;
    WorkFrame(s, a);
    if a.IssueConfirm? { IssueConfirmExact(s, a.p); }
  }

  lemma ReceiptsBackedStep(s: Sys, a: Action)
    requires ReceiptsBacked(s)
    ensures ReceiptsBacked(Do(s, a))
  {
    hide Do, Backed;
    var s' := Do(s, a);
    forall n | n in s'.replies ensures Backed(s'.ledger.effects, s'.replies[n]) {
      ReplyBacked(s, a, n);
    }
    forall p | Runs(s', p) && s'.processes[p].pc.Confirming?
      ensures s'.processes[p].pc.receipt.operation == s'.processes[p].pc.copy.id &&
        Backed(s'.ledger.effects, s'.processes[p].pc.receipt)
    {
      ConfirmingExact(s, a, p);
      BackedStays(s, a, s'.processes[p].pc.receipt);
    }
    forall m | m in s'.confirms ensures m.1.payload.operation == m.0 && Backed(s'.ledger.effects, m.1.payload) {
      if m !in s.confirms {
        ConfirmsExact(s, a, m);
      }
      BackedStays(s, a, m.1.payload);
    }
  }

  lemma CompletionsBackedStep(s: Sys, a: Action)
    requires CompletionsBacked(s)
    ensures CompletionsBacked(Do(s, a))
  {
    hide Do, HasEvidence, Observe;
    var s' := Do(s, a);
    forall v | v in s'.verified && v.observation.authoritative && v.observation.outcome.Completed?
      ensures HasEvidence(s'.ledger.effects, v.claim.id, v.claim.op.row.intent)
    {
      if v !in s.verified {
        VerifiedExact(s, a, v);
        ObservationSound(s.service, s.ledger.effects, a.claim.id, a.claim.op.row.intent, a.network);
      }
      EvidenceStays(s, a, v.claim.id, v.claim.op.row.intent);
    }
  }

  // ---- What makes an operation terminal

  /** The store accepts an operator's word that the effect is complete. */
  predicate Vouches(s: Sys, a: Action, id: OpId) {
    var change := ChangeOf(s, a);
    && change.Called? && change.id == id && change.call.Resolve? && change.call.outcome.ManuallyCompleted?
    && id in s.tables.ops && Apply(s.tables.ops[id], s.now, change.call).Ok?
  }

  lemma TerminalBecause(op: Op, now: Time, call: Call)
    requires Terminal(After(op, now, call).row.state) && !Terminal(op.row.state)
    ensures Apply(op, now, call).Ok?
    ensures call.Confirm? || (call.Resolve? && call.outcome.ManuallyCompleted?) ||
      (call.Submit? && call.result.observation.authoritative && call.result.observation.outcome.Completed?)
  {
  }

  ghost predicate AcknowledgedDone(s: Sys) {
    forall id | id in s.acknowledged :: id in s.tables.ops && Terminal(s.tables.ops[id].row.state)
  }

  /** Every confirmation the store processes carries a receipt for that operation. */
  lemma ConfirmationBacked(s: Sys, a: Action, id: OpId, c: Confirmation)
    requires ReceiptsBacked(s) && ChangeOf(s, a) == Called(id, Call.Confirm(c))
    ensures c.payload.operation == id && Backed(s.ledger.effects, c.payload)
  {
    hide Backed;
  }

  ghost predicate Evident(s: Sys, id: OpId) {
    id in s.tables.ops && HasEvidence(s.ledger.effects, id, s.tables.ops[id].row.intent)
  }

  lemma CompletionCause(s: Sys, a: Action, id: OpId)
    requires Coherent(s) && ReceiptsBacked(s) && CompletionsBacked(s) && (Vouches(s, a, id) ==> Evident(s, id))
    requires id in s.tables.ops && !Terminal(s.tables.ops[id].row.state)
    requires id in Do(s, a).tables.ops && Terminal(Do(s, a).tables.ops[id].row.state)
    ensures Evident(s, id)
  {
    hide Do, ChangeOf, Apply, After, Stored, Leased, Backed, HasEvidence, ReceiptsBacked;
    OpExact(s, a, id);
    var call := ChangeOf(s, a).call;
    TerminalBecause(s.tables.ops[id], s.now, call);
    if call.Confirm? {
      ConfirmationBacked(s, a, id, call.confirmation);
      BackedIsEvidence(s.ledger.effects, call.confirmation.payload, s.tables.ops[id].row.intent);
    } else if call.Submit? {
      SubmitIsVerified(s, a);
      assert Known(s.tables, id, a.result.claim.op);
    }
  }

  lemma BackedIsEvidence(effects: seq<Effect>, r: Receipt, intent: Intent)
    requires Backed(effects, r)
    ensures HasEvidence(effects, r.operation, intent)
  {
    var e :| e in effects && ReceiptOf(e) == r;
    assert e.operation == r.operation;
  }

  lemma AcknowledgedDoneStep(s: Sys, a: Action)
    requires Coherent(s) && AcknowledgedDone(s)
    ensures AcknowledgedDone(Do(s, a))
  {
    hide Do, Stored, Known, Leased, Acknowledges, Coherent;
    var s' := Do(s, a);
    TablesStep(s, a);
    AcknowledgeExact(s, a);
    forall id | id in s'.acknowledged ensures id in s'.tables.ops && Terminal(s'.tables.ops[id].row.state) {
      if id in s.acknowledged {
        assert Evolves(s.tables.ops[id], s'.tables.ops[id]);
      } else {
        AcknowledgedIsTerminal(s, a, id);
      }
    }
  }

  /** An operation that is, or becomes, terminal has its evidence. */
  lemma EvidentStep(s: Sys, a: Action, id: OpId)
    requires Coherent(s) && ReceiptsBacked(s) && CompletionsBacked(s)
    requires id in s.tables.ops && Terminal(s.tables.ops[id].row.state) ==> Evident(s, id)
    requires Vouches(s, a, id) ==> Evident(s, id)
    requires id in Do(s, a).tables.ops && Terminal(Do(s, a).tables.ops[id].row.state)
    ensures Evident(Do(s, a), id)
  {
    hide Do, ChangeOf, Coherent, ReceiptsBacked, CompletionsBacked, HasEvidence, Stored, Vouches;
    StoredNow(s);
    TablesStep(s, a);
    if id !in s.tables.ops {
      NewExact(s, a, id);
    } else {
      assert Evolves(s.tables.ops[id], Do(s, a).tables.ops[id]);
      if !Terminal(s.tables.ops[id].row.state) {
        CompletionCause(s, a, id);
      }
      EvidenceStays(s, a, id, s.tables.ops[id].row.intent);
    }
  }

  lemma StoredNow(s: Sys)
    requires Coherent(s)
    ensures Stored(s.tables)
  {
  }

  ghost predicate Trustworthy(s: Sys) {
    && Coherent(s) && Tracked(s) && OnPlan(s) && Faithful(s)
    && ReceiptsBacked(s) && CompletionsBacked(s) && AcknowledgedDone(s)
  }

  lemma {:induction false} AlwaysTrustworthy(service: Profile, actions: seq<Action>)
    ensures Trustworthy(Run(service, actions))
  {
    if actions != [] {
      hide Do, Coherent, Tracked, OnPlan, Faithful, ReceiptsBacked, CompletionsBacked, AcknowledgedDone;
      var s, a := Run(service, actions[..|actions| - 1]), actions[|actions| - 1];
      AlwaysTrustworthy(service, actions[..|actions| - 1]);
      CoherentStep(s, a);
      TrackedStep(s, a);
      OnPlanStep(s, a);
      FaithfulStep(s, a);
      ReceiptsBackedStep(s, a);
      CompletionsBackedStep(s, a);
      AcknowledgedDoneStep(s, a);
    }
  }

  /** Whenever an operator declared the effect completed, the evidence for it was in the ledger. */
  ghost predicate Truthful(service: Profile, actions: seq<Action>, id: OpId) {
    forall k | 0 <= k < |actions| ::
      Vouches(Run(service, actions[..k]), actions[k], id) ==> Evident(Run(service, actions[..k]), id)
  }

  lemma TruthfulPrefix(service: Profile, before: seq<Action>, a: Action, id: OpId)
    requires Truthful(service, before + [a], id)
    ensures Truthful(service, before, id)
    ensures Vouches(Run(service, before), a, id) ==> Evident(Run(service, before), id)
  {
    hide Run, Vouches, Evident;
    var actions := before + [a];
    assert actions[..|before|] == before && actions[|before|] == a;
    forall k | 0 <= k < |before|
      ensures Vouches(Run(service, before[..k]), before[k], id) ==> Evident(Run(service, before[..k]), id)
    {
      assert before[..k] == actions[..k] && before[k] == actions[k];
    }
  }

  lemma {:induction false} TruthfulMeansEvident(service: Profile, actions: seq<Action>, id: OpId)
    requires Truthful(service, actions, id)
    requires id in Run(service, actions).tables.ops && Terminal(Run(service, actions).tables.ops[id].row.state)
    ensures Evident(Run(service, actions), id)
  {
    if actions != [] {
      hide Do, Run, Truthful, Vouches, Evident, Coherent, Tracked, OnPlan, Faithful, ReceiptsBacked, CompletionsBacked;
      var before, a := actions[..|actions| - 1], actions[|actions| - 1];
      assert actions == before + [a];
      TruthfulPrefix(service, before, a, id);
      RunAppend(service, before, a);
      AlwaysTrustworthy(service, before);
      var s := Run(service, before);
      if id in s.tables.ops && Terminal(s.tables.ops[id].row.state) {
        TruthfulMeansEvident(service, before, id);
      }
      EvidentStep(s, a, id);
    }
  }

  /** No other operation sends what this operation's indirect evidence looks for. */
  ghost predicate UniqueMatch(t: Tables, id: OpId)
    requires id in t.ops
  {
    forall j | j in t.ops && j != id :: t.ops[id].row.intent.expected != Some(t.ops[j].row.intent.fingerprint.request)
  }

  /** The evidence an operation's profile asks for can only be its own. */
  ghost predicate OwnEvidence(t: Tables, id: OpId)
    requires id in t.ops
  {
    !t.ops[id].row.intent.profile.IndirectUnique? || UniqueMatch(t, id)
  }

  /**
   Exactly one effect stands behind a completion. Unless an operator said so without evidence, a
   terminal operation has an effect its own evidence interface accepts; when that evidence is the
   operation ID, or match fields that no other operation uses, the effect is its own, and the only
   one unless an operator declared it absent while a send was outstanding or had landed.
   */
  lemma NoFalseCompletion(service: Profile, actions: seq<Action>, id: OpId)
    requires id in Run(service, actions).tables.ops && Terminal(Run(service, actions).tables.ops[id].row.state)
    requires Truthful(service, actions, id)
    ensures var s := Run(service, actions);
      && HasEvidence(s.ledger.effects, id, s.tables.ops[id].row.intent)
      && (OwnEvidence(s.tables, id) ==>
            EffectCount(s, id) >= 1 && (Careful(service, actions, id) || Keyed(s, id) ==> EffectCount(s, id) == 1))
  {
    hide Run, Truthful, Careful, Keyed, EffectCount, HasEvidence, OwnEvidence, Coherent, Tracked, OnPlan, Faithful;
    var s := Run(service, actions);
    AlwaysTrustworthy(service, actions);
    TruthfulMeansEvident(service, actions, id);
    if OwnEvidence(s.tables, id) {
      OwnEffect(s, id);
      if Careful(service, actions, id) { AtMostOneEffect(service, actions, id); }
      if Keyed(s, id) { AtMostOneKeyedEffect(service, actions, id); }
    }
  }

  lemma OwnEffect(s: Sys, id: OpId)
    requires Faithful(s) && Evident(s, id) && OwnEvidence(s.tables, id)
    ensures EffectCount(s, id) >= 1
  {
    var intent := s.tables.ops[id].row.intent;
    var e :| e in s.ledger.effects &&
      (e.operation == id || (intent.profile.IndirectUnique? && intent.expected == Some(e.fields)));
    assert Carries(s.tables, e.operation, e.fields);
    SelectSound(s.ledger.effects, ByOperation(id));
    assert e in Select(s.ledger.effects, ByOperation(id));
  }

  /** Execute returns without error only for an operation that is stored as done, with its effect. */
  lemma AcknowledgedIsDone(service: Profile, actions: seq<Action>, id: OpId)
    requires id in Run(service, actions).acknowledged
    ensures var s := Run(service, actions);
      && id in s.tables.ops && Terminal(s.tables.ops[id].row.state)
      && (Truthful(service, actions, id) ==> HasEvidence(s.ledger.effects, id, s.tables.ops[id].row.intent))
  {
    hide Run, Truthful, HasEvidence, Coherent, Tracked, OnPlan, Faithful, ReceiptsBacked, CompletionsBacked;
    AlwaysTrustworthy(service, actions);
    if Truthful(service, actions, id) {
      TruthfulMeansEvident(service, actions, id);
    }
  }
}
