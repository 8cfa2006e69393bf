/**
 Each process works on the operation its plan calls for, and what it sends is what that
 operation's fingerprint covers; an operation acknowledged as done is stored as done.
 */
module Steps {
  import opened Domain
  import opened Transactions
  import opened Ledger
  import opened Verifier
  import opened Protocol
  import opened History
  import opened Evolution
  import opened Coherence
  import opened Sends

  predicate Fits(r: PrepareRequest, intent: Intent) {
    r.workflow == intent.workflow && r.key == intent.key && intent.fingerprint == Fingerprint(r.target, r.fields)
  }

  /** The process is working on a stored operation. */
  predicate Holds(s: Sys, p: nat) {
    p in s.processes && CopiesOf(s.processes[p].pc) != {}
  }

  /** The operation at hand is the one the current step of the plan describes. */
  ghost predicate OnPlan(s: Sys) {
    forall p | Runs(s, p) && Holds(s, p) ::
      var id := s.processes[p].pc.copy.id;
      id in s.tables.ops && Fits(s.processes[p].plan[s.processes[p].step], s.tables.ops[id].row.intent)
  }

  predicate SameStep(s: Sys, s': Sys, p: nat) {
    p in s.processes && p in s'.processes && s.processes[p].plan == s'.processes[p].plan &&
      s.processes[p].step == s'.processes[p].step
  }

  predicate Prepares(s: Sys, a: Action, p: nat, id: OpId) {
    && a.Prepare? && a.p == p && Runs(s, p)
    && var r := PrepareTx(s.tables, s.processes[p].plan[s.processes[p].step], a.id, s.now);
       r.Ok? && r.value.id == id && Do(s, a).tables == r.value.tables
  }

  lemma CopyByCall(s: Sys, a: Action, p: nat)
    requires Actor(a) == Some(p) && (a.Prepare? || a.Retry? || a.Grant? || a.Send?) && Holds(Do(s, a), p)
    ensures SameStep(s, Do(s, a), p)
    ensures var id := Do(s, a).processes[p].pc.copy.id;
      (Holds(s, p) && s.processes[p].pc.copy.id == id) || Prepares(s, a, p, id)
  {
    hide Apply, PrepareTx;
  }

  lemma CopyByReply(s: Sys, a: Action, p: nat)
    requires Actor(a) == Some(p) && !(a.Prepare? || a.Retry? || a.Grant? || a.Send?) && Holds(Do(s, a), p)
    ensures SameStep(s, Do(s, a), p)
    ensures Holds(s, p) && s.processes[p].pc.copy.id == Do(s, a).processes[p].pc.copy.id
  {
    hide Apply, Terminal;
  }

  /** An operation is at hand since the process prepared it in this very step. */
  lemma CopyOrigin(s: Sys, a: Action, p: nat)
    requires Holds(Do(s, a), p)
    ensures SameStep(s, Do(s, a), p)
    ensures var id := Do(s, a).processes[p].pc.copy.id;
      (Holds(s, p) && s.processes[p].pc.copy.id == id) || Prepares(s, a, p, id)
  {
    hide Do, Prepares;
    if Actor(a) != Some(p) {
      OthersStay(s, a, p);
    } else if a.Prepare? || a.Retry? || a.Grant? || a.Send? {
      CopyByCall(s, a, p);
    } else {
      CopyByReply(s, a, p);
    }
  }

  lemma OnPlanStep(s: Sys, a: Action)
    requires Coherent(s) && OnPlan(s)
    ensures OnPlan(Do(s, a))
  {
    var s' := Do(s, a);
    TablesStep(s, a);
    hide Do, Holds, Sound, Known, Leased, SameButExpiry, PrepareTx;
    forall p | Runs(s', p) && Holds(s', p)
      ensures var id := s'.processes[p].pc.copy.id;
        id in s'.tables.ops && Fits(s'.processes[p].plan[s'.processes[p].step], s'.tables.ops[id].row.intent)
    {
      CopyOrigin(s, a, p);
      var id := s'.processes[p].pc.copy.id;
      if Prepares(s, a, p, id) {
        InsertedExact(s.tables, s.now, s.processes[p].plan[s.processes[p].step], a.id);
      } else {
        assert Evolves(s.tables.ops[id], s'.tables.ops[id]);
      }
    }
  }

  // ---- What is sent is what the fingerprint covers

  ghost predicate Carries(t: Tables, id: OpId, fields: Fields) {
    id in t.ops && t.ops[id].row.intent.fingerprint.request == fields
  }

  ghost predicate Faithful(s: Sys) {
    && (forall n | n in s.wire :: Carries(s.tables, s.wire[n].operation, s.wire[n].fields))
    && (forall e | e in s.ledger.effects :: Carries(s.tables, e.operation, e.fields))
  }

  lemma CarriesLater(t: Tables, t': Tables, id: OpId, fields: Fields)
    requires Carries(t, id, fields) && Later(t, t')
    ensures Carries(t', id, fields)
  {
    assert Evolves(t.ops[id], t'.ops[id]);
  }

  lemma SendCarries(s: Sys, p: nat)
    requires OnPlan(s) && Runs(s, p) && s.processes[p].pc.Sending?
    ensures Carries(s.tables, s.processes[p].pc.copy.id, s.processes[p].plan[s.processes[p].step].fields)
  {
    assert Holds(s, p);
  }

  lemma WireFresh(s: Sys)
    requires Tracked(s)
    ensures forall m | m in s.wire :: m < s.sent
  {
  }

  lemma WireStaysFaithful(s: Sys, a: Action, n: nat)
    requires Coherent(s) && Tracked(s) && OnPlan(s) && Faithful(s) && n in Do(s, a).wire
    ensures Carries(Do(s, a).tables, Do(s, a).wire[n].operation, Do(s, a).wire[n].fields)
  {
    hide Do, Coherent, Tracked, OnPlan, Stored, Later, Carries;
    TablesStep(s, a);
    WireFresh(s);
    WireExact(s, a, n);
    if n !in s.wire {
      SendCarries(s, a.p);
    }
    CarriesLater(s.tables, Do(s, a).tables, Do(s, a).wire[n].operation, Do(s, a).wire[n].fields);
  }

  lemma FaithfulStep(s: Sys, a: Action)
    requires Coherent(s) && Tracked(s) && OnPlan(s) && Faithful(s)
    ensures Faithful(Do(s, a))
  {
    var s' := Do(s, a);
    TablesStep(s, a);
    hide Do, Coherent, Tracked, OnPlan, Carries, Later;
    forall n | n in s'.wire ensures Carries(s'.tables, s'.wire[n].operation, s'.wire[n].fields) {
      WireStaysFaithful(s, a, n);
    }
    forall e | e in s'.ledger.effects ensures Carries(s'.tables, e.operation, e.fields) {
      if e !in s.ledger.effects {
        EffectOrigin(s, a, e);
      }
      CarriesLater(s.tables, s'.tables, e.operation, e.fields);
    }
  }

  // ---- Acknowledged means stored as terminal

  /** Execute returned without error for `id`, in the step the process was in. */
  predicate Acknowledges(s: Sys, a: Action, id: OpId) {
    match a
    case Acknowledge(p) =>
      Runs(s, p) && s.processes[p].pc.Looping? && Terminal(s.processes[p].pc.copy.op.row.state) &&
        id == s.processes[p].pc.copy.id
    case ConfirmReceipt(p) =>
      Runs(s, p) && s.processes[p].pc.Confirming? && id == s.processes[p].pc.copy.id &&
      CallOn(s.tables.ops, id, s.now,
        Call.Confirm(ConfirmationOf(s.processes[p].pc.current, s.processes[p].pc.receipt))).Ok?
    case Reread(p) =>
      Runs(s, p) && s.processes[p].pc.Confirming? && id == s.processes[p].pc.copy.id &&
      id in s.tables.ops && Terminal(s.tables.ops[id].row.state)
    case _ => false
  }

  lemma AcknowledgeExact(s: Sys, a: Action)
    ensures forall id :: id in Do(s, a).acknowledged && id !in s.acknowledged ==> Acknowledges(s, a, id)
    ensures s.acknowledged <= Do(s, a).acknowledged
  {
    hide Apply, PrepareTx, CommitTx, Observe;
  }

  /** The process starts over, stays in its step, or has just had its step's own operation acknowledged. */
  predicate StepsOn(s: Sys, a: Action, p: nat) {
    var s' := Do(s, a);
    && p in s'.processes
    && (|| s'.processes[p].step == 0
        || SameStep(s, s', p)
        || (&& p in s.processes && Runs(s, p) && s'.processes[p].plan == s.processes[p].plan
            && s'.processes[p].step == s.processes[p].step + 1
            && Holds(s, p) && Acknowledges(s, a, s.processes[p].pc.copy.id)))
    && s'.processes[p].plan ==
      (if a.Start? && a.p == p then a.plan else if p in s.processes then s.processes[p].plan else [])
  }

  lemma StepByCall(s: Sys, a: Action, p: nat)
    requires Actor(a) == Some(p) && (a.Prepare? || a.Retry? || a.Grant? || a.Send? || a.Start?) &&
      p in Do(s, a).processes
    ensures StepsOn(s, a, p)
  {
    hide Apply, PrepareTx;
  }

  lemma StepByConfirm(s: Sys, a: Action, p: nat)
    requires Actor(a) == Some(p) && (a.ConfirmReceipt? || a.Reread?) && p in Do(s, a).processes
    ensures StepsOn(s, a, p)
  {
    hide Apply;
  }

  lemma StepByItself(s: Sys, a: Action, p: nat)
    requires Actor(a) == Some(p) && p in Do(s, a).processes
    requires !(a.Prepare? || a.Retry? || a.Grant? || a.Send? || a.Start? || a.ConfirmReceipt? || a.Reread?)
    ensures StepsOn(s, a, p)
  {
  }

  lemma StepOfOthers(s: Sys, a: Action, p: nat)
    requires Actor(a) != Some(p) && p in Do(s, a).processes
    ensures StepsOn(s, a, p)
  {
    hide Do, Acknowledges;
    OthersStay(s, a, p);
  }

  /** The step counter moves forward only by an acknowledgement of the step's own operation. */
  lemma StepExact(s: Sys, a: Action, p: nat)
    requires p in Do(s, a).processes
    ensures StepsOn(s, a, p)
  {
    hide Do, Acknowledges;
    if Actor(a) != Some(p) {
      StepOfOthers(s, a, p);
    } else if a.Prepare? || a.Retry? || a.Grant? || a.Send? || a.Start? {
      StepByCall(s, a, p);
    } else if a.ConfirmReceipt? || a.Reread? {
      StepByConfirm(s, a, p);
    } else {
      StepByItself(s, a, p);
    }
  }

  lemma ConfirmMakesTerminal(op: Op, c: Confirmation, now: Time)
    requires Sound(op) && ConfirmTx(op, c, now).Ok?
    ensures Terminal(ConfirmTx(op, c, now).value.row.state)
  {
  }

  lemma AcknowledgedIsTerminal(s: Sys, a: Action, id: OpId)
    requires Coherent(s) && Acknowledges(s, a, id)
    ensures id in Do(s, a).tables.ops && Terminal(Do(s, a).tables.ops[id].row.state)
  {
    hide Do, Sound, Known, Leased;
    TablesStep(s, a);
    OpExact(s, a, id) by { if a.Acknowledge? { AcknowledgedIsStored(s, a, id); } }
    if a.ConfirmReceipt? {
      ConfirmMakesTerminal(s.tables.ops[id],
        ConfirmationOf(s.processes[a.p].pc.current, s.processes[a.p].pc.receipt), s.now);
    } else {
      if a.Acknowledge? {
        AcknowledgedIsStored(s, a, id);
      }
      assert Evolves(s.tables.ops[id], Do(s, a).tables.ops[id]);
    }
  }

  lemma AcknowledgedIsStored(s: Sys, a: Action, id: OpId)
    requires Coherent(s) && Acknowledges(s, a, id) && a.Acknowledge?
    ensures id in s.tables.ops && Terminal(s.tables.ops[id].row.state)
  {
    var c := s.processes[a.p].pc.copy;
    assert c in CopiesOf(s.processes[a.p].pc);
    assert Known(s.tables, c.id, c.op);
  }
}
