/**
 Where the store's contents came from, over whole runs: every operation carries what the prepare
 request that created it asked for, and a worker that goes on after a confirmation has its own
 receipt stored, for good.
 */
module Origins {
  import opened Domain
  import opened Transactions
  import opened Ledger
  import opened Protocol
  import opened History
  import opened Evolution
  import opened Coherence
  import opened Sends
  import opened Steps
  import opened Completion
  import opened Rounds
  import opened Answers

  /** The action carries this prepare request to the store: in time, or after its caller gave up. */
  predicate Submits(s: Sys, a: Action, request: PrepareRequest) {
    match a
    case Prepare(p, _) => Runs(s, p) && s.processes[p].plan[s.processes[p].step] == request
    case LatePrepare(late, _) => late == request && request in s.prepares
    case _ => false
  }

  /** The k-th action creates operation `id` for this request. */
  ghost predicate Creates(service: Profile, actions: seq<Action>, k: nat, request: PrepareRequest, id: OpId) {
    && k < |actions| && Submits(Run(service, actions[..k]), actions[k], request)
    && id !in Run(service, actions[..k]).tables.ops && id in Run(service, actions[..k + 1]).tables.ops
  }

  lemma InsertsByPrepare(s: Sys, a: Action, request: PrepareRequest)
    requires ChangeOf(s, a).Inserted? && ChangeOf(s, a).request == request
    ensures Submits(s, a, request)
  {
  }

  lemma PreparesInsert(s: Sys, a: Action, request: PrepareRequest)
    requires Submits(s, a, request) && ChangeOf(s, a).Inserted?
    ensures ChangeOf(s, a).request == request
  {
  }

  /** A new operation reflects the request that created it. */
  lemma CreationReflects(s: Sys, a: Action, id: OpId)
    requires Stored(s.tables) && id !in s.tables.ops && id in Do(s, a).tables.ops
    ensures ChangeOf(s, a).Inserted? && Submits(s, a, ChangeOf(s, a).request)
    ensures Reflects(Do(s, a).tables.ops[id].row.intent, ChangeOf(s, a).request, s.now)
  {
    hide Do, ChangeOf, Sound;
    NewExact(s, a, id);
    InsertsByPrepare(s, a, ChangeOf(s, a).request);
  }

  lemma IntentStays(s: Sys, a: Action, id: OpId)
    requires Coherent(s) && id in s.tables.ops && id in Do(s, a).tables.ops
    ensures Do(s, a).tables.ops[id].row.intent == s.tables.ops[id].row.intent
  {
    hide Do, Coherent, Stored;
    TablesStep(s, a);
    assert Evolves(s.tables.ops[id], Do(s, a).tables.ops[id]);
  }

  lemma CreatesLonger(service: Profile, before: seq<Action>, a: Action, k: nat, request: PrepareRequest, id: OpId)
    requires Creates(service, before, k, request, id)
    ensures Creates(service, before + [a], k, request, id)
  {
    hide Run, Submits;
    assert (before + [a])[..k] == before[..k] && (before + [a])[..k + 1] == before[..k + 1];
  }

  /**
   Every stored operation was created by some prepare request issued before, and to this day it has
   that request's workflow, key, target, fields, expected effect and profile.
   */
  lemma {:induction false} Origin(service: Profile, actions: seq<Action>, id: OpId)
      returns (k: nat, request: PrepareRequest)
    requires id in Run(service, actions).tables.ops
    ensures Creates(service, actions, k, request, id)
    ensures Reflects(Run(service, actions).tables.ops[id].row.intent, request, Run(service, actions[..k]).now)
  {
    hide Do, Run, ChangeOf, Coherent, Stored, Reflects, Submits;
    Empty(service);
    var before, a := actions[..|actions| - 1], actions[|actions| - 1];
    var s := Run(service, before);
    assert actions == before + [a];
    RunAppend(service, before, a);
    AlwaysCoherent(service, before);
    StoredNow(s);
    if id in s.tables.ops {
      k, request := Origin(service, before, id);
      IntentStays(s, a, id);
      CreatesLonger(service, before, a, k, request, id);
      assert before[..k] == actions[..k];
    } else {
      CreationReflects(s, a, id);
      k, request := |before|, ChangeOf(s, a).request;
      assert actions[..k] == before && actions[..k + 1] == actions;
    }
  }

  lemma Empty(service: Profile)
    ensures Run(service, []).tables.ops == map[]
  {
  }

  /** Whichever request created the operation, it is the one the operation reflects. */
  lemma CreatorIsReflected(service: Profile, actions: seq<Action>, k: nat, request: PrepareRequest, id: OpId)
    requires Creates(service, actions, k, request, id)
    ensures id in Run(service, actions).tables.ops
    ensures Reflects(Run(service, actions).tables.ops[id].row.intent, request, Run(service, actions[..k]).now)
  {
    hide Do, Run, ChangeOf, Known, Leased, Sound, Reflects, Submits;
    var before, upto := actions[..k], actions[..k + 1];
    assert upto == before + [actions[k]] && actions == upto + actions[k + 1..];
    RunAppend(service, before, actions[k]);
    AlwaysCoherent(service, before);
    CreationReflects(Run(service, before), actions[k], id);
    PreparesInsert(Run(service, before), actions[k], request);
    RunLater(service, upto, actions[k + 1..]);
    assert Evolves(Run(service, upto).tables.ops[id], Run(service, actions).tables.ops[id]);
  }

  // ---- Confirmed receipts

  /** This action moves the confirming process on to its next step. */
  predicate GoesOn(s: Sys, a: Action, p: nat) {
    && Runs(s, p) && s.processes[p].pc.Confirming? && p in Do(s, a).processes
    && Do(s, a).processes[p].step == s.processes[p].step + 1
  }

  lemma GoesOnMeans(s: Sys, p: nat)
    requires GoesOn(s, ConfirmReceipt(p), p)
    ensures Runs(s, p) && s.processes[p].pc.Confirming?
    ensures var pc := s.processes[p].pc;
      var call := Call.Confirm(ConfirmationOf(pc.current, pc.receipt));
      && pc.copy.id in s.tables.ops && Apply(s.tables.ops[pc.copy.id], s.now, call).Ok?
      && pc.copy.id in Do(s, ConfirmReceipt(p)).tables.ops
      && Do(s, ConfirmReceipt(p)).tables.ops[pc.copy.id] == Apply(s.tables.ops[pc.copy.id], s.now, call).value
  {
    hide Apply;
  }

  /**
   A worker whose confirmation is accepted has its own receipt stored, whatever happens next, and an
   effect of its own operation stands behind it.
   */
  lemma OwnReceiptStored(service: Profile, actions: seq<Action>, p: nat, more: seq<Action>)
    requires GoesOn(Run(service, actions), ConfirmReceipt(p), p)
    ensures var pc := Run(service, actions).processes[p].pc;
      var s := Run(service, (actions + [ConfirmReceipt(p)]) + more);
      && pc.copy.id in s.tables.ops && s.tables.ops[pc.copy.id].row.state.Confirmed?
      && (var stored := s.tables.ops[pc.copy.id].receipt;
          stored.Some? && stored.value.serviceReceipt == pc.receipt.id && stored.value.payload == pc.receipt)
      && pc.receipt.operation == pc.copy.id
      && exists e :: e in Run(service, actions).ledger.effects && ReceiptOf(e) == pc.receipt
  {
    hide Do, Run, GoesOn, Known, Leased, Logged, Fenced, Schema, Tracked, OnPlan, Faithful, CompletionsBacked;
    var s, a := Run(service, actions), ConfirmReceipt(p);
    AlwaysTrustworthy(service, actions);
    GoesOnMeans(s, p);
    ConfirmMeans(s.tables.ops[s.processes[p].pc.copy.id],
      ConfirmationOf(s.processes[p].pc.current, s.processes[p].pc.receipt), s.now);
    RunAppend(service, actions, a);
    TerminalIsForever(service, actions + [a], more, s.processes[p].pc.copy.id);
  }
}
