/**
 The sequential frontier: children that execute the steps of one workflow in order, restarted
 and run concurrently any number of times, never have a step in the store whose predecessors
 are not all done (internal/benchmark/child.go:83-121).
 */
module Frontier {
  import opened Domain
  import opened Transactions
  import opened Ledger
  import opened Verifier
  import opened Protocol
  import opened History
  import opened Evolution
  import opened Coherence
  import opened Sends
  import opened Steps
  import opened Completion

  /** Step j of a plan is logical key j of the plan's one workflow. */
  predicate Sequential(plan: seq<PrepareRequest>) {
    forall i | 0 <= i < |plan| :: plan[i].key == i && plan[i].workflow == plan[0].workflow
  }

  predicate SequentialStarts(actions: seq<Action>) {
    forall a | a in actions && a.Start? :: Sequential(a.plan)
  }

  predicate StepDone(t: Tables, w: WorkflowId, j: nat) {
    && (w, j) in t.index && t.index[(w, j)] in t.ops
    && Terminal(t.ops[t.index[(w, j)]].row.state)
  }

  /** All steps before k are done. */
  ghost predicate Reached(t: Tables, w: WorkflowId, k: nat) {
    forall j: nat | j < k :: StepDone(t, w, j)
  }

  ghost predicate InOrder(s: Sys) {
    && (forall p | p in s.processes :: Sequential(s.processes[p].plan))
    && (forall p | p in s.processes && s.processes[p].plan != [] ::
          Reached(s.tables, s.processes[p].plan[0].workflow, s.processes[p].step))
    && (forall r | r in s.prepares :: Reached(s.tables, r.workflow, r.key))
    && (forall id | id in s.tables.ops ::
      Reached(s.tables, s.tables.ops[id].row.intent.workflow, s.tables.ops[id].row.intent.key))
  }

  lemma StepDoneLater(t: Tables, t': Tables, w: WorkflowId, j: nat)
    requires Indexed(t) && Indexed(t') && Later(t, t') && StepDone(t, w, j)
    ensures StepDone(t', w, j)
  {
    var id := t.index[(w, j)];
    assert Evolves(t.ops[id], t'.ops[id]);
  }

  lemma ReachedLater(t: Tables, t': Tables, w: WorkflowId, k: nat)
    requires Indexed(t) && Indexed(t') && Later(t, t') && Reached(t, w, k)
    ensures Reached(t', w, k)
  {
    forall j: nat | j < k ensures StepDone(t', w, j) {
      StepDoneLater(t, t', w, j);
    }
  }

  /** Acknowledging the step's own operation is what completes the step. */
  lemma AcknowledgedStepDone(s: Sys, a: Action, p: nat)
    requires Coherent(s) && OnPlan(s) && Runs(s, p) && Holds(s, p) && Acknowledges(s, a, s.processes[p].pc.copy.id)
    ensures var r := s.processes[p].plan[s.processes[p].step]; StepDone(Do(s, a).tables, r.workflow, r.key)
  {
    var id := s.processes[p].pc.copy.id;
    AcknowledgedIsTerminal(s, a, id);
    TablesStep(s, a);
    hide Do, Acknowledges, Sound, Known, Leased;
    assert Evolves(s.tables.ops[id], Do(s, a).tables.ops[id]);
  }

  lemma ReachedNext(t: Tables, w: WorkflowId, k: nat)
    requires Reached(t, w, k) && StepDone(t, w, k)
    ensures Reached(t, w, k + 1)
  {
  }

  lemma ReachedNone(t: Tables, w: WorkflowId)
    ensures Reached(t, w, 0)
  {
  }

  lemma AdvancedInOrder(s: Sys, a: Action, p: nat)
    requires Coherent(s) && OnPlan(s) && Runs(s, p) && Holds(s, p) && Acknowledges(s, a, s.processes[p].pc.copy.id)
    requires var q := s.processes[p]; Sequential(q.plan) && Reached(s.tables, q.plan[0].workflow, q.step)
    ensures var q := s.processes[p]; Reached(Do(s, a).tables, q.plan[0].workflow, q.step + 1)
  {
    var q := s.processes[p];
    TablesStep(s, a);
    AcknowledgedStepDone(s, a, p);
    hide Do, Acknowledges, Sound, Known, Leased, Later, StepDone, Reached, OnPlan;
    ReachedLater(s.tables, Do(s, a).tables, q.plan[0].workflow, q.step);
    ReachedNext(Do(s, a).tables, q.plan[0].workflow, q.step);
  }

  lemma ProcessesInOrder(s: Sys, a: Action, p: nat)
    requires Coherent(s) && OnPlan(s) && InOrder(s)
    requires p in Do(s, a).processes && Do(s, a).processes[p].plan != []
    ensures Reached(Do(s, a).tables, Do(s, a).processes[p].plan[0].workflow, Do(s, a).processes[p].step)
  {
    var q' := Do(s, a).processes[p];
    TablesStep(s, a);
    StepExact(s, a, p);
    hide Do, Acknowledges, Coherent, Sound, Later, Reached, OnPlan, Holds, Sequential;
    if q'.step == 0 {
      ReachedNone(Do(s, a).tables, q'.plan[0].workflow);
    } else if SameStep(s, Do(s, a), p) {
      ReachedLater(s.tables, Do(s, a).tables, q'.plan[0].workflow, q'.step);
    } else {
      AdvancedInOrder(s, a, p);
    }
  }

  lemma PlansStaySequential(s: Sys, a: Action, p: nat)
    requires InOrder(s) && (a.Start? ==> Sequential(a.plan)) && p in Do(s, a).processes
    ensures Sequential(Do(s, a).processes[p].plan)
  {
    StepExact(s, a, p);
    hide Do, Acknowledges, Reached;
  }

  lemma IssuePrepareExact(s: Sys, p: nat)
    ensures DoWork(s, IssuePrepare(p)).prepares == s.prepares +
      if Runs(s, p) && s.processes[p].pc.Preparing? then {s.processes[p].plan[s.processes[p].step]} else {}
  {
  }

  lemma PreparesExact(s: Sys, a: Action, r: PrepareRequest)
    requires r in Do(s, a).prepares && r !in s.prepares
    ensures a.IssuePrepare? && Runs(s, a.p) && r == s.processes[a.p].plan[s.processes[a.p].step]
  {
    hide DoWork, Apply, PrepareTx, CommitTx, Observe;
    WorkFrame(s, a);
    if a.IssuePrepare? { IssuePrepareExact(s, a.p); }
  }

  /** A request is only ever issued, and a new operation only ever inserted, at the frontier. */
  lemma InsertedInOrder(s: Sys, a: Action)
    requires InOrder(s)
    ensures ChangeOf(s, a).Inserted? ==>
      Reached(s.tables, ChangeOf(s, a).request.workflow, ChangeOf(s, a).request.key)
  {
  }

  lemma OpsInOrder(s: Sys, a: Action, id: OpId)
    requires Coherent(s) && InOrder(s) && id in Do(s, a).tables.ops
    ensures Reached(Do(s, a).tables, Do(s, a).tables.ops[id].row.intent.workflow,
      Do(s, a).tables.ops[id].row.intent.key)
  {
    var s' := Do(s, a);
    TablesStep(s, a);
    InsertedInOrder(s, a);
    if id in s.tables.ops {
      assert Evolves(s.tables.ops[id], s'.tables.ops[id]);
    } else {
      NewExact(s, a, id);
    }
    hide Do, ChangeOf, Reached, Sound, Known, Leased, Later;
    var intent := s'.tables.ops[id].row.intent;
    ReachedLater(s.tables, s'.tables, intent.workflow, intent.key);
  }

  lemma InOrderStep(s: Sys, a: Action)
    requires Coherent(s) && OnPlan(s) && InOrder(s) && (a.Start? ==> Sequential(a.plan))
    ensures InOrder(Do(s, a))
  {
    var s' := Do(s, a);
    TablesStep(s, a);
    hide Do, Coherent, OnPlan, Reached, Later, Sound, Sequential;
    forall p | p in s'.processes ensures Sequential(s'.processes[p].plan) {
      PlansStaySequential(s, a, p);
    }
    forall p | p in s'.processes && s'.processes[p].plan != []
      ensures Reached(s'.tables, s'.processes[p].plan[0].workflow, s'.processes[p].step)
    {
      ProcessesInOrder(s, a, p);
    }
    forall r | r in s'.prepares ensures Reached(s'.tables, r.workflow, r.key) {
      PreparedInOrder(s, a, r);
    }
    forall id | id in s'.tables.ops
      ensures Reached(s'.tables, s'.tables.ops[id].row.intent.workflow, s'.tables.ops[id].row.intent.key) {
      OpsInOrder(s, a, id);
    }
  }

  lemma PreparedInOrder(s: Sys, a: Action, r: PrepareRequest)
    requires Coherent(s) && InOrder(s) && r in Do(s, a).prepares
    ensures Reached(Do(s, a).tables, r.workflow, r.key)
  {
    TablesStep(s, a);
    if r !in s.prepares {
      PreparesExact(s, a, r);
    }
    hide Do, Reached, Sound, Known, Leased, Later;
    ReachedLater(s.tables, Do(s, a).tables, r.workflow, r.key);
  }

  lemma {:induction false} AlwaysInOrder(service: Profile, actions: seq<Action>)
    requires SequentialStarts(actions)
    ensures InOrder(Run(service, actions))
  {
    if actions != [] {
      var before, a := actions[..|actions| - 1], actions[|actions| - 1];
      assert forall b | b in before :: b in actions;
      AlwaysInOrder(service, before);
      AlwaysTrustworthy(service, before);
      hide Do, Coherent, OnPlan, InOrder, Sequential;
      InOrderStep(Run(service, before), a);
    }
  }

  /** If a step has an operation, every earlier step has one that is Confirmed or Reconciled. */
  lemma SequentialFrontier(service: Profile, actions: seq<Action>, id: OpId, j: nat)
    requires SequentialStarts(actions) && id in Run(service, actions).tables.ops
    requires j < Run(service, actions).tables.ops[id].row.intent.key
    ensures StepDone(Run(service, actions).tables, Run(service, actions).tables.ops[id].row.intent.workflow, j)
  {
    AlwaysInOrder(service, actions);
    hide Run, StepDone;
  }

  lemma UnresolvedIsLast(s: Sys, x: OpId, y: OpId)
    requires InOrder(s) && Indexed(s.tables) && x in s.tables.ops && y in s.tables.ops
    requires s.tables.ops[x].row.intent.workflow == s.tables.ops[y].row.intent.workflow &&
      !Terminal(s.tables.ops[x].row.state)
    ensures s.tables.ops[y].row.intent.key <= s.tables.ops[x].row.intent.key
  {
    var i, k := s.tables.ops[x].row.intent, s.tables.ops[y].row.intent;
    assert i.key < k.key ==> StepDone(s.tables, i.workflow, i.key);
  }

  lemma UnresolvedIsUnique(s: Sys, x: OpId, y: OpId)
    requires InOrder(s) && Coherent(s) && x in s.tables.ops && y in s.tables.ops
    requires s.tables.ops[x].row.intent.workflow == s.tables.ops[y].row.intent.workflow
    requires !Terminal(s.tables.ops[x].row.state) && !Terminal(s.tables.ops[y].row.state)
    ensures x == y
  {
    hide InOrder, Sound, Known, Leased;
    UnresolvedIsLast(s, x, y);
    UnresolvedIsLast(s, y, x);
  }

  /** At most one step of a workflow is unresolved at any moment. */
  lemma OneUnresolvedStep(service: Profile, actions: seq<Action>, x: OpId, y: OpId)
    requires SequentialStarts(actions)
    requires var ops := Run(service, actions).tables.ops;
      && x in ops && y in ops && ops[x].row.intent.workflow == ops[y].row.intent.workflow
      && !Terminal(ops[x].row.state) && !Terminal(ops[y].row.state)
    ensures x == y
  {
    hide Run, Coherent, InOrder, Terminal, SequentialStarts;
    AlwaysInOrder(service, actions);
    AlwaysCoherent(service, actions);
    UnresolvedIsUnique(Run(service, actions), x, y);
  }

  /**
   The steps a child has behind it form a prefix, and each has exactly one effect unless an
   operator declared it completed without evidence, or absent while a send was outstanding or
   had landed (for indirect evidence, when its match fields are its own).
   */
  lemma FinishedPrefix(service: Profile, actions: seq<Action>, p: nat, j: nat)
    requires SequentialStarts(actions)
    requires p in Run(service, actions).processes && Run(service, actions).processes[p].plan != []
    requires j < Run(service, actions).processes[p].step
    ensures var s := Run(service, actions);
      var w := s.processes[p].plan[0].workflow;
      && StepDone(s.tables, w, j)
      && var id := s.tables.index[(w, j)];
         Truthful(service, actions, id) && (Careful(service, actions, id) || Keyed(s, id)) &&
           OwnEvidence(s.tables, id) ==>
         EffectCount(s, id) == 1
  {
    hide Run, EffectCount, Truthful, Careful, Keyed, OwnEvidence;
    AlwaysInOrder(service, actions);
    var s := Run(service, actions);
    var w := s.processes[p].plan[0].workflow;
    assert StepDone(s.tables, w, j);
    var id := s.tables.index[(w, j)];
    if Truthful(service, actions, id) {
      NoFalseCompletion(service, actions, id);
    }
  }
}
