/**
 The store's tables as values, the operations they describe, and the row-write accounting of
 internal/benchmark/evidence.go, which recounts from the event log how many rows the store's
 transactions inserted or updated for one experiment run.
 */
module Storage {
  import opened Domain
  import opened Transactions
  import opened Pagination

  /** One field per table; rows of dependent tables are kept under the operation they reference. */
  datatype Rows = Rows(
    workflows: map<WorkflowId, Workflow>,
    index: map<(WorkflowId, nat), OpId>,
    operations: map<OpId, Row>,
    receipts: map<OpId, StoredReceipt>,
    attempts: map<OpId, seq<Attempt>>,
    observations: map<OpId, seq<(AttemptId, Observation)>>,
    decisions: map<OpId, seq<Decision>>,
    events: seq<(OpId, Event)>)

  function Get<T>(m: map<OpId, seq<T>>, id: OpId): seq<T> {
    if id in m then m[id] else []
  }

  function Receipted(m: map<OpId, StoredReceipt>, id: OpId): Option<StoredReceipt> {
    if id in m then Some(m[id]) else None
  }

  /** SELECT ... FROM operation_events WHERE operation_id = id ORDER BY id. */
  function LogOf(events: seq<(OpId, Event)>, id: OpId): seq<Event> {
    if events == [] then []
    else
      var last := events[|events| - 1];
      LogOf(events[..|events| - 1], id) + if last.0 == id then [last.1] else []
  }

  function OpOf(r: Rows, id: OpId): Op
    requires id in r.operations
  {
    Op(r.operations[id], Receipted(r.receipts, id), Get(r.attempts, id), Get(r.observations, id),
      Get(r.decisions, id), LogOf(r.events, id))
  }

  function DbOf(r: Rows): Db {
    map id | id in r.operations :: OpOf(r, id)
  }

  function TablesOf(r: Rows): Tables {
    Tables(r.workflows, r.index, DbOf(r))
  }

  /** Foreign keys: dependent rows reference stored operations, operations reference stored workflows. */
  ghost predicate Linked(r: Rows) {
    && r.receipts.Keys <= r.operations.Keys && r.attempts.Keys <= r.operations.Keys
    && r.observations.Keys <= r.operations.Keys && r.decisions.Keys <= r.operations.Keys
    && (forall i | 0 <= i < |r.events| :: r.events[i].0 in r.operations)
    && (forall id | id in r.operations ::
          var i := r.operations[id].intent;
          i.workflow in r.workflows && (i.workflow, i.key) in r.index && r.index[(i.workflow, i.key)] == id)
    && (forall slot | slot in r.index ::
          r.index[slot] in r.operations &&
            (r.operations[r.index[slot]].intent.workflow, r.operations[r.index[slot]].intent.key) == slot)
  }

  lemma LogAppend(events: seq<(OpId, Event)>, id: OpId, e: Event, j: OpId)
    ensures LogOf(events + [(id, e)], j) == LogOf(events, j) + if j == id then [e] else []
  {
    assert (events + [(id, e)])[..|events|] == events;
  }

  lemma {:induction false} NoLog(events: seq<(OpId, Event)>, id: OpId)
    requires forall i | 0 <= i < |events| :: events[i].0 != id
    ensures LogOf(events, id) == []
  {
    if events != [] {
      NoLog(events[..|events| - 1], id);
    }
  }

  /** The tables differ only in rows of one operation. */
  ghost predicate Elsewhere(r: Rows, r': Rows, id: OpId) {
    && r'.operations.Keys == r.operations.Keys + {id}
    && (forall j | j in r.operations && j != id :: r'.operations[j] == r.operations[j])
    && (forall j | j != id :: Receipted(r'.receipts, j) == Receipted(r.receipts, j))
    && (forall j | j != id :: Get(r'.attempts, j) == Get(r.attempts, j))
    && (forall j | j != id :: Get(r'.observations, j) == Get(r.observations, j))
    && (forall j | j != id :: Get(r'.decisions, j) == Get(r.decisions, j))
  }

  lemma OthersUnwritten(r: Rows, r': Rows, id: OpId, e: Event, j: OpId)
    requires Elsewhere(r, r', id) && r'.events == r.events + [(id, e)] && j in r.operations && j != id
    ensures j in r'.operations && OpOf(r', j) == OpOf(r, j)
  {
    LogAppend(r.events, id, e, j);
    hide LogOf, Get, Receipted;
  }

  /** Writing one operation's rows and appending one event changes exactly that operation. */
  lemma OneOperationWritten(r: Rows, r': Rows, id: OpId, e: Event)
    requires Elsewhere(r, r', id) && r'.events == r.events + [(id, e)]
    ensures DbOf(r') == DbOf(r)[id := OpOf(r', id)]
    ensures OpOf(r', id).log == LogOf(r.events, id) + [e]
  {
    LogAppend(r.events, id, e, id);
    forall j | j in r.operations && j != id ensures j in r'.operations && OpOf(r', j) == OpOf(r, j) {
      OthersUnwritten(r, r', id, e, j);
    }
    hide OpOf, Elsewhere;
    assert r'.operations.Keys == r.operations.Keys + {id} by { ElsewhereKeys(r, r', id); }
  }

  lemma ElsewhereKeys(r: Rows, r': Rows, id: OpId)
    requires Elsewhere(r, r', id)
    ensures r'.operations.Keys == r.operations.Keys + {id}
  {
  }

  // ---- watchkeeperWrites

  /** Rows written by the transaction that appended this event, its event row included. */
  function Weight(e: Event): nat {
    match e.kind
    case IntentPrepared => 2
    case DispatchGranted => 2
    case ReceiptConfirmed => 3
    case RetryStarted => 2
    case RecoveryClaimed => 3
    case RecoveryResulted => if e.reason.VerificationTransient? then 4 else 5
    case ReconciliationRequested => 2
    case ManuallyResolved => 3
  }

  predicate InRun(r: Rows, id: OpId, run: RunId) {
    && id in r.operations && r.operations[id].intent.workflow in r.workflows
    && r.workflows[r.operations[id].intent.workflow].run == Some(run)
  }

  /** The event part of the recount. */
  function LoggedRows(r: Rows, events: seq<(OpId, Event)>, run: RunId): nat {
    if events == [] then 0
    else
      var last := events[|events| - 1];
      LoggedRows(r, events[..|events| - 1], run) + if InRun(r, last.0, run) then Weight(last.1) else 0
  }

  /** SELECT count(*) FROM workflows WHERE experiment_run_id = run. */
  function WorkflowRows(workflows: map<WorkflowId, Workflow>, run: RunId): nat {
    |OfRun(workflows, run)|
  }

  function OfRun(workflows: map<WorkflowId, Workflow>, run: RunId): set<WorkflowId> {
    set w | w in workflows && workflows[w].run == Some(run)
  }

  function Recount(r: Rows, run: RunId): nat {
    LoggedRows(r, r.events, run) + WorkflowRows(r.workflows, run)
  }

  function Count(written: map<RunId, nat>, run: RunId): nat {
    if run in written then written[run] else 0
  }

  /** One more row written on behalf of a workflow of this run. */
  function Bump(written: map<RunId, nat>, run: Option<RunId>): map<RunId, nat> {
    match run
    case None => written
    case Some(x) => written[x := Count(written, x) + 1]
  }

  function RunOf(r: Rows, id: OpId): Option<RunId>
    requires id in r.operations && r.operations[id].intent.workflow in r.workflows
  {
    r.workflows[r.operations[id].intent.workflow].run
  }

  /** The rows really written are the recount plus the renewals, run by run. */
  ghost predicate Accounted(r: Rows, written: map<RunId, nat>, renewals: map<RunId, nat>) {
    forall run: RunId :: Count(written, run) == Recount(r, run) + Count(renewals, run)
  }

  /** The tables agree on which run each operation belongs to. */
  ghost predicate SameRuns(r: Rows, r': Rows) {
    && (forall id | id in r.operations :: id in r'.operations && r'.operations[id].intent == r.operations[id].intent)
    && (forall w | w in r.workflows :: w in r'.workflows && r'.workflows[w] == r.workflows[w])
  }

  lemma {:induction false} LoggedRowsFrame(r: Rows, r': Rows, events: seq<(OpId, Event)>, run: RunId)
    requires Linked(r) && SameRuns(r, r') && (forall i | 0 <= i < |events| :: events[i].0 in r.operations)
    ensures LoggedRows(r', events, run) == LoggedRows(r, events, run)
  {
    if events != [] {
      LoggedRowsFrame(r, r', events[..|events| - 1], run);
      assert events[|events| - 1].0 in r.operations;
    }
  }

  /** A transaction keeps the books when it counts as many rows as its event weighs. */
  lemma AccountedStep(r: Rows, r': Rows, id: OpId, e: Event, written: map<RunId, nat>, written': map<RunId, nat>,
      renewals: map<RunId, nat>)
    requires Linked(r) && Accounted(r, written, renewals)
    requires SameRuns(r, r') && r'.workflows == r.workflows && r'.events == r.events + [(id, e)] && id in r.operations
    requires forall run: RunId ::
      Count(written', run) == Count(written, run) + if RunOf(r, id) == Some(run) then Weight(e) else 0
    ensures Accounted(r', written', renewals)
  {
    forall run: RunId ensures Count(written', run) == Recount(r', run) + Count(renewals, run) {
      assert r'.events[..|r.events|] == r.events;
      LoggedRowsFrame(r, r', r.events, run);
      assert Count(written, run) == Recount(r, run) + Count(renewals, run);
    }
  }

  /** What a transaction on one stored operation keeps: foreign keys, runs, every other operation. */
  lemma TransactionKeeps(r: Rows, r': Rows, id: OpId, e: Event)
    requires Linked(r) && WrittenFor(r, r', id, e)
    ensures Linked(r') && SameRuns(r, r')
  {
    hide Linked;
    SameIntents(r, r', id, e);
    KeepsLinks(r, r', id, e);
  }

  lemma SameIntents(r: Rows, r': Rows, id: OpId, e: Event)
    requires WrittenFor(r, r', id, e)
    ensures r'.operations.Keys == r.operations.Keys
    ensures forall j | j in r.operations :: r'.operations[j].intent == r.operations[j].intent
  {
    hide Receipted, Get;
  }

  lemma KeepsLinks(r: Rows, r': Rows, id: OpId, e: Event)
    requires Linked(r) && WrittenFor(r, r', id, e)
    requires r'.operations.Keys == r.operations.Keys
    requires forall j | j in r.operations :: r'.operations[j].intent == r.operations[j].intent
    ensures Linked(r')
  {
    hide Elsewhere;
  }

  /** The operation as the statements left it: its rows, and its log with one more event. */
  function Written(r: Rows, r': Rows, id: OpId, e: Event): Op
    requires id in r'.operations
  {
    Op(r'.operations[id], Receipted(r'.receipts, id), Get(r'.attempts, id), Get(r'.observations, id),
      Get(r'.decisions, id),
       LogOf(r.events, id) + [e])
  }

  ghost predicate Balanced(r: Rows, written: map<RunId, nat>, renewals: map<RunId, nat>) {
    Linked(r) && Accounted(r, written, renewals)
  }

  ghost predicate WrittenFor(r: Rows, r': Rows, id: OpId, e: Event) {
    && id in r.operations
    && r'.workflows == r.workflows && r'.index == r.index && r'.events == r.events + [(id, e)]
    && Elsewhere(r, r', id) && r'.operations[id].intent == r.operations[id].intent
    && r'.receipts.Keys <= r.receipts.Keys + {id} && r'.attempts.Keys <= r.attempts.Keys + {id}
    && r'.observations.Keys <= r.observations.Keys + {id} && r'.decisions.Keys <= r.decisions.Keys + {id}
  }

  /** n more rows written on behalf of a workflow of this run. */
  function Bumps(written: map<RunId, nat>, run: Option<RunId>, n: nat): map<RunId, nat> {
    if n == 0 then written else Bump(Bumps(written, run, n - 1), run)
  }

  lemma BumpsUnrolled(written: map<RunId, nat>, run: Option<RunId>)
    ensures Bumps(written, run, 2) == Bump(Bump(written, run), run)
    ensures Bumps(written, run, 3) == Bump(Bump(Bump(written, run), run), run)
    ensures Bumps(written, run, 4) == Bump(Bump(Bump(Bump(written, run), run), run), run)
    ensures Bumps(written, run, 5) == Bump(Bump(Bump(Bump(Bump(written, run), run), run), run), run)
  {
    assert Bumps(written, run, 1) == Bump(Bumps(written, run, 0), run);
    assert Bumps(written, run, 3) == Bump(Bumps(written, run, 2), run);
  }

  lemma FourOrFive(written: map<RunId, nat>, run: Option<RunId>)
    ensures var three := Bump(Bump(Bump(written, run), run), run);
      && Bump(Bumps(three, run, 0), run) == Bumps(written, run, 4)
      && Bump(Bumps(three, run, 1), run) == Bumps(written, run, 5)
  {
    hide Bump;
    BumpsUnrolled(written, run);
    var three := Bump(Bump(Bump(written, run), run), run);
    assert Bumps(three, run, 1) == Bump(Bumps(three, run, 0), run);
  }

  lemma {:induction false} BumpsCount(written: map<RunId, nat>, mine: Option<RunId>, n: nat, run: RunId)
    ensures Count(Bumps(written, mine, n), run) == Count(written, run) + (if mine == Some(run) then n else 0)
  {
    if n > 0 {
      BumpsCount(written, mine, n - 1, run);
    }
  }

  /** A transaction that wrote the rows `call` asks for has performed `call`. */
  lemma Committed(r: Rows, r': Rows, id: OpId, e: Event, written: map<RunId, nat>, written': map<RunId, nat>,
                  renewals: map<RunId, nat>, now: Time, call: Call)
    requires Balanced(r, written, renewals) && WrittenFor(r, r', id, e) &&
      r.operations[id].intent.workflow in r.workflows
    requires written' == Bumps(written, RunOf(r, id), Weight(e))
    requires Apply(OpOf(r, id), now, call) == Ok(Written(r, r', id, e))
    ensures Balanced(r', written', renewals)
    ensures DbOf(r') == DbAfter(DbOf(r), id, now, call)
  {
    hide Apply, Weight, Bumps, Count;
    forall run: RunId ensures Count(written', run) == Count(written, run) +
      (if RunOf(r, id) == Some(run) then Weight(e) else 0) {
      BumpsCount(written, RunOf(r, id), Weight(e), run);
    }
    TransactionKeeps(r, r', id, e);
    AccountedStep(r, r', id, e, written, written', renewals);
    OneOperationWritten(r, r', id, e);
  }

  ghost predicate UpdatedAt<T>(m: map<OpId, T>, m': map<OpId, T>, id: OpId) {
    m' == m || (id in m' && m' == m[id := m'[id]])
  }

  /** Statements that touch rows of one operation only and append one event. */
  lemma RowsWritten(r: Rows, r': Rows, id: OpId, row: Row, e: Event)
    requires id in r.operations && row.intent == r.operations[id].intent
    requires r' == r.(operations := r.operations[id := row], events := r.events + [(id, e)],
                      receipts := r'.receipts, attempts := r'.attempts, observations := r'.observations,
                        decisions := r'.decisions)
    requires UpdatedAt(r.receipts, r'.receipts, id) && UpdatedAt(r.attempts, r'.attempts, id)
    requires UpdatedAt(r.observations, r'.observations, id) && UpdatedAt(r.decisions, r'.decisions, id)
    ensures WrittenFor(r, r', id, e)
  {
  }

  /** A transaction that updates the operation row and appends one event, nothing else. */
  lemma RowAndEventWritten(r: Rows, r': Rows, id: OpId, written: map<RunId, nat>, written': map<RunId, nat>,
                           renewals: map<RunId, nat>, now: Time, call: Call)
    requires Balanced(r, written, renewals) && id in r.operations && r.operations[id].intent.workflow in r.workflows
    requires id in r'.operations && |r'.events| > 0 && r'.operations[id].intent == r.operations[id].intent
    requires
      var row, e := r'.operations[id], r'.events[|r'.events| - 1].1;
      && Weight(e) == 2
      && r' == r.(operations := r.operations[id := row], events := r.events + [(id, e)])
      && Apply(OpOf(r, id), now, call) == Ok(OpOf(r, id).(row := row, log := OpOf(r, id).log + [e]))
    requires written' == Bump(Bump(written, RunOf(r, id)), RunOf(r, id))
    ensures Balanced(r', written', renewals)
    ensures DbOf(r') == DbAfter(DbOf(r), id, now, call)
  {
    hide Balanced, Weight, Bumps, Bump, DbOf, DbAfter, LogOf, Apply, WrittenFor;
    var row, e := r'.operations[id], r'.events[|r'.events| - 1].1;
    BumpsUnrolled(written, RunOf(r, id));
    RowsWritten(r, r', id, row, e);
    Committed(r, r', id, e, written, written', renewals, now, call);
  }

  /** The same for a transaction that also inserts the receipt row. */
  lemma ReceiptWritten(r: Rows, r': Rows, id: OpId, receipt: StoredReceipt, written: map<RunId, nat>,
      written': map<RunId, nat>,
                       renewals: map<RunId, nat>, now: Time, call: Call)
    requires Balanced(r, written, renewals) && id in r.operations && r.operations[id].intent.workflow in r.workflows
    requires id in r'.operations && |r'.events| > 0 && r'.operations[id].intent == r.operations[id].intent
    requires
      var row, e := r'.operations[id], r'.events[|r'.events| - 1].1;
      && Weight(e) == 3
      && r' == r.(receipts := r.receipts[id := receipt], operations := r.operations[id := row], events := r.events +
        [(id, e)])
      && Apply(OpOf(r, id), now, call) ==
        Ok(OpOf(r, id).(row := row, receipt := Some(receipt), log := OpOf(r, id).log + [e]))
    requires written' == Bump(Bump(Bump(written, RunOf(r, id)), RunOf(r, id)), RunOf(r, id))
    ensures Balanced(r', written', renewals)
    ensures DbOf(r') == DbAfter(DbOf(r), id, now, call)
  {
    hide Balanced, Weight, Bumps, Bump, DbOf, DbAfter, LogOf, Apply, WrittenFor;
    var row, e := r'.operations[id], r'.events[|r'.events| - 1].1;
    BumpsUnrolled(written, RunOf(r, id));
    RowsWritten(r, r', id, row, e);
    Committed(r, r', id, e, written, written', renewals, now, call);
  }

  /** The same for a transaction that also inserts a decision row. */
  lemma DecisionWritten(r: Rows, r': Rows, id: OpId, d: Decision, written: map<RunId, nat>, written': map<RunId, nat>,
                        renewals: map<RunId, nat>, now: Time, call: Call)
    requires Balanced(r, written, renewals) && id in r.operations && r.operations[id].intent.workflow in r.workflows
    requires id in r'.operations && |r'.events| > 0 && r'.operations[id].intent == r.operations[id].intent
    requires
      var row, e := r'.operations[id], r'.events[|r'.events| - 1].1;
      && Weight(e) == 3
      && r' == r.(operations := r.operations[id := row], decisions := r.decisions[id := Get(r.decisions, id) + [d]],
        events := r.events + [(id, e)])
      && Apply(OpOf(r, id), now, call) ==
        Ok(OpOf(r, id).(row := row, decisions := OpOf(r, id).decisions + [d], log := OpOf(r, id).log + [e]))
    requires written' == Bump(Bump(Bump(written, RunOf(r, id)), RunOf(r, id)), RunOf(r, id))
    ensures Balanced(r', written', renewals)
    ensures DbOf(r') == DbAfter(DbOf(r), id, now, call)
  {
    hide Balanced, Weight, Bumps, Bump, DbOf, DbAfter, LogOf, Apply, WrittenFor;
    var row, e := r'.operations[id], r'.events[|r'.events| - 1].1;
    BumpsUnrolled(written, RunOf(r, id));
    RowsWritten(r, r', id, row, e);
    Committed(r, r', id, e, written, written', renewals, now, call);
  }

  lemma RowOf(r: Rows, id: OpId, written: map<RunId, nat>, renewals: map<RunId, nat>)
    requires Balanced(r, written, renewals) && id in r.operations
    ensures r.operations[id].intent.workflow in r.workflows
    ensures OpOf(r, id).row == r.operations[id] && OpOf(r, id).receipt == Receipted(r.receipts, id)
  {
    hide LogOf, Get;
  }

  // ---- Lease renewal: a row update without an event

  lemma RenewedBooks(r: Rows, r': Rows, id: OpId, written: map<RunId, nat>, renewals: map<RunId, nat>)
    requires Linked(r) && Accounted(r, written, renewals) && SameRuns(r, r') && r'.events == r.events &&
      r'.workflows == r.workflows
    requires id in r.operations && r.operations[id].intent.workflow in r.workflows
    ensures Accounted(r', Bump(written, RunOf(r, id)), Bump(renewals, RunOf(r, id)))
  {
    hide LoggedRows, WorkflowRows;
    forall run: RunId ensures Count(Bump(written, RunOf(r, id)), run) == Recount(r', run) +
      Count(Bump(renewals, RunOf(r, id)), run) {
      LoggedRowsFrame(r, r', r.events, run);
      assert Count(written, run) == Recount(r, run) + Count(renewals, run);
    }
  }

  lemma Renewed(r: Rows, r': Rows, id: OpId, written: map<RunId, nat>, renewals: map<RunId, nat>, token: Token,
      duration: Time, now: Time)
    requires Balanced(r, written, renewals)
    requires id in r.operations && r.operations[id].intent.workflow in r.workflows &&
      HoldsLease(r.operations[id], token, now)
    requires r' == r.(operations := r.operations[id := r.operations[id].(leaseExpires := Some(now + duration))])
    ensures Balanced(r', Bump(written, RunOf(r, id)), Bump(renewals, RunOf(r, id)))
    ensures DbOf(r') == DbAfter(DbOf(r), id, now, Renew(token, duration))
  {
    hide Linked, Accounted, Bump, OpOf, DbOf, Apply, LoggedRows, WorkflowRows;
    RowOf(r, id, written, renewals);
    DbOfRow(r, id);
    RenewIs(OpOf(r, id), now, token, duration);
    RenewedLinks(r, r', id);
    RenewedBooks(r, r', id, written, renewals);
    RenewedOp(r, r', id);
  }

  lemma RenewedLinks(r: Rows, r': Rows, id: OpId)
    requires Linked(r) && id in r.operations && id in r'.operations &&
      r'.operations[id].intent == r.operations[id].intent
    requires r' == r.(operations := r.operations[id := r'.operations[id]])
    ensures Linked(r') && SameRuns(r, r')
  {
  }

  lemma RenewedOp(r: Rows, r': Rows, id: OpId)
    requires id in r.operations && id in r'.operations && r' == r.(operations := r.operations[id := r'.operations[id]])
    ensures DbOf(r') == DbOf(r)[id := OpOf(r, id).(row := r'.operations[id])]
  {
    hide LogOf, Get, Receipted;
  }

  /** What a call on the stored operations amounts to. */
  lemma Lookup(r: Rows, id: OpId, now: Time, call: Call)
    ensures id !in r.operations ==>
      CallOn(DbOf(r), id, now, call) == Err(OperationNotFound) && DbAfter(DbOf(r), id, now, call) == DbOf(r)
    ensures id in r.operations ==>
      CallOn(DbOf(r), id, now, call) == Apply(OpOf(r, id), now, call)
    ensures id in r.operations ==>
      var result := Apply(OpOf(r, id), now, call);
      result.Err? || result == Ok(OpOf(r, id)) ==> DbAfter(DbOf(r), id, now, call) == DbOf(r)
  {
    hide Apply;
  }

  // ---- The transaction behind each call

  lemma AuthorizeIs(op: Op, now: Time, version: nat)
    ensures Apply(op, now, Authorize(version)) == AuthorizeTx(op, version)
  {
  }

  lemma ConfirmIs(op: Op, now: Time, c: Confirmation)
    ensures Apply(op, now, Call.Confirm(c)) == ConfirmTx(op, c, now)
  {
  }

  lemma BeginRetryIs(op: Op, now: Time, version: nat, reason: string)
    ensures Apply(op, now, Call.BeginRetry(version, reason)) == BeginRetryTx(op, version, reason, now)
  {
  }

  lemma RequestReconciliationIs(op: Op, now: Time, version: nat, reason: string)
    ensures Apply(op, now, Call.RequestReconciliation(version, reason)) ==
      RequestReconciliationTx(op, version, reason, now)
  {
  }

  lemma ClaimIs(op: Op, now: Time, owner: string, lease: Time, grace: Time, token: Token, attempt: AttemptId)
    ensures Apply(op, now, Claim(owner, lease, grace, token, attempt)) ==
      ClaimTx(op, owner, lease, grace, token, attempt, now)
  {
  }

  lemma RenewIs(op: Op, now: Time, token: Token, duration: Time)
    ensures Apply(op, now, Renew(token, duration)) == RenewTx(op, token, duration, now)
  {
  }

  lemma SubmitIs(op: Op, now: Time, result: RecoveryResult)
    ensures Apply(op, now, Submit(result)) == SubmitTx(op, result, now)
  {
  }

  lemma ResolveIs(op: Op, now: Time, version: nat, outcome: ManualOutcome, reason: string)
    ensures Apply(op, now, Resolve(version, outcome, reason)) == ResolveTx(op, version, outcome, reason, now)
  {
  }

  /** A decision row is absent exactly when the reason is verification_transient. */
  lemma DecisionUnlessTransient(row: Row, number: AttemptNumber, o: Observation)
    ensures Decide(row, number, o).decision.None? <==> Decide(row, number, o).reason.VerificationTransient?
  {
  }
  /** The rows an accepted result writes, and the call they amount to. */
  lemma SubmitWritten(r: Rows, r': Rows, id: OpId, result: RecoveryResult, now: Time)
    requires id in r.operations && id in r'.operations
    requires SubmitTx(OpOf(r, id), result, now).Ok?
    requires AttemptIndex(Get(r.attempts, id), result.attempt) < |Get(r.attempts, id)|
    requires
      var row, mine := r.operations[id], Get(r.attempts, id);
      var i := AttemptIndex(mine, result.attempt);
      var v := Decide(row, mine[i].number, result.observation);
      var d := DecisionRow(row, v, result.attempt);
      && r'.operations[id] == Ruled(row, v, now)
      && Receipted(r'.receipts, id) == Receipted(r.receipts, id)
      && Get(r'.attempts, id) == Finished(mine, i, result.observation.outcome, now)
      && Get(r'.observations, id) == Get(r.observations, id) + [(result.attempt, result.observation)]
      && Get(r'.decisions, id) == if d.Some? then Get(r.decisions, id) + [d.value] else Get(r.decisions, id)
    ensures
      var row, mine := r.operations[id], Get(r.attempts, id);
      var v := Decide(row, mine[AttemptIndex(mine, result.attempt)].number, result.observation);
      Apply(OpOf(r, id), now, Submit(result)) ==
      Ok(Written(r, r', id, Event(RecoveryResulted, Some(row.state), v.to, row.version +
        1, Coordinator, v.reason, Some(result.attempt))))
  {
    hide Decide, AttemptIndex, Ruled, Finished, LogOf, Receipted, Get, DecisionRow, HoldsLease, Apply;
    SubmitIs(OpOf(r, id), now, result);
  }

  /** What StoreVerdict leaves behind, and that the books still balance: four rows without a decision, five with one. */
  lemma ResultWritten(r: Rows, r': Rows, id: OpId, result: RecoveryResult, i: nat, v: Verdict,
                      written: map<RunId, nat>, written': map<RunId, nat>,
                      renewals: map<RunId, nat>, now: Time)
    requires Balanced(r, written, renewals) && id in r.operations && r.operations[id].intent.workflow in r.workflows
    requires SubmitTx(OpOf(r, id), result, now).Ok?
    requires i == AttemptIndex(Get(r.attempts, id), result.attempt) < |Get(r.attempts, id)|
    requires v == Decide(r.operations[id], Get(r.attempts, id)[i].number, result.observation)
    requires
      var row := r.operations[id];
      var d := DecisionRow(row, v, result.attempt);
      && r' == r.(observations := r.observations[id := Get(r.observations, id) +
        [(result.attempt, result.observation)]],
                  operations := r.operations[id := Ruled(row, v, now)],
                  attempts := r.attempts[id := Finished(Get(r.attempts, id), i, result.observation.outcome, now)],
                  decisions := if d.Some? then r.decisions[id := Get(r.decisions, id) + [d.value]] else r.decisions,
                  events := r.events + [(id,
                    NextEvent(row, RecoveryResulted, v.to, Coordinator, v.reason, Some(result.attempt)))])
    requires var run := RunOf(r, id);
      written' == Bump(Bumps(Bump(Bump(Bump(written, run), run), run), run, if v.decision.Some? then 1 else 0), run)
    ensures Balanced(r', written', renewals)
    ensures CallOn(DbOf(r), id, now, Submit(result)).Ok? &&
      CallOn(DbOf(r), id, now, Submit(result)).value.row == r'.operations[id]
    ensures DbOf(r') == DbAfter(DbOf(r), id, now, Submit(result))
  {
    hide Balanced, Bumps, DbOf, DbAfter, LogOf, Apply, WrittenFor, AttemptIndex, Decide, SubmitTx, Finished, CallOn;
    DecisionUnlessTransient(r.operations[id], Get(r.attempts, id)[i].number, result.observation);
    FourOrFive(written, RunOf(r, id));
    var e := NextEvent(r.operations[id], RecoveryResulted, v.to, Coordinator, v.reason, Some(result.attempt));
    Lookup(r, id, now, Submit(result));
    SubmitWritten(r, r', id, result, now);
    RowsWritten(r, r', id, Ruled(r.operations[id], v, now), e);
    Committed(r, r', id, e, written, written', renewals, now, Submit(result));
  }

  /** One claimed row: the lease, the numbered attempt and the event. */
  lemma ClaimWritten(r: Rows, r': Rows, id: OpId, owner: string, lease: Time, grace: Time, token: Token,
      attempt: AttemptId, written: map<RunId, nat>,
                     written': map<RunId, nat>, renewals: map<RunId, nat>, now: Time)
    requires Balanced(r, written, renewals) && id in r.operations && r.operations[id].intent.workflow in r.workflows
    requires ClaimTx(OpOf(r, id), owner, lease, grace, token, attempt, now).Ok?
    requires
      var row, mine := r.operations[id], Get(r.attempts, id);
      r' == r.(operations := r.operations[id := row.(leaseOwner := Some(owner), leaseToken := Some(token),
        leaseExpires := Some(now + lease),
                                                     version := row.version + 1)],
               attempts := r.attempts[id := mine + [Attempt(attempt, MaxNumber(mine) + 1, owner, None, None)]],
               events := r.events + [(id,
                 NextEvent(row, RecoveryClaimed, row.state, Coordinator, LeaseAcquired, Some(attempt)))])
    requires written' == Bumps(written, RunOf(r, id), 3)
    ensures Balanced(r', written', renewals)
    ensures DbOf(r') == DbAfter(DbOf(r), id, now, Claim(owner, lease, grace, token, attempt))
  {
    hide Balanced, Bumps, DbOf, DbAfter, LogOf, Apply, WrittenFor, AttemptIndex, MaxNumber, Claimable;
    var row := r.operations[id];
    var e := NextEvent(row, RecoveryClaimed, row.state, Coordinator, LeaseAcquired, Some(attempt));
    ClaimIs(OpOf(r, id), now, owner, lease, grace, token, attempt);
    RowsWritten(r, r', id, r'.operations[id], e);
    Committed(r, r', id, e, written, written', renewals, now, Claim(owner, lease, grace, token, attempt));
  }

  lemma DbOfRow(r: Rows, id: OpId)
    ensures id in DbOf(r) <==> id in r.operations
    ensures id in r.operations ==> DbOf(r)[id] == OpOf(r, id) && OpOf(r, id).row == r.operations[id]
    ensures id in r.operations ==> OpOf(r, id).attempts == Get(r.attempts, id)
  {
    hide LogOf, Get, Receipted;
  }

  // ---- Prepare

  lemma WorkflowCounted(workflows: map<WorkflowId, Workflow>, w: WorkflowId, flow: Workflow, run: RunId)
    requires w !in workflows
    ensures WorkflowRows(workflows[w := flow], run) == WorkflowRows(workflows, run) + if flow.run == Some(run) then 1
      else 0
  {
    var was := OfRun(workflows, run);
    assert OfRun(workflows[w := flow], run) == if flow.run == Some(run) then was + {w} else was;
  }

  /** INSERT INTO workflows: a row that the recount finds in the workflows table itself. */
  lemma WorkflowInserted(r: Rows, w: WorkflowId, flow: Workflow, written: map<RunId, nat>, renewals: map<RunId, nat>)
    requires Balanced(r, written, renewals) && w !in r.workflows
    ensures Balanced(r.(workflows := r.workflows[w := flow]), Bump(written, flow.run), renewals)
  {
    hide LoggedRows, WorkflowRows;
    var r' := r.(workflows := r.workflows[w := flow]);
    forall run: RunId ensures Count(Bump(written, flow.run), run) == Recount(r', run) + Count(renewals, run) {
      LoggedRowsFrame(r, r', r.events, run);
      WorkflowCounted(r.workflows, w, flow, run);
      assert Count(written, run) == Recount(r, run) + Count(renewals, run);
    }
  }

  /** The rows that Prepare inserts for a new operation of a stored workflow. */
  ghost predicate OperationInserted(r: Rows, r': Rows, id: OpId, intent: Intent, now: Time) {
    && id !in r.operations && intent.workflow in r.workflows && (intent.workflow, intent.key) !in r.index
    && r' == r.(index := r.index[(intent.workflow, intent.key) := id],
      operations := r.operations[id := NewOp(intent, now).row],
                events := r.events + [(id, NewOp(intent, now).log[0])])
  }

  lemma InsertedLinked(r: Rows, r': Rows, id: OpId, intent: Intent, now: Time)
    requires Linked(r) && OperationInserted(r, r', id, intent, now)
    ensures Linked(r') && SameRuns(r, r')
  {
  }

  lemma InsertedOp(r: Rows, r': Rows, id: OpId, intent: Intent, now: Time)
    requires Linked(r) && OperationInserted(r, r', id, intent, now)
    ensures OpOf(r', id) == NewOp(intent, now)
  {
    NoLog(r.events, id);
    LogAppend(r.events, id, NewOp(intent, now).log[0], id);
  }

  lemma InsertedElsewhere(r: Rows, r': Rows, id: OpId, intent: Intent, now: Time)
    requires Linked(r) && OperationInserted(r, r', id, intent, now)
    ensures Elsewhere(r, r', id)
  {
    hide Get, Receipted, Linked;
  }

  lemma InsertedBooks(r: Rows, r': Rows, id: OpId, intent: Intent, now: Time, written: map<RunId, nat>,
      renewals: map<RunId, nat>)
    requires Balanced(r, written, renewals) && OperationInserted(r, r', id, intent, now)
    ensures Accounted(r', Bumps(written, r.workflows[intent.workflow].run, 2), renewals)
  {
    hide WorkflowRows, Bumps, Count;
    var mine := r.workflows[intent.workflow].run;
    InsertedLinked(r, r', id, intent, now);
    forall run: RunId ensures Count(Bumps(written, mine, 2), run) == Recount(r', run) + Count(renewals, run) {
      assert r'.events[..|r.events|] == r.events;
      LoggedRowsFrame(r, r', r.events, run);
      BumpsCount(written, mine, 2, run);
      assert Count(written, run) == Recount(r, run) + Count(renewals, run);
    }
  }

  /** INSERT INTO operations and its first event. */
  lemma OperationStored(r: Rows, r': Rows, id: OpId, intent: Intent, now: Time, written: map<RunId, nat>,
      renewals: map<RunId, nat>)
    requires Balanced(r, written, renewals) && OperationInserted(r, r', id, intent, now)
    ensures Balanced(r', Bump(Bump(written, r.workflows[intent.workflow].run), r.workflows[intent.workflow].run),
      renewals)
    ensures DbOf(r') == DbOf(r)[id := NewOp(intent, now)]
  {
    hide Linked, Elsewhere, Accounted, Bump, Bumps, DbOf, LogOf;
    BumpsUnrolled(written, r.workflows[intent.workflow].run);
    InsertedLinked(r, r', id, intent, now);
    InsertedOp(r, r', id, intent, now);
    InsertedElsewhere(r, r', id, intent, now);
    InsertedBooks(r, r', id, intent, now, written, renewals);
    OneOperationWritten(r, r', id, NewOp(intent, now).log[0]);
  }

  lemma NewOpLog(intent: Intent, now: Time)
    ensures NewOp(intent, now).log == [Event(IntentPrepared, None, Prepared, 1, Api, IntentPersisted, None)]
  {
  }

  /** The workflow, if stored, has the metadata of the request. */
  predicate SameMetadata(r: Rows, request: PrepareRequest) {
    request.workflow in r.workflows ==> r.workflows[request.workflow] == Workflow(request.strategy, request.run)
  }

  /** What PrepareTx does with these tables, read off the rows. */
  lemma PrepareIs(r: Rows, request: PrepareRequest, newId: OpId, now: Time, written: map<RunId, nat>,
      renewals: map<RunId, nat>)
    requires Balanced(r, written, renewals)
    ensures
      var t := TablesOf(r);
      var done := PrepareTx(t, request, newId, now);
      var slot := (request.workflow, request.key);
      if !SameMetadata(r, request) then done == Err(WorkflowMetadataConflict)
      else if slot in r.index then
        && slot.0 in r.workflows && r.index[slot] in r.operations
        && done == if r.operations[r.index[slot]].intent.fingerprint != Fingerprint(request.target, request.fields)
          then Err(FingerprintConflict)
                   else Ok(PreparedOp(r.index[slot], t))
      else if newId in r.operations then done == Err(ConstraintViolated)
      else done == Ok(PreparedOp(newId,
        Tables(r.workflows[request.workflow := Workflow(request.strategy, request.run)], r.index[slot := newId],
                                               DbOf(r)[newId := NewOp(IntentOf(request, now), now)])))
  {
    hide OpOf, DbOf, NewOp, IntentOf;
    var slot := (request.workflow, request.key);
    DbOfRow(r, newId);
    if slot in r.index {
      DbOfRow(r, r.index[slot]);
    }
  }

  lemma SameOperations(r: Rows, r': Rows)
    requires r' == r.(workflows := r'.workflows)
    ensures DbOf(r') == DbOf(r)
  {
    forall id | id in r.operations ensures OpOf(r', id) == OpOf(r, id) {
    }
    hide OpOf;
  }

  // ---- The claim query

  /**
   The parameters of the claim query: an optional workflow, the grace period, and the rows other
   transactions have locked.
   */
  datatype ClaimQuery = ClaimQuery(only: Option<WorkflowId>, grace: Time, locked: set<OpId>)

  predicate Selectable(r: Rows, q: ClaimQuery, id: OpId, now: Time) {
    && id in r.operations && id !in q.locked
    && var row := r.operations[id];
       && row.intent.workflow in r.workflows && r.workflows[row.intent.workflow].strategy.Watchkeeper?
       && (q.only.None? || q.only.value == row.intent.workflow)
       && Claimable(row, now, q.grace)
  }

  /** The conditions of the claim query, by the row's schedule; a NULL time is never in the past. */
  lemma SelectableIff(r: Rows, q: ClaimQuery, id: OpId, now: Time)
    requires id in r.operations
    ensures Selectable(r, q, id, now) <==>
      var row := r.operations[id];
      && id !in q.locked
      && row.intent.workflow in r.workflows && r.workflows[row.intent.workflow].strategy == Strategy.Watchkeeper
      && (q.only == None || q.only == Some(row.intent.workflow))
      && (row.leaseExpires == None || row.leaseExpires.value <= now)
      && match row.nextReconcileAt
         case Some(due) => due <= now && (row.state.Prepared? || row.state.Uncertain?)
         case None => row.state.Prepared? && row.preparedAt + q.grace <= now
  {
  }

  /** ORDER BY next_reconcile_at NULLS FIRST, prepared_at, id. */
  predicate ClaimedBefore(x: OpId, a: Row, y: OpId, b: Row) {
    if a.nextReconcileAt != b.nextReconcileAt then
      a.nextReconcileAt.None? || (b.nextReconcileAt.Some? && a.nextReconcileAt.value < b.nextReconcileAt.value)
    else if a.preparedAt != b.preparedAt then a.preparedAt < b.preparedAt
    else x < y
  }

  ghost predicate InClaimOrder(r: Rows, order: seq<OpId>) {
    && (forall id :: id in order <==> id in r.operations)
    && (forall i, j | 0 <= i < j < |order| ::
      ClaimedBefore(order[i], r.operations[order[i]], order[j], r.operations[order[j]]))
  }

  /** Attempt UUIDs that no stored attempt carries. */
  ghost predicate Drawn(r: Rows, drawn: seq<(Token, AttemptId)>) {
    forall k, id, a | 0 <= k < |drawn| && a in Get(r.attempts, id) :: a.id != drawn[k].1
  }

  function FirstSelectable(r: Rows, q: ClaimQuery, order: seq<OpId>, limit: nat, now: Time): seq<OpId> {
    var found := Keep(order, (id: OpId) => Selectable(r, q, id, now));
    found[..Min(limit, |found|)]
  }

  lemma ClaimOrderDistinct(r: Rows, order: seq<OpId>)
    requires InClaimOrder(r, order)
    ensures forall i, j | 0 <= i < j < |order| :: order[i] != order[j]
  {
  }

  lemma {:induction false} KeepDistinct(order: seq<OpId>, p: OpId -> bool)
    requires forall i, j | 0 <= i < j < |order| :: order[i] != order[j]
    ensures forall i, j | 0 <= i < j < |Keep(order, p)| :: Keep(order, p)[i] != Keep(order, p)[j]
  {
    if order != [] {
      var before := order[..|order| - 1];
      KeepDistinct(before, p);
      KeepExact(before, p);
    }
  }

  /** What the query returns: distinct rows, each of them selectable. */
  lemma SelectedRows(r: Rows, q: ClaimQuery, order: seq<OpId>, limit: nat, now: Time)
    requires InClaimOrder(r, order)
    ensures var ids := FirstSelectable(r, q, order, limit, now);
      && |ids| <= limit
      && (forall i, j | 0 <= i < j < |ids| :: ids[i] != ids[j])
      && (forall i | 0 <= i < |ids| :: Selectable(r, q, ids[i], now))
  {
    hide Selectable, InClaimOrder;
    var p := (id: OpId) => Selectable(r, q, id, now);
    ClaimOrderDistinct(r, order);
    KeepDistinct(order, p);
    KeepExact(order, p);
    var ids := FirstSelectable(r, q, order, limit, now);
    forall i | 0 <= i < |ids| ensures Selectable(r, q, ids[i], now) {
      assert ids[i] in Keep(order, p) && p(ids[i]);
    }
  }

  /** x stands before y in the table's order. */
  ghost predicate Precedes(order: seq<OpId>, x: OpId, y: OpId) {
    exists a, b :: 0 <= a < b < |order| && order[a] == x && order[b] == y
  }

  /** What an ordered, limited query owes its caller: the first of the rows that qualify, in order. */
  ghost predicate TakesFirst(r: Rows, q: ClaimQuery, order: seq<OpId>, limit: nat, now: Time, ids: seq<OpId>) {
    && |ids| <= limit
    && (forall k | 0 <= k < |ids| :: ids[k] in order && Selectable(r, q, ids[k], now))
    && (forall j, k | 0 <= j < k < |ids| :: ids[j] != ids[k] && Precedes(order, ids[j], ids[k]))
    && (forall k, x | 0 <= k < |ids| && Precedes(order, x, ids[k]) && Selectable(r, q, x, now) :: x in ids)
    && (|ids| < limit ==> forall x | x in order && Selectable(r, q, x, now) :: x in ids)
  }

  /** Where a kept row stands among the kept ones. */
  lemma KeepAt(order: seq<OpId>, p: OpId -> bool, b: nat)
    requires b < |order| && p(order[b])
    ensures var k := |Keep(order[..b], p)|;
      k < |Keep(order, p)| && Keep(order, p)[k] == order[b] && Keep(order, p)[..k] == Keep(order[..b], p)
  {
    var upTo := order[..b + 1];
    assert upTo[..b] == order[..b];
    assert Keep(upTo, p) == Keep(order[..b], p) + [order[b]];
    assert order == upTo + order[b + 1..];
    KeepPrefix(upTo, order[b + 1..], p);
  }

  lemma KeepInOrder(order: seq<OpId>, p: OpId -> bool, j: nat, k: nat)
    requires j < k < |Keep(order, p)|
    ensures Precedes(order, Keep(order, p)[j], Keep(order, p)[k])
  {
    var m := PositionOf(order, p, k + 1);
    assert order[..m][..m - 1] == order[..m - 1];
    assert |Keep(order[..m - 1], p)| == k;
    KeepAt(order, p, m - 1);
    var n := PositionOf(order[..m - 1], p, j + 1);
    assert order[n - 1] == Keep(order, p)[j] && order[m - 1] == Keep(order, p)[k];
  }

  lemma KeepSkipsNone(order: seq<OpId>, p: OpId -> bool, x: OpId, k: nat)
    requires forall i, j | 0 <= i < j < |order| :: order[i] != order[j]
    requires k < |Keep(order, p)| && Precedes(order, x, Keep(order, p)[k]) && p(x)
    ensures x in Keep(order, p)[..k]
  {
    var a, b :| 0 <= a < b < |order| && order[a] == x && order[b] == Keep(order, p)[k];
    KeepExact(order, p);
    KeepAt(order, p, b);
    KeepDistinct(order, p);
    KeepExact(order[..b], p);
    assert order[..b][a] == x;
  }

  /** The query takes the first selectable rows. */
  lemma SelectedFirst(r: Rows, q: ClaimQuery, order: seq<OpId>, limit: nat, now: Time)
    requires InClaimOrder(r, order)
    ensures TakesFirst(r, q, order, limit, now, FirstSelectable(r, q, order, limit, now))
  {
    hide Selectable, InClaimOrder, Precedes;
    var p := (id: OpId) => Selectable(r, q, id, now);
    var found, ids := Keep(order, p), FirstSelectable(r, q, order, limit, now);
    SelectedRows(r, q, order, limit, now);
    ClaimOrderDistinct(r, order);
    KeepExact(order, p);
    assert forall k | 0 <= k < |ids| :: ids[k] == found[k] && found[k] in found;
    forall j, k | 0 <= j < k < |ids| ensures Precedes(order, ids[j], ids[k]) {
      KeepInOrder(order, p, j, k);
    }
    forall k, x | 0 <= k < |ids| && Precedes(order, x, ids[k]) && Selectable(r, q, x, now) ensures x in ids {
      KeepSkipsNone(order, p, x, k);
      assert found[..k] == ids[..k];
    }
    if |ids| < limit {
      assert ids == found;
      forall x | x in order && Selectable(r, q, x, now) ensures x in ids {
        assert p(x);
      }
    }
  }

  lemma SelectableIsClaimed(r: Rows, q: ClaimQuery, id: OpId, owner: string, lease: Time,
      drawn: seq<(Token, AttemptId)>, k: nat, now: Time)
    requires Selectable(r, q, id, now) && Drawn(r, drawn) && k < |drawn|
    ensures CallOn(DbOf(r), id, now, Claim(owner, lease, q.grace, drawn[k].0, drawn[k].1)).Ok?
  {
    hide Claimable, OpOf, DbOf, Drawn;
    DbOfRow(r, id);
    NotDrawn(r, id, drawn, k);
  }

  lemma NotDrawn(r: Rows, id: OpId, drawn: seq<(Token, AttemptId)>, k: nat)
    requires Drawn(r, drawn) && k < |drawn|
    ensures AttemptIndex(Get(r.attempts, id), drawn[k].1) == |Get(r.attempts, id)|
  {
  }
}
