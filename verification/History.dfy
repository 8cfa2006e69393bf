/**
 What every transaction keeps, whoever calls it: the event log reconstructs the row, dispatch
 is granted at most once an attempt, and the schema's constraints hold. Nothing here assumes
 a well-behaved client: any call with any arguments may come next.
 */
module History {
  import opened Domain
  import opened Transactions

  // ---- The log reconstructs the row

  datatype Facts = Facts(state: State, version: nat, dispatchAuthorized: bool, attemptCount: nat)

  function RowFacts(row: Row): Facts {
    Facts(row.state, row.version, row.dispatchAuthorized, row.attemptCount)
  }

  /** The facts an auditor derives from the events alone. */
  function Replay(log: seq<Event>): Facts {
    if log == [] then Facts(Prepared, 0, false, 0)
    else
      var before := Replay(log[..|log| - 1]);
      var e := log[|log| - 1];
      Facts(e.to, before.version + 1,
            e.kind.DispatchGranted? || (before.dispatchAuthorized && !e.kind.RetryStarted?),
            before.attemptCount + if e.kind.IntentPrepared? || e.kind.RetryStarted? then 1 else 0)
  }

  /** Versions 1, 2, 3, ... without gaps; each event leaves the state the previous one reached. */
  ghost predicate Chained(log: seq<Event>) {
    && |log| > 0
    && log[0].kind.IntentPrepared? && log[0].from.None? && log[0].to.Prepared?
    && (forall i | 0 <= i < |log| :: log[i].version == i + 1)
    && (forall i | 0 < i < |log| :: log[i].from == Some(log[i - 1].to) && !log[i].kind.IntentPrepared?)
  }

  ghost predicate Logged(op: Op) {
    && Chained(op.log)
    && |op.log| == op.row.version
    && Replay(op.log) == RowFacts(op.row)
  }

  lemma {:induction false} ReplayAppend(log: seq<Event>, e: Event)
    ensures Replay(log + [e]) ==
      Facts(e.to, Replay(log).version + 1,
            e.kind.DispatchGranted? || (Replay(log).dispatchAuthorized && !e.kind.RetryStarted?),
            Replay(log).attemptCount + if e.kind.IntentPrepared? || e.kind.RetryStarted? then 1 else 0)
  {
    assert (log + [e])[..|log|] == log;
  }

  /** A call that is accepted appends at most one event, and only a renewal or a replay appends none. */
  lemma AppendsOne(op: Op, now: Time, call: Call)
    requires Apply(op, now, call).Ok?
    ensures var op' := Apply(op, now, call).value;
      if call.Renew? || (call.Confirm? && op.receipt.Some?) then
        op' == op.(row := op.row.(leaseExpires := op'.row.leaseExpires))
      else
        |op'.log| == |op.log| + 1 && op'.log[..|op.log|] == op.log && op'.row.version == op.row.version + 1
  {
    var op' := Apply(op, now, call).value;
    if !(call.Renew? || (call.Confirm? && op.receipt.Some?)) {
      assert op'.log == op.log + [op'.log[|op.log|]];
    }
  }

  /** Appending the event that a row's own update calls for keeps log and row in step. */
  lemma LoggedAppend(op: Op, op': Op, e: Event)
    requires Logged(op) && op'.log == op.log + [e]
    requires !e.kind.IntentPrepared? && e.from == Some(op.row.state) && e.version == op.row.version + 1
    requires RowFacts(op'.row) ==
      Facts(e.to, op.row.version + 1,
            e.kind.DispatchGranted? || (op.row.dispatchAuthorized && !e.kind.RetryStarted?),
            op.row.attemptCount + if e.kind.RetryStarted? then 1 else 0)
    ensures Logged(op')
  {
    ReplayAppend(op.log, e);
    assert Replay(op.log).state == op.log[|op.log| - 1].to;
  }

  lemma LoggedStep(op: Op, now: Time, call: Call)
    requires Logged(op) && Apply(op, now, call).Ok?
    ensures Logged(Apply(op, now, call).value)
  {
    AppendsOne(op, now, call);
    var op' := Apply(op, now, call).value;
    if !(call.Renew? || (call.Confirm? && op.receipt.Some?)) {
      LoggedAppend(op, op', op'.log[|op.log|]);
    }
  }

  // ---- Single-send fence

  /** All grants ever issued. */
  function Grants(log: seq<Event>): nat {
    if log == [] then 0
    else Grants(log[..|log| - 1]) + if log[|log| - 1].kind.DispatchGranted? then 1 else 0
  }

  /** Grants issued since the current attempt began. */
  function CurrentGrants(log: seq<Event>): nat {
    if log == [] || log[|log| - 1].kind.RetryStarted? then 0
    else CurrentGrants(log[..|log| - 1]) + if log[|log| - 1].kind.DispatchGranted? then 1 else 0
  }

  ghost predicate Fenced(op: Op) {
    && CurrentGrants(op.log) == (if op.row.dispatchAuthorized then 1 else 0)
    && Grants(op.log) + (if op.row.dispatchAuthorized then 0 else 1) <= op.row.attemptCount
  }

  lemma FencedStep(op: Op, now: Time, call: Call)
    requires Fenced(op) && Apply(op, now, call).Ok?
    ensures Fenced(Apply(op, now, call).value)
  {
    var op' := Apply(op, now, call).value;
    if op'.log != op.log {
      assert op'.log == op.log + [op'.log[|op.log|]];
      assert op'.log[..|op.log|] == op.log;
    }
  }

  // ---- Schema constraints

  /** The CHECK constraints of the operations table. */
  predicate RowChecks(row: Row) {
    && row.attemptCount > 0 && row.version > 0
    && (row.leaseOwner.None? <==> row.leaseToken.None?)
    && (row.leaseToken.None? <==> row.leaseExpires.None?)
    && (row.state.Confirmed? ==> row.confirmedAt.Some? && row.resolvedAt.Some?)
    && (row.state.Reconciled? ==> row.resolvedAt.Some?)
  }

  /** Attempt numbers are 1..n in order and attempt IDs are distinct. */
  ghost predicate Numbered(attempts: seq<Attempt>) {
    && (forall i | 0 <= i < |attempts| :: attempts[i].number == i + 1)
    && (forall i, j | 0 <= i < j < |attempts| :: attempts[i].id != attempts[j].id)
  }

  /** No (operation, version) carries two decisions, and every decision is in the past. */
  ghost predicate DecisionsOrdered(op: Op) {
    && (forall d | d in op.decisions :: d.version <= op.row.version)
    && (forall i, j | 0 <= i < j < |op.decisions| :: op.decisions[i].version < op.decisions[j].version)
  }

  ghost predicate Schema(op: Op) {
    && RowChecks(op.row)
    && (op.receipt.Some? <==> op.row.state.Confirmed?)
    && (op.row.state.Confirmed? ==> op.row.leaseToken.None?)
    && Numbered(op.attempts)
    && DecisionsOrdered(op)
  }

  lemma {:induction false} MaxNumberIsLength(attempts: seq<Attempt>)
    requires Numbered(attempts)
    ensures MaxNumber(attempts) == |attempts|
  {
    if attempts != [] {
      MaxNumberIsLength(attempts[..|attempts| - 1]);
    }
  }

  lemma SchemaResult(op: Op, now: Time, r: RecoveryResult)
    requires Schema(op) && SubmitTx(op, r, now).Ok?
    ensures Schema(SubmitTx(op, r, now).value)
  {
  }

  lemma SchemaClaim(op: Op, owner: string, lease: Time, grace: Time, token: Token, attempt: AttemptId, now: Time)
    requires Schema(op) && ClaimTx(op, owner, lease, grace, token, attempt, now).Ok?
    ensures Schema(ClaimTx(op, owner, lease, grace, token, attempt, now).value)
  {
    MaxNumberIsLength(op.attempts);
  }

  lemma SchemaStep(op: Op, now: Time, call: Call)
    requires Schema(op) && Apply(op, now, call).Ok?
    ensures Schema(Apply(op, now, call).value)
  {
    hide SubmitTx, ClaimTx;
    match call
    case Submit(r) => SchemaResult(op, now, r);
    case Claim(owner, lease, grace, token, attempt) => SchemaClaim(op, owner, lease, grace, token, attempt, now);
    case _ =>
  }

  // ---- All of it, over every sequence of calls

  ghost predicate Sound(op: Op) {
    Logged(op) && Fenced(op) && Schema(op)
  }

  lemma SoundNew(intent: Intent, now: Time)
    ensures Sound(NewOp(intent, now))
  {
    var op := NewOp(intent, now);
    assert op.log[..0] == [];
    assert Replay(op.log) == RowFacts(op.row);
    assert CurrentGrants(op.log) == 0 && Grants(op.log) == 0;
  }

  lemma SoundStep(op: Op, now: Time, call: Call)
    requires Sound(op)
    ensures Sound(After(op, now, call))
  {
    if Apply(op, now, call).Ok? {
      LoggedStep(op, now, call);
      FencedStep(op, now, call);
      SchemaStep(op, now, call);
    }
  }

  /** An operation's whole life: any calls, from any clients, at any times. */
  function Life(intent: Intent, born: Time, calls: seq<(Time, Call)>): Op {
    if calls == [] then NewOp(intent, born)
    else
      var last := calls[|calls| - 1];
      After(Life(intent, born, calls[..|calls| - 1]), last.0, last.1)
  }

  lemma {:induction false} EveryLifeIsSound(intent: Intent, born: Time, calls: seq<(Time, Call)>)
    ensures Sound(Life(intent, born, calls))
  {
    if calls == [] {
      SoundNew(intent, born);
    } else {
      var last := calls[|calls| - 1];
      EveryLifeIsSound(intent, born, calls[..|calls| - 1]);
      SoundStep(Life(intent, born, calls[..|calls| - 1]), last.0, last.1);
    }
  }
}
