/**
 The worker in the form it is written in (internal/workflow/worker.go, internal/benchmark/child.go):
 loops over local variables that call the store and the service. Every method is proved to take
 only steps of the composed system of module Protocol, so every theorem about its runs holds for
 them. Between any two steps the other parties act. Whatever may go wrong on the worker's side, a
 failing hook or a reply that does not come back, is asked of World.Fault, which records where it
 struck: nothing else may keep a worker from its duty.
 */
module Workers {
  import opened Domain
  import opened Transactions
  import opened Ledger
  import opened Verifier
  import opened Protocol
  import opened Coherence
  import opened Rounds
  import opened Completion
  import opened Steps
  import opened Evolution
  import opened Answers
  import opened Origins

  /** The worker that acts, requests whose replies it will not see included. */
  function By(a: Action): Option<nat> {
    match a
    case IssuePrepare(p) => Some(p)
    case IssueConfirm(p) => Some(p)
    case _ => Actor(a)
  }

  /** Everything worker p did, in order. */
  ghost function Own(trace: seq<Action>, p: nat): seq<Action> {
    if trace == [] then []
    else
      var last := trace[|trace| - 1];
      Own(trace[..|trace| - 1], p) + if By(last) == Some(p) then [last] else []
  }

  ghost function Times(own: seq<Action>, a: Action): nat {
    multiset(own)[a]
  }

  /** How often worker p has come round its loop. */
  ghost function Polls(own: seq<Action>, p: nat): nat {
    Times(own, Poll(p, true)) + Times(own, Poll(p, false))
  }

  /** How often worker p has tried to have a receipt confirmed. */
  ghost function Tries(own: seq<Action>, p: nat): nat {
    Times(own, ConfirmReceipt(p)) + Times(own, IssueConfirm(p))
  }

  /** The last thing worker p did is an attempt to have its receipt confirmed. */
  ghost predicate Tried(own: seq<Action>, p: nat) {
    own != [] && (own[|own| - 1] == ConfirmReceipt(p) || own[|own| - 1] == IssueConfirm(p))
  }

  /**
   What worker p does next, by the operation as it last saw it and by what has come back to it; a fault
   is a reply that is lost at this point. A new invocation may start anywhere.
   */
  ghost predicate Duty(service: Profile, trace: seq<Action>, a: Action, p: nat, fault: bool) {
    var s := Run(service, trace);
    a.Start? || (p in s.processes &&
      match s.processes[p].pc
      case Preparing => if fault then a == IssuePrepare(p) else a.Prepare?
      case Looping(c) =>
        a == (match c.op.row.state
              case Confirmed => Acknowledge(p)
              case Reconciled => Acknowledge(p)
              case Uncertain => StopUncertain(p)
              case Retryable => Action.Retry(p)
              case Prepared => if c.op.row.dispatchAuthorized || fault then GiveUp(p) else Action.Grant(p))
      case Sending(_) => a == if fault then GiveUp(p) else Action.Send(p)
      case Awaiting(_, n) => a == if fault || n !in s.replies then GiveUp(p) else Receive(p)
      case Confirming(c, _, _, _) =>
        a == if !Tried(Own(trace, p), p) then (if fault then IssueConfirm(p) else ConfirmReceipt(p))
             else if fault || c.id !in s.tables.ops then GiveUp(p) else Reread(p)
      case Polling(_) => a == Poll(p, !fault)
      case _ => false)
  }

  class World {
    var sys: Sys
    ghost const service: Profile
    ghost var trace: seq<Action>
    ghost var faults: set<nat>             // the positions in the trace at which something went wrong

    ghost predicate Valid()
      reads this
    {
      sys == Run(service, trace) && forall m | m in faults :: m <= |trace|
    }

    /** Something has just gone wrong. */
    ghost predicate Faulty()
      reads this
    {
      |trace| in faults
    }

    /** Since this position worker p has done its duty, and nothing but its duty. */
    ghost predicate Duties(p: nat, since: nat)
      reads this
    {
      forall m | since <= m < |trace| && By(trace[m]) == Some(p) ::
        Duty(service, trace[..m], trace[m], p, m in faults)
    }

    constructor (service: Profile)
      ensures Valid() && trace == [] && faults == {} && this.service == service
    {
      sys := Init(service);
      this.service := service;
      trace, faults := [], {};
    }

    method Take(a: Action)
      requires Valid()
      modifies this`sys, this`trace
      ensures Valid() && sys == Do(old(sys), a) && trace == old(trace) + [a] && !Faulty()
      ensures forall p: nat :: Own(trace, p) == Own(old(trace), p) + if By(a) == Some(p) then [a] else []
      ensures forall p: nat, since: nat ::
        old(Duties(p, since)) && (By(a) == Some(p) ==> Duty(service, old(trace), a, p, old(Faulty()))) ==>
          Duties(p, since)
    {
      hide Do, Run, Duty;
      RunAppend(service, trace, a);
      assert (trace + [a])[..|trace|] == trace;
      assert forall m | 0 <= m < |trace| :: (trace + [a])[..m] == trace[..m];
      sys := Do(sys, a);
      trace := trace + [a];
    }

    /** Whether something goes wrong here. */
    method Fault() returns (struck: bool)
      requires Valid()
      modifies this`faults
      ensures Valid() && faults == old(faults) + (if struck then {|trace|} else {})
      ensures forall p: nat, since: nat :: old(Duties(p, since)) ==> Duties(p, since)
    {
      hide Run, Duty;
      struck := *;
      if struck { faults := faults + {|trace|}; }
    }

    /** Any number of actions of anyone. */
    method Anyone()
      requires Valid()
      modifies this`sys, this`trace
      ensures Valid() && old(trace) <= trace && (old(!Faulty()) ==> !Faulty())
      ensures old(sys.claims) <= sys.claims && old(sys.verified) <= sys.verified
    {
      hide Do, Run, Duties;
      var n: nat :| n >= 0;
      for i := 0 to n
        invariant Valid() && old(trace) <= trace && (old(!Faulty()) ==> !Faulty())
        invariant old(sys.claims) <= sys.claims && old(sys.verified) <= sys.verified
      {
        var a: Action := *;
        VerifiedGrows(sys, a);
        Take(a);
      }
    }

    /** Any number of actions of other parties; worker p itself stands still. */
    method Others(p: nat)
      requires Valid() && p in sys.processes
      modifies this`sys, this`trace
      ensures Valid() && old(trace) <= trace && Own(trace, p) == Own(old(trace), p)
      ensures p in sys.processes && sys.processes[p] == old(sys.processes[p])
      ensures old(!Faulty()) ==> !Faulty()
      ensures forall since: nat :: old(Duties(p, since)) ==> Duties(p, since)
    {
      hide Do, Run, Duties;
      var n: nat :| n >= 0;
      for i := 0 to n
        invariant Valid() && old(trace) <= trace && Own(trace, p) == Own(old(trace), p)
        invariant p in sys.processes && sys.processes[p] == old(sys.processes[p])
        invariant old(!Faulty()) ==> !Faulty()
        invariant forall since: nat :: old(Duties(p, since)) ==> Duties(p, since)
      {
        var a: Action := *;
        if By(a) != Some(p) {
          ActionKeeps(sys, a);
          OthersStay(sys, a, p);
          Take(a);
        }
      }
    }
  }

  /** No action removes a process or an acknowledgement. */
  ghost predicate Keeps(s: Sys, s': Sys) {
    s.processes.Keys <= s'.processes.Keys && s.acknowledged <= s'.acknowledged
  }

  lemma CallsKeep(s: Sys, p: nat)
    requires Runs(s, p)
    ensures forall id :: Keeps(s, DoPrepare(s, p, id))
    ensures forall c :: Keeps(s, DoRetry(s, p, c)) && Keeps(s, DoGrant(s, p, c)) && Keeps(s, DoSend(s, p, c))
  {
    hide CallOn, PrepareTx;
  }

  lemma RepliesKeep(s: Sys, p: nat)
    requires Runs(s, p)
    ensures forall id, op, receipt :: Keeps(s, DoConfirm(s, p, id, op, receipt))
    ensures forall c, receipt, tries :: Keeps(s, DoReread(s, p, c, receipt, tries))
    ensures Keeps(s, DoGiveUp(s, p))
  {
    hide CallOn;
  }

  lemma WorkKeeps(s: Sys, a: Action)
    ensures Keeps(s, DoWork(s, a))
  {
    hide DoPrepare, DoRetry, DoGrant, DoSend, DoConfirm, DoReread, DoGiveUp;
    if Actor(a).Some? && Runs(s, Actor(a).value) {
      CallsKeep(s, Actor(a).value);
      RepliesKeep(s, Actor(a).value);
    }
  }

  lemma ActionKeeps(s: Sys, a: Action)
    ensures Keeps(s, Do(s, a))
  {
    hide DoWork, CallOn, PrepareTx, CommitTx, Observe;
    WorkKeeps(s, a);
  }

  lemma VerifiedGrows(s: Sys, a: Action)
    ensures s.claims <= Do(s, a).claims && s.verified <= Do(s, a).verified
  {
    hide DoWork, CallOn, PrepareTx, CommitTx, Observe;
    WorkFrame(s, a);
  }

  // ---- Where the worker stands

  predicate Stands(s: Sys, p: nat, plan: seq<PrepareRequest>, step: nat, pc: Pc) {
    step < |plan| && p in s.processes && s.processes[p] == Process(plan, step, pc)
  }

  /** Execute has returned without error for operation `id`: the process is at its next step. */
  predicate Advanced(s: Sys, p: nat, plan: seq<PrepareRequest>, step: nat, id: OpId) {
    && step < |plan| && id in s.acknowledged
    && p in s.processes && s.processes[p] == Process(plan, step + 1, if step + 1 < |plan| then Preparing else Finished)
  }

  lemma PrepareMoves(s: Sys, p: nat, plan: seq<PrepareRequest>, step: nat, newId: OpId)
    requires Stands(s, p, plan, step, Preparing)
    ensures var r := PrepareTx(s.tables, plan[step], newId, s.now);
      r.Ok? && r.value.id in r.value.tables.ops ==>
        Stands(Do(s, Action.Prepare(p, newId)), p, plan, step,
          Looping(Copy(r.value.id, r.value.tables.ops[r.value.id])))
  {
    hide PrepareTx;
  }

  lemma AcknowledgeMoves(s: Sys, p: nat, plan: seq<PrepareRequest>, step: nat, c: Copy)
    requires Stands(s, p, plan, step, Looping(c)) && Terminal(c.op.row.state)
    ensures Advanced(Do(s, Acknowledge(p)), p, plan, step, c.id)
  {
  }

  lemma StopMoves(s: Sys, p: nat, plan: seq<PrepareRequest>, step: nat, c: Copy)
    requires Stands(s, p, plan, step, Looping(c)) && c.op.row.state.Uncertain?
    ensures Stands(Do(s, StopUncertain(p)), p, plan, step, Stopped)
  {
  }

  lemma RetryMoves(s: Sys, p: nat, plan: seq<PrepareRequest>, step: nat, c: Copy)
    requires Stands(s, p, plan, step, Looping(c)) && c.op.row.state.Retryable?
    ensures var r := CallOn(s.tables.ops, c.id, s.now, BeginRetry(c.op.row.version, "safe_recovery_retry"));
      r.Ok? ==> Stands(Do(s, Action.Retry(p)), p, plan, step, Polling(Copy(c.id, r.value)))
  {
    hide CallOn;
  }

  lemma GrantMoves(s: Sys, p: nat, plan: seq<PrepareRequest>, step: nat, c: Copy)
    requires Stands(s, p, plan, step, Looping(c)) && c.op.row.state.Prepared? && !c.op.row.dispatchAuthorized
    ensures var r := CallOn(s.tables.ops, c.id, s.now, Authorize(c.op.row.version));
      Stands(Do(s, Action.Grant(p)), p, plan, step, if r.Ok? then Sending(Copy(c.id, r.value)) else Polling(c))
  {
    hide CallOn;
  }

  lemma SendMoves(s: Sys, p: nat, plan: seq<PrepareRequest>, step: nat, c: Copy)
    requires Stands(s, p, plan, step, Sending(c))
    ensures Stands(Do(s, Action.Send(p)), p, plan, step, Awaiting(c, s.sent))
    ensures Do(s, Action.Send(p)).wire == s.wire[s.sent := RequestOf(c, plan[step].fields)]
  {
  }

  lemma ReceiveMoves(s: Sys, p: nat, plan: seq<PrepareRequest>, step: nat, c: Copy, n: nat)
    requires Stands(s, p, plan, step, Awaiting(c, n)) && n in s.replies
    ensures Stands(Do(s, Receive(p)), p, plan, step,
      if s.replies[n].operation == c.id then Confirming(c, c.op, s.replies[n], 0) else Polling(c))
  {
  }

  lemma GiveUpMoves(s: Sys, p: nat, plan: seq<PrepareRequest>, step: nat, pc: Pc)
    requires Stands(s, p, plan, step, pc)
    requires pc.Sending? || pc.Awaiting? || pc.Confirming? || (pc.Looping? && pc.copy.op.row.state.Prepared?)
    ensures Stands(Do(s, GiveUp(p)), p, plan, step, Polling(pc.copy))
  {
  }

  lemma PollMoves(s: Sys, p: nat, plan: seq<PrepareRequest>, step: nat, c: Copy, answered: bool)
    requires Stands(s, p, plan, step, Polling(c))
    ensures Stands(Do(s, Poll(p, answered)), p, plan, step,
      Looping(if answered && c.id in s.tables.ops then Copy(c.id, s.tables.ops[c.id]) else c))
  {
  }

  lemma ConfirmMoves(s: Sys, p: nat, plan: seq<PrepareRequest>, step: nat, c: Copy, op: Op, receipt: Receipt,
      tries: nat)
    requires Stands(s, p, plan, step, Confirming(c, op, receipt, tries))
    ensures if CallOn(s.tables.ops, c.id, s.now, Call.Confirm(ConfirmationOf(op, receipt))).Ok?
      then Advanced(Do(s, ConfirmReceipt(p)), p, plan, step, c.id)
      else Do(s, ConfirmReceipt(p)) == s
  {
    hide CallOn;
  }

  lemma IssueConfirmStays(s: Sys, p: nat)
    requires p in s.processes
    ensures p in Do(s, IssueConfirm(p)).processes && Do(s, IssueConfirm(p)).processes[p] == s.processes[p]
  {
  }

  lemma RereadMoves(s: Sys, p: nat, plan: seq<PrepareRequest>, step: nat, c: Copy, op: Op, receipt: Receipt, tries: nat)
    requires Stands(s, p, plan, step, Confirming(c, op, receipt, tries)) && c.id in s.tables.ops
    ensures var current := s.tables.ops[c.id]; var s' := Do(s, Reread(p));
      if current.row.state.Reconciled? ||
        (current.row.state.Confirmed? && current.receipt.Some? &&
          current.receipt.value.serviceReceipt == receipt.id) then
        Advanced(s', p, plan, step, c.id)
      else if current.row.state.Prepared? && tries + 1 < 5 then
        Stands(s', p, plan, step, Confirming(c, current, receipt, tries + 1))
      else
        Stands(s', p, plan, step, Polling(c))
  {
  }

  // ---- Worker.confirm

  /** One call of the confirmation endpoint; when it is lost it may still arrive later. */
  method TryConfirm(w: World, p: nat, ghost plan: seq<PrepareRequest>, ghost step: nat, c: Copy, op: Op,
      receipt: Receipt, ghost tries: nat, ghost since: nat)
    returns (r: Option<Op>)
    requires w.Valid() && !w.Faulty() && w.Duties(p, since)
    requires Stands(w.sys, p, plan, step, Confirming(c, op, receipt, tries)) && !Tried(Own(w.trace, p), p)
    modifies w
    ensures w.Valid() && !w.Faulty() && w.Duties(p, since) && old(w.trace) <= w.trace
    ensures r.Some? ==> Advanced(w.sys, p, plan, step, c.id)
    ensures r.None? ==> Stands(w.sys, p, plan, step, Confirming(c, op, receipt, tries))
    ensures Own(w.trace, p) == Own(old(w.trace), p) + [ConfirmReceipt(p)] ||
      Own(w.trace, p) == Own(old(w.trace), p) + [IssueConfirm(p)]
  {
    hide Do, Run, CallOn, w.Duties, Own;
    w.Others(p);
    var lost := w.Fault();
    if lost {
      IssueConfirmStays(w.sys, p);
      w.Take(IssueConfirm(p));
      return None;
    }
    var confirmed := CallOn(w.sys.tables.ops, c.id, w.sys.now, Call.Confirm(ConfirmationOf(op, receipt)));
    ConfirmMoves(w.sys, p, plan, step, c, op, receipt, tries);
    w.Take(ConfirmReceipt(p));
    return if confirmed.Ok? then Some(confirmed.value) else None;
  }

  /** What a failed attempt finds: done after all, another version to try, or neither. */
  datatype Finding = DoneAnyway(op: Op) | TryAgain(op: Op) | Ambiguous

  /**
   Why a confirmation ends without success: the operation could not be read, or it was read in a state
   that leaves nothing to confirm, or it was still prepared after the last attempt.
   */
  ghost predicate Unconfirmed(service: Profile, trace: seq<Action>, p: nat, c: Copy, receipt: Receipt, last: bool) {
    && trace != []
    && var a, s := trace[|trace| - 1], Run(service, trace[..|trace| - 1]);
       a == GiveUp(p) || (a == Reread(p) && c.id in s.tables.ops &&
         match s.tables.ops[c.id].row.state
         case Prepared => last
         case Confirmed => s.tables.ops[c.id].receipt.None? ||
             s.tables.ops[c.id].receipt.value.serviceReceipt != receipt.id
         case Reconciled => false
         case _ => true)
  }

  /** GetOperation after a failed attempt. */
  method Review(w: World, p: nat, ghost plan: seq<PrepareRequest>, ghost step: nat, c: Copy, ghost op: Op,
      receipt: Receipt, ghost tries: nat, ghost since: nat)
    returns (r: Finding)
    requires w.Valid() && !w.Faulty() && w.Duties(p, since)
    requires Stands(w.sys, p, plan, step, Confirming(c, op, receipt, tries)) && Tried(Own(w.trace, p), p)
    modifies w
    ensures w.Valid() && !w.Faulty() && w.Duties(p, since) && old(w.trace) <= w.trace
    ensures Own(w.trace, p) == Own(old(w.trace), p) + [GiveUp(p)] ||
      Own(w.trace, p) == Own(old(w.trace), p) + [Reread(p)]
    ensures r.DoneAnyway? ==> Advanced(w.sys, p, plan, step, c.id)
    ensures r.TryAgain? ==>
      Stands(w.sys, p, plan, step, if tries + 1 < 5 then Confirming(c, r.op, receipt, tries + 1) else Polling(c))
    ensures r.Ambiguous? ==> Stands(w.sys, p, plan, step, Polling(c))
    ensures !r.DoneAnyway? ==> Unconfirmed(w.service, w.trace, p, c, receipt, r.TryAgain?)
  {
    hide Do, Run, w.Duties, Own;
    w.Others(p);
    var lost := w.Fault();
    if lost || c.id !in w.sys.tables.ops {
      GiveUpMoves(w.sys, p, plan, step, Confirming(c, op, receipt, tries));
      w.Take(GiveUp(p));
      return Ambiguous;
    }
    var current := w.sys.tables.ops[c.id];
    ghost var before := w.trace;
    RereadMoves(w.sys, p, plan, step, c, op, receipt, tries);
    w.Take(Reread(p));
    assert w.trace[..|w.trace| - 1] == before;
    if current.row.state.Confirmed? {
      var mine := current.receipt.Some? && current.receipt.value.serviceReceipt == receipt.id;
      return if mine then DoneAnyway(current) else Ambiguous;
    }
    if current.row.state.Reconciled? { return DoneAnyway(current); }
    if !current.row.state.Prepared? { return Ambiguous; }
    return TryAgain(current);
  }

  /** Worker p neither was granted a dispatch, nor sent an email, nor came round its loop. */
  ghost predicate Idle(own: seq<Action>, own': seq<Action>, p: nat) {
    && Times(own', Action.Grant(p)) == Times(own, Action.Grant(p))
    && Times(own', Action.Send(p)) == Times(own, Action.Send(p)) && Polls(own', p) == Polls(own, p)
  }

  lemma AttemptCounts(own: seq<Action>, own': seq<Action>, p: nat)
    requires own' == own + [ConfirmReceipt(p)] || own' == own + [IssueConfirm(p)]
    ensures Tried(own', p) && Tries(own', p) == Tries(own, p) + 1 && Idle(own, own', p)
  {
  }

  lemma ReviewCounts(own: seq<Action>, own': seq<Action>, p: nat)
    requires own' == own + [GiveUp(p)] || own' == own + [Reread(p)]
    ensures !Tried(own', p) && Tries(own', p) == Tries(own, p) && Idle(own, own', p)
  {
  }

  lemma IdleReflexive(own: seq<Action>, p: nat)
    ensures Idle(own, own, p)
  {
  }

  lemma OneStepCounts(own: seq<Action>, p: nat)
    ensures Polls(own + [GiveUp(p)], p) == Polls(own, p) == Polls(own + [Action.Grant(p)], p)
    ensures Times(own + [GiveUp(p)], Action.Grant(p)) == Times(own, Action.Grant(p))
    ensures Times(own + [Action.Grant(p)], Action.Grant(p)) == Times(own, Action.Grant(p)) + 1
    ensures Times(own + [GiveUp(p)], Action.Send(p)) == Times(own, Action.Send(p))
    ensures Times(own + [Action.Grant(p)], Action.Send(p)) == Times(own, Action.Send(p))
  {
  }

  lemma IdleTransitive(a: seq<Action>, b: seq<Action>, c: seq<Action>, p: nat)
    requires Idle(a, b, p) && Idle(b, c, p)
    ensures Idle(a, c, p)
  {
  }

  /**
   Up to five attempts, each at the version last read, on the receipt of granted operation `c`; all
   five, unless one succeeds or what is read in between leaves nothing to confirm.
   */
  method Confirm(w: World, p: nat, ghost plan: seq<PrepareRequest>, ghost step: nat, c: Copy, receipt: Receipt,
      ghost since: nat)
    returns (r: Option<Op>)
    requires w.Valid() && !w.Faulty() && w.Duties(p, since)
    requires Stands(w.sys, p, plan, step, Confirming(c, c.op, receipt, 0)) && !Tried(Own(w.trace, p), p)
    modifies w
    ensures w.Valid() && !w.Faulty() && w.Duties(p, since) && old(w.trace) <= w.trace
    ensures r.Some? ==> Advanced(w.sys, p, plan, step, c.id)
    ensures r.None? ==> Stands(w.sys, p, plan, step, Polling(c))
    ensures r.None? ==> Unconfirmed(w.service, w.trace, p, c, receipt,
      Tries(Own(w.trace, p), p) == Tries(Own(old(w.trace), p), p) + 5)
    ensures Idle(Own(old(w.trace), p), Own(w.trace, p), p)
    ensures Tries(Own(w.trace, p), p) <= Tries(Own(old(w.trace), p), p) + 5
  {
    hide Do, Run, Own, Stands, Advanced, Unconfirmed, Duty, w.Duties, Times, Polls, Tries, Tried, Idle;
    var op := c.op;
    IdleReflexive(Own(w.trace, p), p);
    for i := 0 to 5
      invariant w.Valid() && !w.Faulty() && w.Duties(p, since) && old(w.trace) <= w.trace
      invariant Stands(w.sys, p, plan, step, if i < 5 then Confirming(c, op, receipt, i) else Polling(c))
      invariant !Tried(Own(w.trace, p), p)
      invariant Idle(Own(old(w.trace), p), Own(w.trace, p), p)
      invariant Tries(Own(w.trace, p), p) == Tries(Own(old(w.trace), p), p) + i
      invariant i > 0 ==> Unconfirmed(w.service, w.trace, p, c, receipt, true)
    {
      ghost var own0 := Own(w.trace, p);
      r := TryConfirm(w, p, plan, step, c, op, receipt, i, since);
      ghost var own1 := Own(w.trace, p);
      AttemptCounts(own0, own1, p);
      IdleTransitive(Own(old(w.trace), p), own0, own1, p);
      if r.Some? { return; }
      var finding := Review(w, p, plan, step, c, op, receipt, i, since);
      ReviewCounts(own1, Own(w.trace, p), p);
      IdleTransitive(Own(old(w.trace), p), own1, Own(w.trace, p), p);
      match finding {
        case DoneAnyway(current) => return Some(current);
        case Ambiguous =>
          UnconfirmedAnyhow(w.service, w.trace, p, c, receipt,
            Tries(Own(w.trace, p), p) == Tries(Own(old(w.trace), p), p) + 5);
          return None;
        case TryAgain(current) => op := current;
      }
    }
    return None;
  }

  lemma UnconfirmedAnyhow(service: Profile, trace: seq<Action>, p: nat, c: Copy, receipt: Receipt, last: bool)
    requires Unconfirmed(service, trace, p, c, receipt, false)
    ensures Unconfirmed(service, trace, p, c, receipt, last)
  {
    hide Run;
  }

  // ---- Worker.send

  /** The outcome of a send stays open: nothing came back, or something about another operation. */
  ghost predicate Unanswered(service: Profile, trace: seq<Action>, p: nat, c: Copy) {
    && trace != []
    && var a, s := trace[|trace| - 1], Run(service, trace[..|trace| - 1]);
       a == GiveUp(p) || (a == Receive(p) && p in s.processes && s.processes[p].pc.Awaiting? &&
         s.processes[p].pc.request in s.replies && s.replies[s.processes[p].pc.request].operation != c.id)
  }

  /** Worker p sent at most one email, and did nothing after it but wait. */
  ghost predicate SendsOnce(own: seq<Action>, own': seq<Action>, p: nat) {
    || own' == own + [GiveUp(p)] || own' == own + [Action.Send(p)] + [GiveUp(p)]
    || own' == own + [Action.Send(p)] + [Receive(p)]
  }

  lemma SendCounts(own: seq<Action>, own': seq<Action>, p: nat)
    requires SendsOnce(own, own', p)
    ensures !Tried(own', p) && Polls(own', p) == Polls(own, p)
    ensures Times(own', Action.Grant(p)) == Times(own, Action.Grant(p))
    ensures Times(own', Action.Send(p)) <= Times(own, Action.Send(p)) + 1
  {
  }

  /** The 201 reply, if it comes back and is about this operation. */
  method AwaitReply(w: World, p: nat, ghost plan: seq<PrepareRequest>, ghost step: nat, c: Copy, n: nat,
      ghost since: nat)
    returns (r: Option<Receipt>)
    requires w.Valid() && !w.Faulty() && w.Duties(p, since) && Stands(w.sys, p, plan, step, Awaiting(c, n))
    modifies w
    ensures w.Valid() && !w.Faulty() && w.Duties(p, since) && old(w.trace) <= w.trace
    ensures Own(w.trace, p) == Own(old(w.trace), p) + [GiveUp(p)] ||
      Own(w.trace, p) == Own(old(w.trace), p) + [Receive(p)]
    ensures r.Some? ==> r.value.operation == c.id && Stands(w.sys, p, plan, step, Confirming(c, c.op, r.value, 0))
    ensures r.None? ==> Stands(w.sys, p, plan, step, Polling(c)) && Unanswered(w.service, w.trace, p, c)
  {
    hide Do, Run, w.Duties, Own;
    w.Others(p);
    var lost := w.Fault();
    if lost || n !in w.sys.replies {
      GiveUpMoves(w.sys, p, plan, step, Awaiting(c, n));
      w.Take(GiveUp(p));
      return None;
    }
    var receipt := w.sys.replies[n];
    ghost var before := w.trace;
    ReceiveMoves(w.sys, p, plan, step, c, n);
    w.Take(Receive(p));
    assert w.trace[..|w.trace| - 1] == before;
    return if receipt.operation == c.id then Some(receipt) else None;
  }

  /** The email request of granted operation `c`: a receipt, or an outcome that stays ambiguous. */
  method Send(w: World, p: nat, plan: seq<PrepareRequest>, step: nat, c: Copy, ghost since: nat)
      returns (r: Option<Receipt>)
    requires w.Valid() && !w.Faulty() && w.Duties(p, since) && Stands(w.sys, p, plan, step, Sending(c))
    modifies w
    ensures w.Valid() && !w.Faulty() && w.Duties(p, since) && old(w.trace) <= w.trace
    ensures r.Some? ==> r.value.operation == c.id && Stands(w.sys, p, plan, step, Confirming(c, c.op, r.value, 0))
    ensures r.None? ==> Stands(w.sys, p, plan, step, Polling(c)) && Unanswered(w.service, w.trace, p, c)
    ensures SendsOnce(Own(old(w.trace), p), Own(w.trace, p), p)
  {
    hide Do, Run, w.Duties, Own;
    w.Others(p);
    var unsent := w.Fault();                        // no request leaves the worker
    if unsent {
      GiveUpMoves(w.sys, p, plan, step, Sending(c));
      w.Take(GiveUp(p));
      return None;
    }
    var n := w.sys.sent;
    SendMoves(w.sys, p, plan, step, c);
    w.Take(Action.Send(p));
    r := AwaitReply(w, p, plan, step, c, n, since);
  }

  // ---- Worker.Execute

  /** What keeps Execute from returning its operation. */
  datatype Cause = HookFailed | ReplyLost | PrepareRefused | RetryRefused | PatienceUsedUp

  datatype Returned = Returned(copy: Copy) | ErrUncertain | ErrOther(cause: Cause)

  /** What each cause means for the trace that ends with it; `polls` is what the deadline allows. */
  ghost predicate Explains(service: Profile, trace: seq<Action>, faults: set<nat>, p: nat, request: PrepareRequest,
      cause: Cause, polls: nat) {
    match cause
    case HookFailed => |trace| in faults
    case ReplyLost =>
      |trace| in faults || (trace != [] && trace[|trace| - 1] == IssuePrepare(p) && |trace| - 1 in faults)
    case PrepareRefused =>
      && trace != [] && trace[|trace| - 1].Prepare?
      && var s := Run(service, trace[..|trace| - 1]);
         PrepareTx(s.tables, request, trace[|trace| - 1].id, s.now).Err?
    case RetryRefused =>
      && trace != [] && trace[|trace| - 1] == Action.Retry(p)
      && var s := Run(service, trace[..|trace| - 1]);
         && p in s.processes && s.processes[p].pc.Looping?
         && !Renewable(s, s.processes[p].pc.copy)
    case PatienceUsedUp => Polls(Own(trace, p), p) >= polls
  }

  lemma ExplainsAnyhow(service: Profile, trace: seq<Action>, faults: set<nat>, p: nat, request: PrepareRequest,
      cause: Cause, polls: nat)
    requires Explains(service, trace, faults, p, request, cause, 0) && !cause.PatienceUsedUp?
    ensures Explains(service, trace, faults, p, request, cause, polls)
  {
    hide Run, PrepareTx, Own;
  }

  lemma PatienceExplains(service: Profile, trace: seq<Action>, faults: set<nat>, p: nat, request: PrepareRequest,
      polls: nat)
    requires Polls(Own(trace, p), p) >= polls
    ensures Explains(service, trace, faults, p, request, PatienceUsedUp, polls)
  {
    hide Run, PrepareTx, Own, Polls;
  }

  /** How a case of the switch ends: done, to be read again, or in an error. */
  datatype Handled = Persisted(copy: Copy) | Unclear(copy: Copy) | Broken(cause: Cause)

  /** The stored operation is retryable, at the version of this copy. */
  predicate Renewable(s: Sys, c: Copy) {
    c.id in s.tables.ops && s.tables.ops[c.id].row.state.Retryable? &&
      s.tables.ops[c.id].row.version == c.op.row.version
  }

  lemma RetryAcceptedIff(s: Sys, c: Copy)
    ensures CallOn(s.tables.ops, c.id, s.now, BeginRetry(c.op.row.version, "safe_recovery_retry")).Ok? <==>
      Renewable(s, c)
  {
  }

  /** The case StateRetryable of Execute: one retry, at the version of the worker's copy. */
  method Restart(w: World, p: nat, ghost plan: seq<PrepareRequest>, ghost step: nat, c: Copy, ghost since: nat)
      returns (r: Handled)
    requires w.Valid() && !w.Faulty() && w.Duties(p, since)
    requires Stands(w.sys, p, plan, step, Looping(c)) && c.op.row.state.Retryable?
    modifies w
    ensures w.Valid() && w.Duties(p, since) && old(w.trace) <= w.trace && !r.Persisted?
    ensures r.Unclear? ==> r.copy.id == c.id && Stands(w.sys, p, plan, step, Polling(r.copy)) && !w.Faulty()
    ensures r.Unclear? ==> Own(w.trace, p) == Own(old(w.trace), p) + [Action.Retry(p)]
    ensures r.Unclear? ==> w.trace != [] && Renewable(Run(w.service, w.trace[..|w.trace| - 1]), c)
    ensures Polls(Own(w.trace, p), p) == Polls(Own(old(w.trace), p), p)
    ensures r.Broken? ==> Explains(w.service, w.trace, w.faults, p, plan[step], r.cause, 0)
    ensures r.Broken? ==> !r.cause.PatienceUsedUp?
  {
    hide Do, Run, CallOn, w.Duties, Own;
    var lost := w.Fault();
    if lost { return Broken(ReplyLost); }
    var begun := CallOn(w.sys.tables.ops, c.id, w.sys.now, BeginRetry(c.op.row.version, "safe_recovery_retry"));
    ghost var before := w.trace;
    RetryMoves(w.sys, p, plan, step, c);
    RetryAcceptedIff(w.sys, c);
    w.Take(Action.Retry(p));
    assert w.trace[..|w.trace| - 1] == before;
    return if begun.Ok? then Unclear(Copy(c.id, begun.value)) else Broken(RetryRefused);
  }

  /** The case StatePrepared of Execute: at most one grant and one send. */
  method Dispatch(w: World, p: nat, plan: seq<PrepareRequest>, step: nat, c: Copy, ghost since: nat)
      returns (r: Handled)
    requires w.Valid() && !w.Faulty() && w.Duties(p, since)
    requires Stands(w.sys, p, plan, step, Looping(c)) && c.op.row.state.Prepared?
    modifies w
    ensures w.Valid() && w.Duties(p, since) && old(w.trace) <= w.trace
    ensures r.Persisted? ==> r.copy.id == c.id && Advanced(w.sys, p, plan, step, c.id) && !w.Faulty()
    ensures r.Unclear? ==> r.copy.id == c.id && Stands(w.sys, p, plan, step, Polling(r.copy)) && !w.Faulty()
    ensures r.Broken? ==> Explains(w.service, w.trace, w.faults, p, plan[step], r.cause, 0) && r.cause.HookFailed?
    ensures Times(Own(w.trace, p), Action.Grant(p)) <= Times(Own(old(w.trace), p), Action.Grant(p)) + 1
    ensures Times(Own(w.trace, p), Action.Send(p)) <= Times(Own(old(w.trace), p), Action.Send(p)) + 1
    ensures Polls(Own(w.trace, p), p) == Polls(Own(old(w.trace), p), p)
  {
    hide Do, Run, CallOn, w.Duties, Own, Unanswered, Unconfirmed, Times, Polls;
    OneStepCounts(Own(w.trace, p), p);
    if c.op.row.dispatchAuthorized {
      GiveUpMoves(w.sys, p, plan, step, Looping(c));
      w.Take(GiveUp(p));
      return Unclear(c);
    }
    var stopped := w.Fault();                       // before_dispatch
    if stopped { return Broken(HookFailed); }
    w.Others(p);
    var lost := w.Fault();
    if lost {
      GiveUpMoves(w.sys, p, plan, step, Looping(c));
      w.Take(GiveUp(p));
      return Unclear(c);
    }
    var granted := CallOn(w.sys.tables.ops, c.id, w.sys.now, Authorize(c.op.row.version));
    GrantMoves(w.sys, p, plan, step, c);
    w.Take(Action.Grant(p));
    if granted.Err? { return Unclear(c); }
    r := Deliver(w, p, plan, step, Copy(c.id, granted.value), since);
  }

  /** The rest of that case, once the dispatch is granted. */
  method Deliver(w: World, p: nat, plan: seq<PrepareRequest>, step: nat, c: Copy, ghost since: nat)
      returns (r: Handled)
    requires w.Valid() && !w.Faulty() && w.Duties(p, since) && Stands(w.sys, p, plan, step, Sending(c))
    modifies w
    ensures w.Valid() && w.Duties(p, since) && old(w.trace) <= w.trace
    ensures r.Persisted? ==> r.copy.id == c.id && Advanced(w.sys, p, plan, step, c.id) && !w.Faulty()
    ensures r.Unclear? ==> r.copy.id == c.id && Stands(w.sys, p, plan, step, Polling(r.copy)) && !w.Faulty()
    ensures r.Broken? ==> Explains(w.service, w.trace, w.faults, p, plan[step], r.cause, 0) && r.cause.HookFailed?
    ensures Times(Own(w.trace, p), Action.Grant(p)) == Times(Own(old(w.trace), p), Action.Grant(p))
    ensures Times(Own(w.trace, p), Action.Send(p)) <= Times(Own(old(w.trace), p), Action.Send(p)) + 1
    ensures Polls(Own(w.trace, p), p) == Polls(Own(old(w.trace), p), p)
  {
    hide Do, Run, w.Duties, Own, Unanswered, Unconfirmed, Stands, Advanced, Duty, Times, Polls, Tried, SendsOnce;
    ghost var own := Own(w.trace, p);
    var receipt := Send(w, p, plan, step, c, since);
    SendCounts(own, Own(w.trace, p), p);
    if receipt.None? { return Unclear(c); }
    var stopped := w.Fault();                       // after_response
    if stopped { return Broken(HookFailed); }
    var confirmed := Confirm(w, p, plan, step, c, receipt.value, since);
    if confirmed.None? { return Unclear(c); }
    stopped := w.Fault();                           // after_persistence
    if stopped { return Broken(HookFailed); }
    return Persisted(Copy(c.id, confirmed.value));
  }

  /**
   What returning without error is worth: the operation is stored as done; it is the one the request
   asks for, in every field if this request created it; and unless an operator said so without
   evidence, its effect is in the ledger.
   */
  ghost predicate Settled(service: Profile, trace: seq<Action>, id: OpId, request: PrepareRequest) {
    var s := Run(service, trace);
    && id in s.acknowledged && id in s.tables.ops && Fits(request, s.tables.ops[id].row.intent)
    && (forall k: nat | k < |trace| && Creates(service, trace, k, request, id) ::
          Reflects(s.tables.ops[id].row.intent, request, Run(service, trace[..k]).now))
    && Terminal(s.tables.ops[id].row.state) && (Truthful(service, trace, id) ==> Evident(s, id))
  }

  lemma PreparedFits(s: Sys, request: PrepareRequest, newId: OpId)
    requires Stored(s.tables) && PrepareTx(s.tables, request, newId, s.now).Ok?
    ensures var r := PrepareTx(s.tables, request, newId, s.now).value;
      r.id in r.tables.ops && Fits(request, r.tables.ops[r.id].row.intent)
  {
    hide PrepareTx, Stored;
    StoredIsIndexed(s.tables);
    InsertedExact(s.tables, s.now, request, newId);
  }

  lemma StoredIsIndexed(t: Tables)
    requires Stored(t)
    ensures Indexed(t)
  {
  }

  lemma ReturnedIsSettled(service: Profile, before: seq<Action>, after: seq<Action>, id: OpId, request: PrepareRequest)
    requires before <= after
    requires id in Run(service, before).tables.ops && Fits(request, Run(service, before).tables.ops[id].row.intent)
    requires id in Run(service, after).acknowledged
    ensures Settled(service, after, id, request)
  {
    hide Run, Truthful, HasEvidence, Creates, Reflects;
    assert after == before + after[|before|..];
    RunLater(service, before, after[|before|..]);
    assert Evolves(Run(service, before).tables.ops[id], Run(service, after).tables.ops[id]);
    AcknowledgedIsDone(service, after, id);
    forall k: nat | k < |after| && Creates(service, after, k, request, id)
      ensures Reflects(Run(service, after).tables.ops[id].row.intent, request, Run(service, after[..k]).now)
    {
      CreatorIsReflected(service, after, k, request, id);
    }
  }

  /** The cases StateConfirmed and StateReconciled. */
  method Finish(w: World, p: nat, ghost plan: seq<PrepareRequest>, ghost step: nat, c: Copy, ghost since: nat)
    requires w.Valid() && w.Duties(p, since)
    requires Stands(w.sys, p, plan, step, Looping(c)) && Terminal(c.op.row.state)
    modifies w
    ensures w.Valid() && w.Duties(p, since) && w.trace == old(w.trace) + [Acknowledge(p)] && !w.Faulty()
    ensures Polls(Own(w.trace, p), p) == Polls(Own(old(w.trace), p), p)
    ensures Advanced(w.sys, p, plan, step, c.id)
  {
    hide Do, Run, w.Duties, Own;
    AcknowledgeMoves(w.sys, p, plan, step, c);
    w.Take(Acknowledge(p));
  }

  /** The case StateUncertain. */
  method Halt(w: World, p: nat, ghost plan: seq<PrepareRequest>, ghost step: nat, c: Copy, ghost since: nat)
    requires w.Valid() && w.Duties(p, since)
    requires Stands(w.sys, p, plan, step, Looping(c)) && c.op.row.state.Uncertain?
    modifies w
    ensures w.Valid() && w.Duties(p, since) && w.trace == old(w.trace) + [StopUncertain(p)]
    ensures Polls(Own(w.trace, p), p) == Polls(Own(old(w.trace), p), p)
    ensures Stands(w.sys, p, plan, step, Stopped)
  {
    hide Do, Run, w.Duties, Own;
    StopMoves(w.sys, p, plan, step, c);
    w.Take(StopUncertain(p));
  }

  /** The for loop of Execute; `patience` is how many times the deadline lets it come round. */
  method Loop(w: World, p: nat, plan: seq<PrepareRequest>, step: nat, first: Copy, patience: nat, ghost since: nat)
      returns (r: Returned)
    requires w.Valid() && !w.Faulty() && w.Duties(p, since) && Stands(w.sys, p, plan, step, Looping(first))
    modifies w
    ensures w.Valid() && w.Duties(p, since) && old(w.trace) <= w.trace
    ensures Polls(Own(w.trace, p), p) >= Polls(Own(old(w.trace), p), p)
    ensures r.Returned? ==> r.copy.id == first.id && Advanced(w.sys, p, plan, step, first.id) && !w.Faulty()
    ensures r.ErrUncertain? ==> Stands(w.sys, p, plan, step, Stopped)
    ensures r.ErrOther? ==> Explains(w.service, w.trace, w.faults, p, plan[step], r.cause,
      Polls(Own(old(w.trace), p), p) + patience)
  {
    hide Do, Run, CallOn, Own, Duty, w.Duties, Explains, Times;
    var op := first;
    for i := 0 to patience
      invariant w.Valid() && !w.Faulty() && w.Duties(p, since) && old(w.trace) <= w.trace
      invariant op.id == first.id && Stands(w.sys, p, plan, step, Looping(op))
      invariant Polls(Own(w.trace, p), p) == Polls(Own(old(w.trace), p), p) + i
    {
      w.Others(p);
      var handled;
      match op.op.row.state {
        case Confirmed =>
          Finish(w, p, plan, step, op, since);
          return Returned(op);
        case Reconciled =>
          Finish(w, p, plan, step, op, since);
          return Returned(op);
        case Uncertain =>
          Halt(w, p, plan, step, op, since);
          return ErrUncertain;
        case Retryable => handled := Restart(w, p, plan, step, op, since);
        case Prepared => handled := Dispatch(w, p, plan, step, op, since);
      }
      if handled.Persisted? { return Returned(handled.copy); }
      if handled.Broken? {
        ExplainsAnyhow(w.service, w.trace, w.faults, p, plan[step], handled.cause,
          Polls(Own(old(w.trace), p), p) + patience);
        return ErrOther(handled.cause);
      }
      op := Reload(w, p, plan, step, handled.copy, since);
    }
    PatienceExplains(w.service, w.trace, w.faults, p, plan[step], Polls(Own(old(w.trace), p), p) + patience);
    return ErrOther(PatienceUsedUp);
  }

  /** The poll interval and GetOperation; without an answer the loop keeps its copy. */
  method Reload(w: World, p: nat, ghost plan: seq<PrepareRequest>, ghost step: nat, op: Copy, ghost since: nat)
      returns (current: Copy)
    requires w.Valid() && !w.Faulty() && w.Duties(p, since) && Stands(w.sys, p, plan, step, Polling(op))
    modifies w
    ensures w.Valid() && !w.Faulty() && w.Duties(p, since) && old(w.trace) <= w.trace
    ensures current.id == op.id && Stands(w.sys, p, plan, step, Looping(current))
    ensures Polls(Own(w.trace, p), p) == Polls(Own(old(w.trace), p), p) + 1
  {
    hide Do, Run, w.Duties, Own;
    w.Others(p);
    var lost := w.Fault();
    current := op;
    if !lost && op.id in w.sys.tables.ops {
      current := Copy(op.id, w.sys.tables.ops[op.id]);
    }
    PollMoves(w.sys, p, plan, step, op, !lost);
    w.Take(Poll(p, !lost));
  }

  /** What came of Prepare: the operation, or the cause of an error. */
  datatype Intended = Intended(copy: Copy) | Unprepared(cause: Cause)

  /** The hook before_intent and the prepare request. */
  method Intend(w: World, p: nat, plan: seq<PrepareRequest>, step: nat, ghost since: nat) returns (r: Intended)
    requires w.Valid() && !w.Faulty() && w.Duties(p, since) && Stands(w.sys, p, plan, step, Preparing)
    modifies w
    ensures w.Valid() && w.Duties(p, since) && old(w.trace) <= w.trace
    ensures r.Intended? ==> Stands(w.sys, p, plan, step, Looping(r.copy)) && !w.Faulty()
    ensures r.Intended? ==> r.copy.id in w.sys.tables.ops && Fits(plan[step], w.sys.tables.ops[r.copy.id].row.intent)
    ensures Polls(Own(w.trace, p), p) == Polls(Own(old(w.trace), p), p)
    ensures r.Unprepared? ==> Explains(w.service, w.trace, w.faults, p, plan[step], r.cause, 0)
    ensures r.Unprepared? ==> !r.cause.PatienceUsedUp?
  {
    hide Do, Run, PrepareTx, Fits, w.Duties, Own;
    var stopped := w.Fault();                       // before_intent
    if stopped { return Unprepared(HookFailed); }
    w.Others(p);
    var lost := w.Fault();
    if lost {
      w.Take(IssuePrepare(p));
      return Unprepared(ReplyLost);
    }
    r := Request(w, p, plan, step, since);
  }

  lemma RefusalExplains(service: Profile, before: seq<Action>, faults: set<nat>, p: nat, request: PrepareRequest,
      newId: OpId)
    requires var s := Run(service, before); PrepareTx(s.tables, request, newId, s.now).Err?
    ensures Explains(service, before + [Action.Prepare(p, newId)], faults, p, request, PrepareRefused, 0)
  {
    hide Run, PrepareTx;
    assert (before + [Action.Prepare(p, newId)])[..|before|] == before;
  }

  /** The prepare request, answered. */
  method Request(w: World, p: nat, plan: seq<PrepareRequest>, step: nat, ghost since: nat) returns (r: Intended)
    requires w.Valid() && !w.Faulty() && w.Duties(p, since) && Stands(w.sys, p, plan, step, Preparing)
    modifies w
    ensures w.Valid() && w.Duties(p, since) && old(w.trace) <= w.trace
    ensures r.Intended? ==> Stands(w.sys, p, plan, step, Looping(r.copy)) && !w.Faulty()
    ensures r.Intended? ==> r.copy.id in w.sys.tables.ops && Fits(plan[step], w.sys.tables.ops[r.copy.id].row.intent)
    ensures Polls(Own(w.trace, p), p) == Polls(Own(old(w.trace), p), p)
    ensures r.Unprepared? ==> Explains(w.service, w.trace, w.faults, p, plan[step], r.cause, 0)
    ensures r.Unprepared? ==> !r.cause.PatienceUsedUp?
  {
    hide Do, Run, PrepareTx, Fits, w.Duties, Own, Explains;
    var newId: OpId :| newId >= 0;
    var prepared := PrepareTx(w.sys.tables, plan[step], newId, w.sys.now);
    if prepared.Ok? {
      AlwaysCoherent(w.service, w.trace);
      StoredNow(w.sys);
      PreparedFits(w.sys, plan[step], newId);
      PrepareMoves(w.sys, p, plan, step, newId);
      PrepareStores(w.sys, p, plan, step, newId);
    } else {
      RefusalExplains(w.service, w.trace, w.faults, p, plan[step], newId);
    }
    w.Take(Action.Prepare(p, newId));
    if prepared.Err? { return Unprepared(PrepareRefused); }
    return Intended(Copy(prepared.value.id, prepared.value.tables.ops[prepared.value.id]));
  }

  /**
   Execute as a whole. Whatever happens, the worker has only done its duty; an error other than
   ErrUncertain has one of five causes, and the deadline is none before the last round.
   */
  method Execute(w: World, p: nat, plan: seq<PrepareRequest>, step: nat, patience: nat, ghost since: nat)
      returns (r: Returned)
    requires w.Valid() && !w.Faulty() && w.Duties(p, since) && Stands(w.sys, p, plan, step, Preparing)
    modifies w
    ensures w.Valid() && w.Duties(p, since) && old(w.trace) <= w.trace
    ensures Polls(Own(w.trace, p), p) >= Polls(Own(old(w.trace), p), p)
    ensures r.Returned? ==> Advanced(w.sys, p, plan, step, r.copy.id) && !w.Faulty()
    ensures r.Returned? ==> Settled(w.service, w.trace, r.copy.id, plan[step])
    ensures r.ErrUncertain? ==> Stands(w.sys, p, plan, step, Stopped)
    ensures r.ErrOther? ==> Explains(w.service, w.trace, w.faults, p, plan[step], r.cause,
      Polls(Own(old(w.trace), p), p) + patience)
  {
    hide Do, Run, PrepareTx, Settled, Fits, Duty, Own;
    var intended := Intend(w, p, plan, step, since);
    if intended.Unprepared? { return ErrOther(intended.cause); }
    ghost var before := w.trace;
    r := Loop(w, p, plan, step, intended.copy, patience, since);
    if r.Returned? {
      ReturnedIsSettled(w.service, before, w.trace, intended.copy.id, plan[step]);
    }
  }

  lemma PrepareStores(s: Sys, p: nat, plan: seq<PrepareRequest>, step: nat, newId: OpId)
    requires Stands(s, p, plan, step, Preparing) && PrepareTx(s.tables, plan[step], newId, s.now).Ok?
    ensures Do(s, Action.Prepare(p, newId)).tables == PrepareTx(s.tables, plan[step], newId, s.now).value.tables
  {
    hide PrepareTx;
  }

  // ---- executeChild and Child, the watchkeeper strategy

  lemma StartMoves(s: Sys, p: nat, plan: seq<PrepareRequest>)
    ensures p in Do(s, Start(p, plan)).processes
    ensures Do(s, Start(p, plan)).processes[p] == Process(plan, 0, if plan == [] then Finished else Preparing)
  {
  }

  lemma {:induction false} AcknowledgedLater(service: Profile, actions: seq<Action>, more: seq<Action>)
    ensures Run(service, actions).acknowledged <= Run(service, actions + more).acknowledged
  {
    hide Do, Run;
    if more == [] {
      assert actions + more == actions;
    } else {
      var before, a := more[..|more| - 1], more[|more| - 1];
      AcknowledgedLater(service, actions, before);
      assert actions + more == (actions + before) + [a];
      RunAppend(service, actions + before, a);
      ActionKeeps(Run(service, actions + before), a);
    }
  }

  /** What has been executed stays executed, whatever happens next. */
  lemma StaysSettled(service: Profile, before: seq<Action>, after: seq<Action>, id: OpId, request: PrepareRequest)
    requires before <= after && Settled(service, before, id, request)
    ensures Settled(service, after, id, request)
  {
    hide Run, Fits, Truthful, HasEvidence, Creates, Reflects;
    assert after == before + after[|before|..];
    AcknowledgedLater(service, before, after[|before|..]);
    ReturnedIsSettled(service, before, after, id, request);
  }

  datatype Ending = AllDone | StoppedUncertain | EndedInError(cause: Cause) | OutOfTime

  /**
   The steps in order, up to the first error; `done` lists the operations executed. The error is that
   of the step after them, or of the hook after the last of them.
   */
  method ExecuteChild(w: World, p: nat, plan: seq<PrepareRequest>, patience: nat, ghost since: nat)
      returns (r: Ending, done: seq<OpId>)
    requires w.Valid() && w.Duties(p, since)
    modifies w
    ensures w.Valid() && old(w.trace) <= w.trace && |done| <= |plan| && !r.OutOfTime?
    ensures |w.trace| > |old(w.trace)| && w.trace[|old(w.trace)|] == Start(p, plan)
    ensures w.Duties(p, since)
    ensures forall j | 0 <= j < |done| :: Settled(w.service, w.trace, done[j], plan[j])
    ensures r.AllDone? ==> |done| == |plan|
    ensures r.StoppedUncertain? ==> Stands(w.sys, p, plan, |done|, Stopped)
    ensures r.EndedInError? ==>
      if r.cause.HookFailed? then w.Faulty()
      else |done| < |plan| && Explains(w.service, w.trace, w.faults, p, plan[|done|], r.cause,
        Polls(Own(old(w.trace), p), p) + patience)
  {
    hide Do, Run, Settled, Own, Duty;
    StartMoves(w.sys, p, plan);
    StartIsDuty(w.service, w.trace, p, plan, w.Faulty());
    w.Take(Start(p, plan));
    done := [];
    for step := 0 to |plan|
      invariant w.Valid() && !w.Faulty() && old(w.trace) + [Start(p, plan)] <= w.trace && |done| == step
      invariant w.Duties(p, since) && Polls(Own(w.trace, p), p) >= Polls(Own(old(w.trace), p), p)
      invariant p in w.sys.processes &&
        w.sys.processes[p] == Process(plan, step, if step < |plan| then Preparing else Finished)
      invariant forall j | 0 <= j < |done| :: Settled(w.service, w.trace, done[j], plan[j])
    {
      ghost var before := w.trace;
      var executed := Execute(w, p, plan, step, patience, since);
      forall j | 0 <= j < |done| ensures Settled(w.service, w.trace, done[j], plan[j]) {
        StaysSettled(w.service, before, w.trace, done[j], plan[j]);
      }
      if executed.ErrUncertain? { return StoppedUncertain, done; }
      if executed.ErrOther? { return EndedInError(executed.cause), done; }
      done := done + [executed.copy.id];
      var stopped := w.Fault();                     // step_acknowledged
      if stopped { return EndedInError(HookFailed), done; }
    }
    r := AllDone;
  }

  lemma StartIsDuty(service: Profile, trace: seq<Action>, p: nat, plan: seq<PrepareRequest>, fault: bool)
    ensures Duty(service, trace, Start(p, plan), p, fault)
  {
  }

  /** Child: a new invocation after every error other than ErrUncertain, until the deadline. */
  method Child(w: World, p: nat, plan: seq<PrepareRequest>, patience: nat, invocations: nat)
      returns (r: Ending, done: seq<OpId>, ghost starts: seq<nat>)
    requires w.Valid()
    modifies w
    ensures w.Valid() && old(w.trace) <= w.trace && |done| <= |plan| && w.Duties(p, |old(w.trace)|)
    ensures forall j | 0 <= j < |done| :: Settled(w.service, w.trace, done[j], plan[j])
    ensures r.AllDone? ==> |done| == |plan|
    ensures r.StoppedUncertain? ==> Stands(w.sys, p, plan, |done|, Stopped)
    ensures !r.EndedInError?
    ensures forall i, j | 0 <= i < j < |starts| :: starts[i] < starts[j]
    ensures forall i | 0 <= i < |starts| :: starts[i] < |w.trace| && w.trace[starts[i]] == Start(p, plan)
    ensures |starts| <= invocations && (r.OutOfTime? ==> |starts| == invocations)
  {
    hide Do, Run, Duty, w.Duties, Settled, Explains, Stands;
    done, starts := [], [];
    NoDuties(w, p);
    for i := 0 to invocations
      invariant w.Valid() && old(w.trace) <= w.trace && |done| <= |plan| && w.Duties(p, |old(w.trace)|)
      invariant forall j | 0 <= j < |done| :: Settled(w.service, w.trace, done[j], plan[j])
      invariant forall i, j | 0 <= i < j < |starts| :: starts[i] < starts[j]
      invariant forall i | 0 <= i < |starts| :: starts[i] < |w.trace| && w.trace[starts[i]] == Start(p, plan)
      invariant |starts| == i
    {
      starts := starts + [|w.trace|];
      r, done := ExecuteChild(w, p, plan, patience, |old(w.trace)|);
      if !r.EndedInError? { return; }
    }
    r := OutOfTime;
  }

  lemma NoDuties(w: World, p: nat)
    ensures w.Duties(p, |w.trace|)
  {
  }
}
