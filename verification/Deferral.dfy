/**
 Transient verification errors postpone an operation a bounded number of times over its
 whole life, whatever clients do: attempts are numbered 1, 2, 3, ..., each is finished at most
 once, and only the first four may be answered by a deferral.
 */
module Deferral {
  import opened Domain
  import opened Transactions
  import opened History

  predicate IsDeferral(e: Event) {
    e.kind.RecoveryResulted? && e.reason.VerificationTransient?
  }

  /** Zero-based position, in the attempts table, of the attempt a recovery result answers. */
  function Answered(e: Event, attempts: seq<Attempt>): nat {
    if e.attempt.Some? then AttemptIndex(attempts, e.attempt.value) else |attempts|
  }

  function DeferralCount(log: seq<Event>): nat {
    if log == [] then 0
    else DeferralCount(log[..|log| - 1]) + if IsDeferral(log[|log| - 1]) then 1 else 0
  }

  /** The waiting time that an auditor derives from the log and the attempt numbers. */
  function TotalDelay(log: seq<Event>, attempts: seq<Attempt>): Time {
    if log == [] then 0
    else
      var e := log[|log| - 1];
      TotalDelay(log[..|log| - 1], attempts) +
      if IsDeferral(e) then Backoff(Answered(e, attempts) + 1) else 0
  }

  /** Deferrals that answered the attempt at position n. */
  function DeferralsOf(log: seq<Event>, attempts: seq<Attempt>, n: nat): nat {
    if log == [] then 0
    else
      var e := log[|log| - 1];
      DeferralsOf(log[..|log| - 1], attempts, n) +
      if IsDeferral(e) && Answered(e, attempts) == n then 1 else 0
  }

  function Spent(attempts: seq<Attempt>, n: nat): nat {
    if n < |attempts| && attempts[n].finishedAt.Some? then 1 else 0
  }

  ghost predicate Deferred(op: Op) {
    && (forall e | e in op.log && IsDeferral(e) ::
      Answered(e, op.attempts) < |op.attempts| && Answered(e, op.attempts) < 4)
    && (forall n: nat :: DeferralsOf(op.log, op.attempts, n) <= Spent(op.attempts, n))
  }

  ghost predicate Extends(more: seq<Attempt>, attempts: seq<Attempt>) {
    && |attempts| <= |more|
    && forall i | 0 <= i < |attempts| :: more[i].id == attempts[i].id
  }

  lemma AnsweredStable(e: Event, attempts: seq<Attempt>, more: seq<Attempt>)
    requires Extends(more, attempts) && Answered(e, attempts) < |attempts|
    ensures Answered(e, more) == Answered(e, attempts)
  {
  }

  lemma {:induction false} DeferralsOfStable(log: seq<Event>, attempts: seq<Attempt>, more: seq<Attempt>, n: nat)
    requires Extends(more, attempts)
    requires forall e | e in log && IsDeferral(e) :: Answered(e, attempts) < |attempts|
    ensures DeferralsOf(log, more, n) == DeferralsOf(log, attempts, n)
  {
    if log != [] {
      var e := log[|log| - 1];
      assert forall x | x in log[..|log| - 1] :: x in log;
      DeferralsOfStable(log[..|log| - 1], attempts, more, n);
      if IsDeferral(e) {
        AnsweredStable(e, attempts, more);
      }
    }
  }

  /** A deferral is accepted only for one of the first four attempts, and finishes that attempt. */
  lemma DeferralFinishes(op: Op, now: Time, r: RecoveryResult)
    requires Numbered(op.attempts) && SubmitTx(op, r, now).Ok?
    ensures var op' := SubmitTx(op, r, now).value;
      var i := AttemptIndex(op.attempts, r.attempt);
      var e := op'.log[|op.log|];
      && i < |op.attempts| && Spent(op.attempts, i) == 0 && Spent(op'.attempts, i) == 1
      && (forall n: nat | n != i :: Spent(op'.attempts, n) == Spent(op.attempts, n))
      && op'.log == op.log + [e] && Answered(e, op'.attempts) == i
      && (IsDeferral(e) ==> i < 4)
  {
    var op' := SubmitTx(op, r, now).value;
    AnsweredStable(op'.log[|op.log|], op.attempts, op'.attempts);
  }

  /** Calls other than accepted results leave the deferral books alone. */
  lemma OthersDoNotDefer(op: Op, now: Time, call: Call)
    requires Apply(op, now, call).Ok? && !call.Submit?
    ensures var op' := Apply(op, now, call).value;
      && Extends(op'.attempts, op.attempts)
      && (forall n: nat :: Spent(op'.attempts, n) == Spent(op.attempts, n))
      && (|op.log| <= |op'.log| && op'.log == op.log + op'.log[|op.log|..] && |op'.log| <= |op.log| + 1)
      && (forall e | e in op'.log[|op.log|..] :: !IsDeferral(e))
  {
    var op' := Apply(op, now, call).value;
    if op'.log != op.log {
      assert op'.log == op.log + [op'.log[|op.log|]];
    }
  }

  lemma DeferredAppend(op: Op, op': Op, appended: seq<Event>)
    requires Deferred(op) && Extends(op'.attempts, op.attempts)
    requires op'.log == op.log + appended && |appended| <= 1
    requires forall n: nat :: Spent(op.attempts, n) <= Spent(op'.attempts, n)
    requires forall e | e in appended && IsDeferral(e) ::
      var i := Answered(e, op'.attempts);
      i < 4 && i < |op'.attempts| && Spent(op.attempts, i) == 0 && Spent(op'.attempts, i) == 1
    ensures Deferred(op')
  {
    forall x | x in op'.log && IsDeferral(x)
      ensures Answered(x, op'.attempts) < |op'.attempts| && Answered(x, op'.attempts) < 4
    {
      if x in op.log {
        AnsweredStable(x, op.attempts, op'.attempts);
      }
    }
    forall n: nat
      ensures DeferralsOf(op'.log, op'.attempts, n) <= Spent(op'.attempts, n)
    {
      DeferralsOfStable(op.log, op.attempts, op'.attempts, n);
      assert DeferralsOf(op.log, op.attempts, n) <= Spent(op.attempts, n);
      if appended == [] {
        assert op'.log == op.log;
      } else {
        assert op'.log[..|op.log|] == op.log;
      }
    }
  }

  lemma DeferredStep(op: Op, now: Time, call: Call)
    requires Schema(op) && Deferred(op)
    ensures Deferred(After(op, now, call))
  {
    if Apply(op, now, call).Ok? {
      var op' := Apply(op, now, call).value;
      if call.Submit? {
        DeferralFinishes(op, now, call.result);
        DeferredAppend(op, op', [op'.log[|op.log|]]);
      } else {
        OthersDoNotDefer(op, now, call);
        DeferredAppend(op, op', op'.log[|op.log|..]);
      }
    }
  }

  lemma {:induction false} EveryLifeIsDeferred(intent: Intent, born: Time, calls: seq<(Time, Call)>)
    ensures Deferred(Life(intent, born, calls))
  {
    if calls == [] {
      var op := NewOp(intent, born);
      assert op.log[..0] == [];
      forall n: nat ensures DeferralsOf(op.log, op.attempts, n) == 0 { }
    } else {
      var last := calls[|calls| - 1];
      EveryLifeIsDeferred(intent, born, calls[..|calls| - 1]);
      EveryLifeIsSound(intent, born, calls[..|calls| - 1]);
      DeferredStep(Life(intent, born, calls[..|calls| - 1]), last.0, last.1);
    }
  }

  /** The ten-second cap is dead code: no deferral reaches it. */
  lemma BackoffTable()
    ensures Backoff(1) == 250 && Backoff(2) == 500 && Backoff(3) == 1000 && Backoff(4) == 2000
  {
    assert Shifted(0) == 1 && Shifted(1) == 2 && Shifted(2) == 4 && Shifted(3) == 8;
  }

  lemma {:induction false} Totals(log: seq<Event>, attempts: seq<Attempt>)
    requires forall e | e in log && IsDeferral(e) :: Answered(e, attempts) < 4
    ensures DeferralCount(log) ==
      DeferralsOf(log, attempts, 0) + DeferralsOf(log, attempts, 1) + DeferralsOf(log, attempts, 2) +
        DeferralsOf(log, attempts, 3)
    ensures TotalDelay(log, attempts) ==
      250 * DeferralsOf(log, attempts, 0) + 500 * DeferralsOf(log, attempts, 1) +
      1000 * DeferralsOf(log, attempts, 2) + 2000 * DeferralsOf(log, attempts, 3)
  {
    if log != [] {
      assert forall x | x in log[..|log| - 1] :: x in log;
      Totals(log[..|log| - 1], attempts);
      BackoffTable();
    }
  }

  /**
   An accepted result stores no decision exactly when it defers. It then keeps the state and
   schedules the next verification after the attempt's backoff, at most two seconds; from the
   fifth attempt on it always decides.
   */
  lemma DecidesOrDefers(op: Op, now: Time, r: RecoveryResult)
    requires Numbered(op.attempts) && SubmitTx(op, r, now).Ok?
    ensures var op' := SubmitTx(op, r, now).value;
      var i := AttemptIndex(op.attempts, r.attempt);
      && (IsDeferral(op'.log[|op.log|]) <==> op'.decisions == op.decisions)
      && (IsDeferral(op'.log[|op.log|]) ==>
            && i < 4 && op'.row.state == op.row.state
            && op'.row.nextReconcileAt == Some(now + Backoff(i + 1)) && 0 < Backoff(i + 1) <= 2000)
      && (!IsDeferral(op'.log[|op.log|]) ==>
            op'.row.nextReconcileAt.None? && |op'.decisions| == |op.decisions| + 1)
      && (i >= 4 ==> |op'.decisions| == |op.decisions| + 1)
  {
    BackoffTable();
  }

  // ---- What the store really makes operations wait

  /** How far a call pushes the next verification by deferring. */
  function Postponed(op: Op, now: Time, call: Call): Time {
    var op' := After(op, now, call);
    if |op'.log| > |op.log| && IsDeferral(op'.log[|op.log|]) && op'.row.nextReconcileAt.Some?
    then op'.row.nextReconcileAt.value - now else 0
  }

  /** The sum over a life. */
  function Waited(intent: Intent, born: Time, calls: seq<(Time, Call)>): Time {
    if calls == [] then 0
    else
      var before, last := calls[..|calls| - 1], calls[|calls| - 1];
      Waited(intent, born, before) + Postponed(Life(intent, born, before), last.0, last.1)
  }

  lemma {:induction false} TotalDelayStable(log: seq<Event>, attempts: seq<Attempt>, more: seq<Attempt>)
    requires Extends(more, attempts)
    requires forall e | e in log && IsDeferral(e) :: Answered(e, attempts) < |attempts|
    ensures TotalDelay(log, more) == TotalDelay(log, attempts)
  {
    if log != [] {
      var e := log[|log| - 1];
      assert forall x | x in log[..|log| - 1] :: x in log;
      TotalDelayStable(log[..|log| - 1], attempts, more);
      if IsDeferral(e) {
        AnsweredStable(e, attempts, more);
      }
    }
  }

  lemma TotalDelayAppend(log: seq<Event>, e: Event, attempts: seq<Attempt>)
    ensures TotalDelay(log + [e], attempts) ==
      TotalDelay(log, attempts) + if IsDeferral(e) then Backoff(Answered(e, attempts) + 1) else 0
  {
    assert (log + [e])[..|log|] == log;
  }

  /** Each call adds to the audited total exactly what it made the operation wait. */
  lemma PostponedIsAudited(op: Op, now: Time, call: Call)
    requires Schema(op) && Deferred(op)
    ensures var op' := After(op, now, call);
      TotalDelay(op'.log, op'.attempts) == TotalDelay(op.log, op.attempts) + Postponed(op, now, call)
  {
    hide TotalDelay, Backoff, Deferred;
    if Apply(op, now, call).Ok? {
      var op' := Apply(op, now, call).value;
      DeferredAnswers(op);
      if call.Submit? {
        DeferralFinishes(op, now, call.result);
        DecidesOrDefers(op, now, call.result);
        TotalDelayStable(op.log, op.attempts, op'.attempts);
        TotalDelayAppend(op.log, op'.log[|op.log|], op'.attempts);
      } else {
        OthersDoNotDefer(op, now, call);
        TotalDelayStable(op.log, op.attempts, op'.attempts);
        if |op'.log| > |op.log| {
          assert op'.log == op.log + [op'.log[|op.log|]];
          TotalDelayAppend(op.log, op'.log[|op.log|], op'.attempts);
        } else {
          assert op'.log == op.log;
        }
      }
    }
  }

  lemma DeferredAnswers(op: Op)
    requires Deferred(op)
    ensures forall e | e in op.log && IsDeferral(e) :: Answered(e, op.attempts) < |op.attempts|
  {
  }

  lemma {:induction false} WaitedIsAudited(intent: Intent, born: Time, calls: seq<(Time, Call)>)
    ensures var op := Life(intent, born, calls); Waited(intent, born, calls) == TotalDelay(op.log, op.attempts)
  {
    hide After, Postponed, Deferred, Schema;
    if calls == [] {
      NoDelayYet(intent, born);
    } else {
      var before, last := calls[..|calls| - 1], calls[|calls| - 1];
      WaitedIsAudited(intent, born, before);
      EveryLifeIsDeferred(intent, born, before);
      EveryLifeIsSound(intent, born, before);
      PostponedIsAudited(Life(intent, born, before), last.0, last.1);
    }
  }

  lemma NoDelayYet(intent: Intent, born: Time)
    ensures TotalDelay(NewOp(intent, born).log, NewOp(intent, born).attempts) == 0
  {
    assert NewOp(intent, born).log[..0] == [];
  }

  /** Over any life: at most four deferrals, which make the operation wait 3.75 seconds in total. */
  lemma BoundedDeferral(intent: Intent, born: Time, calls: seq<(Time, Call)>)
    ensures DeferralCount(Life(intent, born, calls).log) <= 4
    ensures Waited(intent, born, calls) <= 3750
  {
    var op := Life(intent, born, calls);
    EveryLifeIsDeferred(intent, born, calls);
    WaitedIsAudited(intent, born, calls);
    Totals(op.log, op.attempts);
    forall n: nat | n < 4 ensures DeferralsOf(op.log, op.attempts, n) <= 1 { }
  }
}
