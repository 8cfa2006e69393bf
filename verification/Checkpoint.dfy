/**
 The baseline drivers of internal/benchmark/child.go: one worker process at a time executes the
 steps of a run in order and starts over after every error or crash. Under checkpoint_recovery a
 step is skipped once its checkpoint row exists; under idempotency_key_retry every request
 carries the step's key; under blind_retry nothing is remembered. Run.Fault is asked at every
 point at which the process may be killed, a barrier rejected, or a call return an error; nothing
 else makes a step fail.
 */
module Checkpoint {
  import opened Domain

  datatype Act = Dispatched(step: nat) | Checkpointed(step: nat) | InvocationFailed

  function Count(log: seq<Act>, p: Act -> bool): nat {
    if log == [] then 0
    else Count(log[..|log| - 1], p) + if p(log[|log| - 1]) then 1 else 0
  }

  function Dispatches(log: seq<Act>): nat { Count(log, (a: Act) => a.Dispatched?) }

  function Checkpoints(log: seq<Act>): nat { Count(log, (a: Act) => a.Checkpointed?) }

  function Failures(log: seq<Act>): nat { Count(log, (a: Act) => a.InvocationFailed?) }

  lemma Counts(log: seq<Act>, a: Act)
    ensures Dispatches(log + [a]) == Dispatches(log) + (if a.Dispatched? then 1 else 0)
    ensures Checkpoints(log + [a]) == Checkpoints(log) + (if a.Checkpointed? then 1 else 0)
    ensures Failures(log + [a]) == Failures(log) + (if a.InvocationFailed? then 1 else 0)
  {
    assert (log + [a])[..|log|] == log;
  }

  /** No step is dispatched after its checkpoint. */
  ghost predicate NeverAgain(log: seq<Act>) {
    forall i, j | 0 <= i < j < |log| && log[i].Checkpointed? :: log[j] != Dispatched(log[i].step)
  }

  lemma {:induction false} AtMost(n: nat, s: set<nat>)
    requires forall x | x in s :: 1 <= x <= n
    ensures |s| <= n
  {
    if n > 0 {
      AtMost(n - 1, s - {n});
    } else {
      assert s == {};
    }
  }

  class Run {
    const strategy: Strategy
    const steps: nat
    const honoured: bool           // the service binds keys durably
    var checkpoints: set<nat>      // rows of the checkpoints table
    var wire: multiset<nat>        // requests handed to the network, by step
    var effects: multiset<nat>     // committed effects, by step
    ghost var log: seq<Act>
    ghost var faults: nat

    /** `open` counts the dispatches of the current invocation that are not checkpointed yet. */
    ghost predicate Books(open: nat)
      reads this`checkpoints, this`wire, this`effects, this`log
    {
      && (forall s | s in checkpoints :: 1 <= s <= steps && effects[s] > 0)
      && (forall s :: s in checkpoints <==> Checkpointed(s) in log)
      && Checkpoints(log) == |checkpoints|
      && (!strategy.CheckpointRecovery? ==> checkpoints == {})
      && NeverAgain(log)
      && (strategy.CheckpointRecovery? ==> Dispatches(log) <= Checkpoints(log) + Failures(log) + open)
      && |effects| + |wire| <= Dispatches(log)
      && (strategy.IdempotencyKeyRetry? && honoured ==> forall s :: effects[s] <= 1)
    }

    ghost predicate Valid()
      reads this`checkpoints, this`wire, this`effects, this`log
    {
      Books(0)
    }

    constructor (strategy: Strategy, steps: nat, honoured: bool)
      ensures Valid() && this.strategy == strategy && this.steps == steps && this.honoured == honoured
      ensures log == [] && effects == multiset{} && faults == 0
    {
      this.strategy, this.steps, this.honoured := strategy, steps, honoured;
      checkpoints, wire, effects, log, faults := {}, multiset{}, multiset{}, [], 0;
    }

    /** Whether something goes wrong here. */
    method Fault() returns (struck: bool)
      modifies this`faults
      ensures faults == old(faults) + if struck then 1 else 0
    {
      struck := *;
      if struck { faults := faults + 1; }
    }

    /** The service commits one accepted request; a repeated key returns the first effect instead. */
    method Commit(s: nat, ghost open: nat)
      requires Books(open) && s in wire
      modifies this`wire, this`effects
      ensures Books(open) && effects[s] > 0 && old(effects) <= effects && |wire| == |old(wire)| - 1
    {
      wire := wire - multiset{s};
      if !(strategy.IdempotencyKeyRetry? && honoured && s in effects) {
        effects := effects + multiset{s};
      }
    }

    /** Requests whose callers have given up may still commit at any later moment. */
    method Settle(ghost open: nat)
      requires Books(open)
      modifies this`wire, this`effects
      ensures Books(open) && old(effects) <= effects
    {
      while wire != multiset{}
        invariant Books(open) && old(effects) <= effects
        decreases |wire|
      {
        if * { break; }
        var s :| s in wire;
        Commit(s, open);
      }
    }

    /** The request leaves the worker. */
    method Post(s: nat)
      requires Valid() && s !in checkpoints
      modifies this`wire, this`log
      ensures Books(1) && s in wire && log == old(log) + [Dispatched(s)]
    {
      Counts(log, Dispatched(s));
      wire := wire + multiset{s};
      log := log + [Dispatched(s)];
    }

    /** The request or its transaction is lost. */
    method Lose(s: nat)
      requires Books(1) && s in wire
      modifies this`wire
      ensures Books(1)
    {
      wire := wire - multiset{s};
    }

    /** One POST and its reply; true only for a decoded 201, which the service sends after its commit. */
    method Dispatch(s: nat) returns (receipt: bool)
      requires Valid() && s !in checkpoints
      modifies this`wire, this`effects, this`log, this`faults
      ensures Books(1) && old(effects) <= effects && log == old(log) + [Dispatched(s)]
      ensures receipt ==> effects[s] > 0
      ensures faults == old(faults) + if receipt then 0 else 1
    {
      hide Books;
      Post(s);
      var fault := Fault();
      if fault { Lose(s); return false; }
      fault := Fault();                  // timeout: the request stays in flight
      if fault { return false; }
      Commit(s, 1);
      fault := Fault();                  // the reply is lost
      return !fault;
    }

    method SaveCheckpoint(s: nat)
      requires Books(1) && strategy.CheckpointRecovery? && 1 <= s <= steps && s !in checkpoints && effects[s] > 0
      modifies this`checkpoints, this`log
      ensures Valid() && checkpoints == old(checkpoints) + {s} && log == old(log) + [Checkpointed(s)]
    {
      Counts(log, Checkpointed(s));
      checkpoints := checkpoints + {s};
      log := log + [Checkpointed(s)];
    }

    /** The invocation ends with an error, or the process is killed. */
    method Fail()
      requires Books(1)
      modifies this`log
      ensures Valid() && log == old(log) + [InvocationFailed]
    {
      Counts(log, InvocationFailed);
      log := log + [InvocationFailed];
    }

    lemma Backed()
      requires Valid()
      ensures forall s | s in checkpoints :: effects[s] > 0
      ensures !strategy.CheckpointRecovery? ==> checkpoints == {}
    {
    }

    lemma NothingOpen()
      requires Valid()
      ensures Books(1)
    {
    }

    /** Without checkpoints nothing has to be closed. */
    lemma NothingToClose()
      requires Books(1) && !strategy.CheckpointRecovery?
      ensures Valid()
    {
    }

    ghost predicate Achieved(s: nat)
      reads this`checkpoints, this`effects
    {
      effects[s] > 0 && (strategy.CheckpointRecovery? ==> s in checkpoints)
    }

    /** What a step that succeeds leaves in the log: nothing if it is checkpointed already. */
    ghost function Trail(s: nat): seq<Act>
      reads this`checkpoints
    {
      if !strategy.CheckpointRecovery? then [Dispatched(s)]
      else if s in checkpoints then []
      else [Dispatched(s), Checkpointed(s)]
    }

    /** One step of executeChild: it fails for a fault only, and it never dispatches twice. */
    method Step(s: nat) returns (ok: bool)
      requires Valid() && 1 <= s <= steps
      modifies this`checkpoints, this`wire, this`effects, this`log, this`faults
      ensures ok ==> Valid() && Achieved(s) && log == old(log) + old(Trail(s))
      ensures !ok ==> Books(1) && old(log) <= log <= old(log) + old(Trail(s))
      ensures faults == old(faults) + if ok then 0 else 1
      ensures old(effects) <= effects && old(checkpoints) <= checkpoints && Failures(log) == Failures(old(log))
    {
      hide Books, Failures;
      Backed();
      NothingOpen();
      if strategy.CheckpointRecovery? && s in checkpoints { return true; }
      var fault := Fault();                            // before_intent, before_dispatch
      if fault { return false; }
      Counts(log, Dispatched(s));
      var receipt := Dispatch(s);
      if !receipt { return false; }
      ok := Record(s);
    }

    /** What follows the reply: the checkpoint, if the strategy keeps them. */
    method Record(s: nat) returns (ok: bool)
      requires Books(1) && 1 <= s <= steps && effects[s] > 0 && s !in checkpoints
      modifies this`checkpoints, this`log, this`faults
      ensures ok ==> Valid() && Achieved(s)
      ensures !ok ==> Books(1)
      ensures log == old(log) || (strategy.CheckpointRecovery? && log == old(log) + [Checkpointed(s)])
      ensures ok && strategy.CheckpointRecovery? ==> log == old(log) + [Checkpointed(s)]
      ensures faults == old(faults) + if ok then 0 else 1
      ensures old(checkpoints) <= checkpoints && Failures(log) == Failures(old(log))
    {
      hide Books, Failures;
      var fault := Fault();                            // after_response
      if fault { return false; }
      if strategy.CheckpointRecovery? {
        Counts(log, Checkpointed(s));
        SaveCheckpoint(s);
      } else {
        NothingToClose();
      }
      NothingOpen();
      fault := Fault();                                // after the insert, after_persistence, step_acknowledged
      return !fault;
    }

    /** executeChild: the steps in order, up to the first error. */
    method ExecuteChild() returns (ok: bool)
      requires Valid()
      modifies this`checkpoints, this`wire, this`effects, this`log, this`faults
      ensures Valid() && old(effects) <= effects && old(checkpoints) <= checkpoints && old(log) <= log
      ensures ok ==> forall s: nat | 1 <= s <= steps :: Achieved(s)
      ensures Failures(log) == Failures(old(log)) + if ok then 0 else 1
      ensures faults == old(faults) + if ok then 0 else 1
    {
      hide Books, Failures;
      for s := 1 to steps + 1
        invariant Valid() && old(effects) <= effects && old(checkpoints) <= checkpoints && old(log) <= log
        invariant Failures(log) == Failures(old(log)) && faults == old(faults)
        invariant forall x: nat | 1 <= x < s :: Achieved(x)
      {
        label Head:
        Settle(0);
        ok := Step(s);
        forall x: nat | 1 <= x < s ensures Achieved(x) {
          assert old@Head(Achieved(x)) && old@Head(effects[x]) <= effects[x];
        }
        if !ok {
          Counts(log, InvocationFailed);
          Fail();
          return;
        }
      }
      ok := true;
    }

    /** Child: invocations until one succeeds or the deadline leaves no further one. */
    method Child(invocations: nat) returns (ok: bool)
      requires Valid()
      modifies this`checkpoints, this`wire, this`effects, this`log, this`faults
      ensures Valid() && old(log) <= log
      ensures ok ==> forall s: nat | 1 <= s <= steps :: Achieved(s)
      ensures Failures(log) - Failures(old(log)) == faults - old(faults) <= invocations
      ensures !ok ==> faults == old(faults) + invocations
    {
      hide Books, Failures;
      ok := false;
      for i := 0 to invocations
        invariant Valid() && old(log) <= log
        invariant Failures(log) - Failures(old(log)) == faults - old(faults) == i
      {
        ok := ExecuteChild();
        if ok { return; }
      }
    }

    /**
     Whatever crashed, got lost or arrived late: a checkpointed step has an effect and was not
     dispatched after its checkpoint, and there are at most as many dispatches, and therefore
     effects, as steps and failed invocations together.
     */
    lemma CheckpointBound()
      requires Valid() && strategy.CheckpointRecovery?
      ensures forall s | Checkpointed(s) in log :: effects[s] > 0
      ensures NeverAgain(log)
      ensures Dispatches(log) <= steps + Failures(log) && |effects| <= steps + Failures(log)
    {
      AtMost(steps, checkpoints);
    }

    /** Replays of a step under a durably bound key never add an effect. */
    lemma KeyedBound()
      requires Valid() && strategy.IdempotencyKeyRetry? && honoured
      ensures forall s :: effects[s] <= 1
    {
    }
  }
}
