/**
 Over any sequence of commits the ledger refines a map in which the first writer of a key wins.
 */
module KeyedLedger {
  import opened Domain
  import opened Ledger

  /** A request together with the fresh UUID and the time its transaction runs with. */
  datatype Arrival = Arrival(request: Request, id: ReceiptId, now: Time)

  function LedgerAfter(l: Ledger, a: Arrival): Ledger {
    var r := CommitTx(l, a.request, a.id, a.now);
    if r.Ok? then r.value.ledger else l
  }

  function Play(arrivals: seq<Arrival>): Ledger {
    if arrivals == [] then EMPTY
    else LedgerAfter(Play(arrivals[..|arrivals| - 1]), arrivals[|arrivals| - 1])
  }

  /** What the i-th request is answered. */
  function Answer(arrivals: seq<Arrival>, i: nat): Result<Effect>
    requires i < |arrivals|
  {
    match CommitTx(Play(arrivals[..i]), arrivals[i].request, arrivals[i].id, arrivals[i].now)
    case Ok(c) => Ok(c.effect)
    case Err(e) => Err(e)
  }

  /** The abstract key table: whoever writes a key first owns it. */
  function FirstWriters(arrivals: seq<Arrival>): map<nat, (OpId, Fields)> {
    if arrivals == [] then map[]
    else Own(FirstWriters(arrivals[..|arrivals| - 1]), arrivals[|arrivals| - 1].request)
  }

  function Own(owners: map<nat, (OpId, Fields)>, r: Request): map<nat, (OpId, Fields)> {
    if r.key.Some? && r.key.value !in owners then owners[r.key.value := (r.operation, r.fields)] else owners
  }

  predicate Accepts(owners: map<nat, (OpId, Fields)>, r: Request) {
    r.key.None? || r.key.value !in owners || owners[r.key.value] == (r.operation, r.fields)
  }

  function UnkeyedCount(arrivals: seq<Arrival>): nat {
    if arrivals == [] then 0
    else UnkeyedCount(arrivals[..|arrivals| - 1]) + if arrivals[|arrivals| - 1].request.key.None? then 1 else 0
  }

  ghost predicate FreshIds(arrivals: seq<Arrival>) {
    forall i, j | 0 <= i < j < |arrivals| :: arrivals[i].id != arrivals[j].id
  }

  /** The concrete key table is the abstract one, decorated with receipts. */
  ghost predicate Refines(l: Ledger, owners: map<nat, (OpId, Fields)>) {
    && l.keys.Keys == owners.Keys
    && forall k | k in owners :: (l.keys[k].operation, l.keys[k].fingerprint) == owners[k]
  }

  lemma {:induction false} IdsComeFromArrivals(arrivals: seq<Arrival>, id: ReceiptId)
    requires forall i | 0 <= i < |arrivals| :: arrivals[i].id != id
    ensures Unused(Play(arrivals), id)
  {
    if arrivals != [] {
      IdsComeFromArrivals(arrivals[..|arrivals| - 1], id);
      assert forall e | e in Play(arrivals).effects :: e.id != id;
    }
  }

  lemma StepAccepts(l: Ledger, owners: map<nat, (OpId, Fields)>, a: Arrival)
    requires Consistent(l) && Refines(l, owners) && Unused(l, a.id)
    ensures CommitTx(l, a.request, a.id, a.now).Ok? <==> Accepts(owners, a.request)
  {
  }

  lemma StepRefines(l: Ledger, owners: map<nat, (OpId, Fields)>, a: Arrival)
    requires Refines(l, owners)
    requires CommitTx(l, a.request, a.id, a.now).Ok? <==> Accepts(owners, a.request)
    ensures var l' := LedgerAfter(l, a);
      && Refines(l', Own(owners, a.request))
      && |l'.effects| + |l.keys| == |l.effects| + |l'.keys| + (if a.request.key.None? then 1 else 0)
  {
  }

  lemma {:induction false} PlayRefines(arrivals: seq<Arrival>)
    requires FreshIds(arrivals)
    ensures var l := Play(arrivals);
      && Consistent(l) && Refines(l, FirstWriters(arrivals))
      && |l.effects| == UnkeyedCount(arrivals) + |l.keys|
  {
    if arrivals != [] {
      var before := arrivals[..|arrivals| - 1];
      var a := arrivals[|arrivals| - 1];
      PlayRefines(before);
      IdsComeFromArrivals(before, a.id);
      StepAccepts(Play(before), FirstWriters(before), a);
      StepRefines(Play(before), FirstWriters(before), a);
      if CommitTx(Play(before), a.request, a.id, a.now).Ok? {
        ConsistentStep(Play(before), a.request, a.id, a.now);
      }
    }
  }

  /** A request succeeds exactly when it is unkeyed, the first with its key, or a true repeat. */
  lemma SucceedsIff(arrivals: seq<Arrival>, i: nat)
    requires FreshIds(arrivals) && i < |arrivals|
    ensures Answer(arrivals, i).Ok? <==> Accepts(FirstWriters(arrivals[..i]), arrivals[i].request)
  {
    PlayRefines(arrivals[..i]);
    IdsComeFromArrivals(arrivals[..i], arrivals[i].id);
    StepAccepts(Play(arrivals[..i]), FirstWriters(arrivals[..i]), arrivals[i]);
  }

  /** The requests that were answered with an effect, in order. */
  function Successes(arrivals: seq<Arrival>): seq<Request> {
    if arrivals == [] then []
    else
      Successes(arrivals[..|arrivals| - 1]) +
        if Answer(arrivals, |arrivals| - 1).Ok? then [arrivals[|arrivals| - 1].request] else []
  }

  /** The dispatch rows are exactly the requests that were answered with an effect, repeats included. */
  lemma {:induction false} DispatchesAreSuccesses(arrivals: seq<Arrival>)
    requires FreshIds(arrivals)
    ensures Play(arrivals).dispatches == Successes(arrivals)
  {
    if arrivals != [] {
      var before, a := arrivals[..|arrivals| - 1], arrivals[|arrivals| - 1];
      DispatchesAreSuccesses(before);
      PlayRefines(before);
      IdsComeFromArrivals(before, a.id);
      CommitMeans(Play(before), a.request, a.id, a.now);
    }
  }

  /** A refused request is a key conflict and leaves effects, keys and dispatch rows as they were. */
  lemma RefusalChangesNothing(arrivals: seq<Arrival>, i: nat)
    requires FreshIds(arrivals) && i < |arrivals| && Answer(arrivals, i).Err?
    ensures Answer(arrivals, i).error.KeyConflict?
    ensures Play(arrivals[..i + 1]) == Play(arrivals[..i])
  {
    assert arrivals[..i + 1][..i] == arrivals[..i];
    PlayRefines(arrivals[..i]);
    IdsComeFromArrivals(arrivals[..i], arrivals[i].id);
  }

  /** The effect a key names, once written. */
  ghost predicate Names(l: Ledger, k: nat, e: Effect) {
    && k in l.keys
    && var j := EffectIndex(l.effects, l.keys[k].receipt);
       j < |l.effects| && l.effects[j] == e
  }

  lemma NamesStep(l: Ledger, a: Arrival, k: nat, e: Effect)
    requires Names(l, k, e)
    ensures Names(LedgerAfter(l, a), k, e)
  {
    var l' := LedgerAfter(l, a);
    if l'.effects != l.effects {
      EffectIndexAppend(l.effects, l'.effects[|l.effects|], l.keys[k].receipt);
    }
  }

  /** Key rows are never rewritten, and the effects they name stay. */
  lemma {:induction false} NamesStable(arrivals: seq<Arrival>, i: nat, k: nat, e: Effect)
    requires i <= |arrivals| && Names(Play(arrivals[..i]), k, e)
    ensures Names(Play(arrivals), k, e)
  {
    if i == |arrivals| {
      assert arrivals[..i] == arrivals;
    } else {
      var before := arrivals[..|arrivals| - 1];
      assert before[..i] == arrivals[..i];
      NamesStable(before, i, k, e);
      NamesStep(Play(before), arrivals[|arrivals| - 1], k, e);
    }
  }

  lemma AnswerNamed(l: Ledger, a: Arrival)
    requires Unused(l, a.id) && a.request.key.Some? && CommitTx(l, a.request, a.id, a.now).Ok?
    ensures Names(LedgerAfter(l, a), a.request.key.value, CommitTx(l, a.request, a.id, a.now).value.effect)
  {
    var l' := LedgerAfter(l, a);
    if l'.effects != l.effects {
      assert l'.effects[|l.effects|].id == a.id;
    }
  }

  /** All successes for one key return the same effect: receipt, operation and payload. */
  lemma RepeatsAgree(arrivals: seq<Arrival>, i: nat, j: nat)
    requires FreshIds(arrivals) && i < j < |arrivals|
    requires arrivals[i].request.key.Some? && arrivals[i].request.key == arrivals[j].request.key
    requires Answer(arrivals, i).Ok? && Answer(arrivals, j).Ok?
    ensures Answer(arrivals, i) == Answer(arrivals, j)
  {
    var k := arrivals[i].request.key.value;
    var upto := arrivals[..i + 1];
    assert upto[..i] == arrivals[..i];
    IdsComeFromArrivals(arrivals[..i], arrivals[i].id);
    AnswerNamed(Play(arrivals[..i]), arrivals[i]);
    assert arrivals[..j][..i + 1] == upto;
    NamesStable(arrivals[..j], i + 1, k, Answer(arrivals, i).value);
  }
}
