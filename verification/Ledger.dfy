/**
 The email service's ledger (internal/simulator/email.go) as a value: effects in commit order,
 the table of idempotency keys, and the dispatch rows of committed transactions.
 */
module Ledger {
  import opened Domain

  datatype Effect = Effect(id: ReceiptId, operation: OpId, fields: Fields, committedAt: Time)

  datatype KeyRow = KeyRow(operation: OpId, fingerprint: Fields, receipt: ReceiptId)

  /** A request as Commit receives it; an empty Idempotency-Key header is no key. */
  datatype Request = Request(operation: OpId, key: Option<nat>, fields: Fields)

  datatype Ledger = Ledger(effects: seq<Effect>, keys: map<nat, KeyRow>, dispatches: seq<Request>)

  const EMPTY := Ledger([], map[], [])

  /** Position of the effect with this primary key, or |effects|. */
  function EffectIndex(effects: seq<Effect>, id: ReceiptId): (i: nat)
    ensures i <= |effects|
    ensures i < |effects| ==> effects[i].id == id
    ensures forall j | 0 <= j < i :: effects[j].id != id
  {
    if effects == [] then 0
    else if effects[0].id == id then 0
    else 1 + EffectIndex(effects[1..], id)
  }

  datatype Committed = Committed(effect: Effect, ledger: Ledger)

  /** One commit transaction; `id` is the fresh UUID and `now` the transaction time. */
  function CommitTx(l: Ledger, r: Request, id: ReceiptId, now: Time): Result<Committed> {
    if r.key.Some? && r.key.value in l.keys then
      var previous := l.keys[r.key.value];
      var i := EffectIndex(l.effects, previous.receipt);
      if previous.fingerprint != r.fields || previous.operation != r.operation then Err(KeyConflict)
      else if i == |l.effects| then Err(ConstraintViolated)
      else Ok(Committed(l.effects[i], l.(dispatches := l.dispatches + [r])))
    else if EffectIndex(l.effects, id) < |l.effects| then Err(ConstraintViolated)
    else
      var effect := Effect(id, r.operation, r.fields, now);
      Ok(Committed(effect, Ledger(
        l.effects + [effect],
        if r.key.Some? then l.keys[r.key.value := KeyRow(r.operation, r.fields, id)] else l.keys,
        l.dispatches + [r])))
  }

  /** The service honours the key only under its own idempotency_only profile. */
  function Gate(service: Profile, r: Request): Request {
    if service.IdempotencyOnly? then r else r.(key := None)
  }

  /** The body of a 201 reply. */
  function ReceiptOf(e: Effect): Receipt {
    Receipt(e.id, e.operation, e.committedAt)
  }

  // ---- What the service can be asked

  datatype Query = ByOperation(operation: OpId) | ByFields(fields: Fields)

  predicate Matches(q: Query, e: Effect) {
    match q
    case ByOperation(id) => e.operation == id
    case ByFields(f) => e.fields == f
  }

  function Select(effects: seq<Effect>, q: Query): seq<Effect> {
    if effects == [] then []
    else
      var e := effects[|effects| - 1];
      Select(effects[..|effects| - 1], q) + if Matches(q, e) then [e] else []
  }

  /** The order of ORDER BY committed_at, id. */
  predicate Earlier(a: Effect, b: Effect) {
    a.committedAt < b.committedAt || (a.committedAt == b.committedAt && a.id < b.id)
  }

  /** The last row in that order. */
  function Newest(found: seq<Effect>): (e: Effect)
    requires found != []
    ensures e in found && forall x | x in found :: !Earlier(e, x)
  {
    var last := found[|found| - 1];
    if |found| == 1 then last
    else
      assert found == found[..|found| - 1] + [last];
      var before := Newest(found[..|found| - 1]);
      if Earlier(last, before) then before else last
  }

  datatype Status = Status(operation: Option<OpId>, count: nat, authoritative: bool, latest: Option<Effect>)

  function StatusOf(effects: seq<Effect>, q: Query): Status {
    var found := Select(effects, q);
    Status(if q.ByOperation? then Some(q.operation) else None, |found|, true,
           if found == [] then None else Some(Newest(found)))
  }

  lemma {:induction false} SelectSound(effects: seq<Effect>, q: Query)
    ensures forall e :: e in Select(effects, q) <==> e in effects && Matches(q, e)
  {
    if effects != [] {
      SelectSound(effects[..|effects| - 1], q);
      assert effects == effects[..|effects| - 1] + [effects[|effects| - 1]];
    }
  }

  lemma {:induction false} SelectNone(effects: seq<Effect>, q: Query)
    requires forall i | 0 <= i < |effects| :: !Matches(q, effects[i])
    ensures Select(effects, q) == []
  {
    if effects != [] {
      SelectNone(effects[..|effects| - 1], q);
    }
  }

  /** Pairwise uniqueness of positions is a count of at most one. */
  lemma {:induction false} SelectAtMostOne(effects: seq<Effect>, q: Query)
    requires forall i, j | 0 <= i < j < |effects| :: !(Matches(q, effects[i]) && Matches(q, effects[j]))
    ensures |Select(effects, q)| <= 1
  {
    if effects != [] {
      var before := effects[..|effects| - 1];
      if Matches(q, effects[|effects| - 1]) {
        SelectNone(before, q);
      } else {
        SelectAtMostOne(before, q);
      }
    }
  }

  /** Effect IDs are unique and every key row points at the effect it was written with. */
  ghost predicate Consistent(l: Ledger) {
    && (forall i, j | 0 <= i < j < |l.effects| :: l.effects[i].id != l.effects[j].id)
    && (forall k | k in l.keys ::
          var i := EffectIndex(l.effects, l.keys[k].receipt);
          i < |l.effects| && l.effects[i].operation == l.keys[k].operation &&
            l.effects[i].fields == l.keys[k].fingerprint)
  }

  predicate Unused(l: Ledger, id: ReceiptId) {
    EffectIndex(l.effects, id) == |l.effects|
  }

  /** The request names a key under which something else was committed. */
  predicate Misuses(l: Ledger, r: Request) {
    && r.key.Some? && r.key.value in l.keys
    && (l.keys[r.key.value].operation != r.operation || l.keys[r.key.value].fingerprint != r.fields)
  }

  /**
   What a commit does: a misused key is refused; a repeated one is answered with the effect it was first
   committed with, and only leaves a dispatch row; everything else adds exactly the requested effect.
   */
  lemma CommitMeans(l: Ledger, r: Request, id: ReceiptId, now: Time)
    requires Consistent(l) && Unused(l, id)
    ensures var done := CommitTx(l, r, id, now);
      && (done.Ok? <==> !Misuses(l, r))
      && (done.Err? ==> done.error.KeyConflict?)
      && (done.Ok? ==>
            var c := done.value;
            && c.effect.operation == r.operation && c.effect.fields == r.fields
            && c.ledger.dispatches == l.dispatches + [r]
            && (if r.key.Some? && r.key.value in l.keys then
                  && c.ledger.effects == l.effects && c.ledger.keys == l.keys
                  && c.effect in l.effects && c.effect.id == l.keys[r.key.value].receipt
                else
                  && c.effect.id == id && c.effect.committedAt == now && c.ledger.effects == l.effects + [c.effect]
                  && c.ledger.keys == if r.key.None? then l.keys
                     else l.keys[r.key.value := KeyRow(r.operation, r.fields, id)]))
  {
  }

  lemma EffectIndexAppend(effects: seq<Effect>, e: Effect, id: ReceiptId)
    requires EffectIndex(effects, id) < |effects|
    ensures EffectIndex(effects + [e], id) == EffectIndex(effects, id)
  {
    var i := EffectIndex(effects, id);
    assert forall j | 0 <= j <= i :: (effects + [e])[j] == effects[j];
  }

  lemma ConsistentStep(l: Ledger, r: Request, id: ReceiptId, now: Time)
    requires Consistent(l) && CommitTx(l, r, id, now).Ok?
    ensures Consistent(CommitTx(l, r, id, now).value.ledger)
  {
    var l' := CommitTx(l, r, id, now).value.ledger;
    if l'.effects != l.effects {
      var e := l'.effects[|l.effects|];
      assert l'.effects == l.effects + [e];
      forall k | k in l.keys ensures EffectIndex(l'.effects, l.keys[k].receipt) ==
        EffectIndex(l.effects, l.keys[k].receipt) {
        EffectIndexAppend(l.effects, e, l.keys[k].receipt);
      }
      assert EffectIndex(l'.effects, id) == |l.effects|;
    }
  }
}
