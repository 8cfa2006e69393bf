/**
 The email service's store (PostgresEmailStore in internal/simulator/email.go): one field per
 table, Commit statement by statement with its rollbacks, and the two status loops.
 */
module EmailService {
  import opened Domain
  import opened Ledger

  class EmailStore {
    var effects: seq<Effect>
    var keys: map<nat, KeyRow>
    var dispatches: seq<Request>

    ghost function Contents(): Ledger
      reads this
    {
      EMPTY.(effects := effects, keys := keys, dispatches := dispatches)
    }

    ghost predicate Valid()
      reads this
    {
      Consistent(Contents())
    }

    constructor ()
      ensures Valid() && Contents() == EMPTY
    {
      effects, keys, dispatches := [], map[], [];
    }

    /** One transaction: a request that does not end in a commit leaves no row behind. */
    method Commit(request: Request, id: ReceiptId, now: Time) returns (r: Result<Effect>)
      requires Valid()
      modifies this
      ensures Valid()
      ensures var done := CommitTx(old(Contents()), request, id, now);
        if done.Ok? then r == Ok(done.value.effect) && Contents() == done.value.ledger
        else r == Err(done.error) && Contents() == old(Contents())
    {
      if CommitTx(Contents(), request, id, now).Ok? { ConsistentStep(Contents(), request, id, now); }
      var saved := dispatches;
      dispatches := dispatches + [request];
      if request.key.Some? && request.key.value in keys {
        var previous := keys[request.key.value];
        if previous.fingerprint != request.fields || previous.operation != request.operation {
          dispatches := saved;
          return Err(KeyConflict);
        }
        var i := EffectIndex(effects, previous.receipt);
        return Ok(effects[i]);
      }
      if EffectIndex(effects, id) < |effects| {
        dispatches := saved;
        return Err(ConstraintViolated);
      }
      var effect := Effect(id, request.operation, request.fields, now);
      effects := effects + [effect];
      if request.key.Some? {
        keys := keys[request.key.value := KeyRow(request.operation, request.fields, id)];
      }
      return Ok(effect);
    }

    /**
     Server.send for a decoded request: the reply's code and, for 201, its body. `early` and `late`
     say whether the hook before the commit and the one after it fail.
     */
    method Send(service: Profile, request: Request, id: ReceiptId, now: Time, early: bool, late: bool)
      returns (code: nat, receipt: Option<Receipt>)
      requires Valid()
      modifies this
      ensures Valid()
      ensures !Complete(request.fields) ==> code == 422
      ensures Complete(request.fields) && early ==> code == 503
      ensures !Complete(request.fields) || early ==> receipt == None && Contents() == old(Contents())
      ensures Complete(request.fields) && !early ==>
        var done := CommitTx(old(Contents()), Gate(service, request), id, now);
        if done.Err? then
          code == 503 && receipt == None && Contents() == old(Contents())
        else
          && Contents() == done.value.ledger
          && (late ==> code == 503 && receipt == None)
          && (!late ==> code == 201 && receipt == Some(ReceiptOf(done.value.effect)))
          && (!late ==> receipt.value.operation == request.operation)
    {
      hide CommitTx, Consistent;
      if !Complete(request.fields) { return 422, None; }
      var gated := request;
      if !service.IdempotencyOnly? { gated := gated.(key := None); }
      if early { return 503, None; }
      AnswersOwnOperation(Contents(), gated, id, now);
      var r := Commit(gated, id, now);
      if r.Err? || late { return 503, None; }
      return 201, Some(Receipt(r.value.id, request.operation, r.value.committedAt));
    }

    /** The rows of SELECT ... WHERE q ORDER BY committed_at, id. */
    ghost predicate Answers(rows: seq<Effect>, q: Query)
      reads this
    {
      && multiset(rows) == multiset(Select(effects, q))
      && forall i, j | 0 <= i < j < |rows| :: !Earlier(rows[j], rows[i])
    }

    /** Status for ByOperation, Inspect for ByFields. */
    method Ask(q: Query, rows: seq<Effect>) returns (status: Status)
      requires Valid() && Answers(rows, q)
      ensures status == StatusOf(effects, q)
    {
      status := Status(if q.ByOperation? then Some(q.operation) else None, 0, true, None);
      for i := 0 to |rows|
        invariant status.operation == (if q.ByOperation? then Some(q.operation) else None) && status.authoritative
        invariant status.count == i
        invariant status.latest == if i == 0 then None else Some(rows[i - 1])
      {
        status := status.(count := status.count + 1, latest := Some(rows[i]));
      }
      assert |rows| == |multiset(rows)| == |multiset(Select(effects, q))| == |Select(effects, q)|;
      if rows != [] { LastIsNewest(Contents(), q, rows); }
    }
  }

  lemma AnswersOwnOperation(l: Ledger, r: Request, id: ReceiptId, now: Time)
    requires Consistent(l)
    ensures CommitTx(l, r, id, now).Ok? ==>
      CommitTx(l, r, id, now).value.effect.operation == r.operation &&
        CommitTx(l, r, id, now).value.effect.fields == r.fields
  {
  }

  lemma LastIsNewest(l: Ledger, q: Query, rows: seq<Effect>)
    requires Consistent(l) && multiset(rows) == multiset(Select(l.effects, q)) && rows != [] &&
      Select(l.effects, q) != []
    requires forall i, j | 0 <= i < j < |rows| :: !Earlier(rows[j], rows[i])
    ensures rows[|rows| - 1] == Newest(Select(l.effects, q))
  {
    var found := Select(l.effects, q);
    var last, newest := rows[|rows| - 1], Newest(found);
    SelectSound(l.effects, q);
    assert last in multiset(rows) && newest in multiset(found);
    assert last in found && newest in rows;
  }
}
