/**
 The coordinator's evidence classification (internal/recovery/coordinator.go) and the
 service's answers to its questions (internal/simulator/email.go), joined by a network that
 may lose or replace replies.
 */
module Verifier {
  import opened Domain
  import opened Transactions
  import opened Ledger

  /** No reply at all, or a status code with a body that may fail to decode. */
  datatype HttpReply<+T> = NoReply | Reply(code: nat, body: Option<T>)

  datatype Capability = Capability(profile: Profile, durableBinding: bool)

  // ---- EmailVerifier.Verify

  function Classify(id: OpId, intent: Intent, s: Status): Observation {
    var indirect := intent.profile.IndirectUnique?;
    var mechanism := if indirect then IndirectLookup else StatusLookup;
    if s.count > 1 then Observation(mechanism, Contradictory, false, None)
    else if s.count == 1 then
      var valid :=
        && intent.expected.Some? && Complete(intent.expected.value)
        && s.latest.Some? && s.latest.value.fields == intent.expected.value
        && (indirect || (s.operation == Some(id) && s.latest.value.operation == id));
      if valid then Observation(mechanism, Completed, s.authoritative, Some(s.latest.value.id))
      else Observation(mechanism, Contradictory, false, None)
    else Observation(mechanism, Unknown, false, None)
  }

  function Verify(id: OpId, intent: Intent, capability: HttpReply<Capability>,
      status: HttpReply<Status>): (r: Result<Observation>)
    ensures r.Ok? ==> ValidObservation(r.value)
  {
    match intent.profile
    case NoEvidence => Ok(Observation(NoMechanism, Unknown, false, None))
    case IdempotencyOnly =>
      if capability.NoReply? || capability.code != 200 || capability.body.None? then
        Ok(Observation(IdempotentRepeat, TransientError, false, None))
      else
        var c := capability.body.value;
        Ok(Observation(IdempotentRepeat, Unknown, c.profile.IdempotencyOnly? && c.durableBinding, None))
    case _ =>
      if intent.profile.IndirectUnique? && intent.expected.None? then Err(VerificationFailed)
      else if status.NoReply? || status.code >= 500 then Ok(Observation(StatusLookup, TransientError, false, None))
      else if status.code != 200 || status.body.None? then Err(VerificationFailed)
      else Ok(Classify(id, intent, status.body.value))
  }

  // ---- What a service with a given profile answers

  function CapabilityReply(service: Profile): HttpReply<Capability> {
    Reply(200, Some(Capability(service, service.IdempotencyOnly?)))
  }

  function StatusReply(service: Profile, effects: seq<Effect>, id: OpId, intent: Intent): HttpReply<Status> {
    if intent.profile.IndirectUnique? then
      if !service.IndirectUnique? then Reply(404, None)
      else if intent.expected.None? || !Complete(intent.expected.value) then Reply(422, None)
      else Reply(200, Some(StatusOf(effects, ByFields(intent.expected.value))))
    else
      if !service.ReceiptStatus? then Reply(404, None)
      else Reply(200, Some(StatusOf(effects, ByOperation(id))))
  }

  datatype Network = Delivered | Lost | Replaced(code: nat)

  function Through<T>(n: Network, r: HttpReply<T>): HttpReply<T> {
    match n
    case Delivered => r
    case Lost => NoReply
    case Replaced(code) => Reply(code, None)
  }

  /** What Coordinator.RunOnce submits for a claim: a verifier error counts as transient. */
  function Observe(service: Profile, effects: seq<Effect>, id: OpId, intent: Intent, n: Network): (o: Observation)
    ensures ValidObservation(o)
  {
    var r := Verify(id, intent, Through(n, CapabilityReply(service)),
      Through(n, StatusReply(service, effects, id, intent)));
    if r.Ok? then r.value else Observation(StatusLookup, TransientError, false, None)
  }

  // ---- What the observations mean

  /** The ledger holds an effect that the operation's own evidence interface accepts as its own. */
  ghost predicate HasEvidence(effects: seq<Effect>, id: OpId, intent: Intent) {
    exists e :: e in effects &&
      (e.operation == id || (intent.profile.IndirectUnique? && intent.expected == Some(e.fields)))
  }

  lemma SelectedLatest(effects: seq<Effect>, q: Query)
    requires Select(effects, q) != []
    ensures StatusOf(effects, q).latest.Some?
    ensures StatusOf(effects, q).latest.value in effects && Matches(q, StatusOf(effects, q).latest.value)
  {
    SelectSound(effects, q);
  }

  /**
   Authoritative completion is never reported without an effect behind it, and authoritative
   permission to repeat is only reported when keys are honoured on both sides.
   */
  lemma ObservationSound(service: Profile, effects: seq<Effect>, id: OpId, intent: Intent, n: Network)
    ensures var o := Observe(service, effects, id, intent, n);
      && (o.authoritative && o.outcome.Completed? ==> HasEvidence(effects, id, intent))
      && (o.authoritative && o.mechanism.IdempotentRepeat? ==>
            service.IdempotencyOnly? && intent.profile.IdempotencyOnly?)
  {
    var o := Observe(service, effects, id, intent, n);
    if o.authoritative && o.outcome.Completed? {
      SelectedLatest(effects, if intent.profile.IndirectUnique? then ByFields(intent.expected.value)
        else ByOperation(id));
    }
  }

  /** The evidence an operation's profile asks for can be answered by this service, and nothing is lost. */
  predicate Answered(service: Profile, intent: Intent, n: Network) {
    && n.Delivered? && service == intent.profile
    && (intent.profile.IndirectUnique? ==> intent.expected.Some? && Complete(intent.expected.value))
  }

  /**
   Exactly what a coordinator observes, for every profile, service, ledger and network: a verifier
   that fails and a reply that is lost, an error or about nothing look the same.
   */
  lemma ObserveExact(service: Profile, effects: seq<Effect>, id: OpId, intent: Intent, n: Network)
    ensures var o := Observe(service, effects, id, intent, n);
      var indirect := intent.profile.IndirectUnique?;
      if intent.profile.NoEvidence? then o == Observation(NoMechanism, Unknown, false, None)
      else if intent.profile.IdempotencyOnly? then
        && o.mechanism.IdempotentRepeat? && o.reference.None?
        && o.outcome == (if n.Delivered? then Unknown else TransientError)
        && (o.authoritative <==> n.Delivered? && service.IdempotencyOnly?)
      else if !Answered(service, intent, n) then o == Observation(StatusLookup, TransientError, false, None)
      else
        var found := Select(effects, if indirect then ByFields(intent.expected.value) else ByOperation(id));
        && o.mechanism == (if indirect then IndirectLookup else StatusLookup)
        && (o.outcome.Unknown? <==> found == [])
        && (o.outcome.Completed? <==>
              |found| == 1 && intent.expected == Some(found[0].fields) && Complete(found[0].fields))
        && (o.outcome.Contradictory? <==> !o.outcome.Unknown? && !o.outcome.Completed?)
        && (o.authoritative <==> o.outcome.Completed?)
        && o.reference == if o.outcome.Completed? then Some(found[0].id) else None
  {
    if Answered(service, intent, n) && !intent.profile.NoEvidence? && !intent.profile.IdempotencyOnly? {
      var q := if intent.profile.IndirectUnique? then ByFields(intent.expected.value) else ByOperation(id);
      SelectSound(effects, q);
      assert |Select(effects, q)| == 1 ==> Select(effects, q)[0] in Select(effects, q);
    }
  }

  /** With working status evidence, completion is reported exactly for one effect with the expected fields. */
  lemma StatusExact(effects: seq<Effect>, id: OpId, intent: Intent)
    requires intent.profile.ReceiptStatus?
    ensures var o := Observe(ReceiptStatus, effects, id, intent, Delivered);
      var found := Select(effects, ByOperation(id));
      && (o.outcome.Completed? <==>
            |found| == 1 && intent.expected == Some(found[0].fields) && Complete(found[0].fields))
      && (o.outcome.Completed? <==> o.authoritative)
      && (o.outcome.Unknown? <==> found == [])
  {
    SelectSound(effects, ByOperation(id));
    var found := Select(effects, ByOperation(id));
    assert |found| == 1 ==> found[0] in found;
  }

  // ---- From the ledger to the verdict

  /** The row's state and verdict are decided by what the ledger holds, for status evidence that is answered. */
  lemma StatusVerdict(effects: seq<Effect>, id: OpId, row: Row, number: AttemptNumber)
    requires row.intent.profile.ReceiptStatus? && (row.state.Prepared? || row.state.Uncertain?)
    ensures var v := Decide(row, number, Observe(ReceiptStatus, effects, id, row.intent, Delivered));
      var found := Select(effects, ByOperation(id));
      && (v.to.Reconciled? <==>
        |found| == 1 && row.intent.expected == Some(found[0].fields) && Complete(found[0].fields))
      && (v.to.Retryable? <==> found == [] && !row.dispatchAuthorized)
      && (v.to.Uncertain? <==> !v.to.Reconciled? && !v.to.Retryable?)
      && (v.reason.EvidenceContradictory? <==> found != [] && !v.to.Reconciled?)
  {
    StatusExact(effects, id, row.intent);
    SelectSound(effects, ByOperation(id));
  }

  /** Keyed replay is permitted exactly when both sides honour keys, or nothing was ever granted. */
  lemma KeyedVerdict(service: Profile, effects: seq<Effect>, id: OpId, row: Row, number: AttemptNumber)
    requires row.intent.profile.IdempotencyOnly? && (row.state.Prepared? || row.state.Uncertain?)
    ensures var v := Decide(row, number, Observe(service, effects, id, row.intent, Delivered));
      && (v.to.Retryable? <==> service.IdempotencyOnly? || !row.dispatchAuthorized)
      && (v.to.Uncertain? <==> !v.to.Retryable?)
  {
    hide StatusReply;
  }

  /**
   Without an answer a granted operation is deferred four times, then uncertain; an ungranted one
   is retryable at once.
   */
  lemma SilenceVerdict(service: Profile, effects: seq<Effect>, id: OpId, row: Row, number: AttemptNumber)
    requires !row.intent.profile.NoEvidence? && (row.state.Prepared? || row.state.Uncertain?)
    ensures var v := Decide(row, number, Observe(service, effects, id, row.intent, Lost));
      && (v.to.Retryable? <==> !row.dispatchAuthorized)
      && (v.decision.None? <==> row.dispatchAuthorized && number < 5)
      && (v.decision == Some(MarkUncertain) <==> row.dispatchAuthorized && number >= 5)
      && !v.to.Reconciled?
  {
    hide StatusReply, CapabilityReply;
  }

  /** Indirect evidence reconciles exactly when one effect carries the expected match fields, whoever sent it. */
  lemma IndirectVerdict(effects: seq<Effect>, id: OpId, row: Row, number: AttemptNumber)
    requires row.intent.profile.IndirectUnique? && (row.state.Prepared? || row.state.Uncertain?)
    requires row.intent.expected.Some? && Complete(row.intent.expected.value)
    ensures var v := Decide(row, number, Observe(IndirectUnique, effects, id, row.intent, Delivered));
      var found := Select(effects, ByFields(row.intent.expected.value));
      && (v.to.Reconciled? <==> |found| == 1)
      && (v.to.Retryable? <==> found == [] && !row.dispatchAuthorized)
      && (v.reason.EvidenceContradictory? <==> |found| > 1)
  {
    SelectSound(effects, ByFields(row.intent.expected.value));
    if Select(effects, ByFields(row.intent.expected.value)) != [] {
      SelectedLatest(effects, ByFields(row.intent.expected.value));
    }
  }
}
