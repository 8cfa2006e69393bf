# Watchkeeper recovery protocol, verified

Watchkeeper sends external effects (emails) at most once although workers crash, replies get lost
and requests outlive their callers. Four parties interleave: the operation store, workers,
coordinators and the email service. This project models them in Dafny and proves what the
protocol promises over every run, for any number of operations, workers, coordinators, steps and
faults.

`dafny verify dfyconfig.toml` checks everything.

## How the model is organised

- `Domain`, `Transactions`: the store's values, and each transaction as a function on one operation
  (its row, receipt, attempts, observations, decisions and events). A refused transaction changes
  nothing. NULL comparisons of the claim query count as false.
- `Storage`, `Postgres`: the tables, and the store as a class with one field per table. Each method
  is written statement by statement and proved equal to its function; the class invariant holds the
  foreign keys and the row-write books.
- `Answers`: what each call of the store promises, on the operation before and after it, field by field
  and without the functions that compute it.
- `History`, `Deferral`: what every operation keeps whatever any client calls, with any arguments.
- `Ledger`, `KeyedLedger`, `EmailService`: the service's ledger, its key table and its store class.
- `Verifier`: the coordinator's evidence classification against the service's answers.
- `Protocol`: the composed system. A state holds the clock, the tables, the ledger, worker program
  counters with their local copies, emails on the wire, and claims and results that may still be
  submitted. `Run(service, actions)` is the state after any sequence of actions; crashes, lost
  replies, late commits and late submissions are all sequences of actions.
- `Evolution`, `Coherence`, `Sends`, `Steps`, `Completion`, `Rounds`, `Frontier`: the inductive
  invariant and the theorems about all runs. The pivot is that an operation's version is the length
  of its log, so two moments with the same version show the same operation up to a renewed lease.
- `Release`: exactly when an operator's "absent" can lead to a second effect, and "completed" to a
  false completion.
- `Origins`: where the store's contents came from, over whole runs.
- `Workers`, `Coordinators`: `Execute`, `send`, `confirm`, `executeChild`, `Child` and `RunOnce` as loops
  over local variables, proved to take only steps of `Protocol`, so that the theorems apply to them.
  Failing hooks and lost replies are recorded in the world, and `Workers.Duty` says what a worker
  must do at every point with and without one.
- `Progress`: what the protocol achieves when it is left alone.
- `Pagination`, `Checkpoint`, `Wilson`: the smaller cores.

Time is a number of milliseconds that never decreases. Claim tokens, UUIDs and receipt IDs are
opaque values; that IDs are fresh is what the primary keys enforce. SHA-256 fingerprints are
injective and therefore represented by the content they cover.

## Where the code and its documentation differ

- docs/architecture.md:70 says that a recovery result validates the permitted state transition. The
  code does not (internal/store/recovery.go:201-266). `Rounds.ReconciledCanBeLeft` gives calls,
  accepted one after another, that end with a reconciled operation becoming uncertain;
  `Rounds.ResultLawfulIff` says exactly when an accepted result is lawful, and
  `Rounds.TransitionsAllowed` proves that with coordinators that echo their own claim
  (pkg/client/client.go:228-232) every run obeys the table.
- docs/recovery.md:50-55 lists two manual outcomes; internal/store/recovery.go:317-327 has three.
- docs/recovery.md:34 maps an authoritative count of exactly one to `completed`; the code also compares
  the effect with the expected fields and otherwise reports a contradiction
  (internal/recovery/coordinator.go:108-125). `Verifier.StatusVerdict` follows the code.
- The ten-second cap on the deferral delay (internal/store/recovery.go:250-252) is unreachable.

## Model

| member | source | states |
|---|---|---|
| `Domain.TerminalIffStuck` | internal/domain/state.go:5-32 | Confirmed and Reconciled are exactly the states without an outgoing transition |
| `Postgres.Postgres.constructor` | migrations/watchkeeper/00001_baseline.sql:32-128 | Empty tables, with balanced books |
| `Postgres.Postgres.Prepare` | internal/store/postgres.go:49-109 | The tables become what PrepareTx says, which `Answers.PrepareInserts` and `Answers.PrepareRepeats` state field by field; a conflict rolls back the inserted workflow row too; the boolean says whether the operation is new |
| `Answers.PrepareInserts` | internal/store/postgres.go:49-109 | A prepare for a new workflow and key is accepted if and only if the metadata agree and the ID is fresh, and then adds one operation with the request's workflow, key, target, fields, expected effect and profile, created and prepared now, ungranted, unleased, with one event; nothing else changes |
| `Answers.PrepareRepeats` | internal/store/postgres.go:78-92 | A repeated prepare returns the stored operation if and only if metadata, target and fields agree, says which of them conflict otherwise, and never changes anything |
| `Postgres.Postgres.EnsureWorkflow` | internal/store/postgres.go:111-138 | A workflow row is written only when there was none; the answer is true exactly when the stored metadata equal the requested ones |
| `Postgres.Postgres.AuthorizeDispatch` | internal/store/dispatch.go:11-43 | The single-send grant as one atomic step: result, new operation, no other operation, books balanced |
| `Answers.AuthorizeMeans` | internal/store/dispatch.go:16-31 | Granted if and only if prepared, at the version, not yet granted and without a recorded lease; then flag, version and event change, nothing else |
| `Postgres.Postgres.Confirm` | internal/store/postgres.go:140-217 | Receipt, row and event in one step; a replay of the stored receipt succeeds without a write, a different one conflicts |
| `Answers.ConfirmMeans` | internal/store/postgres.go:155-178 | Accepted if and only if this very receipt is stored already, and then without a change, or the operation is prepared at the version; an accepted confirmation leaves its own receipt ID and payload stored; which refusal otherwise |
| `Postgres.Postgres.BeginRetry` | internal/store/recovery.go:19-52 | A retryable operation at the expected version becomes prepared with the grant withdrawn |
| `Answers.BeginRetryMeans` | internal/store/recovery.go:19-52 | When it is accepted and which refusal otherwise; one more attempt, grant, resolution time and schedule withdrawn, the lease left alone |
| `Postgres.Postgres.RequestReconciliation` | internal/store/recovery.go:54-87 | A prepared or uncertain operation is queued for verification |
| `Answers.RequestReconciliationMeans` | internal/store/recovery.go:54-87 | An accepted request makes an unleased operation claimable at once, whatever the grace period |
| `Answers.ClaimableIff` | internal/store/recovery.go:114 | A scheduled row is claimable once it is due, an unscheduled one only if prepared and past the grace period, none under a live lease |
| `Answers.ClaimMeans` | internal/store/recovery.go:131-163 | A claim records the lease and the next numbered attempt, still open, and changes nothing else |
| `Postgres.Postgres.SelectClaimable` | internal/store/recovery.go:114 | At most `limit` distinct selectable rows, in claim order; every selectable row before one of them is among them; fewer than the limit means all of them |
| `Storage.SelectedFirst` | internal/store/recovery.go:114 | Filtering the ordered table and cutting it at the limit takes the first selectable rows in this sense |
| `Storage.SelectableIff` | internal/store/recovery.go:114 | A row is selectable if and only if it is unlocked, of a watchkeeper workflow, the asked one if one is asked, unleased, and due |
| `Postgres.Postgres.ClaimRows` | internal/store/recovery.go:131-163 | The loop claims every row exactly as the claim function says and leaves all others as they were |
| `Postgres.Postgres.ClaimRecovery` | internal/store/recovery.go:108-168 | The claimed IDs appear in claim order, a selectable row before a claimed one is claimed, fewer claims than the limit means that every selectable row is claimed; each has the token and attempt drawn for it and shows the stored row; all other operations are untouched |
| `Postgres.Postgres.RenewClaim` | internal/store/recovery.go:170-180 | Only the expiry of a held, unexpired lease changes; the events do not |
| `Answers.RenewMeans` | internal/store/recovery.go:170-180 | Renewed if and only if the lease is held under this token and still runs; nothing but the expiry changes |
| `Postgres.Postgres.SubmitRecoveryResult` | internal/store/recovery.go:182-297 | The guarded decision policy as one atomic step over five tables, or one of its errors and no change; what that step records is `Answers.SubmitRecords`, `SubmitConcludes` and `SubmitDecides` |
| `Answers.SubmitAcceptedIff` | internal/store/recovery.go:182-228 | Accepted if and only if the observation is valid, the lease held, the version current, the attempt known and open, and a reconciled row keeps its resolution time; which refusal otherwise |
| `Answers.SubmitRecords` | internal/store/recovery.go:217-288 | The observation appended, exactly the answered attempt finished with the outcome, the lease cleared, one event between the two states at the new version |
| `Answers.SubmitConcludes` | internal/store/recovery.go:254-284 | resolved_at is now if and only if the result is no deferral and ends reconciled or uncertain; the one decision goes from the old to the new state at the new version, its kind by the new state; a schedule exactly for a deferral |
| `Answers.SubmitDecides` | internal/store/recovery.go:229-264 | New state and reason by grant, attempt number and observation: deferred if and only if granted, transient and before attempt 5; otherwise reconciled if and only if authoritatively completed, retryable if and only if never granted and not contradictory, or replay is guaranteed |
| `Postgres.Rule` | internal/store/recovery.go:229-264 | The switch over the observation yields the verdict whose meaning `Answers.SubmitDecides` and `Answers.SubmitConcludes` state |
| `Postgres.Postgres.ManualResolve` | internal/store/recovery.go:299-354 | The three operator outcomes as one atomic step; the lease is left alone |
| `Answers.ResolveMeans` | internal/store/recovery.go:309-345 | Accepted if and only if uncertain, at the version and a known outcome; state, resolution time and decision kind go together; the lease stays |
| `Storage.Committed` | internal/benchmark/evidence.go:70-76 | A transaction that writes as many rows as its event weighs keeps rows written = recount from the log + renewals, for every experiment run, and changes one operation only |
| `Storage.ResultWritten` | internal/store/recovery.go:217-288 | A recovery result writes five rows, four when the decision row is absent |
| `Storage.DecisionUnlessTransient` | internal/store/recovery.go:229-264 | The decision row is absent exactly when the reason is verification_transient |
| `Storage.Renewed` | internal/store/recovery.go:170-180 | A renewal adds one row to the books and nothing to the log |
| `Storage.OperationStored` | internal/store/postgres.go:64-100 | A new operation is two rows, found again by the recount |
| `History.LoggedStep` | internal/store/recovery.go:265-285 | Versions run 1..n without gaps, each from_state is the previous to_state, and replaying the events yields state, version, dispatch flag and attempt count |
| `History.FencedStep` | internal/store/dispatch.go:16-31 | Grants in the current attempt are 1 exactly when dispatch_authorized is set; all grants never exceed attempt_count |
| `History.SchemaStep` | migrations/watchkeeper/00001_baseline.sql:54-127 | Every accepted call keeps the CHECK and UNIQUE constraints: lease triple, terminal timestamps, receipt exactly when confirmed, attempts 1..n, at most one decision per version |
| `History.EveryLifeIsSound` | internal/store/recovery.go:19-354 | All three hold after any calls, from any clients, at any times |
| `Deferral.DecidesOrDefers` | internal/store/recovery.go:229-284 | An accepted result either keeps the state and stores next_reconcile_at = now + 250 ms * 2^(n-1) for attempt n < 5, without a decision, or clears it and writes a decision; from attempt 5 on it always decides |
| `Deferral.EveryLifeIsDeferred` | internal/store/recovery.go:248-253 | Each deferral answers its own attempt, one of the first four |
| `Deferral.WaitedIsAudited` | internal/store/recovery.go:248-266 | Over a whole life the time that stored deferrals made the operation wait equals the total derived from the log and the attempt numbers |
| `Deferral.BoundedDeferral` | internal/store/recovery.go:248-266 | Over an operation's whole life at most four deferrals, which make it wait at most 3.75 s in total |
| `Deferral.BackoffTable` | internal/store/recovery.go:249-252 | The four delays that occur are 250, 500, 1000 and 2000 ms, all below the cap |
| `Ledger.ConsistentStep` | internal/simulator/email.go:56-104 | A commit keeps effect IDs unique and every key row pointing at the effect it was written with |
| `Ledger.Newest` | internal/simulator/email.go:105-121 | The row that ORDER BY committed_at, id puts last |
| `Ledger.CommitMeans` | internal/simulator/email.go:56-104 | A misused key is refused; a true repeat is answered with its first effect and only leaves a dispatch row; everything else adds exactly the requested effect, its key row and a dispatch row |
| `KeyedLedger.DispatchesAreSuccesses` | internal/simulator/email.go:64-102 | After any commits the dispatch rows are the requests that were answered with an effect, in order, repeats included |
| `KeyedLedger.PlayRefines` | internal/simulator/email.go:56-104 | After any commits the key table is the map in which the first writer of a key wins, and effects = unkeyed commits + distinct keys |
| `KeyedLedger.SucceedsIff` | internal/simulator/email.go:73-102 | A request succeeds if and only if it is unkeyed, first with its key, or a true repeat |
| `KeyedLedger.RepeatsAgree` | internal/simulator/email.go:79-90 | All successes for one key return the same receipt, operation and payload |
| `KeyedLedger.RefusalChangesNothing` | internal/simulator/email.go:82-84 | A refusal is a key conflict and leaves effects, keys and dispatch rows unchanged |
| `EmailService.EmailStore.Commit` | internal/simulator/email.go:56-104 | The statement-by-statement transaction equals the commit function, rollback of the dispatch row included |
| `EmailService.EmailStore.Send` | internal/simulator/email.go:165-204 | 422 and 503 without an effect, 201, or 503 with the effect committed when the later hook fails; keys count only under idempotency_only; a 201 is about the request's own operation |
| `EmailService.EmailStore.Ask` | internal/simulator/email.go:105-121 | The loop of Status and Inspect yields the number of matching effects and the newest of them |
| `Verifier.Verify` | internal/recovery/coordinator.go:27-131 | Every observation the verifier produces passes the store's validation |
| `Verifier.ObservationSound` | internal/recovery/coordinator.go:104-130 | Authoritative completion has an effect behind it; authoritative permission to repeat needs key support on both sides |
| `Verifier.ObserveExact` | internal/recovery/coordinator.go:27-131 | Exactly what a coordinator observes, for every profile, service, ledger and network: mechanism, outcome, authority and reference |
| `Verifier.StatusExact` | internal/recovery/coordinator.go:104-130 | With working status evidence: completed if and only if exactly one effect with the expected fields; unknown if and only if none |
| `Verifier.StatusVerdict` | docs/recovery.md:32-40 | From ledger to state with receipt_status: reconciled if and only if exactly one effect with the expected fields; retryable if and only if none and never granted; contradictory otherwise when there is any |
| `Verifier.IndirectVerdict` | docs/recovery.md:32-40 | With indirect_unique: reconciled if and only if one effect carries the match fields, contradictory if and only if several do |
| `Verifier.KeyedVerdict` | docs/recovery.md:32-40 | With idempotency_only: retryable if and only if both sides honour keys or nothing was granted |
| `Verifier.SilenceVerdict` | docs/recovery.md:32-40 | Unanswered verification: deferred if and only if granted and before attempt 5, then uncertain; never granted means retryable at once |
| `Evolution.EvolvesStep` | internal/store/recovery.go:182-297 | One call makes an operation later: log extended, terminal state and receipt kept, transition in the table |
| `Evolution.InsertedExact` | internal/store/postgres.go:64-98 | A successful prepare yields the one operation with the request's workflow, key and fingerprint, and changes no other |
| `Origins.Origin` | internal/store/postgres.go:64-98 | In every run a stored operation was created by a prepare request issued before, and has to this day that request's workflow, key, target, fields, expected effect, profile and creation time |
| `Origins.CreatorIsReflected` | internal/store/postgres.go:64-98 | Whichever request created the operation, it is the one it reflects |
| `Origins.OwnReceiptStored` | internal/workflow/worker.go:130-157 | A worker that goes on because its confirmation was accepted has its own receipt, ID and payload, stored for ever, and an effect of its own operation behind it |
| `Rounds.EqualVersionsSameMoment` | internal/store/recovery.go:204-206 | The version fence: in every run, whenever the store shows an operation with the same version twice, it is the same moment up to a renewed lease |
| `Coherence.SubmissionsExpected` | pkg/client/client.go:228-232 | Every accepted coordinator result meets a prepared or uncertain row, though the store does not ask |
| `Coherence.AlwaysCoherent` | internal/workflow/worker.go:39-157 | In every run every local copy and every claim is an earlier moment of the stored operation |
| `Sends.GrantIsFinal` | internal/store/recovery.go:234-264 | A granted, not retryable, unkeyed operation stays so under every call but an accepted "absent" |
| `Sends.GrantedCopy` | internal/store/dispatch.go:16-26 | A worker that is granted holds the present moment of the operation |
| `Sends.SingleSendStep` | internal/workflow/worker.go:58-81 | Every action keeps: the sends of an unkeyed operation, held, on the wire or landed, are at most one, and while there is one its grant stands; an accepted "absent" too, if nothing was sent |
| `Sends.AlwaysGuarded` | internal/store/dispatch.go:16-31 | The inductive invariant over workers, wire, ledger, claims and store holds in every run |
| `Sends.CarefulMeansSingle` | internal/workflow/worker.go:58-81 | In every run in which "absent" was only said while nothing of the operation was outstanding or landed, it has a single send |
| `Sends.AtMostOneEffect` | internal/workflow/worker.go:58-81 | In every such run the operation has at most one effect, for every pairing of operation and service profile |
| `Sends.AtMostOneKeyedEffect` | internal/simulator/email.go:73-102 | Keyed operations at a key-honouring service have at most one effect whatever operators say |
| `Release.AbsentDuplicatesIff` | internal/store/recovery.go:321-323 | In every reachable state, with restraint before and after, "absent" can lead to a second effect if and only if a send of the operation is held by a worker, on the wire or landed, the email is one the service accepts, and keys are not honoured on both sides |
| `Release.AbsentDuplicates` | internal/store/recovery.go:321-323 | The continuation that reaches the second effect, from each of the three places, with or without a lease left over |
| `Release.IncompleteNeverLands` | internal/simulator/email.go:175-178 | An email that the service refuses for its fields never has an effect |
| `Release.UnreleasedIsCareful` | internal/store/recovery.go:342 | An operation whose stored log holds no accepted "absent" falls under the effect theorem |
| `Release.CompletedIsFalseIff` | internal/store/recovery.go:318-320 | "Completed" is a false completion if and only if the ledger holds no evidence when it is said |
| `Steps.StepExact` | internal/benchmark/child.go:103-121 | A process's step counter moves forward only by an acknowledgement of that step's own operation |
| `Steps.AcknowledgedIsTerminal` | internal/workflow/worker.go:47-80 | Execute returns without error only when the stored operation is Confirmed or Reconciled |
| `Completion.AlwaysTrustworthy` | internal/workflow/worker.go:124-157 | In every run receipts, confirmations and authoritative completions are backed by effects, and acknowledged operations are terminal |
| `Completion.TruthfulMeansEvident` | internal/store/recovery.go:235-239 | In every run in which "completed" was only said with the evidence in the ledger, a terminal operation has its evidence |
| `Completion.NoFalseCompletion` | internal/store/recovery.go:235-239 | Such a terminal operation has an effect, for indirect_unique when its match fields are its own, and exactly one if "absent" was only said while nothing was outstanding or landed, or keys are honoured |
| `Completion.AcknowledgedIsDone` | internal/workflow/worker.go:47-80 | An acknowledged operation is terminal in the store, with its effect unless "completed" was said without evidence |
| `Rounds.TransitionsAllowed` | internal/domain/state.go:5-32 | Every state change of every action of every run is in the transition table |
| `Rounds.EveryTransitionOccurs` | internal/domain/state.go:5-32 | Every entry of the table is taken by some sequence of accepted calls |
| `Rounds.TerminalIsForever` | internal/store/postgres.go:155-178 | Confirmed and Reconciled are absorbing and a stored receipt never changes |
| `Rounds.EveryRunIsSound` | internal/store/postgres.go:192-202 | Log reconstruction, fence and schema hold for every stored operation of every run |
| `Rounds.ResultLawfulIff` | internal/store/recovery.go:201-266 | Exactly which accepted results obey the table, by the locked row, the attempt number and the observation |
| `Rounds.EchoedResultIsLawful` | pkg/client/client.go:228-232 | After any calls by anyone, an accepted result that carries the version of its own claim meets a prepared or uncertain row and obeys the table |
| `Rounds.ReconciledCanBeLeft` | internal/store/recovery.go:309-329 | A concrete sequence of calls, each accepted, with arguments the API accepts, after which one more accepted result makes a reconciled operation uncertain |
| `Rounds.AcceptedIff` | internal/store/recovery.go:201-216 | A coordinator's result is accepted if and only if its claim is the operation's latest event and unexpired |
| `Rounds.RoundIsAtomic` | internal/store/recovery.go:147-206 | Between a claim and its accepted result only lease renewals touched the operation |
| `Rounds.AcceptedOnce` | internal/store/recovery.go:214-216 | No claim is accepted twice |
| `Rounds.RefusedChangesNothing` | internal/store/recovery.go:201-216 | A refused result changes nothing anywhere |
| `Rounds.LiveClaimsAreHonoured` | internal/store/recovery.go:170-216 | While unexpired, a claim's first result is refused only if the store accepted a confirmation, a reconciliation request or a manual resolution in between; refused attempts do not matter |
| `Rounds.LeaseShields` | internal/store/dispatch.go:21-24 | Grants, retries and other claims bounce off a live lease |
| `Rounds.EntersAwaiting` | internal/store/recovery.go:254-266 | An operation always becomes uncertain without a scheduled verification |
| `Rounds.UncertainWaits` | internal/store/recovery.go:114 | From then on no claim, grant, retry or confirmation succeeds until the store obeys an operator; refused operator calls do not matter |
| `Rounds.GrantsAreFresh` | internal/store/dispatch.go:24 | A worker with a version read before a claim, a retry or any other event is never granted |
| `Frontier.SequentialFrontier` | internal/benchmark/child.go:103-121 | If step j has an operation, all earlier steps are done, whatever was restarted or ran concurrently |
| `Frontier.OneUnresolvedStep` | internal/benchmark/child.go:103-121 | At most one step of a workflow is unresolved |
| `Frontier.FinishedPrefix` | internal/benchmark/child.go:103-121 | The steps behind a process are done, with one effect each unless an operator spoke without evidence or restraint |
| `Workers.World.Take` | internal/workflow/worker.go:39-157 | Every step of the loops below is one action of the composed system; a worker that has done its duty and takes the action due has done its duty |
| `Workers.Confirm` | internal/workflow/worker.go:130-157 | At most five confirmations, no grant and no send; success advances the process; failure means that the operation could not be read, was read in a state that leaves nothing to confirm, or was still prepared after all five |
| `Workers.Send` | internal/workflow/worker.go:100-129 | At most one send; a receipt is accepted only for the worker's own operation; none means that nothing came back or something about another operation |
| `Workers.Dispatch` | internal/workflow/worker.go:58-81 | At most one grant and one send; without a fault an ungranted operation is asked a grant for and a granted one is sent; the only error is that of a hook |
| `Workers.Restart` | internal/workflow/worker.go:53-57 | One retry at the version of the worker's copy: it goes on if and only if the store accepted it, and otherwise names the refusal or the lost reply |
| `Workers.Loop` | internal/workflow/worker.go:46-98 | Every action of the worker is the one its copy's state and the replies call for; an error is explained by a failing hook, a lost reply, a refused retry, or the rounds of the deadline, all of them taken |
| `Workers.Execute` | internal/workflow/worker.go:39-99 | The same for the whole of Execute, a refused prepare included; on return without error the operation is the request's, in expected effect and profile too if this request created it, terminal in the store, and unless "completed" was said without evidence its effect is in the ledger |
| `Workers.ExecuteChild` | internal/benchmark/child.go:99-123 | The executed operations are those of a prefix of the plan, each settled; without error the prefix is the plan; an error is the hook's after the last of them or that of the next step |
| `Workers.Child` | internal/benchmark/child.go:83-97 | The same over any number of invocations; it ends with the plan done, an uncertain operation, or after all the invocations the deadline allows |
| `Coordinators.ClaimBatch` | internal/recovery/coordinator.go:143-147 | Every claim the store grants is handed out |
| `Coordinators.RunOnce` | internal/recovery/coordinator.go:143-180 | Every claim's result, observed by a verification of that claim, is submitted under it, in order, unless a hook fails or the claim reply is lost; the number processed is the number accepted with the reply received |
| `Progress.UndisturbedStepCompletes` | internal/workflow/worker.go:39-99 | From every reachable state an undisturbed worker carries out a new step in six actions: one email, one effect with its fields, its receipt stored, the process at the next step |
| `Progress.LostReplyIsRecovered` | internal/recovery/coordinator.go:143-180 | From every reachable state in which a worker waits for an abandoned operation whose effect the service proves, one coordinator round reconciles it and the worker goes on, without another email |
| `Pagination.Page` | internal/store/postgres.go:246-260 | Scan and truncation return the first rows up to the limit, and a cursor exactly when there are more |
| `Pagination.ListOperations` | internal/store/postgres.go:232-262 | One page of the filtered list above the cursor, next_cursor being the key of its last item |
| `Pagination.PagesAreTheList` | internal/store/postgres.go:232-262 | Following next_cursor with any limit of at least 1 ends and yields the matching rows above the cursor in order, in full pages but the last |
| `Pagination.ListedIff` | internal/store/cursor.go:20-36 | From the first page on: exactly the operations above the epoch and the zero UUID whose workflow, state, target and creation time are the asked ones, each once, oldest first |
| `Pagination.ListEvents` | internal/store/postgres.go:264-300 | One page of an operation's events, or not found |
| `Pagination.EventsExact` | internal/store/postgres.go:264-300 | The list that the event pages are cut from is the operation's rows, each once, by ID |
| `Pagination.ReadIsExact` | internal/store/postgres.go:264-300 | Whatever is appended between requests, what was read is a gap-free, repeat-free prefix, and all of it when no cursor is returned |
| `Pagination.ReadTerminates` | internal/store/postgres.go:264-300 | Once the table stops growing the reader reaches the end |
| `Checkpoint.Run.Step` | internal/benchmark/child.go:124-178 | One baseline step under every fault: it fails for a fault only; success leaves an effect, under checkpoint_recovery a checkpoint, and one dispatch, or none if the step was checkpointed |
| `Checkpoint.Run.ExecuteChild` | internal/benchmark/child.go:99-181 | An invocation without error has an effect for every step; one with an error had exactly one fault and counts as failed; the books hold throughout |
| `Checkpoint.Run.Child` | internal/benchmark/child.go:83-97 | The same over any number of invocations; without success every one of them met a fault |
| `Checkpoint.Run.CheckpointBound` | internal/benchmark/child.go:104-178 | A checkpointed step has an effect and is never dispatched again; dispatches and effects are at most steps + failed invocations |
| `Checkpoint.Run.KeyedBound` | internal/benchmark/child.go:143-145 | Under idempotency_key_retry at a key-honouring service no step ever has two effects |
| `Wilson.ClampsNeverBite` | internal/benchmark/score.go:86-103 | 0 <= lo <= k/n <= hi <= 1, strictly between for 0 < k < n, and no clamp or end correction alters the exact value |
| `Wilson.MirrorImage` | internal/benchmark/score.go:86-103 | lo(n-k) = 1 - hi(k) and hi(n-k) = 1 - lo(k) |
| `Wilson.ScoreTest` | internal/benchmark/score.go:86-103 | The interval is exactly the set of proportions the score test does not reject |

## Left out

- HTTP routing, authentication, request validation, metrics and the JSON client: plumbing; what is
  kept is that a coordinator echoes its claim's version, attempt and token.
- SHA-256, UUID generation, random tokens, base64 and JSON, canonical or not: library behaviour.
- PostgreSQL itself: a row-locked transaction is one atomic step, and connection errors are refused
  transactions or lost replies.
- Postgres.Postgres.ClaimRecovery: the table in claim order, the rows that other transactions have
  locked, and the random tokens and UUIDs are parameters.
- Sends.AtMostOneEffect: every email handed to the network arrives at most once. Go's HTTP transport
  may replay a request that carries an Idempotency-Key when a reused connection breaks; at a service
  that ignores keys that could add an effect.
- EmailService.EmailStore.Send: the 400 for bodies that do not decode and the 422 for operation IDs
  that are not UUIDs, which precede any effect.
- Pagination.ListOperations: the table is a sequence in (created_at, id) order that stays the same
  from page to page; a row inserted behind the cursor is missed, and so is one at or before the
  origin cursor.
- Columns no property needs: updated_at, trace_context, actors, evidence, error details, event
  details, and the IDs of receipts, observations and decisions; the action is always "send".
- Logical keys are numbers; the steps of a plan carry the keys 0, 1, 2, ...
- A receipt's status text and emptiness checks, which the service never violates
  (internal/workflow/worker.go:125).
- Duplication inside the email service.
- Workers.Execute: the deadline is a bound on the iterations; a fault is a failing hook or a call that
  brings no answer, whatever the reason.
- Workers.Execute: a hook that fails after the confirmation makes Execute return an error although the
  operation already counts as acknowledged.
- Checkpoint.Run.ExecuteChild: one worker process at a time; the watchkeeper strategy is in Workers.
- Wilson.Wilson: real arithmetic with the square root as a parameter; IEEE rounding is not modelled.
- Progress.UndisturbedStepCompletes: progress is proved for undisturbed stretches only; a keyed operation
  may be retried forever while sends keep failing.
- Score, CheckAssertions, Supported, configuration, bootstrap sampling, reports, fault injection,
  the TCP proxy and process supervision: tallies, tables and operating-system work.
