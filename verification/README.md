# opmux gateway: concurrent safety of circuits, execution, keys, readiness and routing

This project models the parts of the gateway whose correctness spans several functions, several
requests or whole runs, and proves for-all statements about them.

* **Target circuits** (`Circuit`, `CircuitProofs`, `CircuitActs`, `CircuitRegistry`, `CircuitWrap`).
  Every registry method holds one mutex from start to end, so a concurrent execution is a sequence
  of whole calls. `Circuit` is that transition system, over any number of owners and targets;
  `CircuitProofs` has the inductive invariant and what follows from it for every interleaving;
  `CircuitRegistry` has the mutable registry and its permits, each method proved to be one enabled
  event of the system.
* **Request execution** (`Retry`, `ExecutorModel`, `Executor`, `ExecutorProofs`). `Executor` is the
  imperative engine: fallbacks around hops around attempts, sharing an attempt budget and one
  absolute deadline. It calls the shared registry itself, between arbitrary calls of other owners,
  and settles or drops the permit it was given on every exit. `Execute` guarantees local rules about
  the history it leaves (`RunOK`), that its owner holds no live permit, and that its hops tell
  everything its owner did to the circuits (`InStep`); `ExecutorProofs` derives the whole-request
  results from the history.
* **Both together** (`Composition`). What follows for runs of the registry in which the events of many
  requests interleave: no finished request holds a permit, and when all have finished only a
  cooling-down circuit refuses.
* **Keys** (`KeyStore`, `AuthStore`, `Inventory`). Transactions at statement granularity under row
  locks, with any other sessions in between; authentication, revocation and paged listing on top.
* **Drain and readiness** (`Drain`, `Readiness`). The limiter and drain flag as atomic steps, and a
  readiness call that reads caches, circuits and the flag at different instants.
* **Catalog to wire** (`Catalog`, `Ingress`). Catalog validation, route resolution, the token-cap
  check, and their composition with execution.

## How it is modelled

* Time is a natural number of nanoseconds; configuration is in milliseconds and multiplied out. The
  clock may advance by any amount between two readings. With `punctual`, timers fire on time and
  only awaiting takes time; `Execute` then ends no later than the deadline (or its own start).
* The provider, jitter samples and cancellation are methods that may answer anything their contract
  allows, and other owners may call the circuits whenever the request does not. What the environment
  answered is recorded in the history next to what the executor made of it, with the pause before
  each retry: its number, its jitter sample and when the time left was read. So a contract that
  misreads an answer is visible.
* The attempt timeout is at least one millisecond, as startup validation requires
  (`gateway/src/core/config/limits.rs:33-40`).
  A provider adapter never returns the deadline or a local circuit error; that is the type
  `VendorError`.
* Cancellation is an exit like any other: a dropped future runs the guards' drops, so the attempt is
  recorded and the permit dropped.
* Circuit generations wrap at 2^64, as in the code. Theorems over runs assume fewer than 2^64
  events; `WrapRevivesAPermit` shows the assumption is needed.
* A statement of a key transaction may fail or time out on a lock; a commit that reports failure may
  or may not have taken effect. A cancelled authentication is a failure of its current statement.
  Row identifiers and digests are unique, and row locks last until the end of the transaction.

## Where the obvious claim is false

* *After a throttled call every later call goes to the same target.* False: the retry on that target
  may use up its attempts with a transport failure, and the request then switches
  (`ThrottlingDoesNotPinTheTarget`, a history the circuits admit by `SwitchedRunOnCircuits`). A later
  call stays on the target exactly when no call in between was the last its admission allowed, a
  probe's only one or the last retry (`SameTargetExactly`). The minimum wait holds across targets
  regardless (`RetryAfterHonoured`).
* *The deadline error means the deadline has passed.* The repository's README says actual expiry is
  what gives 504; the code also reports it when a retry's sampled backoff exceeds the time left. Before
  the deadline it is reported exactly then (`DeadlineErrorExactly`, `BackoffBelongsToARetry`), so never
  without retries (`NeverEarlyWithoutRetries`), and almost all of the time may be left
  (`DeadlineErrorCanBeEarly`).
* *Already revoked means revoked.* When the key is inserted between the update and the select of a
  revocation, the code reports an unrevoked key as already revoked. That is possible exactly when the
  key does not exist as the call begins (`MisreportExactly`).
* *An unset drain flag means admission is open.* Closing comes first. With the flag unset, admission is
  closed exactly while some caller has closed it and not yet published (`ClosedUnpublishedExactly`),
  which every call of `mark_draining` passes through (`CanBeClosedUnpublished`).

Two notes on machine bounds: circuit generations wrap, see above; and `has_more` is false when the
next offset is no i64, which only a listing of more than 2^63-1 keys could tell from the truth
(`QuietPage`).

## Model

| member | source | states |
|---|---|---|
| `CircuitProofs.RunKeepsInv` | gateway/src/features/executor/circuit.rs:316-413 | the invariant over states, live permits and the completion log holds after every interleaving of admissions, completions and drops |
| `CircuitProofs.OneProbeInFlight` | gateway/src/features/executor/circuit.rs:292-341 | a target is probing exactly when one live probe permit of its present generation exists, and never two |
| `CircuitProofs.RefusedExactly` | gateway/src/features/executor/circuit.rs:316-341 | an admission is refused exactly while the circuit cools down or a live probe owns it |
| `CircuitProofs.OnlyCurrentOwnerActs` | gateway/src/features/executor/circuit.rs:343-413 | a settle or drop that changes any circuit is by a permit of the present generation and of the kind that generation issues, and never on an open one |
| `CircuitProofs.OtherTargetsUntouched` | gateway/src/features/executor/circuit.rs:316-413 | a step on one target leaves all others as they were |
| `CircuitProofs.OneKindPerGeneration` | gateway/src/features/executor/circuit.rs:292-313 | generations never decrease; one generation keeps one phase kind and issues permits of one kind for its whole life |
| `CircuitProofs.SupersededForever` | gateway/src/features/executor/circuit.rs:343-413 | once its generation is superseded, settling or dropping a permit at any later moment leaves the whole map unchanged |
| `CircuitProofs.OpenUntilCooldown` | gateway/src/features/executor/circuit.rs:299-341 | after a target opens, every admission on it before the cooldown is over is refused, whatever happens in between |
| `CircuitProofs.FailuresAreTheStreak` | gateway/src/features/executor/circuit.rs:355-383 | the failure count of a closed circuit is the trailing run of transient failures its generation has seen, below the threshold |
| `CircuitProofs.OpensAtThreshold` | gateway/src/features/executor/circuit.rs:355-383 | a closed circuit opens exactly when that run reaches the threshold |
| `CircuitProofs.AdmissionByPhase` | gateway/src/features/executor/circuit.rs:316-341 | what an admission does in each phase: a closed target admits in its generation, a cooled-down or released one admits one probe in the next generation, a refusal changes nothing |
| `CircuitProofs.ProbeDecides` | gateway/src/features/executor/circuit.rs:386-413 | the owned probe's transient failure reopens its target until exactly now plus the cooldown, its success or permanent error closes it without failures, its drop leaves it half-open for the next probe |
| `CircuitProofs.ClosedPermitCounts` | gateway/src/features/executor/circuit.rs:355-383 | a closed target's own permit: success clears the failures, permanent errors and drops leave them, a transient failure adds one or opens the target until exactly now plus the cooldown |
| `CircuitProofs.ReclosedOnlyByAProbe` | gateway/src/features/executor/circuit.rs:343-400 | over every interleaving, a target that was open or half-open is closed again only by a success or permanent error of a probe that owned it |
| `CircuitProofs.StreakOfAppend` | gateway/src/features/executor/circuit.rs:355-383 | of the completions of a generation, transient failures extend the trailing run, successes end it and permanent errors do neither |
| `CircuitWrap.WrapRevivesAPermit` | gateway/src/features/executor/circuit.rs:292-313 | a run exists in which a superseded permit becomes current again after the counter has wrapped, and opens the circuit; so a bound on events is needed |
| `CircuitRegistry.TargetCircuitRegistry.constructor` | gateway/src/features/executor/circuit.rs:186-222 | a new registry is the initial state; a zero threshold becomes one |
| `CircuitRegistry.TargetCircuitRegistry.TargetIsUsable` | gateway/src/features/executor/circuit.rs:224-230 | usable exactly when closed, without admitting |
| `CircuitRegistry.TargetCircuitRegistry.Admit` | gateway/src/features/executor/circuit.rs:255-341 | one admission event; the permit carries the issued token; a refusal's hint is the rest of the cooldown, or all of it while a probe is in flight, in whole milliseconds, at least one |
| `CircuitRegistry.TargetCircuitRegistry.Complete` | gateway/src/features/executor/circuit.rs:343-400 | one enabled completion event of the transition system, appended to a valid run |
| `CircuitRegistry.TargetCircuitRegistry.ReleaseProbe` | gateway/src/features/executor/circuit.rs:402-413 | one enabled drop event of a probe, appended to a valid run |
| `CircuitRegistry.TargetCircuitRegistry.Others` | gateway/src/features/executor/circuit.rs:249-253 | whatever other owners call in between, the run stays valid and this owner's live permits and actions stay as they were |
| `CircuitRegistry.CircuitPermit.Settle` | gateway/src/features/executor/circuit.rs:154-162 | an unsettled permit is live and its settling an enabled event; a settled one has no further effect |
| `CircuitRegistry.CircuitPermit.Drop` | gateway/src/features/executor/circuit.rs:164-171 | an unsettled permit ends by one enabled drop event and is gone; a settled one has no further effect |
| `CircuitRegistry.CircuitPermit.Consume` | gateway/src/features/executor/circuit.rs:137-152 | reporting an outcome is exactly one completion, although the permit is dropped afterwards |
| `Retry.AttemptBudget.constructor` | gateway/src/features/executor/budget.rs:28-33 | at least one attempt is allowed |
| `Retry.AttemptBudget.Remaining` | gateway/src/features/executor/budget.rs:36-38 | nothing is left exactly when the total is used up |
| `Retry.AttemptBudget.TryStart` | gateway/src/features/executor/budget.rs:50-57 | a slot is taken exactly when one is left, and never given back |
| `Retry.WindowIsExact` | gateway/src/features/executor/budget.rs:139-148 | the saturating u64 window is the mathematical min(1000 * 2^(k-1), cap) for every retry and cap |
| `Retry.WindowDoubles` | gateway/src/features/executor/budget.rs:139-148 | the window is a second for the first retry and doubles with each further one, up to the cap |
| `Retry.WindowGrows` | gateway/src/features/executor/budget.rs:139-148 | the window is monotone in the retry number |
| `Retry.JitterCoversTheWindow` | gateway/src/features/executor/budget.rs:69-81 | every sample lies in the window and every delay of the window can be sampled, except the last of a window of 2^64-1 |
| `Retry.ProviderMinimumNeverShortened` | gateway/src/features/executor/budget.rs:160-251 | a provider minimum is waited for in full, or given up exactly when it exceeds the time left |
| `Retry.BackoffDelayBounded` | gateway/src/features/executor/budget.rs:160-188 | a planned backoff is within the cap and the exponential window and is not taken for a provider minimum |
| `Retry.BackoffStaysWithinCap` | gateway/src/features/executor/budget.rs:160-251 | without a hint the wait exceeds neither cap nor time left, and giving up is never blamed on the provider |
| `Executor.AttemptCutoff` | gateway/src/core/deadline.rs:89-105 | there is a cutoff exactly when time is left for the attempt, and it is the earlier of the attempt's maximum and the deadline |
| `Executor.AttemptContext.BodyRefinementWindow` | gateway/src/features/executor/attempt.rs:49-66 | the 429 body window is the largest within 100 ms that leaves half of the remaining time |
| `Executor.StartedAttempt.Record` | gateway/src/features/executor/attempt.rs:114-125 | a started attempt is recorded once |
| `Executor.StartedAttempt.Drop` | gateway/src/features/executor/attempt.rs:127-139 | a dropped unrecorded attempt is recorded as deadline or cancelled by the clock |
| `Executor.StartedAttempt.Complete` | gateway/src/features/executor/attempt.rs:114-139 | completing records one outcome although the guard is dropped afterwards |
| `Executor.ExecutorService.TerminateForProviderMinimum` | gateway/src/features/executor/service.rs:573-595 | ends the request with the deadline once it passed, else with the throttling error exactly when its own positive Retry-After exceeds the time left |
| `Executor.ExecutorService.FailureOf` | gateway/src/features/executor/service.rs:508-525 | a failed call's error is the reply's, else the last observed one, else a timeout, and is recorded with its own class |
| `Executor.ExecutorService.RunAttempt` | gateway/src/features/executor/service.rs:465-525 | one call: the deadline wins over every ready outcome, and exactly one outcome is recorded |
| `Executor.ExecutorService.WaitBeforeRetry` | gateway/src/features/executor/service.rs:404-463 | a wait that fits the time left is waited out unless the deadline or cancellation comes first; one that does not stops at once, with the deadline if it is backoff and with throttling if it is the provider's minimum |
| `Executor.ExecutorService.OpenAttempt` | gateway/src/features/executor/service.rs:396-470 | a call starts strictly before the deadline, after the hint, with one budget slot taken; otherwise nothing is started |
| `Executor.ExecutorService.JudgeFailure` | gateway/src/features/executor/service.rs:526-559 | which failures are retried and which end the hop |
| `Executor.ExecutorService.ExecuteAttempts` | gateway/src/features/executor/service.rs:383-564 | the attempts of one hop: at most retries plus one, how they end, the metrics they move, and why retrying stopped |
| `Executor.ExecutorService.Admit` | gateway/src/features/executor/circuit.rs:316-341 | a granted permit is this owner's only live one; a refusal leaves it none; other owners may have acted before |
| `Executor.ExecutorService.SettlePermit` | gateway/src/features/executor/service.rs:325-371 | the permit is ended by one event and the owner has no live one left: success exactly on success, transient exactly on a circuit failure, permanent exactly on another error of a probe, else a drop |
| `Executor.ExecutorService.ExecuteHop` | gateway/src/features/executor/service.rs:290-371 | one target: deadline and budget before admission, an open circuit starts no call, a granted permit is ended on every exit |
| `Executor.ExecutorService.ExecuteFallbacks` | gateway/src/features/executor/service.rs:695-785 | fallbacks in catalog order, skipping those that cannot serve the tokens, under the same deadline and budget; ends as a legal request |
| `Executor.ExecutorService.Execute` | gateway/src/features/executor/service.rs:862-915 | every exit leaves a legal history, a valid run of the circuits, no live permit and hops that tell all the owner did to the circuits; with on-time timers it ends no later than the deadline, and a success or another error strictly before it |
| `ExecutorProofs.CallsInOrder` | gateway/src/features/executor/service.rs:383-564 | only after a failure does another call start, and later |
| `ExecutorProofs.RetryAfterHonoured` | gateway/src/features/executor/service.rs:404-463 | after a throttling error with a Retry-After every later call, on any target, starts no earlier than that asks |
| `ExecutorProofs.RetryAfterOnTheWire` | gateway/src/features/executor/service.rs:404-492 | the same between the end of one provider exchange and the beginning of any later one |
| `ExecutorProofs.NoCallBeyondAHint` | gateway/src/features/executor/service.rs:573-595 | a Retry-After that cannot end before the deadline is followed by no call on any target |
| `ExecutorProofs.ThrottlingNeverSwitches` | gateway/src/features/executor/service.rs:645-653 | the call right after a throttled one is on the same target |
| `ExecutorProofs.SwitchExactly` | gateway/src/features/executor/service.rs:396-402 | the next call is a hop further exactly when this one was the last its admission allowed, and then it failed in transport, by timeout or by a provider error |
| `ExecutorProofs.SameTargetExactly` | gateway/src/features/executor/service.rs:726-779 | a later call is on the same target exactly when no call from the earlier one on was the last its admission allowed |
| `ExecutorProofs.ThrottlingDoesNotPinTheTarget` | gateway/src/features/executor/service.rs:726-779 | a legal history that is throttled, then fails in transport, then switches |
| `ExecutorProofs.SwitchesLinked` | gateway/src/features/executor/service.rs:717-742 | the recorded switches lead from the primary over exactly those fallbacks looked at whose cap suffices, in catalog order, each from the one before |
| `ExecutorProofs.LooksNoFurther` | gateway/src/features/executor/service.rs:717-779 | no fallback is looked at after a success, a cancellation or a hop that ran into the deadline |
| `ExecutorProofs.LookedAtIsTried` | gateway/src/features/executor/service.rs:721-744 | a fallback looked at whose cap suffices was asked for, unless the attempts were spent or the deadline ended the request right there |
| `ExecutorProofs.TriedIsRecorded` | gateway/src/features/executor/service.rs:741-742 | every fallback asked for is among the recorded switches |
| `ExecutorProofs.NoAbleFallbackSkipped` | gateway/src/features/executor/service.rs:717-731 | before a later target is asked for, every fallback that can serve the tokens was |
| `ExecutorProofs.AttemptsBounded` | gateway/src/features/executor/service.rs:396-402 | calls never exceed the request's total, a closed hop's retries plus one, or one for a probe |
| `ExecutorProofs.EachTargetOnce` | gateway/src/features/executor/service.rs:717-779 | targets are admitted in catalog order beginning with the primary and none twice |
| `ExecutorProofs.CalledTargetsServe` | gateway/src/features/executor/service.rs:659-731 | every request on the wire goes to a target of the plan as planned, a fallback's cap suffices, and messages and tokens are the payload's |
| `ExecutorProofs.DeadlineRespected` | gateway/src/features/executor/service.rs:465-492 | every call starts before the deadline with cutoff min(start + maximum, deadline); any success or other error was confirmed in time after the last call |
| `ExecutorProofs.DeadlineErrorExactly` | gateway/src/features/executor/service.rs:404-458 | before the deadline it is reported exactly when the sampled backoff before a retry exceeds the time left |
| `ExecutorProofs.BackoffBelongsToARetry` | gateway/src/features/executor/budget.rs:160-251 | that retry was the hop's next, with an attempt and a budget slot left, after a retryable failure, within the cap of the deadline |
| `ExecutorProofs.NeverEarlyWithoutRetries` | gateway/src/features/executor/service.rs:396-404 | without retries, or with one attempt in all, the deadline error means that it has passed |
| `ExecutorProofs.DeadlineErrorCanBeEarly` | gateway/src/features/executor/service.rs:455-457 | a legal history that reports the deadline with almost all of the time left |
| `ExecutorProofs.ErrorsAreGenuine` | gateway/src/features/executor/service.rs:862-915 | exactly which error other than the deadline is returned: the invalid payload if nothing was tried, the last fallback's throttling if its wait did not fit, else the primary's own; none is made up |
| `ExecutorProofs.UnfittableHintEnds` | gateway/src/features/executor/service.rs:759-765 | a fallback's minimum that no longer fits ends the request with that throttling error, or with the deadline once it passed |
| `ExecutorProofs.SuccessIsGenuine` | gateway/src/features/executor/service.rs:486-507 | a success is the response of the last exchange, which ended before the deadline |
| `ExecutorProofs.RetriesBeforeGivingUp` | gateway/src/features/executor/service.rs:396-564 | a hop whose last call failed in transport, by timeout, throttling or a provider error, with attempts left, is kept from a retry only by the deadline, a backoff or Retry-After that does not fit, or cancellation in the wait |
| `ExecutorProofs.RetriesOnlyAfter` | gateway/src/features/executor/service.rs:615-625 | a hop calls again only after a transport error, a timeout, throttling or a provider error |
| `ExecutorProofs.SwitchesOnlyAfter` | gateway/src/features/executor/service.rs:645-653 | a later target is asked for only after one that its circuit refused or whose last call failed in transport, by timeout or by a provider error |
| `ExecutorProofs.FallsBackBeforeGivingUp` | gateway/src/features/executor/service.rs:717-785 | a request that fails after a refusal, transport error, timeout or provider error of its last target has asked for every fallback whose cap suffices, or spent its attempts |
| `ExecutorProofs.Accounted` | gateway/src/features/executor/service.rs:468-525 | one outcome per call, retries are calls minus hops that called, and at least calls minus hops, usage once exactly on success, the deadline once exactly on the deadline error |
| `ExecutorProofs.AnswersTold` | gateway/src/features/executor/service.rs:482-525 | what each call is taken for in terms of what the provider answered: response, replied or last observed error, or a timeout of the time it was given; the deadline wins |
| `ExecutorProofs.OutcomesTold` | gateway/src/features/executor/service.rs:938-960 | the outcome each call is recorded under, error by error |
| `ExecutorProofs.PermitsSettled` | gateway/src/features/executor/service.rs:325-371 | every hop's permit is settled or dropped, by the acts Execute ensures its hops to be: success exactly on success, transient exactly on a transport error, timeout or provider error, permanent exactly on another error of a probe; and never without a started call that ended so |
| `Composition.LiveIsHeld` | gateway/src/features/executor/circuit.rs:137-171 | the live permits of an owner are those its actions asked for and did not end |
| `Composition.OnePermitAtATime` | gateway/src/features/executor/service.rs:325-371 | at any moment of a legal request it holds at most one permit |
| `Composition.NoPermitLeftBehind` | gateway/src/features/executor/service.rs:325-371 | in any interleaving, an owner whose actions are those of a legal history has no live permit |
| `Composition.DoneStays` | gateway/src/features/executor/circuit.rs:137-171 | an owner left without a live permit gets none from what others do |
| `Composition.QuiescentAdmission` | gateway/src/features/executor/circuit.rs:316-341 | once every owner was left without a live permit and acts no more, an admission is refused only by a circuit still cooling down |
| `Composition.SwitchedRunOnCircuits` | gateway/src/features/executor/circuit.rs:316-400 | under every policy the circuits admit the acts of the history that is throttled and then switches |
| `Composition.EarlyRunOnCircuits` | gateway/src/features/executor/circuit.rs:316-341 | under every policy the circuits admit the acts of the history that reports the deadline early |
| `KeyStore.StatementKeepsInv` | gateway/src/features/auth/persist/postgres.rs:99-199 | every statement of any session keeps locks, identities and the version chains |
| `KeyStore.RunExtends` | gateway/src/features/auth/persist/postgres.rs:99-199 | over every run, a row keeps its identity, owner, digest, kind and creation; its last use never goes back; once revoked neither revocation nor last use changes |
| `KeyStore.RevocationsAreOwn` | gateway/src/features/auth/persist/postgres.rs:151-169 | a row is revoked only by a revoke naming that key and its own tenant |
| `KeyStore.RevokedIsFinal` | gateway/src/features/auth/persist/postgres.rs:99-120 | no later version of a revoked key differs from it |
| `AuthStore.PostgresAuthStore.AuthenticateDigest` | gateway/src/features/auth/persist/postgres.rs:278-337 | an unrevoked record is exactly the one version this session committed, used no earlier than asked, with no revoked version before it; undisturbed and without failures, the unlocked row of the digest is returned, with the later of its last use and the asked one, or none exists |
| `AuthStore.PostgresAuthStore.RevokeKey` | gateway/src/features/auth/persist/postgres.rs:151-199 | what each outcome means under interference; undisturbed and without failures, exactly which outcome and table result; only that tenant's key is touched, once, and an earlier revocation keeps its time |
| `AuthStore.PostgresAuthStore.TouchLastUsed` | gateway/src/features/auth/persist/postgres.rs:99-120 | true means a committed use of an unrevoked key, false leaves a key revoked or used no earlier; undisturbed and without failures, exactly when it is true and what it changes |
| `AuthStore.PostgresAuthStore.CommitRow` | gateway/src/features/auth/persist/postgres.rs:335-349 | a commit publishes the held row unchanged by others, and an uncertain one is a commit or a rollback |
| `AuthStore.PostgresAuthStore.ListKeysForClient` | gateway/src/features/auth/persist/postgres.rs:122-149 | a slice of the tenant's matching keys, newest first, within the page limits |
| `AuthStore.AuthenticationPrecedesRevocation` | gateway/src/features/auth/persist/postgres.rs:278-337 | every successful authentication's version precedes every revoked version of the key |
| `AuthStore.RevokedStaysDenied` | gateway/src/features/auth/persist/postgres.rs:278-337 | what is committed for the digest of an already revoked key is that revoked row |
| `AuthStore.MisreportExactly` | gateway/src/features/auth/persist/postgres.rs:157-198 | some interleaving makes a revocation report an unrevoked key as already revoked if and only if the key does not exist as it begins |
| `AuthStore.AuthService.Authenticate` | gateway/src/features/auth/service.rs:253-288 | a granted context names a row committed unrevoked and used by this call; a credential revoked before the call is denied; undisturbed and without failures, every unrevoked unlocked key is granted with its own tenant, id and kind, and all else is invalid credentials |
| `AuthStore.AuthService.RevokeKey` | gateway/src/features/auth/service.rs:199-213 | success leaves a key that existed revoked; unknown means no key of the tenant at the start; undisturbed and without failures, granted exactly for the tenant's own keys |
| `AuthStore.AuthService.ListKeys` | gateway/src/features/auth/service.rs:134-182 | one page and the peek that decides whether more follow, each of the table its query saw |
| `AuthStore.QuietPage` | gateway/src/features/auth/service.rs:159-176 | with no writes between, a page tells that a key follows exactly when one does, if and only if the next offset is an i64 or none follows |
| `AuthStore.FollowPages` | gateway/src/features/auth/service.rs:134-182 | in a quiescent store, following pages from the first until no more follow yields exactly the tenant's matching keys, newest first |
| `Inventory.Listing` | gateway/src/features/auth/persist/postgres.rs:132-140 | the tenant's matching keys, each once, newest first |
| `Inventory.ListingSpelled` | gateway/src/features/auth/persist/postgres.rs:132-140 | over fields: exactly the tenant's keys of the kind, by creation time and then identifier, both descending |
| `Inventory.ListingUnique` | gateway/src/features/auth/persist/postgres.rs:132-140 | creation time and identifier order the keys in only one way |
| `Inventory.FollowingEnds` | gateway/src/features/auth/service.rs:134-182 | following pages terminates |
| `Inventory.FollowedYieldsRest` | gateway/src/features/auth/service.rs:134-182 | the pages from an offset on concatenate to the rest of the listing, in exactly as many pages as it needs |
| `Drain.NoAdmissionAfterDrain` | gateway/src/core/lifecycle.rs:61-69 | held and free permits add up to the cap; once the drain flag was observed no acquisition ever succeeds and held permits only go down |
| `Drain.ClosedUnpublishedExactly` | gateway/src/core/lifecycle.rs:61-64 | with the flag unset admission is closed exactly while some caller has closed it and not yet published |
| `Drain.CanBeClosedUnpublished` | gateway/src/core/lifecycle.rs:61-64 | for every cap, after the first of the two steps of marking, admission is closed and the flag unset |
| `Drain.AdmissionLimiter.TryAcquire` | gateway/src/core/admission.rs:57-63 | granted exactly when open and a slot is free, else the reason |
| `Drain.AdmissionLimiter.Release` | gateway/src/core/admission.rs:25-28 | a dropped permit returns its slot and reopens nothing |
| `Drain.AdmissionLimiter.CloseAdmission` | gateway/src/core/admission.rs:69-71 | closing is final and takes no permit away |
| `Drain.ShutdownState.MarkDraining` | gateway/src/core/lifecycle.rs:61-64 | when it returns the flag is set and admission closed, whatever ran in between |
| `Drain.ShutdownState.IsDraining` | gateway/src/core/lifecycle.rs:67-69 | an observed flag implies a closed limiter |
| `Readiness.MoveKeepsInv` | gateway/src/features/health/service.rs:280-347 | every cached stamp belongs to a real success no later than the stamp, whatever interleaves |
| `Readiness.HealthService.StepCheck` | gateway/src/features/health/service.rs:285-347 | one dependency check between awaits: it ends from the cache, asking nothing, exactly when a stamp younger than a positive TTL is read; else this call's own answered probe, or the reason it is unhealthy |
| `Readiness.HealthService.JoinChecks` | gateway/src/features/health/service.rs:386-388 | both checks, interleaved at their awaits, end with evidence for their verdicts |
| `Readiness.HealthService.ProbeDefaultRoute` | gateway/src/features/executor/service.rs:120-127 | usable exactly when one of the default route's targets was closed when it was looked at |
| `Readiness.HealthService.CheckReadiness` | gateway/src/features/health/service.rs:372-410 | ready exactly when every check was healthy and the final drain snapshot unset; an initial drain asks no dependency |
| `Readiness.ReadyIsJustified` | gateway/src/features/health/service.rs:372-410 | ready implies for both dependencies a real success in this call or with a stamp younger than a positive TTL when read, a default-route target whose circuit was closed when read, and the flag unset up to the answer |
| `Readiness.NotReadyIsJustified` | gateway/src/features/health/service.rs:372-410 | a call that made its checks and is not ready found the flag set, a dependency without a young stamp that did not answer or cannot be asked, or no closed default-route target |
| `Catalog.TrimmedExactly` | gateway/src/core/config/catalog.rs:255-263 | the trim test accepts exactly the non-empty strings without outer white space |
| `Catalog.WhitespaceSpelled` | gateway/src/core/config/catalog.rs:255-256 | white space is the 25 characters with the Unicode property |
| `Catalog.RequireIdentifier` | gateway/src/core/config/catalog.rs:255-263 | identifiers pass unchanged, all else is refused |
| `Catalog.UniqueMap` | gateway/src/core/config/catalog.rs:283-325 | a map is built exactly when no key repeats, and holds exactly the entries |
| `Catalog.ValidateRoute` | gateway/src/core/config/catalog.rs:188-221 | accepted unchanged exactly when closed and duplicate-free; a reported defect is present |
| `Catalog.ValidateTarget` | gateway/src/core/config/catalog.rs:127-150 | accepted exactly when vendor, model, cap and prices are; a reported defect is present |
| `Catalog.ParseCatalog` | gateway/src/core/config/catalog.rs:118-186 | accepted exactly when the document is acceptable, in whatever order its maps are visited; the result says what the document says; a reported defect is present |
| `Catalog.AcceptableSpelled` | gateway/src/core/config/catalog.rs:118-263 | acceptability over fields and literal bounds |
| `Catalog.RepresentsSpelled` | gateway/src/core/config/catalog.rs:126-150 | each target of the result has the document's model, cap and prices |
| `Ingress.ResolvesOrUnknown` | gateway/src/features/ingress/routing.rs:38-103 | on a validated catalog: the flat, duplicate-free chain of the route, or an unknown route, and never an orchestration error |
| `Ingress.PlanSpelled` | gateway/src/features/ingress/routing.rs:57-103 | the plan over fields: the catalog's own target at each position, the route's fallbacks in order unless the request opts out |
| `Ingress.IngressService.ProcessRequest` | gateway/src/features/ingress/service.rs:140-199 | an unknown route, too many tokens or a passed deadline are refused before any call, else the resolved plan is executed with the request's own prompt and tokens |
| `Ingress.EveryCallServes` | gateway/src/features/ingress/service.rs:166-178 | every exchange goes to a target of the requested route, a fallback only if allowed, with the catalog's vendor and model, the client's prompt, and the client's limit or else the primary's cap, which that target can serve |

## Left out

- HTTP, middleware, extractors, tracing, metrics export and environment loading: plumbing around the modelled behaviour; metrics are kept as history.
- The OpenAI adapter, response parsing, HTTP dates and the 429 body reading: the provider is an arbitrary answer, its hint an optional number of milliseconds.
- Costs: floating-point arithmetic; a catalog entry's prices are checked, and a response carries no cost.
- Credential generation and hashing, and key provisioning: digests are opaque and keys appear by an insert of another session.
- Tokio and Postgres internals, connection pooling and detaching: timers, a counting semaphore, row locks and statement atomicity are assumed.
- u64 limits of instants and durations: time is unbounded, except where the code clamps to u64 milliseconds.
- A registry shared by several executors running at once as objects: one request runs as an object, all others as arbitrary enabled calls in between; `Composition` speaks of all of them together.
- The system random source: a jitter sample is any natural number, or none when the source fails; that samples are spread evenly is not stated.
- Numeric limit bounds other than the output-token cap, request field validation, sampling options and mapping of errors to HTTP statuses: one-branch facts.
- JSON syntax of the catalog, including nested chains and unknown fields: the document is already a list of entries.
- Error texts: only the two messages the executor makes up itself are kept, the others are arbitrary strings.
- authenticate_with_deadline: a cancelled authentication behaves as a failed statement; the error it maps to is not modelled.
- Response timestamps, probe latencies and liveness: not decisions.
