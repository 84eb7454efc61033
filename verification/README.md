# CLAN: verified models of its concurrent core

CLAN is a gateway that serves the Responses API from several ChatGPT accounts. Its difficult part is
a set of lock-protected state machines that have to stay right under late, stale and overlapping work.
This project models those machines, and the two functional cores beside them, and proves what every run
of them keeps. `dafny verify dfyconfig.toml` checks all of it.

## How the models are built

A protocol is a value `State`, a datatype of `Event`s and a total step function: each event is one
region under a lock, one store statement or one provider exchange, and an event that does not apply
changes nothing, so every sequence of events is a run. What the environment decides (provider replies,
store faults, cancellation, write failures, the clock, the order in which threads move) is in the
events. Theorems are about `Run(events)` for all `events`. Beside each step system stands a class with
the fields of the Go type; its methods are the locked regions that decide something, and each is proved
to take exactly the corresponding step and to keep the invariant. The steps `CancelBegin`,
`AccountGone`, `StopCleanup`, `ClearStates`, `ChangePersist` and the catalog's closing exist only in
the step systems.

| module | models |
|---|---|
| `AccountStore` | account rows with ciphertext revisions; every encryption gives a revision never used before; a store error may hide an applied write |
| `CredentialRefresh`, `RefreshAnswers`, `LostSignIn`, `LateRotation` | `CurrentAccount`, shared refresh jobs, invalidation; what each answer means; a run that loses a required sign-in, and one that returns an account before new tokens are saved |
| `BrowserLogin`, `LoginOutcomes` | one browser login at a time, the commit token between cancel and save; what its outcomes mean |
| `Limiter`, `ExecutionGate`, `GateChanges` | slots, admission, registration, management changes, cleanup under the gate and the mutex; when a change returns nil |
| `Preparation` | the attempts of requests through `prepare`, on top of the gate: two registrations, credentials, identity, dispatch |
| `Attempts`, `RoundRobin`, `TextOrder` | candidates, cooldowns, the attempts of one request, account selection |
| `ModelCatalog`, `CatalogChanges` | the per-account model cache: membership, single flight, stale results, retry pacing |
| `StreamAssembly`, `Delivery`, `StreamRelay` | the provider stream reader, `Stream.Next` over it, and the gateway's delivery loop; from the provider's frames to what the client gets |
| `Keyset` | the request log's ordered query, cursors, and walks over a changing table |
| `RequestNormalization`, `RequestGrammar` | `ParseRequest` and `ValidateModel` over JSON values; the accepted requests as a grammar |
| `Json`, `Common` | shared types |

Four promises hold only under a condition. Each has a run that fails without it:

- A revocation, disablement or deletion whose store statement was applied but reported as failed leaves
  running requests uncanceled, because `change` returns before it cancels them.
  `ExecutionGate.LostReplyBreaksThePromise` shows that this outcome is the only one with that effect,
  `ExecutionGate.LostRevocation` reaches it, and the whole-run theorems carry exactly that exception
  (`lost`).
- A required sign-in is forgotten, although the refused value is stored, if a call captured the marked
  refresh state and then read another value that was stored for a moment before the mark.
  `CredentialRefresh.MarkCanBeLostIff` shows, for every reachable open state, that the mark can be lost
  without a login, a deletion or a change of the value exactly if some call is about to check such a read,
  and `CredentialRefresh.MarkFallsIff` names the three kinds of step that end a mark.
  `LostSignIn.StaleReadDropsTheMark` reaches the case, and `LostSignIn.LostMarkLetsTheValueBack` shows a
  later call returning the account. `CredentialRefresh.NoBadReadRun` excludes it whenever the value was
  stored for as long as the refresh state existed. A value that is replaced and comes back unchanged needs
  the provider to issue the same tokens again.
- An account can be returned while new tokens of the provider for it are not yet saved, but only to a call
  that had waited for an earlier job while another job of the same state is running:
  `CredentialRefresh.ReturnedAccountIsCurrent` says so, and `LateRotation.ReturnsBeforeTheSave` is such a run.
  What a failed save keeps for a later retry does bar every return.
- A cursor whose ID is longer than 128 bytes is refused by the next call. `Keyset.WalkRejectedIff` states
  exactly when a walk ends so, and `Keyset.LongIDStopsTheWalk` is such a walk. The gateway's own IDs are
  `req_` and a short random text (internal/gateway/gateway.go:78), so only another writer of the log
  reaches this.

## Model

| member | source | states |
|---|---|---|
| `AccountStore.NoABA` | internal/storage/account.go:97-157 | in every run of create, replace, enable, disable and delete, with hidden failures, a revision is live at the end exactly if its row was present, enabled and unwritten in every state since it was read |
| `AccountStore.ReplaceLandsIff` | internal/storage/account.go:97-128 | a conditional replacement of a snapshot succeeds exactly if the snapshot stayed live throughout, and otherwise conflicts |
| `AccountStore.LiveIffNothingEnds` | internal/storage/account.go:97-185 | a revision stays live exactly if no operation of the run that reached the database disabled, deleted or replaced its row |
| `AccountStore.StaleSnapshotConflicts` | internal/storage/account.go:97-185 | told by the operations alone: a valid replacement conflicts and changes no row exactly if its snapshot was disabled or one of those came since, whatever enables and creates follow |
| `AccountStore.WriteThenRead` | internal/storage/account.go:14-185 | what can be read of every account after every statement: created, replaced, enabled, disabled with its values kept, gone, or as before |
| `AccountStore.WriteReports` | internal/storage/account.go:14-185 | what every statement answers, told by what could be read before it |
| `AccountStore.RevisionWinsOnce` | internal/storage/account.go:97-128 | after one replacement of a revision changed the table, no second replacement of it ever does |
| `AccountStore.EnableKeepsValues` | internal/storage/account.go:131-157 | an enable write changes only its own row, only from disabled to enabled, with the value and name that were stored, under a fresh revision |
| `AccountStore.EnableLoopOutcome` | internal/storage/account.go:131-157 | whatever other clients do between its tries, the loop ends in success with the row enabled, or not found, or with a store error, and that only if a read or write of it failed |
| `AccountStore.HiddenEnable` | internal/storage/account.go:145-157 | a failed enable has enabled the row exactly if its snapshot was still stored and only the reply was lost; values are kept and the next call succeeds at once |
| `AccountStore.SoundRun` | internal/storage/account.go:13-185 | in every run each stored revision came from an earlier encryption, and the counter of revisions never goes back |
| `AccountStore.Store.CreateAccount` | internal/storage/account.go:14-37 | the method performs exactly the create step, with its validation and duplicate errors |
| `AccountStore.Store.GetAccount` | internal/storage/account.go:40-60 | the record read is the stored row, or not found, or a failed read |
| `AccountStore.Store.ReplaceAccountCredentialsIfUnchanged` | internal/storage/account.go:97-128 | the method performs exactly the conditional replacement, also when the error hides the write |
| `AccountStore.Store.EnableAccount` | internal/storage/account.go:131-157 | the compare-and-swap loop, with other clients' steps between its tries and a fault in each, ends as the specification loop does |
| `AccountStore.Store.DisableAccount` | internal/storage/account.go:160-173 | the method performs exactly the disable step |
| `AccountStore.Store.DeleteAccount` | internal/storage/account.go:176-185 | the method performs exactly the delete step |
| `CredentialRefresh.ProviderCalledAgainOnlyAfterConflict` | internal/codexoauth/manager.go:262-311 | in every run, once the provider gave a refresh state usable credentials, it is called again for that state only after a save met a conflict |
| `CredentialRefresh.SavesRetryTheRotation` | internal/codexoauth/manager.go:262-311 | until a conflict, every later save of the state uses exactly the credentials that the provider gave |
| `CredentialRefresh.JobsDoNotOverlap` | internal/codexoauth/manager.go:192-197 | a refresh state starts a job only after its previous job ended |
| `CredentialRefresh.ReturnedAccountIsCurrent` | internal/codexoauth/manager.go:162-260 | a returned account was an enabled stored row at a moment of the call with no completed disable, delete or login of it in between, was unexpired when checked, and its refresh state kept no replacement; tokens not yet saved are owed only if the call had waited and another job of the state is running |
| `LateRotation.ReturnsBeforeTheSave` | internal/codexoauth/manager.go:181-200 | a reachable state in which a call that waited returns the old row while the provider's new tokens are still to be saved |
| `CredentialRefresh.SignInIsSticky` | internal/codexoauth/manager.go:244-256 | a mark that a value needs sign-in, set while no call was about to check a read of another value for its state, survives every run of disables, enables, re-encryptions, refreshes and reads until the value changes or a login or deletion completes |
| `CredentialRefresh.MarkedAccountIsNotReturned` | internal/codexoauth/manager.go:162-209 | while such a mark stands, no step of any call returns that account |
| `CredentialRefresh.MarkFallsIff` | internal/codexoauth/manager.go:224-260 | a step of an open manager ends a mark exactly if it completes a login or deletion, or is the check of a call that captured the marked state and read another value or no row |
| `CredentialRefresh.MarkCanBeLostIff` | internal/codexoauth/manager.go:224-260 | in every reachable open state with the value stored and marked, some continuation that keeps the value, stays open and completes no login or deletion loses the mark exactly if some call is about to check such a read |
| `CredentialRefresh.NoBadReadRun` | internal/codexoauth/manager.go:211-260 | if the value was stored since before the refresh state existed, no call is about to check a read of another value for that state |
| `LostSignIn.StaleReadDropsTheMark` | internal/codexoauth/manager.go:251-256 | a reachable state with a stored and marked value whose mark the check of a stale read takes away |
| `LostSignIn.LostMarkLetsTheValueBack` | internal/codexoauth/manager.go:162-209 | and a continuation in which a call returns that value |
| `CredentialRefresh.NoJobStartsAfterStop` | internal/codexoauth/manager.go:137-158 | after `stop` no refresh job starts, in any later state |
| `CredentialRefresh.InvRun` | internal/codexoauth/manager.go:137-311 | the protocol invariant (jobs, owed rotations, refresh map, call locals) holds in every reachable state |
| `RefreshAnswers.AnswerIff` | internal/codexoauth/manager.go:162-260 | in every reachable state a step ends a call with an answer exactly if its cause is given; so "temporarily unavailable" is answered exactly to a call that takes the row (fresh, waited or barred) while a replacement is kept or the row has expired |
| `RefreshAnswers.NearExpiryWaitsForTheJob` | internal/codexoauth/manager.go:181-207 | a call on a clean current state near expiry and not barred comes to wait for the one running job of that state, and starts it exactly if none was running |
| `RefreshAnswers.WaitEndsWithTheJob` | internal/codexoauth/manager.go:192-207 | a call that waits for a job looks again exactly if that job ended since it began to wait |
| `RefreshAnswers.FailureBarsExactly` | internal/codexoauth/manager.go:284-311 | until the next job of the state ends, a failed one requires a sign-in exactly if its failure is permanent, and otherwise bars a refresh exactly for a minute, for as long as the provider said, or for good |
| `RefreshAnswers.TokensAreGivenIff` | internal/codexoauth/manager.go:262-276 | of the tokens that the provider answers with, exactly those of the stored ChatGPT identity are given to be saved |
| `RefreshAnswers.KeptTokensComeFirst` | internal/codexoauth/manager.go:262-272 | a job asks the provider exactly if no rotation is kept; kept tokens are saved again while they last and need a sign-in after that |
| `RefreshAnswers.SaveLandsIff` | internal/codexoauth/manager.go:277-283 | given tokens are stored exactly if the row is still there, enabled and unchanged, they are valid and the statement reaches the database; and how the job then ends |
| `RefreshAnswers.RefreshKeepsIdentity` | internal/codexoauth/manager.go:274-283 | no refresh save changes the name, the ChatGPT identity or the enabling of any account, nor another account at all |
| `RefreshAnswers.StoppedManagerForgets` | internal/codexoauth/manager.go:137-158 | a stopped manager that has joined its jobs is left without any refresh state |
| `CredentialRefresh.Manager.InvalidateLocked` | internal/codexoauth/manager.go:407-413 | the revision grows and the account's refresh state is dropped |
| `CredentialRefresh.Manager.Invalidate` | internal/codexoauth/manager.go:390-405 | the method takes exactly the invalidation step, keeping a state that needs sign-in after a disable |
| `CredentialRefresh.Manager.Capture` | internal/codexoauth/manager.go:211-223 | the first locked region of `current` is the capture step |
| `CredentialRefresh.Manager.CheckLocked` | internal/codexoauth/manager.go:224-260 | the region after the read rechecks revision and state and decides as the check step does |
| `CredentialRefresh.Manager.DecideLocked` | internal/codexoauth/manager.go:162-209 | the locked region of `CurrentAccount` decides, starts or joins a job as the decide step does |
| `CredentialRefresh.Manager.RefreshBegin` | internal/codexoauth/manager.go:262-276 | a kept replacement is retried without a provider call, unless expired |
| `CredentialRefresh.Manager.RefreshSave` | internal/codexoauth/manager.go:277-283 | the conditional save, and what a conflict or another failure leaves to keep |
| `CredentialRefresh.Manager.EndLocked` | internal/codexoauth/manager.go:284-311 | the last region of a job settles, drops or leaves the refresh state as the end step does |
| `BrowserLogin.OneLoginPending` | internal/codexoauth/login.go:94-117 | of all logins ever created at most one is waiting or exchanging, and it is the current one |
| `BrowserLogin.TerminalIsAbsorbing` | internal/codexoauth/login.go:130-178 | a login that ended keeps its outcome in every later state |
| `BrowserLogin.CodeIsSpentOnce` | internal/codexoauth/login.go:202-218 | each login is claimed at most once and starts at most one code exchange; only a waiting, unclaimed login has an authorization |
| `BrowserLogin.CanceledNeverWrites` | internal/codexoauth/login.go:141-178 | in every interleaving a login that `CancelLogin` moved to canceled never tries a store write |
| `BrowserLogin.SucceededDidWrite` | internal/codexoauth/login.go:253-284 | a login reported as succeeded completed its own store write |
| `LoginOutcomes.OutcomeIsTheWrite` | internal/codexoauth/login.go:253-285 | in every interleaving a login that was not canceled has, past its report, succeeded exactly if its own store write was applied and answered, and failed exactly otherwise |
| `LoginOutcomes.UndisturbedLogin` | internal/codexoauth/login.go:94-285 | from any open manager without a pending login, a login that nobody disturbs creates its account or replaces the credentials it started with, and ends as the exchange and the store say |
| `LoginOutcomes.ClaimedIff` | internal/codexoauth/login.go:202-218 | a callback claims a login exactly if the manager is open and the login waits, unexpired, for just this secret |
| `LoginOutcomes.CancelFindsItsLogin` | internal/codexoauth/login.go:141-161 | a cancellation refuses exactly an ID that is not the current login's, is done at once with one that ended, and waits for the token of any other |
| `LoginOutcomes.CanceledIff` | internal/codexoauth/login.go:163-178 | under the token it cancels exactly the current login that still waits in time or exchanges, and leaves no secret in it |
| `LoginOutcomes.ExpiredIff` | internal/codexoauth/login.go:120-137 | a look at the status finds a login expired exactly if it was, or waited past its time, and then without a secret |
| `LoginOutcomes.AccountGoneCancels` | internal/codexoauth/manager.go:390-405 | a completed disable or deletion cancels exactly the pending login that reconnects the account |
| `LoginOutcomes.CleanupEndsTheLogin` | internal/codexoauth/manager.go:137-158 | cleaning up a stopped manager leaves no login pending and no secret in the last one |
| `LoginOutcomes.CancelLetsGo` | internal/codexoauth/login.go:162 | a cancellation that is through lets the token go and changes nothing else of its login |
| `BrowserLogin.NothingStartsAfterStop` | internal/codexoauth/manager.go:137-158 | after `stop` no login is created and no exchange starts, for ever |
| `BrowserLogin.InvRun` | internal/codexoauth/login.go:94-285 | the invariant tying state, commit token, finishing job and history holds in every reachable state |
| `BrowserLogin.Manager.ExpireLoginLocked` | internal/codexoauth/login.go:130-137 | the expiry step |
| `BrowserLogin.Manager.StartLogin` | internal/codexoauth/login.go:94-117 | the start step, and when it refuses |
| `BrowserLogin.Manager.ClaimCallback` | internal/codexoauth/login.go:202-218 | the claim step, which keeps the invariant |
| `BrowserLogin.Manager.CancelUnderToken` | internal/codexoauth/login.go:157-178 | the cancel step under token and lock, which keeps the invariant |
| `BrowserLogin.Manager.FinishCheckActive` | internal/codexoauth/login.go:253-263 | the check, under the token, that the login is still to be saved |
| `BrowserLogin.Manager.FinishSave` | internal/codexoauth/login.go:264-274 | the store write of the login, create or conditional replacement |
| `BrowserLogin.Manager.FinishReport` | internal/codexoauth/login.go:275-285 | the status after the write |
| `Limiter.AcquireThenFree` | internal/concurrency/limiter.go:33-71 | taking and freeing a slot gives back the same counts, with no entry left behind |
| `Limiter.GivenIff` | internal/concurrency/limiter.go:33-49 | a slot is given exactly to a named key whose limit is none or above its count, and each refusal names its cause |
| `Limiter.SlotLimiter.TryAcquire` | internal/concurrency/limiter.go:33-49 | a slot is given exactly if the key is named and the limit is none or above the number of its slots held; a refusal changes nothing |
| `Limiter.SlotLimiter.Release` | internal/concurrency/limiter.go:51-71 | the first release frees the slot, later ones change nothing; counts stay the number of unreleased slots |
| `ExecutionGate.ClosedTargetsAreCanceled` | internal/execution/management.go:41-74 | outside a change's critical section every active request of a revoked key, a disabled or deleted account or a closed executor is canceled, unless the store hid the closing write |
| `ExecutionGate.LostReplyBreaksThePromise` | internal/execution/management.go:41-74 | for an open target with a running request the write leaves it closed, unlocked and uncanceled exactly when the store applied it and reported an error |
| `ExecutionGate.LostRevocation` | internal/execution/management.go:48-51 | a run that ends with a key revoked, no change in progress and its request running uncanceled |
| `ExecutionGate.ReturnedChangeLeavesNothingActive` | internal/execution/management.go:41-74 | after a change returned nil no matching request is active, unless its account was enabled again |
| `ExecutionGate.ReturnedChangeHolds` | internal/execution/management.go:10-93 | that holds in every later state, for ever for `RevokeKey` and `Close`, and for accounts until enabled again |
| `ExecutionGate.SlotConservation` | internal/execution/execution.go:173-231 | in every reachable state a key's count is the number of its active requests, and absent exactly when that is zero |
| `ExecutionGate.FinalizedOnceRecordFirst` | internal/execution/execution.go:217-231 | each request is recorded at most once and freed at most once, only after its record |
| `ExecutionGate.LimitHolds` | internal/execution/execution.go:186-200 | while a limit L stands the count never exceeds the maximum of L and the count when it was set |
| `GateChanges.ReturnsNilIff` | internal/execution/management.go:41-76 | in every run a change has returned nil exactly if its write met an existing target and was confirmed, what it had to publish was published, and it then returned with every collected request gone |
| `GateChanges.RevocationReturnsNil` | internal/execution/management.go:12-16 | a run in which a revocation with a running request cancels it, waits for its record and its slot, and returns nil |
| `GateChanges.PersistStores` | internal/execution/management.go:41-51 | after its persist step the store holds exactly what the change asked for, or what it held if the write was refused or not applied |
| `GateChanges.MarkCancelsExactly` | internal/execution/management.go:52-60 | a change cancels and collects exactly the active requests of its key or account, all of them for a shutdown, and none for a limit or an enabling |
| `GateChanges.WaitEndsIff` | internal/execution/management.go:66-74 | its wait ends with its answer exactly once no collected request is active, and is given up, with an error, only while there was one to wait for |
| `GateChanges.GateLetsInIff` | internal/execution/management.go:41-47 | readers enter exactly while nobody holds the gate alone, changes exactly while nobody is inside, and after closing only a shutdown |
| `GateChanges.AuthenticatedIff` | internal/execution/execution.go:202-215 | a caller gets past the store exactly with a stored, enabled key |
| `GateChanges.AdmittedIff` | internal/execution/execution.go:186-200 | in every run an authenticated caller who is still there gets a slot and one new active request exactly if the limit is unlimited or above the number of the key's active requests |
| `GateChanges.RegisteredIff` | internal/execution/attempt.go:145-154 | a request comes to be registered on an account exactly if it is not canceled and the row read was fit |
| `GateChanges.FitIff` | internal/execution/attempt.go:135-152 | the row is fit exactly if it is stored, enabled and of the wanted identity |
| `GateChanges.CleanupFrees` | internal/execution/execution.go:217-231 | closing a running request cancels it, tries its record once and frees its slot once, whatever else is going on |
| `ExecutionGate.InvRun` | internal/execution/management.go:41-93 | the invariant over gate, threads, requests, slots and history holds in every reachable state |
| `ExecutionGate.Executor.CommitAdmission` | internal/execution/execution.go:186-200 | admit's region under the mutex is the admission step |
| `ExecutionGate.Executor.CommitRegistration` | internal/execution/attempt.go:145-154 | registerAccount's region under the mutex is the registration step, refused when canceled, disabled or of another identity |
| `ExecutionGate.Executor.CancelMatching` | internal/execution/management.go:52-60 | the loop cancels and collects exactly the matching active requests, in any order |
| `ExecutionGate.Executor.MarkChange` | internal/execution/management.go:41-74 | the marking step of a change, which keeps the invariant |
| `ExecutionGate.Executor.FreeSlot` | internal/execution/execution.go:226-230 | the last region of finish frees the slot and leaves the active set |
| `Preparation.DispatchedWasChecked` | internal/execution/attempt.go:117-133 | in every run, when an attempt may be dispatched or was, its account was enabled and of the candidate's identity at a moment after `CurrentAccount` returned to that attempt |
| `Preparation.DisableCancelsDispatched` | internal/execution/attempt.go:128-132 | and its account is the one registered to the request, so outside a change's critical section the request is canceled once the account is disabled or deleted, unless the store hid that write |
| `Preparation.UndisturbedAttempt` | internal/execution/attempt.go:117-155 | an attempt that nobody disturbs is dispatched, with its account on the request, exactly if `CurrentAccount` gave credentials of the candidate's identity, and is given up otherwise |
| `Preparation.AttemptEndsIff` | internal/execution/attempt.go:117-155 | in every reachable state an attempt ends exactly if it was dispatched and is over, `CurrentAccount` failed or gave another identity, its account is gone, or its registration is refused |
| `Preparation.AttemptBeginsIff` | internal/execution/attempt.go:33-47 | it begins exactly by the choice of a candidate for an admitted request that has none |
| `Preparation.ProjectsToGate` | internal/execution/attempt.go:117-155 | every run of attempts is a run of the gate |
| `Preparation.InvRun` | internal/execution/attempt.go:117-155 | registering threads, attempts and registered accounts agree in every reachable state |
| `Preparation.Preparer.FinishRegistration` | internal/execution/attempt.go:145-154 | the commit of a registration and what it does to the attempt |
| `Preparation.Preparer.ReturnCurrent` | internal/execution/attempt.go:121-127 | an error of `CurrentAccount` or another identity ends the attempt |
| `RoundRobin.NextIsUnique` | internal/selection/round_robin.go:27-55 | the choice is a function of the position and the set of candidates |
| `RoundRobin.Selector.Select` | internal/selection/round_robin.go:27-55 | the loop with running minima picks the smallest candidate above the position, else the smallest, and stores it |
| `RoundRobin.BoundedWaiting` | internal/selection/round_robin.go:27-55 | a candidate of n consecutive calls over lists drawn freely from n IDs is chosen at least once |
| `RoundRobin.EachExactlyOnce` | internal/selection/round_robin.go:27-55 | with a fixed set of n IDs any n consecutive calls choose each exactly once |
| `RoundRobin.Selector.SelectEach` | internal/selection/round_robin.go:27-55 | any sequence of calls for any models is a run of selections |
| `RoundRobin.EachModelChooses` | internal/selection/round_robin.go:27-55 | in such a run the calls for one model are consecutive choices for it, whatever comes in between |
| `RoundRobin.SelectorWaitIsBounded` | internal/selection/round_robin.go:27-55 | so bounded waiting holds of the selector itself |
| `Attempts.CandidatesIff` | internal/execution/attempt.go:71-93 | candidates are exactly the accounts of the snapshot with a fitting entry of the model |
| `Attempts.RequestCandidates` | internal/execution/attempt.go:71-93 | the loops build that list; without a candidate the error is "no accounts" or names the last field refused for the model, else the model |
| `Attempts.CandidatesOrErrorIff` | internal/execution/attempt.go:71-93 | a request finds candidates exactly if some account offers its model in a form that fits; the error is "no accounts" exactly for an empty snapshot, and else names the last refusal, or the model if nobody lists it |
| `Attempts.EligibleIff` | internal/execution/attempt.go:95-103 | an ID is offered to the selector exactly if it is a candidate, untried and not cooling |
| `Attempts.CooledIsNotSelected` | internal/execution/attempt.go:157-178 | an account cooled until U is eligible for no selection before U, over all overlapping failures, selections and syncs that see it enabled |
| `Attempts.PassedOverIffLimited` | internal/execution/attempt.go:95-103 | over all overlapping requests an untried candidate is passed over exactly if some provider limit that it met still lasts: until the provider's own time where that lay ahead, else one minute, and until a sync that saw it disabled |
| `Attempts.LimitCools` | internal/execution/attempt.go:166-178 | an attempt starts a cooldown exactly of its own account and exactly if it met a provider limit while its request lived |
| `Attempts.ChoiceIsRemembered` | internal/execution/attempt.go:95-115 | a selection is remembered for its model alone and leaves no cooldown of an account that it could choose |
| `Attempts.Dispatcher.SelectAccount` | internal/execution/attempt.go:95-115 | the round-robin choice among the eligible, and exactly that step of the shared state |
| `Attempts.Dispatcher.NoteFailure` | internal/execution/attempt.go:166-178 | only a provider limit cools, and a cooldown is never shortened |
| `Attempts.Dispatcher.Attempt` | internal/execution/attempt.go:33-62 | one turn of open: others' steps, the selection and the cooldown of a failure |
| `Attempts.Dispatcher.TryCandidates` | internal/execution/attempt.go:30-68 | at most three attempts on distinct candidates, each after only safe failures, and why it stopped |
| `Attempts.Dispatcher.Open` | internal/execution/attempt.go:21-69 | no attempt without a snapshot or a candidate, and then nothing changes; else every attempt is on an account that offers the model |
| `ModelCatalog.RetryGapIsCappedDoubling` | internal/codex/catalog.go:24-38 | the gap is min(2^(k-1), 300) seconds for every k, in wrapping 64-bit arithmetic |
| `ModelCatalog.UnguardedShift` | internal/codex/catalog.go:28-32 | without the guard the wrapped shift is exact precisely up to 34 failures, and zero from 56 |
| `ModelCatalog.SignsOfTheShift` | internal/codex/catalog.go:28-32 | it is negative at 35 failures but positive at 38, while the comment there calls every gap from 35 negative |
| `ModelCatalog.CacheIsTheFold` | internal/codex/catalog.go:317-352 | in every run `loaded`, `models` and `failure` of each entry equal a fold over the accepted completions |
| `ModelCatalog.GoodIsLastSuccess` | internal/codex/catalog.go:317-352 | that fold is the last success after the last permanent failure or identity change |
| `ModelCatalog.NothingGoodWithoutSuccess` | internal/codex/catalog.go:317-352 | and is empty if there is no such success |
| `ModelCatalog.CompletionLandsIff` | internal/codex/catalog.go:184-232 | a completion lands exactly if its entry waited for it in every state since its start |
| `ModelCatalog.AcceptedWithCurrentCredentials` | internal/codex/catalog.go:317-330 | an accepted completion was fetched with the entry's current credentials; any other changes nothing |
| `ModelCatalog.StartsFiveMinutesApart` | internal/codex/catalog.go:236-259 | once an identity has loaded, fetches with unchanged credentials start at least five minutes apart |
| `ModelCatalog.FailuresDelayTheNextStart` | internal/codex/catalog.go:326-351 | before that the k-th failure in a row delays the next start by at least min(2^(k-1), 300) seconds |
| `ModelCatalog.StartsExactlyWhenDue` | internal/codex/catalog.go:236-259 | in every reachable state a fetch is started exactly if the catalog is open and lists the account, none is running for its entry, and the gap after its last end has passed: five minutes once the identity loaded, the capped doubling before |
| `CatalogChanges.ResultIsTakenIff` | internal/codex/catalog.go:317-330 | in every reachable state a result is taken exactly if its account is listed with the entry it was fetched for, no end and no rotation followed its start, and it is the entry's latest; else nothing changes |
| `CatalogChanges.FailedResultKeepsModelsIff` | internal/codex/catalog.go:326-352 | a taken failure keeps the last good models exactly if it met a transport failure, a provider limit or a server error |
| `CatalogChanges.ListReplacesMembership` | internal/codex/catalog.go:184-232 | a closed catalog or a bad list changes nothing; else the list is the membership, and an account that goes on keeps everything with the same credentials, its last good models with others of one identity, nothing with a new identity, while one that joins or comes back starts afresh |
| `ModelCatalog.MembershipIsTheList` | internal/codex/catalog.go:184-232 | `SetAccounts` makes membership exactly its list |
| `ModelCatalog.InvRun` | internal/codex/catalog.go:184-352 | the invariant of entries, jobs and log holds in every reachable state |
| `ModelCatalog.Catalog.SetAccounts` | internal/codex/catalog.go:184-232 | refused lists change nothing; an accepted one is the membership step |
| `ModelCatalog.Catalog.StartDueFetches` | internal/codex/catalog.go:236-259 | the loop starts the due fetches, in some order of the members |
| `ModelCatalog.Catalog.FinishFetch` | internal/codex/catalog.go:317-352 | the completion step, which drops results of detached jobs |
| `StreamAssembly.OpenStreamIsItsHistory` | internal/codex/stream.go:105-121 | in every run of an open stream the kept items are the last of each index, `itemBytes` is their total length and at most 16 MiB |
| `StreamAssembly.UsageIsLastValid` | internal/codex/stream.go:308-337 | each usage counter is the last valid value that an event carried, also when that event was refused |
| `StreamAssembly.ItemRefusedIff` | internal/codex/stream.go:117-120 | a finished item ends the stream exactly when the kept items would pass 16 MiB |
| `StreamAssembly.TerminalIsAssembled` | internal/codex/stream.go:246-301 | a terminal event is refused or closes the response; an empty output becomes the last item per index in ascending index order, any other is kept |
| `StreamAssembly.NothingFollowsTheEnd` | internal/codex/stream.go:68-147 | after the first terminal event, error event or failed read every read returns one fixed outcome, EOF exactly after a success that closed cleanly |
| `StreamAssembly.EofMeansSuccess` | internal/codex/stream.go:71-76 | EOF is read only after a completed or incomplete response and a clean close |
| `StreamRelay.ReadableIff` | internal/codex/stream.go:87-104 | a frame is readable exactly if it is an object whose type is text and agrees with the event name, and its response, if any, is an object without malformed usage |
| `StreamRelay.OrdinaryFrameIsHandedOn` | internal/codex/stream.go:68-147 | in every run of an open stream a frame that is neither terminal nor error is handed on unchanged exactly if it is readable and, where it finishes an item, that item is well formed and the kept items fit 16 MiB; any other ends the stream as invalid |
| `StreamRelay.TerminalRefusedIff` | internal/codex/stream.go:246-277 | an open stream refuses a readable terminal event exactly if its response has no ID, another status than its kind names, or an output that does not list typed objects |
| `StreamRelay.TerminalKeepsRest` | internal/codex/stream.go:246-301 | a terminal event keeps all but its response, and the response all but its status, its output and a failure's error |
| `StreamRelay.BreaksAndClosesEndIt` | internal/codex/stream.go:77-84 | a failed read of an open stream and a close of it end it, each with exactly its own category |
| `StreamRelay.ErrorIsCleaned` | internal/codex/stream.go:127-144 | of a provider's error only its category, our message and a valid number are passed on |
| `StreamAssembly.Stream.ObserveUsage` | internal/codex/stream.go:308-337 | the loop takes every valid counter and reports whether one was malformed |
| `StreamAssembly.Stream.CheckOutput` | internal/codex/stream.go:269-277 | accepts exactly the lists of objects with a type |
| `StreamAssembly.Stream.KeptOutput` | internal/codex/stream.go:279-286 | the loop lists the kept items in ascending index order |
| `StreamAssembly.Stream.Terminal` | internal/codex/stream.go:246-301 | terminal's checks, its stored result and the failure it hands on |
| `StreamAssembly.Stream.KeepItem` | internal/codex/stream.go:105-121 | the item step, with its byte count |
| `StreamAssembly.Stream.Next` | internal/codex/stream.go:68-147 | one read is exactly the read step, state and outcome |
| `StreamAssembly.Stream.Close` | internal/codex/stream.go:203-216 | closing ends an open stream with a failure and leaves an ended one's outcome alone |
| `Delivery.OneEnding` | internal/gateway/stream.go:13-66 | over all interleavings of reads, write failures, and aborts before a read or between it and its cleanup check, a started response that ended without a recorded delivery failure is whole events of which the last and only the last is terminal or error; nothing follows an ending |
| `Delivery.CompletedOnlyAfterCleanClose` | internal/execution/stream.go:28-41 | a terminal response is sent only if the upstream closed cleanly, and it is the response that is recorded |
| `Delivery.MadeUpNumbersAreFresh` | internal/gateway/errors_wire.go:24-35 | every made-up sequence number exceeds all earlier valid ones and fits int64 |
| `StreamRelay.DeliveryReadsTheStream` | internal/execution/stream.go:28-41 | the stream under a delivery is a run of the reader, for all aborts, cancellations and reads |
| `StreamRelay.EventsAreRelayed` | internal/gateway/errors_wire.go:36-38 | the i-th thing sent, unless it is a reply, an error or a failed response, is the data of the frame that the i-th turn read, unchanged but for the `response` of a completed or incomplete one |
| `StreamRelay.GoodFrameIsDelivered` | internal/gateway/stream.go:35-66 | while the loop runs and the stream is open, an undisturbed turn sends every frame that the reader hands on and that may be named and numbered, and the loop goes on |
| `StreamRelay.ResponseIsDelivered` | internal/gateway/stream.go:35-66 | an undisturbed acceptable completed or incomplete event is sent with the assembled response, and ends the delivery without a failure |
| `StreamRelay.FailureIsDelivered` | internal/gateway/errors_wire.go:36-77 | an undisturbed acceptable failed response is sent with the gateway's words for its category in the place of its error, all else kept, and ends the delivery |
| `StreamRelay.ErrorIsDelivered` | internal/gateway/errors_wire.go:36-64 | an undisturbed provider error is sent as the gateway's words for its category, with nothing else of the provider's, and ends the delivery |
| `StreamRelay.OpeningIsTold` | internal/gateway/stream.go:35-38 | a stream that could not be opened is told as one JSON error, and an opened one has sent nothing |
| `StreamRelay.StopIsTold` | internal/gateway/stream.go:24-44 | a loop that stops on a problem tells the client: a JSON error before the start, after it an error event under the next number, nothing at a plain end |
| `Delivery.PrepareSound` | internal/gateway/errors_wire.go:12-64 | a valid number is kept and the largest so far remembered, an absent or bad one becomes one past the previous, and the largest int64 has no successor |
| `Delivery.RefusedIff` | internal/gateway/errors_wire.go:12-87 | an event of the assembled stream is refused exactly for its name or its number; cleaned errors always decode |
| `Delivery.InvRun` | internal/gateway/stream.go:13-66 | the delivery invariant holds after every number of turns |
| `Delivery.Responder.ReadNext` | internal/execution/stream.go:28-41 | `Stream.Next` over the stream object, with background aborts before and after its read |
| `Delivery.Responder.SendError` | internal/gateway/stream.go:24-34 | a JSON error before the start, an error event after it, and when delivery counts as failed |
| `Delivery.Responder.Receive` | internal/gateway/stream.go:45-64 | the loop's work on one event |
| `Delivery.Responder.Deliver` | internal/gateway/stream.go:35-66 | the whole loop is the run of the step system |
| `Keyset.CeilMillisExact` | internal/storage/requests.go:173-179 | a millisecond is at or after a time exactly if it is at or after its rounded bound, before 1970 too |
| `Keyset.SelectedIsMatches` | internal/storage/requests.go:151-171 | the WHERE clause selects exactly the rows that match the filter to the nanosecond |
| `Keyset.PageIsPage` | internal/storage/requests.go:120-149 | the query gives the first rows below the position in strictly descending (finished_at, id) order |
| `Keyset.ListingIsGood` | internal/management/usage.go:222-256 | a page is full and has a cursor exactly if more rows follow; without a cursor nothing is left |
| `Keyset.ListPage` | internal/management/usage.go:222-256 | listRequests is that listing, with its refusals |
| `Keyset.ListingRefusedIff` | internal/management/usage.go:201-230 | a listing is refused exactly for an empty time range, a malformed cursor, or one made for another filter |
| `Keyset.WalkDescends` | internal/management/usage.go:201-256 | a walk with any page sizes over a table that changes between pages descends strictly |
| `Keyset.NewestFirst` | internal/storage/requests.go:120-149 | a walk lists the newest requests first, and those that finished together by descending ID |
| `Keyset.NoRowTwice` | internal/management/usage.go:201-256 | so it never returns a row, that is a position, twice |
| `Keyset.NoIDTwice` | internal/management/usage.go:201-256 | nor an ID whose row never changes, even if it is deleted and inserted again |
| `Keyset.WalkSound` | internal/management/usage.go:222-256 | every returned row matches and was in a visited table |
| `Keyset.WalkComplete` | internal/management/usage.go:222-256 | a finished walk returned every matching row that was present throughout |
| `Keyset.WalkIsNotRejected` | internal/management/usage.go:201-220 | with non-empty IDs of at most 128 bytes no cursor of a walk is refused |
| `Keyset.CursorRoundTrip` | internal/management/usage.go:201-220 | a cursor is accepted exactly with its own filter and a non-empty ID of at most 128 bytes, and then names its position |
| `Keyset.WalkIsItsPages` | internal/management/usage.go:222-256 | a walk returns its pages, in order |
| `Keyset.WalkRejectedIff` | internal/management/usage.go:201-220 | a walk with a valid filter and first cursor is refused exactly if it follows a page that ended in a row whose ID fits no cursor |
| `Keyset.LongIDStopsTheWalk` | internal/management/usage.go:216-218 | a table of two rows whose walk is refused |
| `Keyset.WalkOfUnchangingTable` | internal/storage/requests.go:120-149 | over an unchanging table any page sizes give the one full listing |
| `Keyset.UnchangingWalkFinishes` | internal/management/usage.go:222-256 | and finish within one page more than there are rows |
| `Keyset.RequestLog.InsertRequest` | internal/storage/requests.go:59-80 | an incomplete record, a negative duration, an invalid counter or a duplicate ID changes nothing |
| `Keyset.RequestLog.DeleteRequestsBefore` | internal/storage/requests.go:241-249 | at most 1,000 rows go, all older than the bound, and none older is left when fewer went |
| `RequestNormalization.ParseTwice` | internal/codex/request.go:67-135 | apart from size, parsing the dispatched body again is accepted and gives the same body, model and uses |
| `RequestGrammar.AcceptsTheGrammar` | internal/codex/request.go:67-135 | parsing accepts exactly the objects of at most 16 MiB that a grammar describes: per kind of object, which members it may have, which it needs, what each holds and where null passes |
| `RequestNormalization.BodyKeepsTheRequest` | internal/codex/request.go:67-135 | the dispatched body holds exactly the members that the client set and that are not null, but for the cap, each as it was apart from null options, system roles and a text input, which is one user message of exactly that text |
| `RequestNormalization.WishesAreNoted` | internal/codex/request.go:26-36 | the model, the wish to stream and a dropped cap are those of the client |
| `RequestNormalization.ValidatedIffSupported` | internal/codex/request.go:43-63 | `ValidateModel` accepts a parsed request exactly if the model supports every image, original detail, effort, summary and verbosity use in the dispatched body |
| `RequestNormalization.InputStable` | internal/codex/input.go:11-109 | a normalized input is accepted again, left as it is, and shows the same images |
| `RequestNormalization.FieldStable` | internal/codex/controls.go:5-117 | a normalized control is accepted again and left as it is |
| `RequestNormalization.InputUses` | internal/codex/input.go:111-189 | the image flags are exactly the image parts in any list of any dispatched item |
| `RequestNormalization.ControlUses` | internal/codex/controls.go:42-82 | the effort, summary and verbosity flags are exactly the members of the dispatched controls |
| `RequestNormalization.Parser.ValidateParts` | internal/codex/input.go:111-189 | the loop over content parts accepts and flags as specified |
| `RequestNormalization.Parser.ValidateTextParts` | internal/codex/input.go:191-209 | accepts exactly the lists of text parts of one kind |
| `RequestNormalization.Parser.ValidateInput` | internal/codex/input.go:11-109 | the loop that rewrites items gives the normalized input and the image flags |
| `RequestNormalization.Parser.ValidateTools` | internal/codex/controls.go:5-40 | the loop that rewrites tools gives the normalized list |
| `RequestNormalization.Parser.ValidateReasoning` | internal/codex/controls.go:42-61 | acceptance, normal form and the flags set |
| `RequestNormalization.Parser.ValidateText` | internal/codex/controls.go:63-82 | acceptance, normal form and the flag set |
| `RequestNormalization.Parser.ValidateFields` | internal/codex/request.go:81-124 | for every order of the map's fields the loop accepts, rewrites and flags alike |
| `RequestNormalization.Parser.ParseRequest` | internal/codex/request.go:67-135 | the whole parse equals its specification, whatever the iteration order |

## Left out

- HTTP transports, timeouts, deadlines, server-sent event framing, JSON text, base64, URL parsing, encryption and hashing: their results are inputs, JSON values stand for texts, a filter stands for its hash. The gateway's case-insensitive decoding of event field names is not captured.
- Which client error or failure category an error becomes: classification tables are parameters (`classify`, `urls`).
- The names of refused fields in validation errors: they depend on map iteration order; acceptance does not.
- `Catalog.Snapshot`'s union of listed models and its wait for running fetches: a merge of lists that would only add easy members.
- The clock is read once in each locked region; where the code reads it again outside, the later time is a separate input (`lag`).
- Data races inside a lock and liveness that depends on scheduling: each locked region is one step, and only safety is proved.
- `SummarizeUsage`, migrations, access-key hashing, configuration, logging and the management routes: thin, or their meaning lives in SQL.
- The year range that filters accept and the 2,048-byte limit on the cursor parameter: bounds on texts.
- AccountStore.Store.GetAccount: does not model a row that cannot be decrypted, because encryption is outside the model.
- CredentialRefresh.Manager.InvalidateLocked: does not model the cancellation of the running job's context, because a job may fail at any moment anyway.
- CredentialRefresh.Manager.Invalidate: does not model the cancellation of a matching login, because that is `AccountGone` in `BrowserLogin`.
- BrowserLogin.Manager.FinishReport: does not model the invalidation after a success, because that is `LoginDone` in `CredentialRefresh`.
- Attempts.Dispatcher.Attempt: takes the outcome of `prepare` and of the provider as given, because the steps of `prepare` are in `Preparation`.
- Delivery.OneEnding: a torn write may have reached the client in part; the model records it as sent and not whole.
