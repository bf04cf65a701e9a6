# Samba administration console: verified protocols

The console's Go backend keeps its promises through a handful of small protocols: guarded SQL
updates, a replay cache, an event stream with a reconnecting browser client, a hash chain, a login
lockout. This project models those protocols in Dafny and proves what they guarantee over whole
runs, in every interleaving of their statements, with crashes, lost writes and clock readings that
lag. `dafny verify dfyconfig.toml` checks everything.

How the models are built:

- Code that changes stored state is a class whose methods are proved against functions on the
  stored tables; the theorems about runs are stated on those functions.
- One SQL statement is one atomic step. `sqlite.DB` serialises statements with a mutex and ignores
  the request context. Primary keys are as in `backend/internal/storage/migrations`.
- A storage fault, an agent failure, a cancellation and every clock reading is a parameter, so the
  theorems hold for all of them. Random identifiers are fresh numbers.
- Keyed hashes, SHA-256, password hashes and encryption are uninterpreted; where a theorem needs that
  certain texts do not collide it names those texts.
- The lock theorems hold for any order of stored times; what they need of it is proved of the text
  order in `Timestamps.dfy`.

| file | component |
|---|---|
| `Text.dfy`, `Timestamps.dfy` | byte order, numerals, stored RFC 3339 text compared as strings |
| `Canonical.dfy`, `NonceStore.dfy`, `Agent.dfy`, `Eviction.dfy`, `AgentServer.dfy` | signed envelope, replay cache, the agent's handler and its runs |
| `Broker.dfy`, `EventStream.dfy` | event broker, browser client, runs of both |
| `Idempotency.dfy` | idempotency middleware |
| `ChangeRequests.dfy`, `Locks.dfy`, `Jobs.dfy` | change request, resource lock and job life cycles |
| `Audit.dfy`, `Redaction.dfy` | hash chain, redaction of secrets |
| `Login.dfy`, `Mfa.dfy`, `Totp.dfy` | lockout, second factor, time-based codes |
| `Shares.dfy` | rendered share sections and their parsers |

What the proofs show about the code that its own text does not:

- Stored times drop trailing zeros of the fraction, so their text order is not the order of time
  within one second. `Timestamps.StoredOrderExact` says exactly when the two differ;
  `Timestamps.StoredBeforeWithinASecond` is why every expiry test is off by less than a second.
- `NewServerWithOptions` accepts any nonce TTL from the clock skew up, and its error text says that
  this covers the validity window. A request stays valid for twice the skew and may wait between the
  check and the cache; `Agent.ExecutedAtMostOnce` needs `TTL > 2 * skew + delay`, and
  `Agent.ShortTtlReplays` shows a second execution for every configuration without it. The defaults
  (5 min, 2 min) leave one minute of delay. Its other condition is on the nonces accepted inside the
  window of the one request it speaks of, and `Eviction.EvictionReplays` shows that bound tight.
- `Record` ignores a failed lookup of the previous hash. `Audit.VerifyAcceptsRecords` shows that the
  log still verifies exactly when no row was appended that way to a non-empty log.
- The expiry of a change request is checked on reading it, not on writing the decision, so the
  stored approval time can be later, though not the reading that allowed it
  (`ChangeRequests.GatedNeedsAnother`). `ChangeRequests.StampInTimeExactly` says when it is in time.
- A job that fails to acquire its lock has swept first, and so may have removed late locks of other
  jobs on any resource (`Locks.FailedAcquireSweeps`). `Locks.AcquireRemovesExpired` says exactly which.
- A wrong password whose database update fails is not counted, so the lockout bounds the others only
  (`Login.FailuresBounded`, `Login.LostUpdatesUnbounded`).
- A share called `Global`, in any case, is accepted and rendered, and its section is then not
  listed: `Shares.NamesRoundTrip` has this as its exact condition.
- Time steps around the epoch share number zero, because Go's division truncates
  (`Totp.NeighbouringCounters`); the promise about clock drift holds there too
  (`Totp.IssuedCodeAccepted`).

## Model

| member | source | states |
|---|---|---|
| Timestamps.CivilOf | backend/internal/storage/store.go:683-688 | every instant has valid calendar fields that denote its second and nanoseconds, so formatting is total |
| Timestamps.DateLayout | backend/internal/storage/store.go:683-688 | the date part of the text: four-digit year, month and day with hyphens, then T |
| Timestamps.TimeLayout | backend/internal/storage/store.go:683-688 | the time part: hour, minute and second with colons, the fraction if there is one, then Z |
| Timestamps.DifferentSeconds | backend/internal/storage/store.go:185-190 | for instants in different whole seconds, text order is the order of time |
| Timestamps.StoredBeforeWithinASecond | backend/internal/storage/store.go:516-545 | a text comparison of stored times is right up to less than one second, both ways |
| Timestamps.StoredOrderExact | backend/internal/storage/store.go:356-357 | text order and time order agree on two instants if and only if they are not in one second with one fraction a prefix of the other |
| Timestamps.WholeSecondSortsLast | backend/internal/storage/store.go:356-357 | the failing family: a whole second sorts after every later instant within it |
| Timestamps.FormatInjective | backend/internal/agent/signing.go:63 | different instants have different texts |
| Canonical.VerificationKeys | backend/internal/agent/signing.go:131-146 | an id without keys is non-empty and not the current one; otherwise there is at least one key, all from the ring |
| Canonical.KeysTried | backend/internal/agent/signing.go:29-48 | under a valid ring the keys tried are exactly those the id stands for: both for the empty id, the named one for a name, none for any other; all at least 32 bytes |
| Canonical.VerifyWithKeyRing | backend/internal/agent/signing.go:98-129 | the loop accepts exactly when ring, skew window and key id are in order and some candidate key gives the signature |
| Canonical.SignWithKey | backend/internal/agent/signing.go:77-90 | sets the key id and signs the text that contains it |
| Canonical.SignThenVerify | backend/internal/agent/signing.go:77-129 | a request signed with a key under an id and checked in the window is verified if and only if the id stands for that key in the ring |
| Canonical.VerifiedInWindow | backend/internal/agent/signing.go:98-109 | nothing is verified outside the skew window or under a short key |
| Canonical.CanonicalInjective | backend/internal/agent/signing.go:50-69 | admitted requests with one canonical text agree on every signed field, even with line breaks in request ids |
| Canonical.SignatureFixesRequest | backend/internal/agent/signing.go:98-129 | one signature vouches for one request, unless the two texts collide under keys of the ring |
| NonceStore.Oldest | backend/internal/agent/nonce_store.go:152-168 | finds an entry with the earliest expiry |
| NonceStore.CheckEntries | backend/internal/agent/nonce_store.go:101-139 | a stored file is refused exactly for too many entries or a malformed nonce |
| NonceStore.Store.PurgeLocked | backend/internal/agent/nonce_store.go:141-150 | keeps exactly the unexpired entries and reports whether anything changed |
| NonceStore.Store.TrimLocked | backend/internal/agent/nonce_store.go:152-168 | leaves exactly `max` of too many entries, none expiring before a dropped one |
| NonceStore.Store.PersistLocked | backend/internal/agent/nonce_store.go:170-213 | replaces the file by the entries or leaves it alone |
| NonceStore.Store.Use | backend/internal/agent/nonce_store.go:66-87 | malformed, replayed, unsaved and accepted nonces, each with the resulting memory and file; a failed write restores memory |
| NonceStore.Store.Open | backend/internal/agent/nonce_store.go:36-64 | starts exactly when the file is acceptable and any purge can be written, with the unexpired entries |
| NonceStore.UseKeepsSync | backend/internal/agent/nonce_store.go:66-87 | any call keeps both sizes within `max` and the unexpired entries of memory and file equal |
| NonceStore.TimeKeepsSync | backend/internal/agent/nonce_store.go:141-150 | so does the passing of time |
| NonceStore.RestartRejectsTheSame | backend/internal/agent/nonce_store.go:36-64 | a restart never refuses its own file and holds exactly the same live nonces |
| Agent.NotEvicted | backend/internal/agent/nonce_store.go:152-168 | before its deadline an entry with fewer rivals in its own window than the cache holds survives every trim, also of a full cache |
| Agent.AcceptedIsNew | backend/internal/agent/server.go:186-193 | a copy of a guarded request that still passes the timestamp check is not accepted |
| Agent.RunKeepsInv | backend/internal/agent/server.go:145-196 | in every reachable state each acceptance with few rivals of its own is still cached until its deadline and has no later copy, whatever else is evicted |
| Agent.RunKeepsSync | backend/internal/agent/nonce_store.go:66-87 | in every run, whatever the TTL, memory and file hold the same unexpired nonces, within `max` |
| Agent.ExecutedAtMostOnce | backend/internal/agent/server.go:154-196 | in any run, restarts and deaths before execution included, a signed text is accepted, hence executed, at most once, if the TTL exceeds 2 * skew + delay and fewer than `max` other nonces are accepted between its reading and its deadline |
| Agent.RestartComesUp | backend/internal/agent/nonce_store.go:36-64 | from every reachable state of a persisted agent, whatever the TTL, a restart that can write comes up with the same live nonces |
| Agent.ShortTtlReplays | backend/internal/agent/server.go:113-115 | for every configuration without the TTL bound there is a run that executes a request twice with no rival at all |
| Eviction.LastRivalEvicts | backend/internal/agent/nonce_store.go:152-168 | a full cache of later entries drops the older nonce |
| Eviction.EvictionReplays | backend/internal/agent/nonce_store.go:152-168 | the bound is tight: with exactly `max` rivals in the window there is a run that executes a request twice, whatever the TTL |
| AgentServer.Server.Check | backend/internal/agent/server.go:150-185 | the first failing check in source order decides the refusal |
| AgentServer.MalformedExactly | backend/internal/agent/server.go:250-258 | a request is refused as invalid if and only if a field is blank or too long or its nonce is not 16 to 256 URL-safe characters |
| AgentServer.RefusedExactly | backend/internal/agent/server.go:145-187 | every other refusal is given exactly to what passes the checks before its own and fails that one |
| AgentServer.LetThroughExactly | backend/internal/agent/server.go:145-187 | a request is let through if and only if it passes every check |
| AgentServer.Server.UseAndExecute | backend/internal/agent/server.go:179-196 | the cache is asked once, the executor runs exactly when it accepts, the semaphore place is given back |
| AgentServer.ReplyTo | backend/internal/agent/server.go:186-193 | executed exactly for an accepted nonce, replay exactly for a replayed one, unavailable for the rest |
| AgentServer.Server.Handle | backend/internal/agent/server.go:145-215 | a refused request touches neither cache nor executor; one let through is answered by the cache's outcome |
| AgentServer.HandlingIsCheckThenUse | backend/internal/agent/server.go:145-215 | a request let through is a check step and a use step of the run model, with the same execution |
| Broker.EventIdRoundTrip | backend/internal/events/broker.go:88-94 | a published id reads back as the event's number |
| Broker.OnlyNumbersAreRead | backend/internal/events/broker.go:88-94 | a text is read as a number only if it spells that number between blanks, with or without the prefix; everything else, the missing id of a first connection included, is 0 |
| Broker.Server.Publish | backend/internal/events/broker.go:53-71 | gives the event the next number, keeps the last 1024 and appends it to every buffer with fewer than 32 |
| Broker.Server.EventsAfter | backend/internal/events/broker.go:74-86 | the kept events numbered after the given id, in order; nothing for an unreadable id |
| Broker.Server.SubscribeAfter | backend/internal/events/broker.go:36-52 | a fresh empty buffer together with the replay as of the same moment |
| Broker.Server.Unsubscribe | backend/internal/events/broker.go:44-51 | removes that subscriber only |
| Broker.JobEvents.HandleEvent | frontend/src/hooks/useJobEvents.ts:106-131 | ignores a recently seen event, otherwise remembers it among at most 250, advances the last id and fires once |
| EventStream.ReplayFromFeed | backend/internal/events/broker.go:74-86 | the replay is a suffix of everything published, from the last id or the start of the window |
| EventStream.RunKeepsInv | frontend/src/hooks/useJobEvents.ts:82-160 | in every run the callbacks followed by what is in flight are genuine, ascending and, without loss, unbroken |
| EventStream.CallbacksInOrder | frontend/src/hooks/useJobEvents.ts:106-131 | whatever is lost, callbacks are published events in strictly increasing order |
| EventStream.CallbacksExactlyOnce | frontend/src/hooks/useJobEvents.ts:135-160 | without overflow or a gap beyond the window, callbacks are an unbroken stretch of what was published, each once |
| EventStream.CaughtUp | backend/internal/httpapi/server.go:748-772 | a subscribed client with nothing in flight has seen everything since its first event |
| Idempotency.Middleware.GetIdempotency | backend/internal/storage/store.go:516-528 | the row of the key if its expiry text is after now |
| Idempotency.Middleware.ReserveIdempotency | backend/internal/storage/store.go:537-545 | sweeps the expired row, then reserves unless the key is taken |
| Idempotency.Middleware.CompleteIdempotency | backend/internal/storage/store.go:547-557 | stores the response in the pending row of that hash, or reports that there is none |
| Idempotency.Middleware.DeletePendingIdempotency | backend/internal/storage/store.go:559-562 | removes only a pending row of that hash |
| Idempotency.Middleware.Serve | backend/internal/httpapi/server.go:94-158 | table, response and whether the handler ran, for every fault and handler outcome |
| Idempotency.RunsExactly | backend/internal/httpapi/server.go:116-129 | the handler runs if and only if lookup, sweep and insert work and the key is absent or expired |
| Idempotency.RunAnswers | backend/internal/httpapi/server.go:131-142 | whoever runs the handler gets its own response, unless it cannot be stored |
| Idempotency.AnsweredExactly | backend/internal/httpapi/server.go:116-129 | which of the five other answers is given, from the row found or the fault |
| Idempotency.ServerErrorFreesKey | backend/internal/httpapi/server.go:133-136 | after a status of 500 or more whose delete works the key is free |
| Idempotency.RetryRuns | backend/internal/httpapi/server.go:133-136 | in any run the next call for that key then runs its handler and gets its response, whatever is served for other keys in between |
| Idempotency.RunKeepsInv | backend/internal/httpapi/server.go:94-144 | in every run each handler run that did not end in a server error is still answered for, or its reservation has lapsed |
| Idempotency.AtMostOncePerLifetime | backend/internal/httpapi/server.go:114-144 | after a run below status 500, or one that died, the handler does not run again for the key until its reservation lapses |
| Idempotency.LaterRequests | backend/internal/httpapi/server.go:146-158 | until then the same hash gets the stored status and body (or in-progress), another hash a conflict, and nothing runs |
| ChangeRequests.PolicyFor | backend/internal/approval/service.go:39-84 | approval, window and separation are asked for together, exactly for high and destructive risk and for all but nine operations; an unknown operation is gated |
| ChangeRequests.GatedByPolicy | backend/internal/approval/service.go:106-127 | in every run a stored request is gated exactly as the policy of its operation says |
| ChangeRequests.CreatesExactly | backend/internal/approval/service.go:106-145 | a request is stored exactly if it needs no window or has a valid one, and waits for approval exactly if it needs one |
| ChangeRequests.ReadsExactly | backend/internal/approval/service.go:151-189 | a decision is taken up exactly if it is another user's and does not approve what needs no approval; a late one is to expire the request |
| ChangeRequests.WritesExactly | backend/internal/storage/store.go:629-645 | it is then written as it was made |
| ChangeRequests.Decided | backend/internal/storage/store.go:636-637 | a legal row transition that leaves executing and final rows alone |
| ChangeRequests.Claimed | backend/internal/storage/store.go:647-656 | a legal row transition that approves nothing |
| ChangeRequests.Released | backend/internal/storage/store.go:658-667 | a legal row transition that approves nothing new |
| ChangeRequests.Finished | backend/internal/storage/store.go:669-681 | a legal row transition although unguarded by job id |
| ChangeRequests.Store.DecideChangeRequest | backend/internal/storage/store.go:621-645 | decides exactly a pending, unexpired request, expires an expired one |
| ChangeRequests.Store.SetChangeRequestJob | backend/internal/storage/store.go:647-656 | claims exactly an approved request |
| ChangeRequests.Store.ResetChangeRequestJob | backend/internal/storage/store.go:658-667 | releases exactly the claim of that job |
| ChangeRequests.Store.CompleteChangeRequest | backend/internal/storage/store.go:669-681 | finishes exactly an executing request, whatever its job |
| ChangeRequests.FinishKeepsJobs | backend/internal/storage/store.go:673 | the unguarded final update only ever finds the request of the tracker's own job |
| ChangeRequests.RunKeepsInv | backend/internal/httpapi/server.go:873-965 | job ownership, approvals and windows hold in every reachable state |
| ChangeRequests.OneJobPerRequest | backend/internal/httpapi/server.go:918-929 | in every interleaving, crashes included, a change request gets at most one job row |
| ChangeRequests.FinalNamesItsJob | backend/internal/httpapi/server.go:934-965 | a final request names its own job; it is completed, failed, cancelled or rolled back exactly if that job's stored status is success, failed or partial, cancelled, or rolled back |
| ChangeRequests.ExecutesToEnd | backend/internal/httpapi/server.go:873-965 | from every reachable state an approved request in its window can be executed, and with each terminal status of its job ends in the state that goes with it |
| ChangeRequests.GatedNeedsAnother | backend/internal/approval/service.go:151-171 | a gated request that is approved, executing or done was approved by someone else on a reading before its expiry, and is stamped with the time of that write |
| ChangeRequests.ClaimsInWindow | backend/internal/httpapi/server.go:883-898 | every execution claim of a gated request passed a check with start <= now < end |
| ChangeRequests.AbsorbingForever | backend/internal/storage/store.go:621-681 | final, rejected and expired requests never change again |
| ChangeRequests.StampWithin | backend/internal/storage/store.go:629-637 | for writes at most d after their reading, the stored approval time is the time of the write and less than d past the expiry |
| ChangeRequests.StampInTimeExactly | backend/internal/storage/store.go:629-637 | in all such runs the stamp is before the expiry if and only if readAt + d < expires |
| Locks.SweepSparesHolders | backend/internal/storage/store.go:187 | a sweep never removes the lock of a holder that is not late at its reading |
| Locks.MutualExclusion | backend/internal/storage/store.go:185-193 | while no sweep meets a late holder, two jobs never hold one resource |
| Locks.ShortHoldsExclude | backend/internal/storage/store.go:185-193 | that is so when every hold is under ten minutes less one second, for any order of stored times that is off by less than a second |
| Locks.StoredHoldsExclude | backend/internal/storage/store.go:185-193 | in particular for the order of stored text |
| Locks.OverlapExactly | backend/internal/jobs/manager.go:54-58 | the condition is exact: another job acquires beside a holder if and only if the holder is late at its reading |
| Locks.AcquireRemovesExpired | backend/internal/storage/store.go:185-190 | in a whole acquire, successful or not, a lock of another job on any resource is lost if and only if the sweep works and finds its expiry text before the reading |
| Locks.FailedAcquireSweeps | backend/internal/storage/store.go:185-190 | the failing family: a failed acquire on one resource that removes a late lock on another |
| Locks.RowLostExactly | backend/internal/storage/store.go:185-193 | in any state, a step loses a row if and only if it is a sweep that finds it expired or the release of its owner |
| Locks.AcquiresExactly | backend/internal/storage/store.go:185-190 | a resource is acquired if and only if it is free or its lock is expired at the reading |
| Locks.DoneLeavesNoRow | backend/internal/jobs/manager.go:54-58 | in any interleaving a row whose owner is no longer at work comes from a failed release or a crash |
| Jobs.Manager.Advance | backend/internal/jobs/manager.go:90-108 | publishes the next progress, or writes and publishes the cancellation and ends |
| Jobs.Manager.Fail | backend/internal/jobs/manager.go:109-120 | ends with one failure write and one failure event |
| Jobs.Manager.Succeed | backend/internal/jobs/manager.go:81-88 | ends with one success write and one completion event |
| Jobs.Manager.AcquireLock | backend/internal/storage/store.go:185-190 | sweeps, then takes the lock exactly if the resource is free, with other jobs' statements in between |
| Jobs.Manager.ReleaseLock | backend/internal/storage/store.go:191-193 | removes only the job's own lock |
| Jobs.Manager.BeforeAgent | backend/internal/jobs/manager.go:59-69 | the step loop publishes 10, 25, 45 or stops at the first cancellation |
| Jobs.Manager.Work | backend/internal/jobs/manager.go:59-88 | the events of every cancellation point and agent outcome, ending in exactly one terminal event |
| Jobs.WorkEndsExactly | backend/internal/jobs/manager.go:59-88 | completes exactly if the agent succeeds and no step sees a cancellation, fails exactly if the agent is reached and fails, else is cancelled at the first step that sees it; progress 10, 25, 45, 75, 90 until then |
| Jobs.Manager.Run | backend/internal/jobs/manager.go:48-89 | created, strictly increasing updates, one terminal event and nothing after; the cancel entry is gone and the lock table accounted for, whatever other jobs do to it meanwhile |
| Jobs.RunLeavesNoLock | backend/internal/jobs/manager.go:54-58 | whatever other jobs do meanwhile, a run whose release succeeds leaves no row of its own |
| Jobs.RowEndsTerminal | backend/internal/storage/store.go:132-149 | the row turns terminal only with the last write, and exactly if that write was stored |
| Audit.JsonColumnRoundTrip | backend/internal/audit/audit.go:114-125 | storing a JSON text and reading it back restores it |
| Audit.VerifyItems | backend/internal/audit/audit.go:62-78 | the loop accepts exactly the chained logs |
| Audit.Log.Record | backend/internal/audit/audit.go:31-53 | appends one linked row that holds the entry's columns, or changes nothing if the insert fails |
| Audit.Log.Verify | backend/internal/audit/audit.go:55-79 | accepts exactly the logs whose rows chain as read back |
| Audit.NewRowReads | backend/internal/audit/audit.go:47-51 | a new row reads back as the text that was hashed, linked to its predecessor |
| Audit.RecordChains | backend/internal/audit/audit.go:31-53 | one call keeps acceptance unless it appends blindly, and cannot repair a broken log |
| Audit.VerifyAcceptsRecords | backend/internal/audit/audit.go:31-79 | the log of any sequence of calls verifies if and only if no row was appended without its predecessor's hash |
| Audit.SharedTail | backend/internal/audit/audit.go:55-79 | two accepted logs with one last hash and no collision between their rows agree row by row backwards, even if their lengths differ |
| Audit.TamperEvident | backend/internal/audit/audit.go:55-79 | two accepted logs of equal length with one last hash agree on the hashed text and link of every row, if no two of their rows collide |
| Audit.TamperingTakesCollision | backend/internal/audit/audit.go:55-79 | for any hash: if they differ, some row pair has different texts and one hash, and the lemma finds it |
| Audit.DifferenceIsCollision | backend/internal/audit/audit.go:55-79 | the same counting back from the end, for logs of any lengths |
| Audit.HypothesesHold | backend/internal/audit/audit.go:55-79 | these hypotheses can be met by an accepted log of two rows |
| Audit.ColumnsCount | backend/internal/audit/audit.go:49-71 | each of the eight hashed columns counts: a row changed in exactly one of them does not read the same |
| Audit.ColumnChangeRejected | backend/internal/audit/audit.go:61-78 | an accepted log with one hashed column of one row changed is rejected, unless the change yields a collision |
| Audit.LinkChangeRejected | backend/internal/audit/audit.go:68-70 | one with the link of a row changed is rejected outright |
| Audit.HashCaseIgnored | backend/internal/audit/audit.go:73 | the case of a stored hash does not matter to its own check |
| Redaction.RedactTwice | backend/internal/approval/service.go:243-264 | redaction is idempotent |
| Redaction.RedactHidesSecrets | backend/internal/audit/audit.go:81-112 | two values redact to the same if and only if they differ only under sensitive keys |
| Redaction.RedactAlongPath | backend/internal/approval/service.go:243-274 | along paths without sensitive keys every key, length and leaf is kept |
| Redaction.SecretsMarked | backend/internal/approval/service.go:243-274 | at the first sensitive key of any path stands the marker and below it nothing |
| Redaction.SensitiveExactly | backend/internal/approval/service.go:266-274 | the twelve markers that make a key sensitive |
| Redaction.AnySpelling | backend/internal/approval/service.go:266-274 | a key with a marker anywhere in it is sensitive, however the marker is capitalised or broken up |
| Redaction.SpellingIgnored | backend/internal/audit/audit.go:104-112 | underscores, hyphens, spaces and the case of letters do not matter |
| Login.Service.RegisterLoginFailure | backend/internal/storage/store.go:485-509 | counts the failure, locks from the fifth on, and reports the lock as read back |
| Login.Service.ResetLoginFailures | backend/internal/storage/store.go:511-514 | clears counter and lock of that user only |
| Login.Service.BeginLogin | backend/internal/auth/service.go:111-168 | account and answer of every path: a session exactly for a right password on an admitted account that needs no second factor, a challenge exactly if it needs and has one; either leaves the account clean |
| Login.AnswersExactly | backend/internal/auth/service.go:111-168 | when each of the answers is given |
| Login.FailuresBounded | backend/internal/storage/store.go:485-509 | any stretch of length T without a reset has at most 5 + floor(T / 15 min) wrong passwords, plus one for every failure whose update failed |
| Login.BoundReached | backend/internal/storage/store.go:485-509 | for every number from five on there is a run that reaches the bound |
| Login.LostUpdatesUnbounded | backend/internal/storage/store.go:485-509 | the last term is needed: while updates fail, any number of wrong passwords is checked |
| Login.LockHolds | backend/internal/auth/service.go:116-120 | until a lock ends every login of its account is refused and changes nothing |
| Login.GrantsAndLocks | backend/internal/auth/service.go:129-168 | the fifth and every later failure locks for 15 minutes; a grant means an unlocked, cleared account; other accounts are untouched |
| Mfa.Service.ClaimMFAChallenge | backend/internal/storage/store.go:366-388 | the challenge is gone afterwards and was claimed exactly if present and unexpired |
| Mfa.Service.MarkRecoveryCodeUsed | backend/internal/storage/store.go:335-344 | succeeds exactly on an unused code and marks only it |
| Mfa.Service.SpendRecoveryCode | backend/internal/auth/mfa.go:193-202 | succeeds exactly if a listed code matches and is unused, and spends exactly one |
| Mfa.Service.CompleteMFA | backend/internal/auth/service.go:170-187 | a session exactly for an unexpired, bound challenge and a valid second factor; the challenge is used up either way |
| Mfa.RunKeeps | backend/internal/auth/service.go:148-229 | claims, spent codes, origins and sessions are consistent in every reachable state |
| Mfa.SessionsTraced | backend/internal/auth/service.go:148-229 | with logins answered as `BeginLogin` answers them on any account rows, every stored session traces through renewals to its own user's login: without required second factor, or by one claimed unexpired challenge of that user |
| Mfa.SingleUse | backend/internal/auth/mfa.go:183-203 | over all interleavings each challenge and each recovery code is behind at most one origin session |
| Mfa.ClaimSucceeds | backend/internal/storage/store.go:366-388 | a call that read a stored challenge claims it exactly if it has not expired, and it is gone either way |
| Mfa.CompletesByTotp | backend/internal/auth/service.go:170-187 | a claim with a valid code from the bound client makes a session of the challenge's user, from another client none |
| Mfa.CompletesByCode | backend/internal/auth/mfa.go:193-202 | so does an unused recovery code of that user, which is spent |
| Mfa.OriginsStay | backend/internal/storage/store.go:405-440 | a session's origin never changes during the rest of the run |
| Totp.OffsetInBounds | backend/internal/auth/mfa.go:241-242 | four bytes at the offset lie inside every 20-byte digest |
| Totp.CombinedValue | backend/internal/auth/mfa.go:242 | the shifts and ors add up to the 31-bit big-endian number |
| Totp.Truncated | backend/internal/auth/mfa.go:241-242 | the value is below 2^31 |
| Totp.TruncatedIsLow31Bits | backend/internal/auth/mfa.go:241-242 | dynamic truncation as section 5.3 of RFC 4226 words it |
| Totp.SixDigits | backend/internal/auth/mfa.go:243 | the formatted code is exactly the six low digits |
| Totp.CounterBytesRoundTrip | backend/internal/auth/mfa.go:237 | the eight bytes denote the counter modulo 2^64 |
| Totp.TotpCode | backend/internal/auth/mfa.go:231-244 | a six-digit code of the time step, or none for an unusable key |
| Totp.CodeOfCounter | backend/internal/auth/mfa.go:236-243 | the code is the low 31 bits at the offset of the digest of the counter's eight bytes, in six decimal digits |
| Totp.CounterNumbersPeriods | backend/internal/auth/mfa.go:237 | from the epoch on the counter numbers the 30-second periods |
| Totp.SixDigitText | backend/internal/auth/mfa.go:214-221 | the loop accepts exactly six decimal digits |
| Totp.ValidTotp | backend/internal/auth/mfa.go:213-229 | accepts exactly the codes of one period earlier, now and one period later |
| Totp.NeighbouringCounters | backend/internal/auth/mfa.go:222-237 | these are the previous and next counters if and only if the time is the epoch or at least one period away from it |
| Totp.IssuedCodeAccepted | backend/internal/auth/mfa.go:213-244 | a code issued at t is accepted whenever the clocks differ by at most 30 s (section 4.2 of RFC 6238) |
| Shares.ParseSambaShares | backend/internal/adapters/freebsd/parse.go:121-130 | the section names of a configuration in order, without `[global]` |
| Shares.ParseVFSModules | backend/internal/adapters/freebsd/parse.go:132-148 | every module some `vfs objects` line names, each once |
| Shares.SplitUnlines | backend/internal/adapters/freebsd/parse.go:123 | lines joined with newlines split back |
| Shares.FieldsJoin | backend/internal/adapters/freebsd/parse.go:139 | joined words are read back |
| Shares.SettingOpensNothing | backend/internal/httpapi/server.go:1055 | no setting line is taken for a section header, whatever its value |
| Shares.NamesRoundTrip | backend/internal/httpapi/server.go:990-1056 | parsing rendered sections of valid shares gives their names in order, all of them if and only if none is a case variant of "global" |
| Shares.ModulesRoundTrip | backend/internal/httpapi/server.go:990-1056 | the parsed modules are the union of those of the shares |
| Shares.RenderInjective | backend/internal/httpapi/server.go:1046-1056 | valid shares with one rendered section agree on everything it shows |
| Shares.SectionShows | backend/internal/httpapi/server.go:1046-1062 | what each line of a valid share's section says; guests are always shut out and the flags have their meaning |

## Left out

- SQLite binding, migrations, file permissions and the temporary-file dance of `persistLocked`: tables are maps, persistence is an atomic write that may fail.
- HMAC, SHA-1, SHA-256, AES-GCM, Argon2 and random tokens: uninterpreted functions, fresh numbers.
- Sockets, peer credentials, process execution, HTTP routing, cookies, CORS, generated API code, React pages, fixtures.
- The operation catalogue, RBAC table and configuration bounds: each is settled by reading one table.
- Regex sanitising of output, `truncateAndRedact` and the agent's own response redaction.
- Locks.ShortHoldsExclude: assumes that holds are short; that 620 ms of waits and the agent client's timeout of 5 min 15 s fit in ten minutes less a second is arithmetic, and time spent in storage calls is not bounded by the code.
- NonceStore.Store.Use: does not model the default of the current time for a zero clock reading, which no caller passes.
- NonceStore.Store.TrimLocked: removes the oldest entry repeatedly where the source sorts once; ties are arbitrary in both.
- Canonical.CanonicalInjective: takes from `json.Marshal` only that its text has no line break; that it is injective on payloads is not modelled.
- Timestamps.CivilOf: instants from the year 0 into the year 9993; later years have wider texts.
- Broker.EventIdRoundTrip: does not cover more than 2^64 events, where the counter wraps.
- EventStream.CallbacksExactlyOnce: one server process; back-off, fallback to polling and the payload checks of the client are not modelled, as every published event is a job event.
- Audit.Log.Record: the entry's JSON texts and time are parameters; roles, source, address, job and reason are not hashed and not modelled.
- Login.FailuresBounded: one `BeginLogin` of an account is one step, so logins of one account that overlap are not covered.
- Login.Service.BeginLogin: whether an account requires the second factor, by itself or by a role, is one flag.
- Mfa.Service.CompleteMFA: whether the client address and agent match those of the challenge, and whether a TOTP code is valid, are parameters.
- Mfa.SessionsTraced: session expiry and the clean-up of renewals are not modelled beyond the removal of rows at any time; rows swept by expiry are an arbitrary set.
- Totp.ValidTotp: the base32 decoding of the secret is a parameter.
- Shares.NamesRoundTrip: of a path only that it is on one line; the allowed roots and `filepath.Clean` are not modelled. Lengths count characters.
- Redaction.RedactHidesSecrets: `redact` and `redactAuditValue` are the same code twice and one function here, so that both compute the same is by construction, not a theorem.
- Redaction.RedactTwice: values that are neither JSON objects nor arrays are leaves, as in the source.
- Capabilities, texts and rollback of change requests and jobs: they only add refusals or copied fields.
