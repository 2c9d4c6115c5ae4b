# SorobanPay backend: verified protocols

This project models the stateful protocols of the SorobanPay backend in Dafny 4.11 and proves
what they guarantee over whole runs. It verifies with `dafny verify dfyconfig.toml`.

Where calls interleave (RefreshTokens, Indexer, WebhookQueue, DistributedLock, RpcPool), a state value
and a function `Next` give the atomic steps: one Redis command, one SQL transaction, the code
between two awaits. A run is any sequence of enabled steps, so calls interleave freely and may die at
any point. Where calls come one after another (Challenges, CircuitBreaker, ReplayCache, RateLimiter,
Idempotency), a run is a list of calls folded over the state. The theorems quantify over all runs.
Beside them stands a class with the fields of the source's object, whose methods do what the
source's functions do and are proved to compute those steps.

| file | models | main results |
|---|---|---|
| RefreshTokens.dfy | refresh-token rotation on Redis | one carrier per family, replay revokes, revocation is final iff calls take at most 15 days |
| Challenges.dfy | SEP-10 challenges | a submission is accepted iff it answers the latest challenge; each is answered once |
| Indexer.dfy | cursor indexer with crashes | crashes leave no trace once the cursor has caught up; exactly which lags can show |
| Reconciler.dfy, DryRun.dfy, PartyNames.dfy | replay, diff, repair, load, dry run, paging | repair, idempotence, simulation, dry run equals real run, pages list every repair, each with the exact condition on names |
| WebhookQueue.dfy | delivery queue with dead letters | attempt bound, conservation of deliverer calls, finality, each iff deliveries of one id do not overlap |
| DistributedLock.dfy, CircuitBreaker.dfy | Redis lock, circuit breaker | mutual exclusion iff everyone is in time, spacing of failing calls |
| RpcPool.dfy | RPC endpoint pool | health invariant, conservation of sends, each endpoint at most once per request |
| Lifecycle.dfy | subscription state machine | table equals a declarative reading and agrees with the replay |
| Csv.dfy, HumanAmount.dfy | CSV export and import, decimal amounts | round trips with their exact condition, exact value |
| ReplayCache.dfy, RateLimiter.dfy | webhook replay cache, SMS limiter | pruning never changes an answer, at most five per hour, both iff the clock never steps back |
| Idempotency.dfy | idempotency keys around a payment | a key is confirmed at most once; exactly which calls are sent |
| Keys.dfy, OrderedMap.dfy, Decimal.dfy, Base64Url.dfy, Wrappers.dfy | composite keys, insertion-ordered maps, decimal text, base64url, options | used by the others |

Conventions. Time is `real` where a bound depends on it exactly (RefreshTokens, Challenges,
DistributedLock) and whole milliseconds elsewhere. Random tokens, UUIDs and nonces are step
parameters constrained to be fresh. The RPC node, the deliverer and signature checks are oracles
whose answers come in as parameters. Variables described as history exist to state properties; the
modelled code never reads them.

Properties that hold only under a condition, and what shows it:

- Revocation is final exactly when calls take at most 15 days: `RevocationFinalIffWithin15Days`.
- A loaded database is in sync, and reconcile repairs, is idempotent, throws as stated and dry-runs faithfully, for
  every log of some parties exactly when their names are colon-free: `InSyncIffColonFree`, `RepairsIffColonFree`,
  `IdempotentIffColonFree`, `ThrowsIffColonFree`, `DryRunIffColonFree`. The pages of a dry run list the writing run's
  repairs exactly when no two keys share their first three parts: `PagedIffDistinctLookups`.
- The lock excludes exactly when neither a holder nor a DEL outlasts its caller's own deadline: `ExclusiveIffInTime`.
- The queue keeps its bounds, and delivered jobs stay delivered, exactly when deliveries of one id do not
  overlap: `BoundedIffNoOverlap`, `FinalIffNoOverlap`. Identities hold in every run: `IdentityNeverChanges`.
- The indexer's tables are guaranteed to show a clean pass exactly when the saved cursor has caught up or
  at most one entry was processed: `CleanIffCaughtUp`.
- Pruning is invisible exactly when the clock never steps back, whatever the size bound: `InvisibleIffClockForward`.
- The rate limit holds exactly when the clock never steps back: `LimitedIffClockForward`.
- A file comes back exactly when it has no rows, or no `__proto__` header and two columns or no empty cell:
  `FileRoundTrip`.
- A payment is sent exactly when nothing was confirmed under its key with a non-empty hash and the key's record
  has its parties: `SentIff`. So an unconfirmed payment, or one confirmed with an empty hash, is sent again.

Where code and comments disagree the model follows the code: rotateRefreshToken consumes the token
before it checks the family (its comment lists the check first), and half-open admits every call
(its comment says one probe).

## Model

| member | source | states |
|---|---|---|
| RefreshTokens.FamilyHasOneCarrier | backend/src/services/authService.ts:428-554 | in every interleaving a family has at most one stored record or in-flight rotation |
| RefreshTokens.TokenRotatesOnce | backend/src/services/authService.ts:469-554 | no token is rotated successfully by two calls |
| RefreshTokens.FamilyKeepsAddress | backend/src/services/authService.ts:537-543 | a rotation stays in its family, and every record carries the address the family was issued to |
| RefreshTokens.OwnerIsStable | backend/src/services/authService.ts:428-447 | the address of a family never changes |
| RefreshTokens.ReplayRevokesFamily | backend/src/services/authService.ts:473-506 | presenting a rotated token again within 60 days of its consumption ends with the family revoked, whatever ran in between |
| RefreshTokens.RevocationNeedsReplay | backend/src/services/authService.ts:475-500 | in every run a family is marked only if two calls presented the same token, whose sentinel names it |
| RefreshTokens.StepTouchesItsKey | backend/src/services/authService.ts:428-554 | a Redis command changes at most the one key of each kind that it names, and the call that issued it |
| RefreshTokens.TokenStays | backend/src/services/authService.ts:439-444 | a stored token keeps its record and expiry in every run that does not present it |
| RefreshTokens.HandedOutIsStored | backend/src/services/authService.ts:431-444 | an issued or replaced token is stored for 2592000 s with its id, family, address and end of life |
| RefreshTokens.HandedOutTokenRotates | backend/src/services/authService.ts:469-554 | a token handed out and not presented since rotates within its 30 days, in its family and for its address, whatever ran in between, unless its family is marked |
| RefreshTokens.PassedFrozen | backend/src/services/authService.ts:514-522 | after a family is marked, no further rotation of it passes its check, even once the marker has expired |
| RefreshTokens.RevocationFinalWithin15Days | backend/src/services/authService.ts:490-551 | with calls of at most 15 days no rotation checked after revocation passes its check or succeeds |
| RefreshTokens.RevocationFinalIffWithin15Days | backend/src/services/authService.ts:490-551 | 15 days is exactly the call length up to which no rotation checked after revocation passes its check, and up to which none returns a token |
| RefreshTokens.RefreshTokenService.IssueRefreshToken | backend/src/services/authService.ts:428-447 | adds one live record of a fresh family and changes nothing else; is the Issue step |
| RefreshTokens.RefreshTokenService.GetDel | backend/src/services/authService.ts:473-473 | removes the record and keeps it only if it was live |
| RefreshTokens.RefreshTokenService.RejectMissing | backend/src/services/authService.ts:475-506 | a missing token with a live sentinel marks exactly the family the sentinel names, for 60 days; without one nothing is marked |
| RefreshTokens.RefreshTokenService.Replace | backend/src/services/authService.ts:508-553 | stores a replacement of the same family and address exactly when the family is unmarked, and leaves a used sentinel |
| RefreshTokens.RefreshTokenService.RotateRefreshToken | backend/src/services/authService.ts:469-554 | succeeds exactly when the token is live and its family unmarked; its whole effect on the token store; it is a run of the protocol |
| Challenges.AcceptedIffAnswers | backend/src/services/authService.ts:187-261 | a submission is accepted for an account exactly when that is its source and it answers the latest challenge of that account, less than 300 s old, untouched since, with a valid signature |
| Challenges.RefusalReading | backend/src/services/authService.ts:191-251 | each refusal read off the log: no decodable body, no live challenge, no nonce, another nonce, no signature, no valid one |
| Challenges.ChallengeAnsweredOnce | backend/src/services/authService.ts:203-213 | a challenge is answered by at most one submission |
| Challenges.NonceAcceptedOnce | backend/src/services/authService.ts:203-213 | with fresh nonces no nonce is accepted twice |
| Challenges.ChallengeService.GenerateChallenge | backend/src/services/authService.ts:114-155 | overwrites the account's challenge and extends the log |
| Challenges.ChallengeService.VerifyChallenge | backend/src/services/authService.ts:187-261 | gives the verdict of the checks in source order, consumes first, accepts exactly the answering submissions |
| Indexer.CrashesLeaveNoTrace | backend/src/services/indexer.ts:108-149 | for every run with crashes the payments equal those of one clean pass over everything processed, and all tables do once the saved cursor has caught up |
| Indexer.PaymentsReading | backend/src/services/indexer.ts:347-367 | one payment row per transaction, type, subscriber and merchant that occur together, holding the amount, ledger and time of the first such event |
| Indexer.SubscriptionsReading | backend/src/services/indexer.ts:325-342 | a subscription row exists from its first subscribe, whose time stays its next_payment |
| Indexer.LastAmount | backend/src/services/indexer.ts:332-341 | the amount is that of the last subscribe |
| Indexer.LastStatus | backend/src/services/indexer.ts:372-397 | the status is the one set by the last subscribe, payment or cancel |
| Indexer.Reprocess | backend/src/services/indexer.ts:288-320 | processing an entry again only brings that entry's subscription up to date |
| Indexer.LaggingCursorShowsStaleStatus | backend/src/services/indexer.ts:131-133 | for every lag of a cursor behind two or more processed entries, a run in which a cancelled subscription shows as active |
| Indexer.LagIsOnePage | backend/src/services/indexer.ts:118-137 | the saved cursor never lags behind the furthest processed entry by more than a page |
| Indexer.CleanIffCaughtUp | backend/src/services/indexer.ts:108-149 | the tables are sure to equal the clean pass exactly when the cursor has caught up or at most one entry was processed |
| Indexer.IndexerService.Persist | backend/src/services/indexer.ts:288-320 | the transaction of one event, by kind |
| Indexer.IndexerService.PersistPage | backend/src/services/indexer.ts:122-128 | the page loop makes the protocol's steps and stops when the process dies |
| Indexer.IndexerService.Poll | backend/src/services/indexer.ts:108-149 | a poll is a run, keeps the invariant, never moves the cursor back, and an uncut poll that reaches the furthest entry leaves exactly the clean pass |
| Keys.SplitInvertsJoin | backend/reconciler.ts:84-120 | splitting a key gives back its parts exactly when none contains a colon |
| Keys.RejoinIsIdentity | backend/reconciler.ts:120-121 | a lookup through the split key hits the key exactly when no part contains a colon |
| Reconciler.ReplayReading | backend/reconciler.ts:83-116 | the replay wants a record exactly for subscribed keys, with amount and next payment of the last subscribe or payment |
| Reconciler.LastPaymentReading | backend/reconciler.ts:97-112 | last_payment_at is the time of the last payment since the key was subscribed |
| Reconciler.ReconcileRepairs | backend/reconciler.ts:119-139 | with colon-free names, afterwards every wanted key is stored with the replay's token, amount, interval and dates, every unwanted key is absent and every other key is untouched |
| Reconciler.ReconcileIsIdempotent | backend/reconciler.ts:71-152 | with colon-free names, a second reconcile repairs nothing and repeats the errors |
| Reconciler.ReconcileThrowsIff | backend/reconciler.ts:160-175 | with colon-free names, it throws exactly when a wanted key is stored with an amount BigInt rejects |
| Reconciler.ReportReading | backend/reconciler.ts:71-152 | the whole report read off the log and the database as it was: per key, in the order the log enters them, an insert of the wanted record, an update naming stored and wanted record exactly when a field differs, or a delete naming the stored parties; then the payments of unsubscribed keys, then the unmentioned stored keys |
| Reconciler.ReplayErrorsReading | backend/reconciler.ts:103-110 | the replay errors are the payments of keys not subscribed at the time, in order |
| Reconciler.DryRunReportsTheSame | backend/src/services/reconciler.ts:188-228 | with colon-free names, behind the read-only wrapper the database stays and the report equals the writing run's |
| Reconciler.LoadSimulatesReplay | backend/src/services/reconciler.ts:51-90 | the loaded database is the replay with its nulls left out, each record under its own key |
| Reconciler.LoadedDatabaseIsInSync | backend/src/services/reconciler.ts:51-128 | with colon-free names, reconciling a loaded database against the same log gives no repair and no orphan |
| PartyNames.InSyncIffColonFree | backend/src/services/reconciler.ts:57-58 | a database loaded from any log of some parties is in sync exactly when their names are colon-free |
| PartyNames.RepairsIffColonFree | backend/reconciler.ts:119-139 | reconcile settles every replayed key and no other, for every log of some parties and every database, exactly when their names are colon-free |
| PartyNames.IdempotentIffColonFree | backend/reconciler.ts:71-152 | a second reconcile finds nothing, for every such log and database, exactly when the names are colon-free |
| PartyNames.ThrowsIffColonFree | backend/reconciler.ts:119-175 | unreadable amounts under wanted keys are what makes it throw, for every such log and database, exactly when the names are colon-free |
| PartyNames.DryRunIffColonFree | backend/src/services/reconciler.ts:188-228 | the dry run reports what the writing run reports, for every such log and database, exactly when the names are colon-free |
| PartyNames.PagedIffDistinctLookups | backend/src/services/reconciler.ts:218-241 | the pages list what the writing run repairs, for every such log and database, exactly when no two keys of the parties share their first three colon-separated parts |
| PartyNames.ColonFreeIsDistinct | backend/reconciler.ts:84-121 | colon-free names meet that weaker condition, so their pages list every repair |
| Reconciler.ReplayLog | backend/reconciler.ts:83-116 | the replay loop computes the replay and its errors |
| Reconciler.DiffAll | backend/reconciler.ts:119-139 | the diff loop computes the diff, stopping where it throws |
| Reconciler.FindOrphans | backend/reconciler.ts:142-149 | the orphan loop lists the orphans in store order |
| Reconciler.ReconcileDB | backend/reconciler.ts:71-152 | the whole function on a database value |
| Reconciler.SubscriptionStore.constructor | backend/src/services/reconciler.ts:51-90 | load builds the second replay and files every record under its own key |
| Reconciler.SubscriptionStore.ReconcileStore | backend/reconciler.ts:71-152 | reconcile updates the store in place and keeps records under their own keys |
| Base64Url.DecodeInvertsEncode | backend/src/services/reconciler.ts:167-180 | every byte sequence survives base64url, and no text but the empty one is written empty |
| Base64Url.AlphabetIsUrlSafe | backend/src/services/reconciler.ts:167-169 | the characters are those of the URL-safe alphabet in order |
| Base64Url.GroupKeepsBits | backend/src/services/reconciler.ts:167-169 | a group of bytes and its characters are the same binary number |
| Base64Url.BytesTextReading | backend/src/services/reconciler.ts:174-174 | ASCII bytes read as themselves, others as no digit, sign or space |
| Base64Url.DecodeIsLenient | backend/src/services/reconciler.ts:172-180 | reading ignores foreign characters and takes both base64 alphabets |
| Decimal.WhiteSpaceIs | backend/src/services/dataImportService.ts:67-80 | what trim removes: the white space and line terminators of ECMAScript |
| Decimal.ParseIntReading | backend/src/services/reconciler.ts:175-176 | white space, a sign and digits are read as the signed number whatever follows |
| DryRun.CursorRoundTrip | backend/src/services/reconciler.ts:167-180 | a cursor decodes to the offset it was made from |
| DryRun.BadCursorIsStart | backend/src/services/reconciler.ts:172-180 | a cursor that decodes to no number or a negative one is the start |
| DryRun.ClampReading | backend/src/services/reconciler.ts:223-223 | the page size: 50 by default, between 1 and 500 |
| DryRun.PageReading | backend/src/services/reconciler.ts:230-240 | a page lists the repairs from its offset, as many as asked for or are left, with all errors, the total and a cursor to the next |
| DryRun.DryRunPage | backend/src/services/reconciler.ts:218-241 | the page is the clamped slice of the read-only report with its next cursor |
| DryRun.FollowAll | backend/src/services/reconciler.ts:223-240 | following cursors with any integer limits ends and lists every repair once, in order |
| DryRun.PagesListEveryRepair | backend/src/services/reconciler.ts:188-240 | if the diff never writes where it looks later, which colon-free names guarantee, following cursors with any integer limits lists exactly the repairs of the writing run |
| WebhookQueue.AttemptsBounded | backend/src/services/webhookQueue.ts:259-370 | without overlap on one id: at most five attempts, exactly five when dead-lettered with an entry of the same identity, deliverer calls equal five per replay plus the attempts |
| WebhookQueue.DeliveredIsFinal | backend/src/services/webhookQueue.ts:259-319 | without overlap on one id a delivered job is never written again |
| WebhookQueue.DeadLetterReplays | backend/src/services/webhookQueue.ts:386-425 | a dead-lettered job can be replayed and starts afresh with no attempts, otherwise as it was |
| WebhookQueue.IdentityNeverChanges | backend/src/services/webhookQueue.ts:217-425 | in every run, overlapping or not, a job stays and keeps id, merchant, url and payload |
| WebhookQueue.CarriesFirstEnqueue | backend/src/services/webhookQueue.ts:217-425 | in every run a job exists exactly from the first enqueue of its id on; the stored job, every delivery's copy and any dead letter carry that enqueue's merchant, url and payload |
| WebhookQueue.OverlapMakesSix | backend/src/services/webhookQueue.ts:266-281 | two overlapping deliveries after four failures make six attempts and a dead letter with six |
| WebhookQueue.BoundedIffNoOverlap | backend/src/services/webhookQueue.ts:266-369 | five attempts, five calls per round and dead-lettering at five hold in every run exactly when at most one delivery of an id is in progress |
| WebhookQueue.OverlapUndoesDelivery | backend/src/services/webhookQueue.ts:303-319 | with two overlapping deliveries a failure overwrites a delivered job |
| WebhookQueue.FinalIffNoOverlap | backend/src/services/webhookQueue.ts:266-319 | delivered is final in every run exactly when at most one delivery of an id is in progress |
| WebhookQueue.Queue.EnqueueJob | backend/src/services/webhookQueue.ts:217-244 | adds a pending job with these fields and no attempt unless the id exists |
| WebhookQueue.Queue.BeginDelivery | backend/src/services/webhookQueue.ts:259-298 | the part before the await: counts an attempt exactly when the job is deliverable |
| WebhookQueue.Queue.FinishDelivery | backend/src/services/webhookQueue.ts:303-369 | the part after the await: delivered, failed, or dead-lettered at five attempts |
| WebhookQueue.Queue.ReplayDeadLetter | backend/src/services/webhookQueue.ts:386-425 | re-enqueues exactly when an entry exists and no live job does |
| DistributedLock.NoTwoHolders | backend/src/lib/redis.ts:277-332 | with unique tokens, if every caller stops holding and every DEL lands before that caller's own deadline, no two callers ever hold the lock, including timed-out acquires and skipped releases |
| DistributedLock.LateHolder | backend/src/lib/redis.ts:277-306 | a caller that still holds at its deadline shares the lock with the next one |
| DistributedLock.LateDel | backend/src/lib/redis.ts:323-331 | a DEL that lands at its caller's deadline removes another caller's key and two callers hold |
| DistributedLock.ExclusiveIffInTime | backend/src/lib/redis.ts:277-332 | over all slacks for holders and DELs, exclusion holds in every run exactly when both are at most zero |
| DistributedLock.StepTouchesOneCaller | backend/src/lib/redis.ts:277-332 | a step changes one caller at most, and the key only when a SETNX or a DEL lands |
| DistributedLock.LockStore.AcquireLock | backend/src/lib/redis.ts:277-312 | acquires exactly when the call is admitted, answered in time and the key is absent or expired; a timed-out call reports failure though the key may be set |
| DistributedLock.LockStore.GetToken | backend/src/lib/redis.ts:324-325 | the GET half: tells whether the key still holds the caller's token; is the GetForRelease step |
| DistributedLock.LockStore.ReleaseLock | backend/src/lib/redis.ts:320-332 | deletes the key exactly when admitted, it still holds the caller's token and the DEL arrives; is the protocol's steps |
| CircuitBreaker.ClosedIffBelowThreshold | backend/src/lib/redis.ts:105-152 | between calls the breaker is closed exactly while the failure count is below the threshold |
| CircuitBreaker.FailuresAreSpaced | backend/src/lib/redis.ts:115-147 | after opening at t0 the k-th consecutive failing call starts no earlier than t0 + k windows |
| CircuitBreaker.CountReading | backend/src/lib/redis.ts:130-147 | in every run the count is the number of failing adapter calls since the last success |
| CircuitBreaker.StampReading | backend/src/lib/redis.ts:138-147 | the time stamp is when the last failing adapter call ended |
| CircuitBreaker.RefusedIff | backend/src/lib/redis.ts:116-128 | a call is refused exactly when at least threshold adapter calls failed since the last success and the last of them ended less than a window ago |
| CircuitBreaker.RedisBreaker.AllowCall | backend/src/lib/redis.ts:116-128 | admits unless open inside the window, turning half-open |
| CircuitBreaker.RedisBreaker.OnFailure | backend/src/lib/redis.ts:138-147 | counts, stamps and opens |
| CircuitBreaker.RedisBreaker.WithFallback | backend/src/lib/redis.ts:184-212 | reaches the adapter exactly when admitted and records its answer |
| RpcPool.HealthAndTotals | backend/src/rpc/rpcPool.ts:188-229 | in every interleaving healthy means failures below a threshold of at least one, and for every threshold the totals equal the completed and failed sends of all requests |
| RpcPool.HealthReading | backend/src/rpc/rpcPool.ts:188-229 | in every interleaving the failure count is the number of failed sends since the last success or recovery, and an endpoint is healthy exactly while that is below the threshold |
| RpcPool.RecoveryReading | backend/src/rpc/rpcPool.ts:189-202 | a step recovers an endpoint exactly when it finds it unhealthy with its last failed send at least the timeout ago |
| RpcPool.TurnHealth | backend/src/rpc/rpcPool.ts:106-113 | a turn sends exactly when its endpoint is healthy after recoveries |
| RpcPool.RequestOutcome | backend/src/rpc/rpcPool.ts:98-136 | a request contacts an endpoint at most once, exactly those healthy at their turn, returns exactly with the first answer, and throws only if each was unhealthy at its turn or failed |
| RpcPool.NotTried | backend/src/rpc/rpcPool.ts:108-113 | the tried set never excludes an endpoint |
| RpcPool.RpcConnectionPool.MaybeRecoverEndpoints | backend/src/rpc/rpcPool.ts:189-202 | recovers in place exactly the endpoints whose timeout has passed |
| RpcPool.RpcConnectionPool.RecordSuccess | backend/src/rpc/rpcPool.ts:204-212 | updates one record and no other |
| RpcPool.RpcConnectionPool.RecordFailure | backend/src/rpc/rpcPool.ts:214-229 | updates one record and no other |
| RpcPool.RpcConnectionPool.PickEndpoint | backend/src/rpc/rpcPool.ts:168-181 | picks a healthy endpoint from the pointer on, or finds none healthy |
| RpcPool.RpcConnectionPool.BeginTurn | backend/src/rpc/rpcPool.ts:106-112 | recovers, then skips exactly a tried or unhealthy endpoint; is the TakeTurn step |
| RpcPool.RpcConnectionPool.FinishTurn | backend/src/rpc/rpcPool.ts:116-130 | records the answer or failure and moves the pointer after a first-turn answer; is the Complete step |
| RpcPool.RpcConnectionPool.SendRequest | backend/src/rpc/rpcPool.ts:98-136 | the request loop is a run of the protocol and returns none exactly when it threw |
| Lifecycle.SomeSinceSubscribe | backend/src/lib/subscriptionStateMachine.ts:45-100 | every event list has a point since its last subscribe |
| Lifecycle.StateIsWhatEventsTell | backend/src/lib/subscriptionStateMachine.ts:45-100 | the state is the first terminal event since the last subscribe, else the last payment outcome |
| Lifecycle.TellsDecides | backend/src/lib/subscriptionStateMachine.ts:22-26 | that reading determines the state |
| Lifecycle.CancelledIffReplayNull | backend/reconciler.ts:83-116 | on one subscription's trace the lifecycle is CANCELLED exactly when the replay is null |
| Lifecycle.RowHoldsState | backend/src/services/subscriptionStateService.ts:23-68 | the stored row exists from the first event and always holds the lifecycle state |
| Lifecycle.RowHoldsLastFields | backend/src/services/subscriptionStateService.ts:23-68 | the row's amount and token are those of the last update that changed the row and carried one, else "0" and none |
| Lifecycle.SubscriptionStateService.ApplyEvent | backend/src/services/subscriptionStateService.ts:23-68 | changes one row, leaves it on an invalid transition, returns the resulting state |
| Csv.SplitCsvLine | backend/src/services/dataImportService.ts:88-111 | the scanning loop computes the cells of the line |
| Csv.SplitInvertsJoin | backend/src/routes/payments.ts:57-67 | splitting a row of escaped cells gives back any non-empty list of strings |
| Csv.SplitReading | backend/src/services/dataImportService.ts:88-111 | any line is cut at exactly the commas with an even number of quotes before them and, quotes aside, keeps its text |
| Csv.QuotedIffNeeded | backend/src/routes/payments.ts:57-62 | a cell is quoted exactly when it holds a quote, comma or line break |
| Csv.RowOfHolds | backend/src/services/dataImportService.ts:77-82 | under distinct headers each header maps to its cell, or to null on a short line, and nothing else is in the row |
| Csv.ProtoReading | backend/src/services/dataImportService.ts:78-81 | an entry for `__proto__` appears exactly when a short line gives that header null twice |
| Csv.ParseCsv | backend/src/services/dataImportService.ts:66-86 | the file loop computes the rows, a `__proto__` header setting the prototype instead of an entry |
| Csv.FileRoundTrip | backend/src/services/dataImportService.ts:66-111 | a file of cells without line feeds or outer space and with distinct headers comes back cell by cell exactly when it has no rows, or no `__proto__` header and two columns or no empty cell |
| Csv.RowsOfContent | backend/src/services/dataImportService.ts:66-86 | import yields one row per non-blank line of any text but the first |
| Csv.EmptyLineLosesRow | backend/src/services/dataImportService.ts:74-75 | a file with an empty line comes back at least one row short |
| HumanAmount.HumanAmountIsExact | backend/src/routes/payments.ts:73-85 | the text denotes exactly amount / 10^7, with no leading or trailing zero beyond a lone 0 and a minus sign exactly for negative amounts |
| HumanAmount.HumanAmountInjective | backend/src/routes/payments.ts:73-85 | different amounts print differently |
| ReplayCache.PruningIsInvisible | backend/src/routes/webhooks.ts:61-111 | for every size bound markSeen answers as an unbounded log does |
| ReplayCache.BackwardClockShowsPruning | backend/src/routes/webhooks.ts:87-89 | for every size bound, a clock stepping back one millisecond lets a replay through |
| ReplayCache.InvisibleIffClockForward | backend/src/routes/webhooks.ts:61-111 | for every size bound, pruning changes no answer in any history exactly when the clock never steps back |
| ReplayCache.Cache.Prune | backend/src/routes/webhooks.ts:105-111 | deletes exactly the entries that left the window |
| ReplayCache.Cache.MarkSeen | backend/src/routes/webhooks.ts:74-93 | true exactly when the id was not accepted in the last 600 s |
| ReplayCache.Cache.HasSeen | backend/src/routes/webhooks.ts:98-103 | answers as the unbounded log |
| RateLimiter.AtMostFivePerHour | backend/src/services/smsService.ts:94-116 | with a clock that never steps back, no half-open hour holds more than five allowed messages of a user |
| RateLimiter.RefusedIffFiveInLastHour | backend/src/services/smsService.ts:103-116 | with a clock that never steps back, refused exactly when the full record shows five in the preceding hour |
| RateLimiter.BackwardClockLetsSixThrough | backend/src/services/smsService.ts:106-113 | with a clock stepping back one millisecond, a sixth message of an hour is allowed |
| RateLimiter.LimitedIffClockForward | backend/src/services/smsService.ts:94-116 | the limit, and agreement with the full record, hold in every run exactly when the clock never steps back |
| RateLimiter.Limiter.CheckRateLimit | backend/src/services/smsService.ts:103-116 | the map update and its answer in terms of the full record |
| Idempotency.ConfirmedOnce | backend/src/services/executePaymentHelper.ts:76-105 | after a confirmed payment every later well-formed call with the key sends nothing and gets the hash, or a conflict for other parties |
| Idempotency.SentIff | backend/src/services/executePaymentHelper.ts:76-105 | for every call of every run: sent exactly when well formed, taken by the node, and without a key or with one under which no earlier call was confirmed with a hash and whose first record has its parties; a conflict exactly when the parties differ |
| Idempotency.SettledIffConfirmed | backend/src/services/idempotencyService.ts:363-369 | the check returns a stored hash exactly when an earlier call under the key saw its payment confirmed with a hash |
| Idempotency.RecordOfFirst | backend/src/services/idempotencyService.ts:143-173 | a key has a record exactly when some call left one, and it names the parties of the first such call |
| Idempotency.RecordKeepsParties | backend/src/services/idempotencyService.ts:228-245 | a record never disappears and keeps its parties |
| Idempotency.PollIsFirstDecisive | backend/src/services/executePaymentHelper.ts:208-263 | polling stops at the first decisive status or after 20; success returns the hash that was sent, chain failure and RPC error their own error |
| Idempotency.ResultReading | backend/src/services/executePaymentHelper.ts:57-264 | what each call of a run returns: refused input, the hash of the earlier confirmation, or what the node made of it, with the node's own hash when sent and paid |
| Idempotency.RowReading | backend/src/services/idempotencyService.ts:228-305 | what a call that gets through leaves in its row, and that it leaves the others alone |
| Idempotency.PaymentService.PollTransaction | backend/src/services/executePaymentHelper.ts:210-248 | the polling loop computes the first decisive status |
| Idempotency.PaymentService.SubmitExecutePayment | backend/src/services/executePaymentHelper.ts:57-264 | check, submission and record as one sequential step |

## Left out

- The Soroban contract, frontend, GraphQL, KYC, push, e-mail, SMS providers, metrics and configuration: no protocol of their own or source not in the repository.
- HMAC, JWT and XDR decoding and signature checks: their results are inputs of the model.
- Malformed JSON in Redis: the service reads only values it wrote, so those branches of rotateRefreshToken are unreachable in the model.
- Dry-run limits that are not integers: NaN gives an empty page without a cursor.
- Forged dry-run cursors beyond ASCII or 2^53: a multi-byte UTF-8 character reads as a non-digit, and a number too large for a double keeps its value.
- Timestamps that are only reported (updated_at, createdAt, resolvedAt, lastReplayedAt, lastAttemptAt, lastCheckedAt) and log lines.
- Indexer events without ledgerClosedAt: decodeEvent then takes the current time, which the model takes as part of the event.
- PrismaSubscriptionDB.load with an amount BigInt rejects: it throws before there is a database; events here carry integers.
- Reconciliation audit entries and flushing to Postgres: bookkeeping around reconcile.
- A `delete` repair names no token, so nothing is claimed about rebuilding a database from the repair list alone.
- toHumanAmount on text BigInt rejects: it returns the text unchanged.
- The circuit breaker under concurrent calls: half-open admits every call, so failing probes can be arbitrarily close together.
- The webhook worker, the second event indexer with its outbox, the two-layer cache, cache clearing and the yield engine: they keep no property of this kind.
- Idempotency under concurrent calls or failing storage: two calls can then both pass the check.
- Idempotency.SentIff: speaks of confirmations the caller saw; whether the first transaction lands on chain later is outside the model.
