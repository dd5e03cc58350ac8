# TSAuth: verified models of the authorization core

TSAuth decides, transaction by transaction, who may reach a protected resource: an approval
request is put to a device, a signed response settles it, one grant is minted, delivered to a
daemon and used once, and a revocation ends whatever is still open. These Dafny modules model
the code that has to get this right under concurrency, retries, crashes and races, and prove
what every run of it keeps. Check everything with `dafny verify dfyconfig.toml`.

| module | models |
|---|---|
| `Base` | options, ids, time, `MAX`, `ORDER BY ... LIMIT` |
| `Messaging`, `OutboxOrder`, `OutboxWrites`, `Delivery` | outbox, inbox, cursors: interleaved writers, what becomes of a write, fenced leases, in-order delivery |
| `SignedResponse` | the bytes an approval response signs, and the ways to cut them into fields |
| `GrantTtl` | the two lifetime caps, in Go and in the SQL trigger |
| `Service`, `Lifecycle`, `ApprovalStore` | requests, devices, grants, sessions, revocations: the tables as one state machine, what its runs keep, and the transactions statement by statement |
| `Decisions` | exactly when decisions, consumptions and revocations succeed, and what the tables hold afterwards |
| `Incidents` | runs of the service, from empty tables, in which a promise fails |
| `GrantCache` | one daemon's cache with its files, restarts and failing writes |
| `GlobalUse` | the service and any number of daemons together, with calls lost, late or answered to nobody |
| `PolicyEval`, `PolicyChain` | the evaluator and its order-free meaning; publishing a hash-linked chain under races |
| `RateLimit` | token buckets, six charged per request |
| `SessionRegistry` | live sessions with an index by grant |
| `RoleCache` | the role cache against its table |

Where the source changes state step by step there is a class whose methods are proved equal to
the step functions of a state machine; the theorems are about every sequence of those steps.
A database transaction is one all-or-nothing step, except where the source itself acts without
one (publishing) or where several open transactions matter (the outbox writers). Signatures,
digests and AEAD are ideal, UUIDs are fresh, and clocks, file results and lost messages are
parameters, so a theorem covers all of their values.

## What the proofs found

Each of these is a promise that fails, with an input on which it does and the exact condition under
which it holds.

- `IssueRevocation` deletes unconsumed grants, but `active_sessions` references `grants` with no
  `ON DELETE` action. A revocation aborts whole exactly when some session row, open or closed,
  refers to a grant it would delete; the sessions it was meant to end are closed afterwards exactly
  when it was not blocked or they were closed already (`Lifecycle.RevocationCommitsIff`,
  `Lifecycle.RevocationEndsAllIff`). In the run of `Incidents.RevocationLeavesSessionOpen` the
  session row is the environment's: the schema allows it, and no code of the repository inserts one.
- `RevokeDevice` is documented to terminate the device's sessions; the code only marks the device
  and records the event. The device has no open session afterwards exactly when it had none before
  (`Lifecycle.DeviceRevocationEndsIff`, `Incidents.DeviceRevocationLeavesSessionOpen`).
- An approval response signs its fields joined without delimiters, and the fields are taken as they
  are presented. A signature can therefore be presented with every counter whose eight bytes occur in
  what it covers, sixteen bytes or more from the start, and a device can use it again exactly when
  one of those counters is above the stored one (`SignedResponse.PresentableIff`,
  `Lifecycle.ReusableIff`). In `Incidents.RecutHappens` an ordinary response is accepted twice on
  the device that signed it, and two grants are minted. Cut at the same place, a signature is
  accepted at most once per device (`Lifecycle.ResponseAcceptedOnce`).
- The unique constraints on device keys are per column, so one device's approval key may be another's
  authentication key, and a response of the one is then accepted for the other (`Lifecycle.ReplayIff`,
  `Incidents.ReplayHappens`).
- A daemon's consumed log seals each record by itself and is opened as one ciphertext. A restart
  succeeds exactly when the log was never opened, or one append left a whole record and none left
  part of one; so two uses without any failure, or one failed write, are enough to keep the daemon
  down (`GrantCache.RestartSucceedsIff`, `GrantCache.TwoUsesBlockRestart`,
  `GrantCache.CreatedOnlyBlocksRestart`).
- An acknowledgement keeps delivery free of loss and duplication exactly when it carries the number
  and the id of the lowest pending row. Out of order it moves the cursor past rows that are then
  never fetched; under another row's id it makes that row impossible to acknowledge
  (`Delivery.AckDeliversIff`, `Delivery.OutOfOrderLoses`, `Delivery.WrongIdLoses`).
- A publisher that loses the race is told it published. The stored row is the reported one exactly
  when the slot was free or the winner wrote the same document with the same issuer, signature, key
  and validity times (`PolicyChain.ReportIsTrueIff`, `PolicyChain.LoserReportsSuccess`).
- The evaluator's tie check skips rules that share the matched rule's id, so with repeated ids the
  unstable sort can decide between ALLOW and DENY (`PolicyEval.MeaningHoldsIff`,
  `PolicyEval.SharedIdIsAmbiguous`).
- Cache keys join names by slashes, so a slash in a node name can make two grants share one
  (`GrantCache.SameKeyIff`, `GrantCache.SlashesCollide`).
- A connection id used again under another grant dies with the first grant. Terminating by grant
  closes what a scan would, at every moment of a run, exactly when no registration uses an id the
  index lists under another grant (`SessionRegistry.AgreesThroughoutIff`,
  `SessionRegistry.ReusedIdDiesWithFirstGrant`).
- A role cache entry lives for 30 seconds from the moment it is stored, not from the moment its query
  read the table. With other writers an answer is less than 30 seconds old exactly when fetching
  takes no time, and otherwise by at most the fetch older (`RoleCache.ThirtySecondsIff`,
  `RoleCache.AnswerIsRecent`, `RoleCache.SlowFetchIsOlder`).

## Model

| member | source | states |
|---|---|---|
| `OutboxOrder.StepKeeps` | service/internal/messaging/outbox.go:41-53 | every read, insert, commit, abort or acknowledgement keeps: streams numbered without gaps, unique message ids, open transactions on different streams |
| `OutboxOrder.InsertIsNext` | service/internal/messaging/outbox.go:45-51 | an insert that the primary key lets through carries exactly the next number, however stale its snapshot |
| `OutboxOrder.OtherWriterHoldsIt` | service/migrations/001_initial_schema.up.sql:241-251 | if another open transaction wrote the stream, it already holds the key being inserted, so the insert must wait |
| `OutboxOrder.CommittedAreNumbered` | service/internal/messaging/outbox.go:41-53 | after any run the committed rows of each stream are exactly 1..n and no message id occurs twice in a tenant |
| `OutboxOrder.RunExtends` | service/internal/messaging/outbox.go:41-53 | a committed row keeps its id and payload for good, and an acknowledgement is never undone |
| `OutboxOrder.NoLateArrival` | service/internal/messaging/outbox.go:41-53 | a row that becomes visible later has a higher number than every row already visible |
| `OutboxWrites.WriteOutcome` | service/internal/messaging/outbox.go:41-53 | what an uninterrupted write does, exactly: ignored if its transaction sees the message, waiting while another open transaction has written the stream or the message, else appended as the next number; it never aborts |
| `OutboxWrites.LateInsertAborts` | service/migrations/001_initial_schema.up.sql:241-251 | a write that finds its number committed meanwhile loses its whole transaction |
| `OutboxWrites.CommittedWritesAreThere` | service/internal/messaging/outbox.go:41-53 | over every run the outbox holds exactly the messages written by transactions that committed: none lost, nothing of an aborted one |
| `Delivery.MessageStore.constructor` | service/migrations/001_initial_schema.up.sql:241-273 | the store starts with empty tables |
| `Delivery.MessageStore.WriteTx` | service/internal/messaging/outbox.go:41-53 | is the snapshot read followed by the insert: ignored on a known message id, aborted on a taken key, else appended to the transaction |
| `Delivery.MessageStore.AcquireLease` | service/internal/messaging/outbox.go:84-119 | takes the lease with a strictly larger fence and leaves the cursor position |
| `Delivery.MessageStore.RenewLease` | service/internal/messaging/outbox.go:122-140 | extends the lease exactly when the fence is current and the lease has not expired |
| `Delivery.MessageStore.FetchPending` | service/internal/messaging/outbox.go:143-169 | returns the unacknowledged rows above a number in ascending order up to the limit |
| `Delivery.MessageStore.AckMessage` | service/internal/messaging/outbox.go:173-238 | rejects a stale fence, answers "new" exactly for a message not in the inbox, and then marks, records and advances together |
| `Delivery.MessageStore.ReleaseLease` | service/internal/messaging/outbox.go:241-250 | clears owner and expiry exactly under the current fence |
| `Delivery.RunKeepsDelivery` | service/internal/messaging/outbox.go:173-238 | in-order runs keep: acknowledged rows are exactly those up to the cursor, the inbox exactly their messages |
| `Delivery.CursorCountsAcked` | service/internal/messaging/outbox.go:143-238 | over every in-order run, with takeovers and retries, the cursor equals the number of acknowledged rows |
| `Delivery.FetchIsNext` | service/internal/messaging/outbox.go:143-169 | fetching from the cursor returns exactly the next unacknowledged messages, none skipped or repeated |
| `Delivery.FetchIsLowest` | service/internal/messaging/outbox.go:143-169 | from any number a fetch is the lowest unacknowledged rows above it in rising order, and leaves out only higher ones, none if the limit is not reached |
| `Delivery.AckProgresses` | service/internal/messaging/outbox.go:173-238 | an in-order acknowledgement under the current fence always counts: new, its row marked, the cursor one further, nothing else touched |
| `Delivery.DrainDelivers` | service/internal/messaging/outbox.go:143-238 | from every state in-order runs reach, the lease holder can acknowledge exactly the waiting rows one by one, each answered new, and is then at the end |
| `Delivery.NewExactlyOnce` | service/internal/messaging/outbox.go:194-237 | "new" is answered at most once per message and for exactly the acknowledged rows |
| `Delivery.AckDeliversIff` | service/internal/messaging/outbox.go:173-238 | an acknowledgement that takes effect keeps delivery exact (numbering, cursor and inbox of every stream) if and only if it carries the number and id of the lowest pending row |
| `Delivery.DeliversIffInOrder` | service/internal/messaging/outbox.go:173-238 | for whole runs: delivery is exact at every moment if and only if every acknowledgement that takes effect is in order |
| `Delivery.AckSkipsNothingIff` | service/internal/messaging/outbox.go:227-231 | in particular, an acknowledgement moves the cursor past no waiting row if and only if its number is at most one past the cursor and names a row |
| `Delivery.OutOfOrderLoses` | service/internal/messaging/outbox.go:227-231 | a run from empty tables in which acknowledging the second row first leaves the first out of every later fetch from the cursor |
| `Delivery.WrongIdLoses` | service/internal/messaging/outbox.go:194-231 | a run in which the first row's number is acknowledged under the second one's id: no row is skipped, and the second can never be acknowledged under its own id |
| `Delivery.LeaseIsHeld` | service/internal/messaging/outbox.go:84-119 | a lease taken is its owner's, renewable by its own fence and no other for exactly 15 seconds; other streams are left alone |
| `Delivery.RenewalExtends` | service/internal/messaging/outbox.go:122-140 | a renewal in time starts the 15 seconds again and keeps owner, fence and cursor; a late one changes nothing |
| `Delivery.ReleaseEnds` | service/internal/messaging/outbox.go:241-250 | a released lease has no owner and cannot be renewed; fence and cursor stay |
| `Delivery.FencesIncrease` | service/internal/messaging/outbox.go:84-119 | over every run the fences handed out for a stream strictly increase |
| `Delivery.StaleFenceIsInert` | service/internal/messaging/outbox.go:122-140 | after a fence is issued, an ack, renewal or release with a smaller one changes nothing, in any continuation |
| `GrantTtl.CapsAgree` | service/migrations/001_initial_schema.up.sql:636-680 | Go cap and trigger cap agree on every scope and sensitivity, and the trigger accepts exactly the lifetimes the Go cap allows |
| `Lifecycle.StepKeeps` | service/internal/enforcement/engine.go:228-587 | every transaction keeps the invariant that spans requests, devices, grants, sessions, minted ids and accepted decisions |
| `Lifecycle.RunKeeps` | service/internal/enforcement/engine.go:228-587 | so does every run |
| `Lifecycle.RunEvolves` | service/migrations/001_initial_schema.up.sql:469-518 | in no run does a settled request change, a consumed grant come back, a minted id get lost or a logged decision disappear |
| `Lifecycle.LifecycleHolds` | service/internal/enforcement/engine.go:328-363 | reachable states: APPROVED never committed, version 0/1/2 for PENDING/terminal/GRANTED, grants only for GRANTED requests, at most one ever minted per request |
| `Lifecycle.UngrantedHasNoGrant` | service/internal/enforcement/engine.go:443-462 | the ON CONFLICT clause of mintGrant never fires |
| `Lifecycle.IssuedIsStored` | service/internal/enforcement/engine.go:443-471 | the id an approval returns names the request's only grant row, unconsumed, with the request GRANTED at version 2 |
| `Decisions.DecisionTakesEffectIff` | service/internal/enforcement/engine.go:228-471 | a pending request is granted, or denied, if and only if device, signed bytes, key, counter, key id, signer, cap and id allow; otherwise nothing changes |
| `Decisions.ReplyTellsState` | service/internal/enforcement/engine.go:271-274 | the reply is the request's state afterwards; a failure leaves every table as it was |
| `Decisions.DecisionShape` | service/internal/enforcement/engine.go:322-350 | the request row, the log and the tables a committed decision leaves |
| `Decisions.DecisionsAreRecorded` | service/internal/enforcement/engine.go:333-347 | in every reachable state a request is GRANTED or DENIED exactly when one decision on it was accepted, its row records that decision and counter, no request is decided twice, and a grant names the device that approved |
| `Decisions.RunResolves` | service/migrations/001_initial_schema.up.sql:132-171 | the foreign keys of every request resolve in every run |
| `Decisions.CreatedIff` | service/migrations/001_initial_schema.up.sql:132-171 | exactly when a request is created; otherwise nothing changes |
| `Decisions.AskedIsGranted` | service/internal/enforcement/engine.go:389-471 | in every continuation a grant is for the user, source node, resource and scope that were asked for, at the resource's own node |
| `Decisions.CancelOutcome` | service/internal/enforcement/engine.go:505-558 | cancelling closes a pending request, leaves a settled one and every other |
| `Decisions.ExpireOutcome` | service/migrations/001_initial_schema.up.sql:469-518 | expiring does the same under the expected version only |
| `Decisions.SessionOpensIff` | service/migrations/001_initial_schema.up.sql:208-223 | exactly when a session row can be added; closing one closes that one |
| `Decisions.ProvisionedIff` | service/migrations/001_initial_schema.up.sql:55-111 | exactly when new users, resources and devices are added |
| `Decisions.UniqueKeysIff` | service/migrations/001_initial_schema.up.sql:55-74 | no two devices of a tenant share an approval key or an authentication key |
| `Lifecycle.LateApprovalMintsNothing` | service/internal/enforcement/engine.go:271-274 | after DENIED, EXPIRED or CANCELLED, in any continuation, an approval changes nothing, reports that state and mints nothing |
| `Lifecycle.GrantsRespectCap` | service/internal/enforcement/engine.go:404-462 | every grant in every reachable state lives at most its cap |
| `Lifecycle.ProhibitedScopeAborts` | service/migrations/001_initial_schema.up.sql:665-671 | approving at a zero cap aborts whole: request, counter and tables untouched |
| `Lifecycle.ProhibitedNeverGranted` | service/migrations/001_initial_schema.up.sql:636-680 | in no run is a request ever granted whose scope its resource prohibits |
| `Lifecycle.AcceptedCountersIncrease` | service/internal/enforcement/engine.go:294-320 | over every run the accepted decisions of one device carry strictly increasing counters |
| `Lifecycle.CounterFollowsDecision` | service/migrations/001_initial_schema.up.sql:559-573 | in every reachable state a device's stored counter is that of its last accepted decision, 0 if it has none |
| `SignedResponse.SameCutSameCounter` | contracts/envelope.go:211-228 | the same signed bytes cut at the same place carry the same counter |
| `SignedResponse.PresentableIff` | contracts/envelope.go:211-228 | a signature can be presented with a counter, under a key id that can be stored, if and only if the counter's bytes occur in what it covers, sixteen or more bytes from the start |
| `SignedResponse.SameLengthsSameFields` | contracts/envelope.go:211-228 | the signature covers every field: between responses of the same field lengths the same bytes mean the same fields |
| `SignedResponse.MarshalLengths` | contracts/envelope.go:218-219 | a time signs 15 or 16 bytes, and none exactly when its zone does not marshal |
| `SignedResponse.MarshalTells` | contracts/envelope.go:218-219 | times that marshal alike are the same second, nanosecond and offset in minutes |
| `SignedResponse.ZeroIsNotStorable` | service/migrations/001_initial_schema.up.sql:156-156 | a key id with a zero byte cannot be stored |
| `SignedResponse.AsciiIsStorable` | service/migrations/001_initial_schema.up.sql:156-156 | ASCII text without one can |
| `Lifecycle.ResponseAcceptedOnce` | service/internal/enforcement/engine.go:294-320 | over every run, one signature accepted twice means one key and the same bytes; on one device a larger counter and another cut, on two devices of a tenant opposite decisions; whatever the unsigned request ids say |
| `Lifecycle.ReplayIff` | service/internal/enforcement/engine.go:228-350 | after an accepted decision another is accepted if and only if it was acceptable before, is about another request, and is another device's or carries a larger counter |
| `Lifecycle.ReusableIff` | service/internal/enforcement/engine.go:304-320 | a device can use a signature for a decision if and only if the request is pending and can be granted, the key fits, and the signed bytes hold a counter above the stored one |
| `Incidents.ReplayHappens` | service/internal/enforcement/engine.go:304-320 | a run from empty tables that accepts one signature twice, for two requests on two devices that share a key |
| `Incidents.RecutHappens` | service/internal/enforcement/engine.go:304-320 | a run from empty tables in which one device's ordinary response is accepted twice, the second time with a counter read out of its hash, and two grants are minted |
| `Lifecycle.ConsumedAtMostOnce` | service/migrations/001_initial_schema.up.sql:521-556 | over every run a grant is consumed at the service at most once |
| `Decisions.ConsumeAnswersTruly` | service/migrations/001_initial_schema.up.sql:521-556 | consume_grant answers true if and only if it marks a grant that was not marked |
| `Decisions.FreshGrantUsableIff` | service/internal/enforcement/engine.go:404-462 | a grant just issued can be used if and only if its cap has not passed |
| `Decisions.IssuedGrantUsableUntil` | service/migrations/001_initial_schema.up.sql:521-556 | whatever else happens, a grant neither consumed nor revoked stays usable exactly until its cap has passed |
| `Lifecycle.RevocationCommitsIff` | service/migrations/001_initial_schema.up.sql:208-223 | a revocation takes effect if and only if no session row refers to an unconsumed grant it names |
| `Lifecycle.RevocationEndsAllIff` | service/internal/revocation/manager.go:107-115 | the sessions a revocation is about are all closed afterwards if and only if it was not blocked or they were closed already |
| `Incidents.RevocationLeavesSessionOpen` | service/internal/revocation/manager.go:107-115 | a run from empty tables after which revoking a user changes nothing: the session stays open, the grant consumable, the event unrecorded |
| `Lifecycle.DeviceRevocationEndsIff` | service/internal/revocation/manager.go:312-337 | after RevokeDevice the device has no open session if and only if it had none before |
| `Incidents.DeviceRevocationLeavesSessionOpen` | service/internal/revocation/manager.go:312-337 | a run after which RevokeDevice records the event and marks the device, and its session stays open |
| `Lifecycle.TerminatesMatching` | service/internal/revocation/manager.go:146-221 | the UPDATEs select exactly the sessions of the device, grant or node, or of a request of the user or source node |
| `Lifecycle.RevocationClosesAll` | service/internal/revocation/manager.go:107-115 | a committed revocation closes every matching session and leaves every other as it was |
| `Lifecycle.RevocationDropsAll` | service/internal/revocation/manager.go:225-256 | a committed revocation removes a grant if and only if it is unconsumed and was minted for a request of the user or source node, approved on the device, or named; all other rows are kept |
| `Lifecycle.RevokedNeverReturns` | service/internal/revocation/manager.go:225-256 | a revoked grant is never consumed, its row never returns, and its request never gets another grant, in any continuation |
| `Lifecycle.StreamIsNumbered` | service/internal/revocation/manager.go:79-88 | a tenant's revocations stay numbered 1..n and n never falls |
| `Decisions.RevocationIsAnnounced` | service/internal/revocation/manager.go:90-101 | a daemon that was current learns exactly what a committed revocation revoked, under the next number |
| `Decisions.DeviceRevocationIsAnnounced` | service/internal/revocation/manager.go:312-366 | so it does of RevokeDevice, which marks that device and no other |
| `Decisions.AnnouncedForGood` | service/internal/revocation/manager.go:284-305 | in every continuation a daemon that was current before gets that event first |
| `ApprovalStore.CatchUpIsExact` | service/internal/revocation/manager.go:265-305 | a daemon gets exactly the events after the one it acknowledged, in order, and is current exactly when there are none |
| `ApprovalStore.Database.constructor` | service/migrations/001_initial_schema.up.sql:132-237 | the database starts empty |
| `ApprovalStore.Database.Transition` | service/migrations/001_initial_schema.up.sql:469-518 | succeeds exactly on the expected version and a legal move, and bumps the version |
| `ApprovalStore.MovesAre` | service/migrations/001_initial_schema.up.sql:493-503 | the five legal moves and no other |
| `ApprovalStore.Database.AdvanceDeviceCounter` | service/migrations/001_initial_schema.up.sql:559-573 | raises a counter and never lowers one |
| `ApprovalStore.Database.MintGrant` | service/internal/enforcement/engine.go:389-499 | succeeds exactly when user, resource, signature, trigger and key allow, and adds one row and marks the request |
| `ApprovalStore.Database.CheckResponse` | service/internal/enforcement/engine.go:292-320 | accepts exactly a response whose joined bytes verify under the key the decision calls for, with a new counter |
| `ApprovalStore.Database.RecordDecision` | service/internal/enforcement/engine.go:322-350 | moves the request, records the response and stores the counter, or fails on a key id that is not text |
| `ApprovalStore.RecordThenMint` | service/internal/enforcement/engine.go:322-363 | recording, minting and logging in sequence is the one committed step |
| `ApprovalStore.Database.RecordAndMint` | service/internal/enforcement/engine.go:322-363 | the statements of an approval succeed exactly when the step commits, and leave its tables |
| `ApprovalStore.Database.CommitApproval` | service/internal/enforcement/engine.go:322-384 | an approval is all of decision, counter and grant, or nothing |
| `ApprovalStore.Database.CommitDenial` | service/internal/enforcement/engine.go:322-350 | a denial is the whole step, or nothing |
| `ApprovalStore.Database.ProcessApproval` | service/internal/enforcement/engine.go:228-384 | the statements of the transaction amount to the one step of the state machine, with its reply |
| `ApprovalStore.Database.CancelApprovalRequest` | service/internal/enforcement/engine.go:505-558 | cancels exactly a pending request and is a no-op on a settled one |
| `ApprovalStore.Database.ConsumeGrant` | service/migrations/001_initial_schema.up.sql:521-556 | true exactly for a present, unconsumed, unexpired grant, which it marks |
| `ApprovalStore.Database.SessionsOf` | service/internal/revocation/manager.go:146-221 | the sessions a revocation's UPDATE selects |
| `ApprovalStore.Database.TerminateActiveSessions` | service/internal/revocation/manager.go:146-221 | closes exactly those and keeps the rest |
| `ApprovalStore.Database.InvalidateGrants` | service/internal/revocation/manager.go:225-256 | deletes the matching unconsumed grants, or fails on the foreign key and deletes none |
| `ApprovalStore.Database.IssueRevocation` | service/internal/revocation/manager.go:67-142 | number, sessions and grants change together or not at all |
| `ApprovalStore.Database.RevokeDevice` | service/internal/revocation/manager.go:312-366 | marks the device and appends the event; sessions and grants stay |
| `ApprovalStore.Database.CheckFreshness` | service/internal/revocation/manager.go:265-281 | current exactly when no later event exists |
| `ApprovalStore.Database.GetRevocationsSince` | service/internal/revocation/manager.go:284-305 | the later events in ascending order |
| `GrantCache.SingleUse` | daemon/internal/grants/cache.go:221-275 | over any run, with restarts and failing writes anywhere, no non-SESSION grant id is consumed twice, a SESSION one only after a restart |
| `GrantCache.CheckOffersUnused` | daemon/internal/grants/cache.go:189-214 | Check never offers a grant already consumed, save a SESSION grant of an earlier life |
| `GrantCache.RestartForgetsNothing` | daemon/internal/grants/cache.go:101-125 | whenever NewCache succeeds, every successful non-SESSION consumption is remembered |
| `GrantCache.ConsumeSucceedsIff` | daemon/internal/grants/cache.go:189-275 | consuming succeeds if and only if Check would offer this very grant, the service did not refuse, and a record that is due was written |
| `GrantCache.StoredIsOffered` | daemon/internal/grants/cache.go:130-145 | a stored grant is offered under its key exactly while unexpired and unused; other keys are left alone |
| `GrantCache.OfferedThroughout` | daemon/internal/grants/cache.go:189-214 | it stays on offer over every run that does not replace, purge, consume or restart |
| `GrantCache.UseEndsOffer` | daemon/internal/grants/cache.go:257-272 | a use, even one whose record failed, ends the offer under every key; a refused attempt changes nothing |
| `GrantCache.PurgeLeavesIff` | daemon/internal/grants/cache.go:281-329 | a purge leaves a grant if and only if some criterion it names is not met |
| `GrantCache.StoredSurvivesRestart` | daemon/internal/grants/cache.go:445-476 | a persisted, unused, unexpired grant is offered again after a restart that succeeds |
| `GrantCache.SessionNeverOnDisk` | daemon/internal/grants/cache.go:133-145 | no SESSION grant is ever on disk or comes back |
| `GrantCache.SameKeyIff` | daemon/internal/grants/cache.go:53-68 | without slashes in names two grants share a key if and only if they agree on all nine parts |
| `GrantCache.BindingsTellApart` | daemon/internal/grants/cache.go:70-86 | the binding is the request nonce, connection or session id of the scope, else the same for all |
| `GrantCache.SlashesCollide` | daemon/internal/grants/cache.go:53-68 | with a slash in a node name two different grants share a key |
| `GrantCache.RestartSucceedsIff` | daemon/internal/grants/cache.go:399-442 | over any run, with writes failing anywhere, NewCache succeeds if and only if the log was never opened, or exactly one append left a whole record and none left part of one |
| `GrantCache.RestartAfterGoodWrites` | daemon/internal/grants/cache.go:399-442 | while writes succeed, that is: at most one consumption was persisted |
| `GrantCache.SecondUseBlocksRestart` | daemon/internal/grants/cache.go:410-430 | after two persisted consumptions no restart succeeds, whatever the writes did |
| `GrantCache.TwoUsesBlockRestart` | daemon/internal/grants/cache.go:410-430 | for any two ordinary grants, the run without any failure that consumes both cannot restart |
| `GrantCache.CreatedOnlyBlocksRestart` | daemon/internal/grants/cache.go:399-430 | for any ordinary grant, a run with one write that stopped after creating the file: nothing was consumed, and the daemon cannot restart |
| `GrantCache.Cache.constructor` | daemon/internal/grants/cache.go:339-352 | a machine on which the daemon never ran |
| `GrantCache.Cache.Open` | daemon/internal/grants/cache.go:101-125 | memory becomes what the two files give back, or start-up fails |
| `GrantCache.Cache.Store` | daemon/internal/grants/cache.go:130-145 | the entry is cached under its key, and persisted unless it is a SESSION grant |
| `GrantCache.Cache.Check` | daemon/internal/grants/cache.go:189-214 | the entry exactly when unexpired, unconsumed and not in the consumed set |
| `GrantCache.Cache.Consume` | daemon/internal/grants/cache.go:221-275 | marks before it persists and succeeds only when both did |
| `GrantCache.Cache.Purge` | daemon/internal/grants/cache.go:281-329 | removes exactly the matching entries and counts them |
| `GlobalUse.StepKeeps` | daemon/internal/grants/cache.go:221-275 | every step of service or daemon, a call asked, served or finished included, keeps: each grant given to a call is spent and given to no other, each use rests on its own call |
| `GlobalUse.EachGrantUsedOnce` | service/internal/enforcement/engine.go:566-587 | with any number of daemons asking the service, in every interleaving, calls lost or late included, each grant id has at most one successful consumption overall |
| `GlobalUse.UseOutcome` | daemon/internal/grants/cache.go:221-275 | a consumption asked for, served and finished succeeds if and only if the answer is heard, the service held the grant as consumable and the daemon's Check would offer it |
| `GlobalUse.DeliveredIsUsed` | daemon/internal/grants/cache.go:130-145 | a grant delivered to a daemon and consumable at the service is used |
| `GlobalUse.LocalSteps` | daemon/internal/grants/cache.go:88-98 | a daemon steps as its cache says unless it waits for a call; a restart forgets the call |
| `GlobalUse.RevokedNeverUsed` | service/internal/revocation/manager.go:225-256 | once a revocation dropped a grant, no daemon has consumed it or ever will, whatever it has cached and whatever call is on its way |
| `PolicyEval.DecisionIsMeaning` | service/internal/policy/engine.go:138-172 | for distinct rule ids, first match and tie check over every outcome of the sort decide the common effect at the highest matching priority, else DENY |
| `PolicyEval.AnyTopComesFirst` | service/internal/policy/engine.go:138-147 | any matching rule of the highest matching priority is the first match under some outcome of the sort |
| `PolicyEval.OrderDoesNotMatter` | service/internal/policy/engine.go:138-172 | two permutations of the rules, each sorted in any way, are decided alike |
| `PolicyEval.MeaningHoldsIff` | service/internal/policy/engine.go:309-324 | with repeated ids every outcome of the sort still decides that if and only if each granting top rule is unopposed or opposed under another id |
| `PolicyEval.SharedIdIsAmbiguous` | service/internal/policy/engine.go:309-324 | two rules with one id whose two orders are both outcomes of the sort, one deciding ALLOW and the other DENY |
| `PolicyEval.ConflictIsDisagreement` | service/internal/policy/engine.go:309-324 | for distinct ids the tie check finds a conflict exactly when the top rules disagree |
| `PolicyEval.AddingDenyIsSafe` | service/internal/policy/engine.go:145-172 | adding a DENY rule keeps the decision or makes it DENY |
| `PolicyEval.DenyAtTopStands` | service/internal/policy/engine.go:145-172 | a DENY at the top priority survives any rule of at most that priority |
| `PolicyEval.EvaluatorIsMonotone` | service/internal/policy/engine.go:145-172 | the same two facts about first match and tie check, for a rule with a fresh id and any two sorts |
| `PolicyEval.MatchSubject` | service/internal/policy/engine.go:237-269 | the loop decides the declarative subject match |
| `PolicyEval.MatchResource` | service/internal/policy/engine.go:271-306 | the loops decide the match on the first non-empty dimension |
| `PolicyEval.MatchRule` | service/internal/policy/engine.go:177-235 | OR within a dimension, AND across dimensions |
| `PolicyEval.AndAcross` | service/internal/policy/engine.go:177-235 | a rule matches if and only if each of its four dimensions alone would |
| `PolicyEval.OrWithin` | service/internal/policy/engine.go:177-208 | listing more selectors in a dimension is matching either |
| `PolicyEval.EmptyRuleMatches` | service/internal/policy/engine.go:177-235 | a rule that says nothing matches every access |
| `PolicyEval.SingleMatches` | service/internal/policy/engine.go:177-235 | what one selector, a protocol list and a scope list mean |
| `PolicyEval.SubjectLaws` | service/internal/policy/engine.go:237-269 | by users, by kinds, by both; groups and tags never make a match |
| `PolicyEval.ResourceLaws` | service/internal/policy/engine.go:271-306 | only the first non-empty dimension counts; ids name a service or a node |
| `PolicyEval.HasConflictingTie` | service/internal/policy/engine.go:309-324 | finds exactly a matching rule of another id, equal priority and other effect |
| `PolicyEval.SortByPriority` | service/internal/policy/engine.go:138-143 | a permutation in falling priority |
| `PolicyEval.FirstMatchIsTop` | service/internal/policy/engine.go:145-147 | the first match of any such permutation is a matching rule of the highest matching priority |
| `PolicyEval.Evaluate` | service/internal/policy/engine.go:96-173 | the whole answer: unprotected, refused, or that of the first match over some outcome of the sort; the order-free meaning for distinct ids |
| `PolicyChain.StepKeeps` | service/internal/policy/engine.go:533-596 | every read, hash read, failure or insert keeps all chains and what open publishers have read |
| `PolicyChain.ChainHolds` | service/internal/policy/engine.go:533-559 | under any interleaving each tenant's rows are versions 1..n, epoch equal to version, each linked to the digest of the one before |
| `PolicyChain.LinksAreDigests` | service/internal/policy/engine.go:533-559 | in every run version 1 carries the zero hash and each later version the digest of the document before it, epoch equal to version |
| `PolicyChain.RowFixesPrevious` | service/internal/policy/engine.go:543-555 | two histories that agree on one row agree on the document of the version before it |
| `PolicyChain.RowsAreForever` | service/internal/policy/engine.go:590-596 | no row is ever overwritten |
| `PolicyChain.ReportIsTrueIff` | service/internal/policy/engine.go:569-607 | the stored row is the reported bundle if and only if the slot was free or held the same document with the same issuer, signature, key and validity times |
| `PolicyChain.LoserReportsSuccess` | service/internal/policy/engine.go:569-607 | a run from an empty table in which a second publisher with another document, or only other terms, is told version 1 is its own, and no continuation ever stores that bundle |
| `PolicyChain.PolicyStore.QueryVersion` | service/internal/policy/engine.go:533-541 | the highest version and epoch of the tenant, 0 if none |
| `PolicyChain.PolicyStore.QueryHash` | service/internal/policy/engine.go:543-555 | the digest of the version read, the zero hash for none |
| `PolicyChain.PolicyStore.PublishPolicy` | service/internal/policy/engine.go:533-607 | uninterrupted, on a chained table, appends the linked next version, keeps the chain and reports the row |
| `RateLimit.AllowedIsBounded` | service/internal/ratelimit/limiter.go:163-190 | for any rate, burst, period, monotone trace and window, A * period < (burst + 1) * period + length * rate |
| `RateLimit.TokensStayInRange` | service/internal/ratelimit/limiter.go:163-190 | over any trace tokens stay in 0..burst |
| `RateLimit.AcceptedIsBounded` | service/internal/ratelimit/limiter.go:78-112 | requests accepted with their charge of a key inside any window obey that bound, at each of the six levels |
| `RateLimit.AcceptedObeyConfig` | service/internal/ratelimit/limiter.go:90-102 | the six bounds with the configured number each obeys |
| `RateLimit.IdleRegains` | service/internal/ratelimit/limiter.go:172-181 | left alone a bucket regains the floor of what the time earned, up to its burst, and loses no fraction |
| `RateLimit.ChargeTakesOne` | service/internal/ratelimit/limiter.go:166-188 | a new bucket is full; a call is allowed exactly when a token is there, and takes one |
| `RateLimit.SpacedCallIsAllowed` | service/internal/ratelimit/limiter.go:163-190 | over any trace a call at least period / rate after the one before it is allowed |
| `RateLimit.FirstBurstIsAllowed` | service/internal/ratelimit/limiter.go:163-190 | the first burst of calls on a key is allowed |
| `RateLimit.AcceptedIff` | service/internal/ratelimit/limiter.go:104-111 | a request is accepted if and only if each of its six buckets, as it stands, has a token |
| `RateLimit.CheckCharges` | service/internal/ratelimit/limiter.go:104-111 | a level is charged, once, exactly when all levels before it had a token |
| `RateLimit.RestedIsAccepted` | service/internal/ratelimit/limiter.go:78-112 | a request whose six buckets are new or rested, each at its configured rate, is accepted |
| `RateLimit.SharedBucketIff` | service/internal/ratelimit/limiter.go:90-102 | two requests share a level's bucket if and only if they agree on whom it limits |
| `RateLimit.Limiter.constructor` | service/internal/ratelimit/limiter.go:70-72 | the limiter starts with no bucket |
| `RateLimit.Limiter.Allow` | service/internal/ratelimit/limiter.go:163-190 | refills by the floor, caps at burst, takes a token exactly when there is one, and says what remains and when to come back |
| `RateLimit.Limiter.CheckApprovalRate` | service/internal/ratelimit/limiter.go:78-112 | charges level after level and stops at the first refusal; passes everything when disabled |
| `SessionRegistry.TerminationIsComplete` | daemon/internal/tcpproxy/proxy.go:309-325 | without reused ids, after any run, terminating a grant closes exactly what a scan finds, counts it, and leaves none |
| `SessionRegistry.DeviceTerminationIsComplete` | daemon/internal/tcpproxy/proxy.go:293-306 | no live session of the device is left, all others are, and exactly its connections are closed |
| `SessionRegistry.GrantTerminationCloses` | daemon/internal/tcpproxy/proxy.go:309-325 | exactly the connections of the grant's live sessions are closed |
| `SessionRegistry.RegisteredIsFound` | daemon/internal/tcpproxy/proxy.go:278-290 | a registered session is live and found under its grant; an unregistered one is gone; others stay |
| `SessionRegistry.IndexClosesTheScan` | daemon/internal/tcpproxy/proxy.go:309-325 | when the index agrees on live sessions, stale ids in it do not matter |
| `SessionRegistry.AgreesIff` | daemon/internal/tcpproxy/proxy.go:309-325 | the index agrees on live sessions if and only if for every grant it leads to exactly what a scan finds |
| `SessionRegistry.RegisterKeepsIff` | daemon/internal/tcpproxy/proxy.go:278-283 | registering keeps the agreement if and only if the id is not listed under another grant |
| `SessionRegistry.AgreesThroughoutIff` | daemon/internal/tcpproxy/proxy.go:278-325 | for whole runs: they agree at every moment if and only if no registration uses an id listed under another grant |
| `SessionRegistry.ReusedIdDiesWithFirstGrant` | daemon/internal/tcpproxy/proxy.go:278-325 | a reused id is terminated with the grant it no longer uses |
| `SessionRegistry.SessionTable.constructor` | daemon/internal/tcpproxy/proxy.go:270-275 | the registry starts empty |
| `SessionRegistry.SessionTable.Register` | daemon/internal/tcpproxy/proxy.go:278-283 | adds the session and appends its id to the grant's list |
| `SessionRegistry.SessionTable.Unregister` | daemon/internal/tcpproxy/proxy.go:286-290 | removes the session and leaves the index stale |
| `SessionRegistry.SessionTable.TerminateByDevice` | daemon/internal/tcpproxy/proxy.go:293-306 | closes and removes exactly the device's sessions and returns their number |
| `SessionRegistry.SessionTable.TerminateByGrant` | daemon/internal/tcpproxy/proxy.go:309-325 | closes and removes exactly the live sessions the index lists and returns their number |
| `RoleCache.StepCoherent` | service/internal/auth/rbac.go:273-313 | every operation keeps each cache entry equal to the table |
| `RoleCache.CachedIsPlain` | service/internal/auth/rbac.go:157-382 | over every run of checks, assignments and removals, self-assignment included, all answers and the table are those of an authorizer without a cache |
| `RoleCache.TablesAgree` | service/internal/auth/rbac.go:72-119 | the permission table agrees with its transpose, the roles that carry each permission |
| `RoleCache.PermitsIff` | service/internal/auth/rbac.go:157-190 | a check succeeds if and only if a role carries the permission and the object is nobody's, the user's own, or met by an admin role |
| `RoleCache.DutiesAreSeparate` | service/internal/auth/rbac.go:72-119 | no role both writes and publishes policies; only a SecurityAdmin changes roles |
| `RoleCache.NoAdminNoChange` | service/internal/auth/rbac.go:340-382 | in a tenant without a SecurityAdmin no run ever changes an assignment |
| `RoleCache.AssignTakesEffect` | service/internal/auth/rbac.go:340-360 | a SecurityAdmin's assignment holds from the next look on, cached or not, and changes nobody else's roles |
| `RoleCache.RemoveTakesEffect` | service/internal/auth/rbac.go:363-382 | so does a removal |
| `RoleCache.EntryLasts` | service/internal/auth/rbac.go:273-313 | what a query read is answered for exactly 30 seconds after it was stored |
| `RoleCache.AnswerIsRecent` | service/internal/auth/rbac.go:273-313 | with other writers on the table, the roles used were the user's at some instant less than 30 seconds ago, or by as much more as a fetch takes |
| `RoleCache.ThirtySecondsIff` | service/internal/auth/rbac.go:300-306 | every answer of every run is less than 30 seconds old if and only if a fetch takes no time |
| `RoleCache.SlowFetchIsOlder` | service/internal/auth/rbac.go:286-306 | for any positive duration of a fetch, a run whose answer was true at no instant of the last 30 seconds |
| `RoleCache.Authorizer.constructor` | service/internal/auth/rbac.go:146-151 | starts with an empty cache and no role assigned |
| `RoleCache.Authorizer.QueryRoles` | service/internal/auth/rbac.go:286-300 | the roles the table assigns to the user |
| `RoleCache.Authorizer.StoreRoles` | service/internal/auth/rbac.go:302-308 | the entry, good for 30 seconds from now |
| `RoleCache.Authorizer.GetRoles` | service/internal/auth/rbac.go:273-313 | the unexpired entry, else the table's roles, then cached for 30 seconds |
| `RoleCache.Authorizer.CheckPermission` | service/internal/auth/rbac.go:157-190 | allows exactly when some role grants the permission and a foreign object meets an admin role |
| `RoleCache.Authorizer.AssignRole` | service/internal/auth/rbac.go:340-360 | adds the role if the actor may, and drops the user's entry |
| `RoleCache.Authorizer.RemoveRole` | service/internal/auth/rbac.go:363-382 | removes the role if the actor may, and drops the user's entry |

## Left out

- The signature scheme, COSE and CBOR encoding, hybrid encryption, UUID generation: a signature names its key and the bytes it covers, digests are injective, new grant ids are unused ones.
- Audit writes, notifications and outbox messages inside the lifecycle transactions; their errors are ignored by the source, and the audit chain itself is not modelled.
- `SELECT MAX(seq) ... FOR UPDATE` in the revocation manager is a form PostgreSQL refuses; the model takes the evident intent, the next number under the manager's mutex.
- No code inserts session rows or expires requests; both are steps the schema allows, taken by the environment. The `user_roles` table is not in the migration and is modelled from the queries.
- The daemon's main program installs a stub as its remote consume callback; `GlobalUse` is about daemons whose callback calls the service. The service never serves one call twice.
- The nodes table, source-node key epochs, authorization epochs, security levels and the other payload fields no property speaks of. The foreign keys to tenants and nodes are taken to hold.
- Database errors other than constraint violations: a step that fails is a step that did not happen. Revocation targets that are not well-formed UUIDs abort the same way.
- Negative sequence numbers and fences in consumer calls, and integer overflow of sequence numbers, versions and counters.
- In-order acknowledgement is an assumption of the no-loss theorems, as the source leaves it to consumers; `Delivery.DeliversIffInOrder` says that it is exactly what they need.
- Request expiry, device state and the response's own request and device ids are not checked by the source on approval, so nothing is claimed about them.
- Purging the persisted grant, and single use of SESSION grants across a restart without the remote call: the source guarantees neither.
- Failure of encryption, a changed key file, and a persisted grant file that does not decode. Purge filters compare user ids as text; two entries never share one object in memory.
- RateLimit.Limiter.Allow: the refill is the exact floor of elapsed time times rate over period; the source's floating-point product may differ from it by rounding.
- In the limiter: concurrent access to the bucket map, a clock that runs backwards, negative rates, the Valkey store and its availability check.
- RoleCache.Authorizer.GetRoles: as one method it is the undisturbed call, lookup, query and store at one instant; calls that other writers interrupt are the `Through` steps of `RoleCache.AnswerIsRecent`. Query and row errors are not modelled; a row error leaves the roles read so far in the cache.
- PolicyEval.SortByPriority: the library's sort is any method that returns a permutation in falling priority; the slice it permutes in place is a sequence here.
- Coverage analysis, bundle signing and loading, resource registry queries, separation of duties, object ownership, pending and connection limits.
- Key rotation, break-glass, enrolment, OIDC, configuration, firewall, SSH and HTTP front ends, metrics, the SDKs and the Android app: I/O, interfaces, or thin wrappers.
