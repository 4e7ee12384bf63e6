# Transacta: a verification project

Transacta is a multi-tenant double-entry ledger over Postgres. Its guarantees
come from four protocols written as guarded SQL and Go control flow. Each is
modelled here twice, and the two models share one definition of what a
statement does to the tables:

* a class whose methods follow the Go code line by line over tables updated in
  place, proved to leave exactly what a specification function says;
* a state machine in which every call in flight is a process with a program
  counter, cut at its SQL statements and commits, and any number of processes
  interleave, crash and abort. Theorems about runs quantify over every list of
  actions; an action that is not enabled changes nothing.

The two are tied together as well: a call of the machine that meets no other comes
to what the class method does (`LedgerAlone`, `IdempotencyAlone`, `QueueAlone`, and
`RefreshIsMachineRun` in `TokenService`).

## The four cores

**Ledger.** `Ledger` holds the tables, the int64 arithmetic of the checks, and
`Check`/`Install`/`Apply`: one operation run alone. `LedgerMachine` interleaves
transfers, pending creations, posts, fails and account creations at begin,
every row lock, the balance read, the check, the insert or compare-and-swap,
and the commit. `LedgerSerial` proves that every interleaving is one of those
serial histories, so that the laws of `LedgerLaws` (totals, non-negative
balances, tenant closure, two phases equal one) and `LedgerLog` (the audit log
rebuilds the tables, the outbox tells each transaction's life) hold of every
interleaving, `LedgerOutcomes` when each operation is accepted and why it is refused
otherwise, and `LedgerAnswers` that each caller is told the decision on its
own call. `LedgerDeadlock` proves lock ordering does its work. All start
from an arbitrary well-formed database with seeded balances.

**Idempotency.** `Idempotency` is the lease with its fencing token. The failed
claim and the read after it are two steps; crashes, slow holders, Complete
statements that are lost, applied without an answer, or applied late, and
unsynchronised server clocks that may be set forward or back are all actions. Times are nanoseconds and are cut
to microseconds where they enter the table.

**Refresh tokens.** `Tokens` cuts login, refresh, logout and revoke-all at their
statements, with row locks held to the commit; revoke-all visits its snapshot
row by row and re-checks each row.

**Outbox queue.** `Queue` has any number of workers with open claim
transactions and one goroutine for each claimed job. Writes may fail, be late,
or never come; a claim may commit without its worker learning of it.

## Where the code and its documents, or its promises, part

* docs/adr/0002-transactional-outbox-for-event-delivery.md:60-64 expects a
  worker crash to cause redelivery. Only `pending` rows are claimed, so the row
  of a crashed worker stays `processing`: `QueueTheorems.LosingOrphans` for every
  run, `QueueProgress.NoRedeliveryAfterCrash` for a receiver that has already
  accepted the event.
* Creating a pending transaction takes foreign-key row locks in request order,
  so it can deadlock with a transfer. `LedgerDeadlock.DeadlockIff` says exactly
  when: if the request names some account before one with a lower id that it has
  not named yet. Listing entries by account id rules it out.
* Creating a pending transaction does not check that the accounts are the
  tenant's. The tenant invariant is about posted transactions, and a pending one
  with a foreign account can only be failed (`LedgerLaws.ForeignPendingNeverPosts`).
* Under concurrency a refused post may give another reason than it would alone
  (`LedgerWitness.RefusalsMayDiffer`); `Matches` names the only such cases.
* `ErrStatusConflict` is never returned (`LedgerSerial.NoStatusConflict`).
* Validation sums in int64: four entries of 2^62 sum to zero and create 2^64
  units (`LedgerLaws.BoundIsNeeded`); `ValidationExactIff` says exactly when
  validation is right.
* The fence of the idempotency row holds as long as no row is left expiring
  before its token. A Complete sent after its server's clock was set back, or a
  negative lease, leaves one, and then a later claim can get the same token
  (`IdempotencyTheorems.UnsoundBreaksTheFence`, `ClockGoingBackBreaksTheFence`).
  A holder slower than its lease lets a key's request commit twice
  (`SlowHolderCommitsTwice`).
* A handler that sets another status after it has begun to write is replayed with
  a status its first client did not see (`IdempotencyStore.LateStatusIsReplayedWrong`;
  `ReplayedStatusIsTheSentOne` says exactly when the two agree).
* A rotation that commits between the snapshot and the commit of a revoke-all
  survives it (`TokenWitness.SurvivorExists`); nothing else does
  (`TokenLaws.SurvivorRacedThePurge`).
* The backoff panics for nominal delays of one to four nanoseconds
  (`Backoff.JitterPanics`).

## Rules taken for Postgres

A single statement is atomic and sees a read-committed snapshot; a row lock is
held to the end of its transaction; a guarded update waits for the row's lock
and then re-checks its guard; a claim skips locked rows; generated ids are fresh;
a transaction that aborts leaves nothing. Token ids are numbered in commit order,
so that "later" can be said. Queue job ids, account ids and transaction ids are
arbitrary.

## History variables

`World.history` with the position `at` of each decision (ledger), `claim`, `claims` and `execs` (idempotency), `from` and
`purges` (tokens) and `sends` (queue) record what happened and decide nothing.

## Model

| member | source | states |
|---|---|---|
| LedgerSerial.Serializable | internal/ledger/service.go:109-272 | every interleaving leaves the tables its decided calls leave when run one at a time in decision order; each is accepted exactly when it is accepted there; every caller is told the decision on its own call, and no two callers the same one |
| LedgerSerial.NoStatusConflict | internal/ledger/repository.go:222-237 | a lost compare-and-swap always finds the transaction in a final status, so ErrStatusConflict is never returned |
| LedgerSerial.SettledForever | internal/ledger/service.go:196-198 | once posted or failed, a transaction stays so in every later state |
| LedgerSerial.SettledOnce | internal/ledger/repository.go:209-239 | however many posts and fails of one transaction race, at most one caller is told its own was accepted |
| LedgerSerial.SettledOnceInHistory | internal/ledger/repository.go:209-239 | at most one decision of a run accepts a post or a fail of one transaction |
| LedgerAnswers.AnswersAreOwn | internal/ledger/service.go:109-272 | an answer is the recorded decision on a call the caller made, and two callers' answers are two decisions |
| LedgerSerial.InterleavedConservation | internal/ledger/service.go:126-137 | from any well-formed solvent state, every interleaving of requests below the bound keeps every balance in [0, 2^63) and each tenant's exact total |
| LedgerSerial.InterleavedTenantSafety | internal/ledger/repository.go:44-53 | in every reachable state all entries of posted transactions are on their tenant's own accounts, and the unfiltered balance query equals the tenant-filtered sum |
| LedgerSerial.InterleavedLogs | internal/ledger/service.go:144-155 | with both recorders on, the audit rows of any interleaving rebuild its tables and its outbox rows are each transaction's life |
| LedgerSerial.RunKeeps | internal/ledger/service.go:109-272 | the invariant behind these: what each process relies on of the committed tables, disjoint locks and ids, a faithful history |
| LedgerAlone.CallIsApply | internal/ledger/service.go:109-290 | a call that meets no other can always finish in its own steps, with the answer and the tables of the operation run as one step |
| LedgerAlone.Funds | internal/ledger/repository.go:67-141 | its locking, reading, projecting and checking decide as the one step does |
| LedgerSerial.DecideFrame | internal/ledger/repository.go:78-120 | a decision made under the account locks is not changed by what others commit |
| LedgerSerial.CommitBalances | internal/ledger/repository.go:115-120 | a commit moves only the balances of accounts its process has locked |
| LedgerDeadlock.DeadlockIff | internal/ledger/repository.go:72-83 | a pending creation can take part in a deadlock, with no other such request about, if and only if its request is valid and names some account before one with a lower id it has not named yet |
| LedgerDeadlock.BlockedIff | internal/ledger/repository.go:78-83 | a call that needs a row cannot move exactly when it waits for another in the graph |
| LedgerDeadlock.DeadlockNeedsDisorder | internal/ledger/repository.go:72-83 | in every reachable state every cycle of the waits-for graph contains a pending creation inserting such a request: transfers, posts, fails, account creations and ordered pending creations never deadlock |
| LedgerDeadlock.OrderedNames | internal/ledger/repository.go:153-167 | in an ordered request an account named for the first time has a higher id than all before it |
| LedgerDeadlock.SomeoneMoves | internal/ledger/service.go:204-221 | behind every wait there is a lock holder that waits for nobody, when no pending creation inserts a disorderly request |
| LedgerDeadlock.PendingCreationCanDeadlock | migrations/000001_init.up.sql:27 | every disorderly request has a database and a run in which it deadlocks with one transfer |
| LedgerWitness.RefusalsMayDiffer | internal/ledger/service.go:192-206 | a run in which a post answers AccountNotFound where alone it would answer TransactionNotPending |
| LedgerLaws.ConservedAndSolvent | internal/ledger/service.go:126-137 | over every serial run of requests below the bound no balance leaves [0, 2^63) and each tenant's total is the genesis total |
| LedgerLaws.TotalsModulo | internal/ledger/models.go:51-57 | over every serial run, whatever the amounts, each tenant's total modulo 2^64 never changes |
| LedgerLaws.ApplyTotal | internal/ledger/service.go:139-142 | an accepted operation changes its own tenant's total by the sum of the entries it makes count, and no other tenant's |
| LedgerLaws.ApplyWellFormed | internal/ledger/service.go:109-290 | distinct ids, tenant closure of posted entries and validity of pending ones are kept by every operation |
| LedgerLaws.MovedChecked | internal/ledger/service.go:110-137 | whatever is accepted was validated, is on accounts the tenant owns, and passes the wrapped check |
| LedgerLaws.SumAddNet | internal/ledger/service.go:130-132 | adding the net amounts account by account adds the sum of the entries, in any order and with any repeated accounts |
| LedgerLaws.ProjectionConserves | internal/ledger/service.go:126-132 | the projected balances sum to the old sum plus the sum of the entries |
| LedgerLaws.SmallCheckIsExact | internal/ledger/service.go:133-137 | below the bound the wrapped check accepts an account exactly when its true new balance is in [0, 2^63) |
| LedgerLaws.ValidationExactIff | internal/ledger/service.go:55-68 | int64 validation agrees with exact validation if and only if the true sum is not a non-zero multiple of 2^64; below the bound it always does |
| LedgerLaws.BoundIsNeeded | internal/ledger/service.go:64 | four entries of 2^62 are accepted and add 2^64 to a tenant's total |
| LedgerLaws.BalanceQueryIsTenantSafe | internal/ledger/repository.go:115-120 | over every serial run the unfiltered balance equals the tenant-filtered one |
| LedgerLaws.ForeignPendingNeverPosts | internal/ledger/service.go:204-207 | a pending transaction naming another tenant's account is refused by every post and can be failed |
| LedgerLaws.ForeignPendingIsCreated | internal/ledger/service.go:158-183 | and such a transaction can be created |
| LedgerLaws.PendingHasNoEffect | internal/ledger/repository.go:44-53 | a pending transaction changes no decision |
| LedgerLaws.TwoPhaseEqualsOnePhase | internal/ledger/service.go:158-238 | creating and at once posting is accepted exactly when the direct transfer is, in whatever order the entries are read back, and leaves the same accounts and rows |
| LedgerLog.AuditRebuildsTheLedger | internal/ledger/audit.go:40-60 | folding the audit rows in commit order over the genesis tables rebuilds every account, entry list and status |
| LedgerLog.OutboxIsComplete | internal/ledger/service.go:144-146 | each transaction's outbox rows are exactly posted; pending; pending, posted; or pending, failed; and name existing transactions only |
| LedgerOutcomes.ValidateIff | internal/ledger/service.go:55-68 | accepted exactly with two entries or more, none zero, summing to zero modulo 2^64; each refusal has its own cause |
| LedgerOutcomes.DecideIff | internal/ledger/service.go:120-137 | an account that is not the tenant's, a stored balance outside int64, a new balance negative as an int64: each refusal has exactly its cause, in that order |
| LedgerOutcomes.TransferIff | internal/ledger/service.go:109-142 | accepted exactly when valid and funded, the request being judged before the accounts |
| LedgerOutcomes.CreatePendingIff | internal/ledger/service.go:158-172 | accepted exactly when valid and all accounts exist, whosever they are |
| LedgerOutcomes.SettleIff | internal/ledger/service.go:192-223 | a post is accepted exactly when the transaction is pending and funded now, a fail exactly when it is pending |
| LedgerOutcomes.StrangerIsNotFound | internal/ledger/repository.go:172-179 | another tenant's transaction, or none, is not found |
| LedgerOutcomes.SumsGrow | internal/ledger/repository.go:46-51 | totals and net amounts add entry by entry, and only posted transactions count towards a balance |
| LedgerOutcomes.OpenedAccountIsThere | internal/ledger/service.go:274-298 | a new account is its tenant's, under its name, reads as empty, and is hidden from other tenants |
| Ledger.ProjectAt | internal/ledger/service.go:126-132 | the projected balance of an account is, in int64, its balance plus its net amount, however often it occurs |
| Ledger.ProjectionAccepts | internal/ledger/service.go:133-137 | no projected balance is negative exactly when every named account can afford its net amount |
| Ledger.DecidePermutation | internal/ledger/repository.go:184-186 | a decision does not depend on the order in which entries are read |
| Ledger.Lookup | internal/ledger/repository.go:171-182 | the row with this id and tenant, or none |
| Money.Sum | internal/ledger/models.go:51-57 | the int64 loop returns the true sum wrapped to int64 |
| Money.WrapMeaning | internal/ledger/models.go:9 | wrapping keeps the value modulo 2^64 and is the identity exactly on int64 values |
| Money.WrapAdd | internal/ledger/models.go:54 | wrapping at every addition or once at the end is the same |
| Money.NetPermutation | internal/ledger/service.go:212-214 | an account's net amount does not depend on the order of the entries |
| Money.MagnitudeBounds | internal/ledger/models.go:51-57 | total and net amounts are bounded by the sum of absolute amounts |
| LedgerService.ValidateEntries | internal/ledger/service.go:55-68 | fewer than two entries, a zero amount, an int64 sum that is not zero, in that order, else accepted |
| LedgerService.UniqueAccountIDs | internal/ledger/service.go:70-80 | each account id once, in order of first occurrence |
| Money.FirstSeen | internal/ledger/service.go:70-80 | exactly the accounts of the entries, without repetition |
| LedgerService.ProjectBalances | internal/ledger/service.go:126-132 | the loop computes the projection |
| LedgerService.SumBalances | internal/ledger/repository.go:113-138 | the posted balance of every locked account, or a scan error when one does not fit in int64 |
| LedgerService.LockAccountsForUpdate | internal/ledger/repository.go:67-141 | account not found exactly when some id is not the tenant's; otherwise each id's balance |
| LedgerService.InsertTransactionWithEntries | internal/ledger/repository.go:143-169 | the row with its entries is appended, or a foreign key error when an account does not exist |
| LedgerService.UpdateTransactionStatusGuarded | internal/ledger/repository.go:209-239 | only a row in the expected status changes; otherwise not found, not pending or conflict |
| LedgerService.TransferAuditPayload | internal/ledger/audit.go:40-53 | the payload holds id, status and every leg in order |
| LedgerService.Service.EmitEvent | internal/ledger/service.go:95-107 | one event of the given type, transaction and status in the same transaction, none when not configured |
| LedgerService.Service.RecordAudit | internal/ledger/audit.go:65-74 | one audit row in the same transaction, none when not configured |
| LedgerService.Service.CheckFunds | internal/ledger/service.go:120-137 | locking, projecting and checking decide exactly as the specification does |
| LedgerService.Service.ExecuteTransfer | internal/ledger/service.go:109-156 | answers as one serial transfer; adds the posted transaction with its entries, one posted event and one transferred row, and nothing else; a refusal leaves the tables untouched |
| LedgerService.Service.CreatePendingTransaction | internal/ledger/service.go:158-183 | answers as one serial pending creation; adds the pending transaction, one pending event and one row, and nothing else |
| LedgerService.Service.PostPendingTransaction | internal/ledger/service.go:185-238 | answers as one serial post, in whatever order the entries are read back; the tenant's pending row becomes posted, with one posted event and one row, and nothing else |
| LedgerService.Service.FailPendingTransaction | internal/ledger/service.go:240-272 | answers as one serial fail; the tenant's pending row becomes failed, with one failed event and one row, and nothing else |
| LedgerService.Service.CreateAccount | internal/ledger/service.go:274-298 | stores the account of this tenant under this name, and one audit row saying so, and nothing else |
| LedgerService.Service.GetAccount | internal/ledger/repository.go:43-65 | the posted balance of an account the tenant owns; not found; or a scan error |
| IdempotencyTheorems.TokensIncrease | internal/middleware/idempotency/repository.go:24-38 | per tenant and key the claim tokens strictly increase, on any servers with any clocks, as long as no row is left expiring before its token |
| IdempotencyTheorems.SoundIff | internal/middleware/idempotency/repository.go:30-37 | a row is so if and only if every claim statement that can take it over carries a later token |
| IdempotencyTheorems.UnsoundBreaksTheFence | internal/middleware/idempotency/repository.go:75-79 | a reachable row that expires before its token has a continuation in which a later claim gets the same token, and every Complete of the superseded holder matches its row |
| IdempotencyTheorems.ForwardIsOrderly | internal/middleware/idempotency/repository.go:24-25 | with a lease that is not negative and clocks that do not go back, each on its own, no run leaves such a row |
| IdempotencyTheorems.SupersededNeverCompletes | internal/middleware/idempotency/repository.go:75-90 | under the same condition a superseded claim's Complete matches no row in any later state |
| IdempotencyTheorems.ClockGoingBackBreaksTheFence | internal/middleware/idempotency/repository.go:75 | a run in which the holder's clock is set back before its Complete and two claims of one key carry the same token |
| IdempotencyTheorems.AnswersAreProduced | internal/middleware/idempotency/middleware.go:92-152 | whatever is answered, fresh or replayed, is the answer of exactly one handler run for a claim with the same tenant, key and hash; a replay as long as no row was left expiring before its token |
| IdempotencyTheorems.ReplaysAgree | internal/middleware/idempotency/middleware.go:113-133 | all replays of one claim epoch are identical, however Complete was retried |
| IdempotencyTheorems.RefusalsHaveACause | internal/middleware/idempotency/middleware.go:136-144 | a request told that its key is reused has met a claim of its key with another hash; one told in flight, or replayed to, a claim with its own; and a record is always found |
| IdempotencyTheorems.ReadDecides | internal/middleware/idempotency/middleware.go:136-152 | conversely what a request that was not claimed is told is decided by the last claim of its key and by whether that is completed |
| Idempotency.HandleExisting | internal/middleware/idempotency/middleware.go:136-152 | key reused exactly for another hash, in flight exactly for its own while processing, else the stored response |
| Idempotency.EffectiveRetention | internal/middleware/idempotency/middleware.go:61-63 | a retention that is not positive means 24 hours |
| Idempotency.MicroIs | internal/middleware/idempotency/repository.go:24-25 | the last microsecond not after the time |
| IdempotencyAlone.FreshRequest | internal/middleware/idempotency/middleware.go:92-108 | a request that finds its key free and meets no other claims it, runs its handler once, and leaves the response until the retention runs out |
| IdempotencyAlone.LaterRequest | internal/middleware/idempotency/middleware.go:98-101 | one that finds it taken runs nothing, changes nothing, and is told what the row says |
| IdempotencyAlone.RetriesAreCompleteWithRetry | internal/middleware/idempotency/middleware.go:113-133 | the machine's retries land what completeWithRetry lands, and end after at most three |
| IdempotencyTheorems.CommitsWithinEpochs | internal/middleware/idempotency/middleware.go:98-107 | the commits one key causes never exceed its claim epochs |
| IdempotencyTheorems.OneEpochIff | internal/middleware/idempotency/repository.go:30-37 | a key has at most one epoch if and only if no claim ever took its row over |
| IdempotencyTheorems.AtMostOnce | internal/middleware/idempotency/middleware.go:98-107 | while no claim on its way carries a time past the row's expiry (the lease, then the retention) the request commits at most once, whatever crashes and retries follow |
| IdempotencyTheorems.AtMostOnceByTheClocks | internal/middleware/idempotency/middleware.go:98-107 | which is so while no server's clock is past it, if none goes back |
| IdempotencyTheorems.SlowHolderCommitsTwice | internal/middleware/idempotency/middleware.go:104 | a run in which the holder outlives its lease and the request commits twice |
| IdempotencyLaws.RunKeeps | internal/middleware/idempotency/repository.go:23-92 | the invariant behind these: rows, processes, delayed statements and handler runs agree on claims and tokens |
| IdempotencyStore.LandedMeaning | internal/middleware/idempotency/repository.go:75-79 | however tries of one Complete land, other rows and rows of other claims are untouched, and the claim's own row holds the response, and the retention of the last applied try, once one was applied |
| IdempotencyStore.Store.ClaimOrGet | internal/middleware/idempotency/repository.go:23-56 | claimed exactly when no unexpired row exists; otherwise the existing row, unchanged |
| IdempotencyStore.Store.CompleteRow | internal/middleware/idempotency/repository.go:74-92 | the row is completed exactly when it carries the token, and the affected count says so |
| IdempotencyStore.Store.CompleteWithRetry | internal/middleware/idempotency/middleware.go:113-133 | at most three tries, stopping at the first that is answered, leave what those tries land |
| IdempotencyStore.Store.Serve | internal/middleware/idempotency/middleware.go:92-108 | the handler is run exactly when no unexpired row exists, and the rows are then the claimed row with the tries made landed on it; otherwise nothing changes and the reply says reused, in flight or the stored response exactly as the row does |
| IdempotencyStore.RetryIsReplayed | internal/middleware/idempotency/middleware.go:136-152 | a retry with the same key and request before the row expires runs nothing; it gets the first answer if any try of Complete was applied, and is told to wait otherwise |
| IdempotencyStore.ResponseRecorder.DoWriteHeader | internal/middleware/idempotency/middleware.go:170-174 | the recorded status is that of the last WriteHeader |
| IdempotencyStore.ResponseRecorder.DoWrite | internal/middleware/idempotency/middleware.go:176-182 | the recorded body grows by what was written and the recorded status stays |
| IdempotencyStore.SentOnce | internal/middleware/idempotency/middleware.go:170-182 | the client's status is fixed by the first call |
| IdempotencyStore.ReplayedStatusIsTheSentOne | internal/middleware/idempotency/middleware.go:163-182 | the recorded status is the one the client was sent if and only if the last status the handler set, if any, is that one |
| IdempotencyStore.LateStatusIsReplayedWrong | internal/middleware/idempotency/middleware.go:170-174 | a failure set after the first write: the client saw 200, the replay says 500 |
| TokenLaws.RunKeeps | internal/auth/service.go:153-250 | every interleaving keeps the forest, the facts each call relies on, disjoint row locks, and the effect of every revoke-all |
| TokenLaws.ReplacedByIsInjective | internal/auth/repository.go:161-165 | no token succeeds two |
| TokenLaws.ReplacedByPointsForward | internal/auth/service.go:187-199 | replaced_by points at a later token of the same user and tenant that was issued for this one, so it is acyclic |
| TokenLaws.RootIsLogin | internal/auth/service.go:274-293 | every chain starts at a login and stays within one user and tenant |
| TokenLaws.EarlierIsReplaced | internal/auth/repository.go:161-178 | of two tokens of one chain the earlier has been replaced |
| TokenLaws.OneActivePerChain | internal/auth/repository.go:161-178 | under any interleaving each chain has at most one active token, its last |
| TokenLaws.ReuseIsFinal | internal/auth/service.go:161-168 | once a call that read a dead token is answered, it was refused, and every token of the user committed when it read is dead, then and in every later state |
| TokenLaws.PurgeHasCause | internal/auth/service.go:161-165 | every revoke-all was caused by a dead token of that user that its snapshot saw |
| TokenLaws.PurgedForEver | internal/auth/repository.go:190-196 | after a revoke-all every token of the user committed before its snapshot is dead in every later state |
| TokenLaws.SurvivorRacedThePurge | internal/auth/repository.go:190-196 | a later token descends from a login the purge's snapshot saw if and only if its chain has a rotation committed between that snapshot and the statement's commit |
| TokenLaws.UnracedPurgeIsFinal | internal/auth/service.go:161-168 | when nothing commits in between, every later or live token of the user descends from a later login |
| TokenWitness.SurvivorExists | internal/auth/repository.go:190-196 | a run in which such a successor stays active |
| TokenService.TokenTable.Login | internal/auth/service.go:274-293 | one new active token with no predecessor |
| TokenService.TokenTable.Refresh | internal/auth/service.go:153-222 | when each reply comes; a successor of the same user and tenant with the fresh expiry, the old row pointing at it, other rows unchanged; on reuse exactly the user's live tokens revoked; otherwise nothing |
| TokenService.TokenTable.Logout | internal/auth/service.go:224-250 | revokes the token if it is live; a dead one is no error |
| TokenService.TokenTable.RevokeAllUserRefreshTokens | internal/auth/repository.go:190-196 | exactly the user's active tokens become revoked |
| TokenService.RefreshKeepsForest | internal/auth/service.go:187-210 | a refresh run alone keeps the forest |
| TokenService.ReuseKillsAll | internal/auth/service.go:161-168 | presenting a dead token is refused and leaves no live token of its user |
| TokenService.RefreshIsMachineRun | internal/auth/service.go:153-210 | the machine's steps of one refresh, when no other call holds a row, end with the rows and the reply of that call, in every branch |
| TokenService.LoginIsMachineRun | internal/auth/service.go:105-147 | the machine's steps of a login add one live token |
| TokenService.LogoutIsMachineRun | internal/auth/service.go:224-250 | the machine's steps of a logout that meets no lock revoke exactly the live token presented |
| TokenService.PurgeIsMachineRun | internal/auth/repository.go:190-196 | a revoke-all that meets no lock revokes exactly the user's active tokens |
| TokenService.StolenTokenEndsTheSessions | internal/auth/service.go:161-168 | replaying a rotated token ends the session of its successor and every other session of the user |
| QueueTheorems.OneOwner | internal/queue/repository.go:85-116 | any two goroutines working on one job are one, its copy agrees with the row, and the row is processing |
| QueueTheorems.GuardIsNotNeeded | internal/queue/repository.go:133-172 | with a guard on status and attempt count, which the updates do not have, every run would be the same |
| QueueTheorems.IdleForever | internal/queue/repository.go:86-95 | a delivered, failed or orphaned job is never changed and never sent again |
| QueueTheorems.TerminalIsFinal | internal/queue/repository.go:133-172 | no update moves a job out of delivered or failed |
| QueueTheorems.LosingOrphans | internal/webhook/service.go:77-79 | a goroutine that stops before its write leaves its job processing for ever, whatever happens later |
| QueueTheorems.DeliveryBound | internal/webhook/service.go:71-129 | over every run at most max(1, maxAttempts) requests and one 2xx for a job; delivered means one 2xx, failed means none; failed exactly when there is a dead letter, and only one, which says that many attempts |
| QueueTheorems.DrainStep | internal/webhook/service.go:73-128 | with endpoints configured and nothing enqueued, each claimed row and each ended attempt takes one from the measure, and no step gives it back |
| QueueTheorems.DrainedIff | internal/webhook/service.go:73-128 | the measure is spent exactly when every job is delivered, failed or orphaned |
| QueueProgress.DrainTerminates | internal/webhook/service.go:73-128 | at most that many claims and ends of attempts are still to come, and none is to come, however the run goes on, if and only if every job is delivered, failed or orphaned |
| QueueProgress.MoreWork | internal/webhook/worker.go:70-102 | as long as some job is not, four ordinary steps can do more work |
| QueueProgress.CanSettleAll | internal/webhook/worker.go:70-102 | from every reachable state ordinary steps can settle every job |
| QueueLaws.RunKeeps | internal/queue/repository.go:85-172 | the invariant behind these: claims, owners, the tally of requests and the dead letters agree with the rows |
| QueueLaws.GuardHolds | internal/queue/repository.go:133-140 | the row an owner updates is processing with the attempt count of its copy |
| QueueLaws.DecideOk | internal/webhook/service.go:71-129 | the write that ends an attempt fits the tally: delivered after one 2xx, buried with exactly the last attempt, retried below it |
| QueueProgress.CanSettle | internal/webhook/service.go:71-129 | from every reachable state every job can be delivered, failed or orphaned within ten steps without crash or failed write |
| QueueProgress.FinishPending | internal/webhook/worker.go:70-102 | from every reachable state every waiting job can be delivered |
| QueueProgress.NoRedeliveryAfterCrash | internal/queue/repository.go:86-95 | a run after which the receiver has accepted the event, the row stays processing and nothing is sent again |
| QueueService.Repository.Enqueue | internal/queue/repository.go:64-78 | one new pending row, due at once, with no attempts |
| QueueService.Repository.SelectDue | internal/queue/repository.go:89-94 | as many pending due rows as the limit allows, the longest due first |
| QueueService.Repository.ClaimPending | internal/queue/repository.go:85-116 | exactly those rows become processing, and the events are copies of them |
| QueueService.ClaimMeaning | internal/queue/repository.go:86-95 | the events are copies of distinct rows that were pending and due, at most the limit; those rows and no others are processing; a due row is left only at the limit, and none due longer than a claimed one |
| QueueService.Repository.MarkDelivered | internal/queue/repository.go:133-139 | the status of one row |
| QueueService.Repository.ScheduleRetry | internal/queue/repository.go:143-155 | status, attempt count, retry time and error of one row |
| QueueService.Repository.MoveToDeadLetter | internal/queue/repository.go:157-172 | a dead letter with the copy's attempt count, and the row failed with its own |
| QueueService.Repository.Deliver | internal/webhook/service.go:134-162 | accepted exactly for a status from 200 to 299, no endpoint exactly without one, at most one request |
| QueueService.Repository.ProcessEvent | internal/webhook/service.go:71-129 | the row after each outcome: delivered; waiting uncounted for the base delay; failed with its dead letter; or waiting, counted, around the smaller of base * 2^attempts and the cap; as it was when the write fails |
| QueueService.Repository.ProcessAll | internal/webhook/worker.go:92-101 | the writes of a batch in any order leave the rows, and the dead letters, of one order |
| QueueService.Repository.ProcessBatch | internal/webhook/worker.go:70-102 | the claimed rows processed, in any order, on top of the committed claim; nothing when the claim fails |
| QueueService.BatchRows | internal/webhook/worker.go:92-101 | each event decides its own row and no other |
| QueueService.BatchOrderIsIrrelevant | internal/webhook/worker.go:92-101 | the goroutines may finish in any order: same rows, same dead letters |
| QueueService.BatchLeavesNoneProcessing | internal/webhook/service.go:73-128 | when all writes are stored no claimed row stays processing, and its status, attempts and retry time are those of its outcome |
| QueueService.ClaimIsMachineStep | internal/queue/repository.go:85-116 | a claim of the repository is one the machine allows, with the same rows |
| QueueAlone.EventIsMachineRun | internal/webhook/service.go:71-129 | a goroutine of the machine, whatever others do, can do to the tables what ProcessEvent does, with the same one request |
| QueueAlone.DefaultsGiveNineMinutes | internal/webhook/service.go:20-26 | with the default settings five requests are made and at most nine minutes waited between them |
| Queue.Limit | internal/webhook/service.go:102 | at least one attempt, and otherwise maxAttempts |
| Backoff.JitterRange | internal/webhook/service.go:177-187 | the delays that can come out are exactly [d - d/5, d + d/5) |
| Backoff.JitterPanics | internal/webhook/service.go:181-182 | the random draw panics exactly for nominal delays of one to four nanoseconds |
| Backoff.BackoffEdges | internal/webhook/service.go:165-187 | no random draw means the nominal delay, a nominal delay that is not positive means none, a base that is not positive means the cap |
| Backoff.Pow2Adds | internal/webhook/service.go:166 | the factor is 2 to the power |
| QueueService.DelayAround | internal/webhook/service.go:165-187 | the delay of an attempt is within a fifth of the smaller of base * 2^(k-1) and the cap |
| Backoff.NominalIsTheMinimum | internal/webhook/service.go:165-171 | the nominal delay is the smaller of base * 2^(k-1) and the cap |
| Backoff.LaterWaitsLonger | internal/webhook/service.go:165-173 | below the cap a later attempt always waits longer than an earlier one, whatever is drawn |
| Backoff.TotalDelayBound | internal/webhook/service.go:165-187 | all waiting before dead-lettering after n attempts is at most 1.2 * min(base * (2^(n-1) - 1), (n-1) * cap) |

## Left out

- LedgerSerial.Serializable: a refused post may differ in its reason from the serial one, because the code re-checks the status only after the accounts (`LedgerWitness.RefusalsMayDiffer`); a call whose lock query found too few accounts counts as decided at that query's snapshot.
- QueueService.Repository.ProcessBatch: the goroutines run whole, in any order; `Queue` interleaves their statements as well.
- IdempotencyTheorems.AtMostOnce: one direction; a row past its expiry only lets a second claim in, which `OneEpochIff` says exactly, and that claim's handler may still fail (`SlowHolderCommitsTwice` shows one that commits).
- Backoff.NominalIsTheMinimum: integers for floating point, which agree for a base below 2^53 ns; an out-of-range conversion counts as capped; the last addition does not wrap, as it would only for caps above five sixths of the int64 range.
- Ledger entries are kept inside their transaction row. Entry ids and creation times are left out; entries of one transaction share their creation time, so the order in which they are read back is any.
- Postgres sums amounts exactly and the scan into int64 fails when a sum does not fit; that error is `BalanceOutOfRange`.
- Recorder failures, connection errors, cancelled contexts and commit errors of the ledger and of the token calls are one action, `Abort`, that leaves nothing; a commit that is applied but reported as failed leaves the same tables as one that is reported.
- HTTP redirects followed inside one request count as that one request, and a request that fails after the receiver has taken it counts as unanswered.
- The attempt count column is 32 bits wide; maxAttempts beyond that range is not modelled.
- Payload bytes, signatures and headers of deliveries; JSON encoding of events and audit rows.
- HTTP handlers, routing, configuration, logging, metrics, recovery, process start-up.
- Access tokens (signing one may still fail after a refresh has committed), password hashing, hashing of tokens and requests, random token generation. Request hashes are uninterpreted values, so nothing is said about two requests with one hash; token hashes are distinct ids.
- Login before the password has been accepted; registration; users and roles, but for the one question whether the user may still refresh.
- Requests without a key, tenant or readable body are refused before the first step of the idempotency machine.
- Informational 1xx status codes in the response recorder.
- Audit listing, permission lookup, table-name checks, event and job conversion: each is settled by one branch.
- Reading a transaction or a queue row by id: queries without an effect.
- Liveness the code does not provide: redelivery after a crash, progress for tenants with no endpoint, fairness of row locks.
