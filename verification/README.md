# Guard daemon: a verified model of its durable protocol

The guard daemon watches token and native balances of a protected account and, when an asset
arrives, rescues it with a transaction paid by a sponsor. It spends the sponsor's money under hard
limits while it survives crashes, chain reorganizations and ambiguous broadcasts. This project models
the parts that make this safe and proves what they promise, for every input and every run.

| files | part of the daemon |
|---|---|
| `StoreModel`, `StoreSteps`, `StoreInvariant`, `StorePrimitives`, `StorePromotion`, `StoreAdvance`, `StoreFlows`, `StoreTransactions`, `StoreCommit`, `StoreRuns`, `StoreFailures`, `StoreLimits`, `StoreQueue`, `StoreDelay`, `StoreAnswers`, `StoreWitness`, `BoltStore` | durable handoff store: candidates, ready queue, block index, tombstones, canonical blocks, checkpoint |
| `BudgetModel`, `BudgetSteps`, `BudgetRuns`, `BudgetAnswers`, `BudgetTheorems`, `BudgetLedger` | budget ledger: reservations, rolling and cumulative limits, overrun latch |
| `RescueState`, `RescueStore`, `RescueHistory`, `RescueUpdates`, `RescueTable` | persisted rescue incidents and the nonce floor |
| `SigningModel`, `SigningTheorems`, `SigningClock`, `SigningRepeat`, `SigningWitness`, `SigningExposure`, `SigningFunds`, `SigningSends`, `SigningDelivery`, `Coordinator` | signing protocol: reserve, sign, persist, raise the floor, expose, send, reconcile, crash, recover |
| `AdmissionModel`, `AdmissionTheorems`, `AdmissionAnswers`, `AdmissionRetry`, `Admission` | admission controller: a sliding-window limiter |
| `Fees` | fee quotes and charges in 256-bit arithmetic |
| `QuorumLogs`, `QuorumAgreement` | canonical form of provider log responses |
| `FastWatcher` | cache of recent blocks of the fast watcher |
| `Prelude`, `Sorting` | shared types, ascending listings |

Each stateful part has the same shape. A specification gives every operation as a function from state
to state. A class has the source's fields and loops, and its methods are proved equal to that
specification. The theorems are about all runs of the specification, so they hold of the classes.

## Conventions

- A database transaction is atomic: it applies in full, or it fails and leaves every table as it was.
- Identifiers and hashes are natural numbers. Digests are arbitrary functions; where two inputs must
  not collide, the lemma says so (`Digests`).
- Times are integers in nanoseconds. The zero time is `UNSET`.
- `Uint64` and `Wei` are bounded types; every wrap-around and overflow check of the source is written out.
- Clock readings, RPC answers, signer answers, failed writes and crashes are inputs of the steps, so
  every theorem quantifies over them.

## Results where the code does less than its description suggests

- **Validation is not inductive by itself.** `validateDatabase` accepts an observed candidate that
  already has an incident, and block members that are not indexed candidates. `InvIsValidatedIff` says
  these are the only two gaps, `ValidatedStep` that validation is kept where they are closed, and
  `ReachableValidates` that they are closed in every database the daemon reaches. Both matter:
  `RemovalBreaksValidation` for the first and `FastMemberForgotten` for the second, with the first one
  closed, give a validated database that one operation turns into one that fails validation.
- **Sequence counters.** Validation refuses a counter at its last value, although a successful Put
  writes it (`LastNumberIsWritten`); reachable databases pass validation exactly while neither counter
  is there. Apart from used-up numbers no operation ever reports corruption (`NeverCorrupt`).
- **FastToken members.** A candidate of that kind has no index entry, so evicting its tombstone does not
  see that a stored block still needs it. Eviction keeps the blocks readable if and only if the evicted
  candidate is indexed or no block reads as far as it (`EvictReadableIff`); `FastMemberForgotten` is a
  run from the empty store in which it does not. The store accepts such a block, but its only caller
  (internal/watcher/service.go:506) commits native and token candidates only. The theorems about runs
  therefore ask that no commit contains a FastToken.
- **Early acknowledgement.** A member of a new block is to be handled again if and only if the store does
  not hold it as acknowledged when the block is committed (`CommitBringsBack`). It may have been
  acknowledged and forgotten before: `AcknowledgedComesBack` is such a run. Once its block is committed
  this cannot happen any more (`MemberHandledOnce`).
- **Sponsor nonces.** A nonce can be signed again after a refresh of the nonce block if and only if that
  refresh is risky: it lifts the block although the nonce of some stored signed incident is covered
  neither by the durable floor nor by the floor in memory (`RepeatPossibleIff`). It takes a floor
  write that fails and a clock that then runs backwards over a deadline (`NonceRepeats`). If either
  does not happen, or in latest-state mode, no refresh is risky (`NoncesDistinct`).
- **Retry times after a failed write.** The kept latest-admission map can be ahead of the list after a
  rollback. The retry time is then late (`FailedWriteMakesRetryLate`), never early. It is exact if and
  only if some unknown token that leaves the window first has had no write taken back since its last
  listed admission (`UnknownRetryExactIff`).
- **Pruned incidents.** The one-signature guarantee ends when a finished incident that is not a claim is
  pruned, that is, once `retain` newer ones are stored (`PrunedIncidentStartsOver`; `RetainedForgets`
  with the daemon's 1024).
- **Late broadcasts.** The store does not take every record the coordinator proposes; the rows of
  `RescueUpdates` say exactly which. A broadcast, or a transaction received without confirmation, is
  refused once the reconciliation deadline has passed (`BroadcastTaken`, `ReceivedTaken`); doubt and
  expiry are taken also then (`AmbiguousTaken`, `ExpiredTaken`).
- **Fast cache.** A scan that fails part-way can leave two branches side by side, which a later
  successful scan keeps (`FailedScanLeavesTwoBranches`). One scan leaves a hash-linked run if and only
  if it succeeds, fails before it writes, or joins what is left below the failure and above the head
  (`ScanLeavesRunIff`).

## Model

| member | source | states |
|---|---|---|
| `StoreInvariant.InvIsValidatedIff` | internal/store/bolt_validation.go:16-413 | The inductive invariant is validation plus exactly two conditions: only handed-out candidates have incidents, and every block member is a stored, indexed candidate of its block. |
| `StoreInvariant.InvValidates` | internal/store/bolt_validation.go:16-234 | A database with the invariant passes validation if and only if neither sequence counter has its last value. |
| `StoreInvariant.ExpectedIsCheckpoint` | internal/store/bolt_validation.go:16-234 | The validation loop's expected checkpoint, recomputed from the blocks, is the stored one. |
| `StoreInvariant.ExpectedCovers` | internal/store/bolt_canonical.go:618-638 | The expected checkpoint ends the longest run of fully acknowledged blocks from a height: every block in it is acknowledged, the next one is not. |
| `StorePromotion.InterleaveChooses` | internal/store/bolt_candidates.go:599-690 | Alternating promotion picks as many candidates as fit, none twice, all of them staged or due. |
| `StorePromotion.InterleaveTakesFronts` | internal/store/bolt_candidates.go:599-690 | The picks are a prefix of the staged list woven with a prefix of the due list, each in its own order; while both lists last, the two prefixes differ by at most one, in favour of the side whose turn it is. |
| `StorePromotion.PromoteKeeps` | internal/store/bolt_candidates.go:599-690 | Promotion keeps all indexes consistent, fills the queue no further than its bound, and changes only staged and due candidates, to ready. |
| `StorePrimitives.EvictKeeps` | internal/store/bolt_canonical.go:503-578 | Evicting the oldest tombstones ends within the limit, never fails and keeps every index; acknowledged members of stored blocks stay stored. |
| `StorePrimitives.AddBlockKeeps` | internal/store/bolt_canonical.go:15-151 | Storing a block that continues the cursor keeps chain, membership and tombstones consistent. |
| `StorePrimitives.DropKeeps` | internal/store/bolt_canonical.go:472-501 | Deleting the baseline block and its acknowledged members keeps every index and the rest of the chain. |
| `StoreAdvance.DropUntilKeeps` | internal/store/bolt_canonical.go:472-501 | Trimming never meets an unfinished block, drops exactly the heights below its target, and keeps the invariant. |
| `StoreAdvance.TrimKeeps` | internal/store/bolt_canonical.go:472-501 | After trimming, at most the allowed number of confirmed blocks remains and nothing above the checkpoint was touched. |
| `StoreAdvance.AdvanceKeeps` | internal/store/bolt_canonical.go:420-470 | Advancing ends at a checkpoint that is acknowledged up to there and cannot be moved further; it never moves back and only acknowledged data is deleted. |
| `StoreTransactions.PutSound` | internal/store/bolt_candidates.go:15-102 | Put, in every outcome, keeps the invariant, loses no unfinished candidate, revives no acknowledged one and touches no block. |
| `StoreTransactions.PutObservedSound` | internal/store/bolt_candidates.go:104-170 | The same for PutObserved. |
| `StoreTransactions.MarkRemovedSound` | internal/store/bolt_candidates.go:172-224 | The same for MarkRemoved, which can only make an observation disappear. |
| `StoreTransactions.NextSound` | internal/store/bolt_candidates.go:257-341 | The same for Next and the promotion it may perform. |
| `StoreTransactions.PutIncidentSound` | internal/store/bolt_candidates.go:343-383 | The same for PutIncident. |
| `StoreTransactions.NackSound` | internal/store/bolt_candidates.go:417-506 | The same for Nack: the candidate is not lost. What it does to the candidate is stated by `NackDelays` and `NackAnswers`. |
| `StoreTransactions.AckSound` | internal/store/bolt_candidates.go:424-506 | Ack keeps the invariant through tombstone, promotion, checkpoint advance and trim, and acknowledges that one candidate only. |
| `StoreCommit.CommitSound` | internal/store/bolt_canonical.go:15-190 | A commit either leaves the blocks as they were or adds this one block with all its members stored and no longer merely observed; the invariant holds again. |
| `StoreRuns.StepSound` | internal/store/bolt_candidates.go:15-506 | Every one of the eight operations is sound in the sense of the rows above. |
| `StoreRuns.ValidatedStep` | internal/store/bolt_validation.go:16-413 | Every operation takes a validated database, with the two conditions validation leaves open, to one with those conditions that is validated if and only if no counter reached its last value. |
| `StoreRuns.ReachableValidates` | internal/store/bolt_validation.go:16-413 | After every sequence of operations the database passes validation if and only if no counter has its last value. |
| `StoreRuns.HistoryRun` | internal/store/bolt_canonical.go:15-190 | Over any run: committed blocks and finished members only grow, the checkpoint never moves back, and the database agrees with the whole history. |
| `StoreRuns.ChainUnbroken` | internal/store/bolt_canonical.go:420-501 | All blocks ever committed form one chain by height and parent hash; those stored are stored as committed; one no longer stored has had every member acknowledged. |
| `StoreRuns.CheckpointExact` | internal/store/bolt_canonical.go:420-470 | In every reachable state the checkpoint is the last block of the longest acknowledged prefix, and it never moves back in any continuation. |
| `StoreRuns.MemberHandledOnce` | internal/store/bolt_candidates.go:257-341 | A member of a committed block is in Replay until acknowledged; afterwards, at every later point, it is not in Replay, Put answers AlreadyAcknowledged and Next does not return it. |
| `StoreRuns.PutAnswers` | internal/store/bolt_candidates.go:710-720 | Put answers AlreadyAcknowledged for a scanned candidate that is acknowledged or forgotten. |
| `StoreRuns.NextIsReady` | internal/store/bolt_candidates.go:257-341 | Whatever Next returns is a ready candidate. |
| `StoreLimits.MarkRemovedValidatesIff` | internal/store/bolt_candidates.go:172-224 | On an arbitrary validated database, removing an observation leaves a validated one if and only if the observation has no incident. |
| `StoreLimits.RemovalBreaksValidation` | internal/store/bolt_candidates.go:172-224 | A concrete validated database that MarkRemoved turns into one that fails validation. |
| `StoreLimits.EvictReadableIff` | internal/store/bolt_canonical.go:503-578 | Evicting the oldest tombstone leaves the stored blocks readable if and only if its candidate is indexed or no block reads as far as it. |
| `StoreWitness.FastMemberForgotten` | internal/store/bolt_canonical.go:503-578 | A run from the empty store to a database that passes validation and has incidents only for what was handed out, after which one acknowledgement makes a stored block unreadable and validation fail. |
| `StoreLimits.CommitBringsBack` | internal/store/bolt_canonical.go:36-151 | A member of a new block is in Replay after the commit if and only if the store did not hold it as acknowledged before. |
| `StoreWitness.AcknowledgedComesBack` | internal/store/bolt_canonical.go:503-578 | A run from the empty store that acknowledges a candidate, evicts its tombstone and commits its block, after which the candidate is in Replay again. |
| `StoreFailures.PromoteOkIff` | internal/store/bolt_candidates.go:599-690 | With a consistent queue, promotion fails if and only if it needs more queue numbers than are left. |
| `StoreFailures.AdvanceOkIff` | internal/store/bolt_canonical.go:420-470 | On a consistent database, advancing fails if and only if the checkpoint is at the last height. |
| `StoreFailures.NeverCorrupt` | internal/store/bolt_candidates.go:15-506 | No operation on any reachable database answers that it is corrupt, as long as there are numbers left for a full queue, a tombstone and a block. |
| `StoreFailures.LastNumberIsWritten` | internal/store/bolt_validation.go:16-234 | A validated database on which one successful Put writes the last queue number, after which it fails validation. |
| `StoreQueue.PromotePromotes` | internal/store/bolt_candidates.go:599-690 | Promotion leaves the queue full, or nobody staged and nobody whose retry time has come; who was queued keeps record and number, and whoever joins gets a later number. |
| `StoreQueue.NextAnswers` | internal/store/bolt_candidates.go:257-341 | On every database with the invariant, where promotion has numbers left: Next answers with a candidate if and only if one is ready afterwards, and it is the one with the lowest number of the queue. |
| `StoreQueue.QueuedEarlierComesFirst` | cmd/guard-daemon/daemon.go:374-440 | In every run: as long as an entry ahead of a candidate is neither acknowledged nor rejected, Next does not hand out that candidate. |
| `StoreQueue.HandedOutInOrder` | cmd/guard-daemon/daemon.go:374-440 | In every run of a consumer that resolves only what it was handed: before a candidate is handed out, every entry that was ahead of it at any earlier point has been handed out. |
| `StoreDelay.NackDelays` | internal/store/bolt_candidates.go:417-506 | An accepted Nack with a retry time to come leaves exactly this candidate delayed until that time, and off the queue in both directions. |
| `StoreDelay.NackAnswers` | internal/store/bolt_candidates.go:417-506 | With numbers left, Nack is accepted if and only if it names a retry time, a ready candidate and its own incident; the other answers are invalid input for no retry time and conflict otherwise. |
| `StoreDelay.NotBeforeRetry` | internal/store/bolt_candidates.go:599-690 | After an accepted Nack, in every continuation whose clock readings stay before the retry time: the candidate stays delayed, stays in Replay and is not handed out by Next. |
| `StoreDelay.ReadyAfterRetry` | internal/store/bolt_candidates.go:599-690 | At the first reading at or after the retry time Next makes the candidate ready again, unless it leaves the queue full. |
| `StoreAnswers.PutResult` | internal/store/bolt_candidates.go:15-102 | Every answer of Put, if and only if: invalid, journal full, inserted, already pending (stored unfinished, or an observation taken up), already acknowledged (held as such, or scanned and forgotten). |
| `StoreAnswers.PutStores` | internal/store/bolt_candidates.go:15-102 | What Put accepts is stored afterwards and no longer merely observed: an observed candidate is taken up, not left as it was. |
| `StoreAnswers.PutObservedAnswers` | internal/store/bolt_candidates.go:104-170 | Every answer of PutObserved, if and only if, with exactly one new observation when it inserts and no change otherwise. |
| `StoreAnswers.MarkRemovedAnswers` | internal/store/bolt_candidates.go:172-224 | MarkRemoved succeeds if and only if the candidate is an observation, which is then gone; everything else that is not acknowledged keeps its record. |
| `StoreAnswers.PutIncidentAnswers` | internal/store/bolt_candidates.go:343-383 | An incident is taken if and only if it is well formed and its candidate was handed out; the first incident of a candidate stays. |
| `StoreAnswers.AckAnswers` | internal/store/bolt_candidates.go:424-506 | Ack succeeds if and only if it names the candidate's own incident and the candidate is ready or acknowledged; afterwards the candidate is not to be handled any more. |
| `StoreAnswers.AckRemembers` | internal/store/bolt_canonical.go:503-543 | With room for a tombstone and no stored block of its height, the candidate is stored as acknowledged afterwards. |
| `StoreAnswers.CommitNewAnswers` | internal/store/bolt_canonical.go:15-151 | A new block is a conflict if and only if it does not continue the scan or contradicts what was handed out; for lack of room if and only if window or journal are full; stored otherwise. |
| `StoreAnswers.CommitAgainAnswers` | internal/store/bolt_canonical.go:36-47 | A height that is stored already accepts exactly the same block, with the same set of members, and changes nothing. |
| `StoreAnswers.EvictKeepsNewest` | internal/store/bolt_canonical.go:503-578 | Eviction keeps exactly the newest tombstones, as many as the limit allows, and forgets only candidates of the older ones. |
| `StoreAnswers.TrimIsExact` | internal/store/bolt_canonical.go:472-501 | Trimming drops exactly the blocks that are the allowed number or more behind the checkpoint; the baseline is the first one left. |
| `BoltStoreModule.Alternate` | internal/store/bolt_candidates.go:599-690 | The two-index loop with the turn bit computes the alternating choice. |
| `BoltStoreModule.PromoteCandidates` | internal/store/bolt_candidates.go:599-690 | The promotion transaction equals the specified promotion, including queue numbers and the stored turn. |
| `BoltStoreModule.BlockComplete` | internal/store/bolt_canonical.go:618-638 | The member loop decides complete, incomplete or broken as specified. |
| `BoltStoreModule.TrimCanonicalBlocks` | internal/store/bolt_canonical.go:472-501 | The trimming loop, which writes the baseline once at the end, equals dropping block by block. |
| `BoltStoreModule.AdvanceCheckpoint` | internal/store/bolt_canonical.go:420-470 | The advancing loop equals the specified advance and trim. |
| `BoltStoreModule.AddTombstone` | internal/store/bolt_canonical.go:503-543 | The eviction loop equals repeated eviction of the oldest tombstone; a used-up counter or a taken number is corruption. |
| `BoltStoreModule.SettleAcknowledged` | internal/store/bolt_candidates.go:424-506 | Tombstone with eviction, checkpoint advance and promotion, in this order, equal the specified end of an acknowledgement; a used-up counter or a taken number is corruption. |
| `BoltStoreModule.DeleteAcknowledged` | internal/store/bolt_canonical.go:545-578 | An acknowledged candidate is deleted exactly when no stored block still needs it. |
| `BoltStoreModule.ReconcileObservations` | internal/store/bolt_canonical.go:153-190 | Observations of the height that the block does not contain are discarded; any further advanced stranger is a conflict. |
| `BoltStoreModule.BoltStore.Put` | internal/store/bolt_candidates.go:15-102 | Result and new database are those of the specification in every case (`PutResult`, `PutStores`); the invariant holds again. |
| `BoltStoreModule.BoltStore.PutObserved` | internal/store/bolt_candidates.go:104-170 | As above for PutObserved. |
| `BoltStoreModule.BoltStore.MarkRemoved` | internal/store/bolt_candidates.go:172-224 | As above for MarkRemoved. |
| `BoltStoreModule.BoltStore.Next` | internal/store/bolt_candidates.go:257-341 | As above for one round of Next, promotion first: with `NextAnswers`, the ready candidate with the lowest queue number, or nothing if and only if nobody is ready. |
| `BoltStoreModule.BoltStore.PutIncident` | internal/store/bolt_candidates.go:343-383 | As above for PutIncident. |
| `BoltStoreModule.BoltStore.Ack` | internal/store/bolt_candidates.go:424-506 | As above for Ack. |
| `BoltStoreModule.BoltStore.Nack` | internal/store/bolt_candidates.go:417-506 | As above for Nack: with `NackAnswers` and `NackDelays`, the candidate is delayed until the retry time and off the queue, or the call is refused. |
| `BoltStoreModule.BoltStore.CommitCanonicalBlock` | internal/store/bolt_canonical.go:15-190 | As above for a commit; the invariant holds again unless the block contains a FastToken. |
| `BudgetTheorems.RollingLimitsHold` | internal/budget/ledger.go:287-471 | For every run and clock under a policy without overruns, over the charges that were submitted and accepted: their sum in any hour and any day, and all of them plus open reservations, stay within their limits, in total and per network. |
| `BudgetTheorems.ReachableAccepted` | internal/budget/ledger.go:889-978 | Every reachable ledger of a bounded policy is accepted by collectUsage at every later time: records valid, index a bijection, no sum overflows, limits kept. |
| `BudgetTheorems.NeverCorrupt` | internal/budget/ledger.go:287-600 | No operation on a reachable ledger of a bounded policy answers ErrCorrupt. |
| `BudgetTheorems.ReserveGrants` | internal/budget/ledger.go:287-419 | What Reserve grants is stored under its attempt, for the network and the quote that were asked for. |
| `BudgetTheorems.HashFrozen` | internal/budget/ledger.go:421-471 | Under any policy: a reservation exposed for a hash stays exposed or committed for that hash with the same maximum, and a committed one never changes or disappears. |
| `BudgetTheorems.OverrunLatches` | internal/budget/ledger.go:858-1012 | After any accepted charge above the maximum of its reservation, in every continuation, open reservations grow in no scope and CheckSponsorCapacity always fails. |
| `BudgetTheorems.ChargesAreLogged` | internal/budget/ledger.go:446-471 | In every run, an accepted charge is in the log of submitted charges with its own amount, as the only entry of its reservation, however often it is repeated. |
| `BudgetAnswers.ReserveAnswers` | internal/budget/ledger.go:287-419 | On an accepted ledger with room, a valid new or revived request is refused for the budget if and only if a latch is closed or a limit would be passed, for the sponsor if and only if emergency reserve plus everything open plus its maximum exceed the balance, and granted otherwise. |
| `BudgetAnswers.ReserveOtherwise` | internal/budget/ledger.go:287-419 | The file is full if and only if it has no free and no released record; an attempt asked for something else is a conflict; a repetition gets its reservation back and changes none. |
| `BudgetAnswers.GrantIs` | internal/budget/ledger.go:287-419 | What is granted anew is stored under its attempt, held for the whole maximum of the request and dated at the decision; a revived reservation is indistinguishable from a new one. |
| `BudgetAnswers.GrantKeepsReserve` | internal/budget/ledger.go:1027-1038 | Whenever a reservation is granted that was not open before, emergency reserve plus everything then open is at most the balance the request reports. |
| `BudgetAnswers.CheckAnswers` | internal/budget/ledger.go:496-546 | An open reservation passes the check if and only if no charge ever ran over and the balance covers emergency reserve plus everything open; the two refusals are told apart exactly. |
| `BudgetAnswers.CheckKeepsReserve` | internal/budget/ledger.go:496-546 | Whenever the check passes, on any ledger, emergency reserve plus everything open is at most the balance. |
| `BudgetAnswers.MarkExposedAnswers` | internal/budget/ledger.go:421-444 | A reservation is exposed if and only if it is held or bound to this very hash already; it is then bound to it, dated, and nothing else changes. |
| `BudgetAnswers.ReleaseAnswers` | internal/budget/ledger.go:473-494 | A reservation is released if and only if it is held or released already; nothing else changes. |
| `BudgetAnswers.CommitAnswers` | internal/budget/ledger.go:446-471 | A charge is accepted if and only if the reservation is exposed for its transaction and covers it (or the network takes overruns), or exactly this charge is recorded already; any other one is a conflict. |
| `BudgetAnswers.CommitRecords` | internal/budget/ledger.go:446-471 | An accepted charge is recorded: committed, for its hash, with its amount; a repetition changes no record, and no other record changes. |
| `BudgetRuns.StepEffect` | internal/budget/ledger.go:287-600 | Every operation changes nothing, moves one reservation along a legal edge within capacity, or adds one after purging released records only. |
| `BudgetModel.CostQuote.Maximum` | internal/budget/interfaces.go:68-87 | A maximum exists exactly when gas and fee are positive and the worst case fits the word and the declared maximum, and it covers the worst case. |
| `BudgetModel.FitsExisting` | internal/budget/ledger.go:996-1003 | The subtraction chain means spent plus reserved is at most the limit. |
| `BudgetModel.HasCapacity` | internal/budget/ledger.go:1014-1025 | The subtraction chain means spent plus reserved plus requested is at most the limit. |
| `BudgetModel.SponsorHasCapacity` | internal/budget/ledger.go:1027-1038 | The subtraction chain means emergency plus reserved plus requested is at most the balance. |
| `BudgetLedgerModule.BudgetLedger.TotalRecords` | internal/budget/ledger.go:889-949 | The accumulation loop succeeds exactly when every record is valid and no total overflows, and its totals are the sums over all records. |
| `BudgetLedgerModule.BudgetLedger.CheckIndex` | internal/budget/ledger.go:950-965 | The index loop accepts exactly the indexes in which every attempt leads to its own record and back. |
| `BudgetLedgerModule.BudgetLedger.CollectUsage` | internal/budget/ledger.go:889-978 | collectUsage answers the exact sums, or corruption exactly for unacceptable ledgers. |
| `BudgetLedgerModule.BudgetLedger.FindOldestReleased` | internal/budget/ledger.go:858-887 | The search finds the released record with least update time, then least id, if there is a released record. |
| `BudgetLedgerModule.BudgetLedger.CheckBudget` | internal/budget/ledger.go:1005-1038 | The check on accumulated totals gives the verdict specified on the records themselves, which `ReserveAnswers` spells out: limits first, then the sponsor's reserve. |
| `BudgetLedgerModule.BudgetLedger.Reserve` | internal/budget/ledger.go:287-419 | Result and new ledger are those of the specification: repeat, revival, purge and insertion, clock clamped; `ReserveAnswers`, `ReserveOtherwise`, `GrantIs` and `GrantKeepsReserve` say which and with what effect. |
| `BudgetLedgerModule.BudgetLedger.MarkExposed` | internal/budget/ledger.go:421-444 | Result and new ledger are those of the specification (`MarkExposedAnswers`). |
| `BudgetLedgerModule.BudgetLedger.CommitFinalized` | internal/budget/ledger.go:446-471 | Result and new ledger are those of the specification, overrun rule included; with `CommitAnswers` and `CommitRecords`, an accepted charge is recorded with its own amount. |
| `BudgetLedgerModule.BudgetLedger.ReleaseProvenUnused` | internal/budget/ledger.go:473-494 | Result and new ledger are those of the specification (`ReleaseAnswers`). |
| `BudgetLedgerModule.BudgetLedger.CheckSponsorCapacity` | internal/budget/ledger.go:496-546 | Result and new ledger are those of the specification (`CheckAnswers`, `CheckKeepsReserve`). |
| `RescueState.SignedIsPermanent` | internal/store/rescue_state.go:600-677 | An accepted update of an incident with a transaction hash keeps hash, bytes, nonces and attempt. |
| `RescueState.HashMeansSigned` | internal/store/rescue_state.go:487-598 | A stored incident has a hash if and only if it has a signed transaction; every status in flight has a complete one. |
| `RescueState.TerminalAbsorbs` | internal/store/rescue_state.go:600-677 | No update of a terminal incident is a valid transition. |
| `RescueState.UpdateProgresses` | internal/store/rescue_state.go:600-641 | An accepted update of an unsigned incident strictly increases a bounded measure, or leads to Signed or a terminal status. |
| `RescueState.UpdatesAreBounded` | internal/store/rescue_state.go:600-641 | Along any chain of valid transitions from Pending there are at most 2 * MaxAttempts + 1 changing updates until Signed or terminal, and attempts never exceed MaxAttempts. |
| `RescueState.AttemptsKeepTheirDistance` | internal/store/rescue_state.go:505-641 | Along any such chain, attempt k is never recorded earlier than (k - 1) * RetryDelay after creation. |
| `RescueHistory.VersionsChain` | internal/store/rescue_state.go:24-97 | In every run of the store, the versions an incident went through since it was last stored afresh form a chain of valid transitions from Pending that ends with the stored one. |
| `RescueHistory.StoredUpdatesAreBounded` | internal/store/rescue_state.go:600-641 | In every run of the store, whatever is stored went through at most 2 * MaxAttempts + 1 changing updates until it was signed or terminal, with at most MaxAttempts attempts. |
| `RescueHistory.StoredAttemptsKeepTheirDistance` | internal/store/rescue_state.go:505-641 | In every run of the store, attempt k of what is stored was recorded no earlier than (k - 1) * RetryDelay after creation. |
| `RescueUpdates.PreparedTaken` | internal/rescue/operations.go:170-275 | A new attempt is stored if and only if the incident is pending or retryable, its retry time has come, attempts are left, the block is known and the clock has not gone back. |
| `RescueUpdates.PreparationFailedTaken` | internal/rescue/operations.go:277-294 | The same for an attempt that fails while it is prepared, which also needs a short code. |
| `RescueUpdates.RetryableTaken` | internal/rescue/operation_signing.go:415-425 | A prepared attempt can be given up for now if and only if there is a short code and the clock has not gone back. |
| `RescueUpdates.SignedTaken` | internal/rescue/operation_signing.go:270-301 | A signed transaction is stored if and only if it has a hash and bytes, uses the nonce that was prepared and the clock has not gone back. |
| `RescueUpdates.BroadcastTaken` | internal/rescue/operation_reconciliation.go:21-66 | A broadcast is stored if and only if it is recorded before the deadline by a clock that has not gone back, and only once. |
| `RescueUpdates.ReceivedTaken` | internal/rescue/operation_reconciliation.go:67-156 | The same for a transaction the provider received without confirming it. |
| `RescueUpdates.ExpiredTaken` | internal/rescue/operation_reconciliation.go:375-387 | The end of the reconciliation time can always be stored. |
| `RescueUpdates.AmbiguousTaken` | internal/rescue/operation_reconciliation.go:342-369 | Doubt with a code can be stored before and after the deadline, if and only if the clock has not gone back. |
| `RescueUpdates.OutcomeTaken` | internal/rescue/operation_outcome.go:273-298 | An outcome from a receipt is stored if and only if a broadcast or doubt was recorded before, it is not exhaustion, it fits the kind of asset and the clock has not gone back. |
| `RescueUpdates.ClosedTaken` | internal/rescue/operation_outcome.go:273-298 | Without a transaction an incident ends if and only if it fails or is exhausted, from a prepared attempt or at its retry time, by a clock that has not gone back. |
| `RescueStore.RunInv` | internal/store/rescue_state.go:24-265 | After any sequence of operations every stored incident is valid and the floor has not fallen. |
| `RescueStore.StepOnIncident` | internal/store/rescue_state.go:62-97 | One operation leaves an incident alone, replaces it along a valid transition, or prunes it, which takes a finished incident that is not a claim. |
| `RescueStore.SignedOnceWhileStored` | internal/store/rescue_state.go:213-265 | As long as it is stored, a signed incident keeps its one operation; a terminal one does not change at all. |
| `RescueStore.ClaimRemains` | internal/store/rescue_state.go:213-265 | A claim is never pruned in any continuation. |
| `RescueStore.ClaimSignsOnce` | internal/store/rescue_state.go:213-265 | From the empty store on, a claim that has signed once keeps that operation for good. |
| `RescueStore.PrunedIncidentStartsOver` | internal/store/rescue_state.go:213-265 | For every retain bound: pruning and storing again leaves an incident without a hash if and only if it was prunable with at least retain newer ones, or had no hash before. |
| `RescueHistory.RetainedForgets` | internal/rescue/operation_outcome.go:296-306 | A consistent store with 1024 newer finished incidents in which the daemon's pruning forgets the hash of a signed one. |
| `RescueTableModule.DeletedPrefix` | internal/store/rescue_state.go:213-265 | Deleting a prefix of the oldest-first list of finished incidents keeps exactly those with fewer than retain newer ones. |
| `RescueTableModule.RescueTable.Put` | internal/store/rescue_state.go:24-60 | Result and table are those of the specification: stored, returned again, or a conflict. |
| `RescueTableModule.RescueTable.Update` | internal/store/rescue_state.go:62-96 | Result and table are those of the specification: only valid transitions are written. |
| `RescueTableModule.RescueTable.RaiseNonceFloor` | internal/store/rescue_state.go:189-211 | The stored floor is the greater of the old and the new one. |
| `RescueTableModule.RescueTable.FinishedOldestFirst` | internal/store/rescue_state.go:213-265 | The loop lists every prunable incident once, sorted by update time and id. |
| `RescueTableModule.RescueTable.Prune` | internal/store/rescue_state.go:213-265 | The sort-and-delete loop equals keeping the newest finished incidents and everything not prunable. |
| `RescueTableModule.RescueTable.List` | internal/store/rescue_state.go:131-163 | Every stored incident is listed once, by ascending id. |
| `SigningTheorems.GuardClears` | internal/rescue/operation_signing.go:22-60 | Whenever the guards let a signature through, every nonce recorded as signed so far is below the floor it will use. |
| `SigningTheorems.StepKeeps` | internal/rescue/operation_signing.go:22-302 | Every step of the protocol, crash and recovery included, except a risky refresh, keeps the invariant: each recorded nonce is below the durable floor or carried by a stored incident in flight, an incident above the floor is unsent and either blocks further signing or is below the floor in memory, and recorded nonces strictly increase. |
| `SigningTheorems.NoncesNeverRepeat` | internal/rescue/operation_signing.go:284-301 | On every run without a risky refresh, the nonces of all transactions recorded as signed strictly increase and no two stored incidents share one. |
| `SigningRepeat.RepeatPossibleIff` | internal/rescue/operation_reconciliation.go:389-412 | After any run without a risky refresh, and with an incident left that can be stored and funded: the next refresh makes a continuation possible that signs an already signed nonce if and only if it is risky, that is, it lifts the block while the nonce of some stored signed incident is covered neither by the durable floor nor by the floor in memory. |
| `SigningClock.TimelyRunIsCalm` | internal/rescue/operation_reconciliation.go:346-412 | With clock readings that do not go back, no refresh is risky. |
| `SigningClock.FloorsWrittenIsCalm` | internal/rescue/operation_signing.go:284-301 | With floor writes that succeed, no refresh is risky, whatever the clock reads. |
| `SigningClock.LatestRunIsCalm` | internal/rescue/fast_reconciliation.go:32-62 | In latest-state mode no refresh is risky, whatever the clock and the writes do. |
| `SigningClock.NoncesDistinct` | internal/rescue/coordinator.go:754-815 | Under any one of the three conditions no nonce is recorded as signed twice, across crashes between the signed write and the floor write and stale Prepared incidents. |
| `SigningWitness.NonceRepeats` | internal/rescue/operation_reconciliation.go:389-412 | A run from the start, with a failed floor write and a clock that goes back, that signs the same nonce twice. |
| `SigningExposure.MarkExposedBinds` | internal/budget/ledger.go:421-444 | A successful MarkExposed binds the reservation to the hash. |
| `SigningExposure.SentIsExposed` | internal/rescue/operation_reconciliation.go:209-254 | A transaction sent at any point has, then and at all later points, its own attempt's reservation exposed or committed for exactly its hash; no attempt sends two. |
| `SigningFunds.FundedIsCovered` | internal/rescue/operation_signing.go:60-160 | The open reservation a transaction is signed against covers its gas at its fee cap, the overhead and its value. |
| `SigningFunds.RestoredIsCovered` | internal/rescue/operation_reconciliation.go:291-340 | A reservation restored from the persisted transaction covers them as well, the value of a claim included. |
| `SigningFunds.SentIsCovered` | internal/rescue/operation_reconciliation.go:209-254 | At every point of every run, every transaction sent so far has its reservation exposed or committed for its hash, and gas * fee cap + overhead + value is at most the maximum of that reservation. |
| `SigningFunds.InFlightWithinLimits` | internal/rescue/operation_reconciliation.go:209-254 | In every run with a bounded policy, the sum of gas * fee cap + overhead + value over all sent transactions not yet charged, plus every charge submitted and accepted, stays within the cumulative limits, in total and for the network. |
| `SigningSends.SendAnswers` | internal/rescue/operation_reconciliation.go:209-289 | In every run with a bounded policy, a transaction that is due is handed to the network if and only if its reservation is open and free or its own, no charge ever ran over, and the balance covers emergency reserve plus everything open. |
| `SigningSends.EverySendKeepsReserve` | internal/rescue/operation_reconciliation.go:256-289 | Every step of every run that hands a transaction to the network, for the first time or again, is a send whose balance covers emergency reserve plus everything then open, the transaction's own reservation included. |
| `SigningDelivery.GrantedIsSent` | internal/rescue/operation_signing.go:22-302 | In every run with a bounded policy: from a state at rest, a new incident the ledger grants is signed with any nonce from the floor on and handed to the network on the balance it was granted on: the check before the send passes. |
| `SigningDelivery.SentIsFinished` | internal/rescue/operation_reconciliation.go:21-66 | What was sent and is confirmed before its deadline ends with the outcome its receipt shows, however late the receipt is read. |
| `CoordinatorModule.Coordinator.RaiseNonceFloor` | internal/rescue/coordinator.go:899-903 | The floor in memory becomes the greater of the two. |
| `CoordinatorModule.Coordinator.SponsorNonce` | internal/rescue/operation_signing.go:390-402 | The nonce handed out is the raised floor, at least the pending nonce, never the last value. |
| `CoordinatorModule.Coordinator.EnsureDurableNonceFloor` | internal/rescue/operation_reconciliation.go:184-194 | Succeeds exactly if the nonce has a successor and the durable write succeeds; then both floors are above the nonce, otherwise nothing changes. |
| `CoordinatorModule.Coordinator.RefreshNonceBlock` | internal/rescue/operation_reconciliation.go:389-412 | The loop blocks exactly when the incidents cannot be listed or some stored incident blocks at this time. |
| `CoordinatorModule.Coordinator.RecoverFloors` | internal/rescue/coordinator.go:754-815 | Recovery succeeds exactly if every signed nonce has a successor and no floor write is refused; then both floors are above every signed nonce; they are never raised further than signed nonces require. |
| `CoordinatorModule.Coordinator.CheckFastInFlight` | internal/rescue/fast_reconciliation.go:32-62 | The loop allows a signature exactly when no transaction in flight concerns the asset, fewer than the maximum are in flight, and the one with the highest nonce is mined. |
| `AdmissionTheorems.HistoryWithinLimits` | internal/rescue/policy.go:149-222 | For every sequence of calls, clock and failed writes, over the requests that were answered Allowed: every window holds at most RateLimit of them, the token and source-event limits, and MaxNewUnknownTokens distinct unknown tokens. |
| `AdmissionAnswers.AllowedIffListed` | internal/rescue/policy.go:149-222 | After any run: a call whose clock and writes are in order is answered Allowed if and only if its request is listed afterwards, with an identity conflict if and only if its attempt is listed with another request, and as invalid exactly for an invalid request or a skewed clock. |
| `AdmissionAnswers.AnsweredByHistory` | internal/rescue/policy.go:188-222 | After any run, a valid request with a new attempt is answered by the requests allowed in the windows that end now, limit by limit in the order of the checks; it is allowed if and only if every limit has room and its record is written. |
| `AdmissionTheorems.DenialLastsUntilRetry` | internal/rescue/policy.go:304-372 | While only time passes, a denial keeps its reason exactly until its retry time; for the unknown-token limit, where its own retry time is right. |
| `AdmissionTheorems.LimitsAge` | internal/rescue/policy.go:315-372 | Each of the four counting limits, once reached, stays reached exactly until its own retry time; the unknown-token limit is at most lifted by time. |
| `AdmissionTheorems.LiveSplit` | internal/rescue/policy.go:269-277 | On a sorted list the live records are a suffix, so pruning from the front removes exactly the expired ones. |
| `AdmissionRetry.UnknownRetryExactIff` | internal/rescue/policy.go:205-294 | After any run, failed writes included, the unknown-token retry time is exact if and only if some unknown token that leaves the window first has had no write rolled back since its last listed admission. |
| `AdmissionRetry.RetryAtIsExact` | internal/rescue/policy.go:188-204 | After any run, failed writes included: a request denied by a limit and repeated after any calls that admit nothing is denied for the same reason exactly before the retry time it was told; for the unknown-token limit, under the condition of the row above. |
| `AdmissionRetry.UnknownRetryNeverTooEarly` | internal/rescue/policy.go:363-372 | At the time a caller is told, the unknown-token limit never still applies. |
| `AdmissionRetry.FailedWriteMakesRetryLate` | internal/rescue/policy.go:279-294 | A run with one failed write after which a retry time of 150 is given for a limit that ends at 110. |
| `Admission.PopAgrees` | internal/rescue/policy.go:279-302 | Removing the first record keeps the four count maps equal to a recount. |
| `Admission.PushAgrees` | internal/rescue/policy.go:205-213 | Adding a record keeps them equal to a recount. |
| `Admission.UnpushAgrees` | internal/rescue/policy.go:279-302 | Taking the last record back keeps them equal to a recount. |
| `Admission.AdmissionController.Expire` | internal/rescue/policy.go:269-277 | The pruning loop removes exactly the expired records with their bookkeeping; maps and list agree again. |
| `Admission.AdmissionController.RateCount` | internal/rescue/policy.go:319-330 | The backward scan counts exactly the admissions of the rate window. |
| `Admission.AdmissionController.FirstExpiryOf` | internal/rescue/policy.go:315-361 | The forward scan finds when the first matching record leaves its window. |
| `Admission.AdmissionController.UnknownRetryAt` | internal/rescue/policy.go:363-372 | The minimum over the kept map is its earliest expiry. |
| `Admission.AdmissionController.Judge` | internal/rescue/policy.go:188-204 | The verdict from the maps is the verdict from a recount of the list, in the order of the checks. |
| `Admission.AdmissionController.Rollback` | internal/rescue/policy.go:205-222 | A failed write takes the record back; the four count maps equal a recount again, the kept map is the specified upper bound. |
| `Admission.AdmissionController.Admit` | internal/rescue/policy.go:149-222 | Decision and new controller are those of the specification, failed writes included; maps and sorted list agree again. Which decision that is, `AllowedIffListed` and `AnsweredByHistory` say. |
| `Fees.MaximumFeeCostMeaning` | internal/rescue/fees.go:144-154 | The word arithmetic gives gas * cap + overhead, or an overflow error exactly when that is zero or does not fit. |
| `Fees.FeeCapFormula` | internal/rescue/fees.go:90-98 | The fee cap computed with overflow checks is min(MaxFee, 2 * base + tip) over unbounded integers. |
| `Fees.QuoteFormula` | internal/rescue/fees.go:58-113 | A quote exists exactly for the stated inputs; its cap is that formula and at least base + tip (the fee-cap rule of EIP-1559, Specification), its maximum gas * cap + overhead. |
| `Fees.SigningCovers` | internal/rescue/operation_signing.go:60-160 | What the signing path reserves covers gas at the cap, overhead and the value of a claim. |
| `Fees.SigningQuoteIff` | internal/rescue/operation_signing.go:60-160 | The signing path reserves if and only if the operation pays and its worst case is within its cap; what it reserves is the cap. |
| `Fees.ReceiptCostFormula` | internal/rescue/operation_outcome.go:150-217 | The charge of a receipt is gas used * price + additional fee + the value of a successful operation; there is one if and only if the receipt stays within the transaction and the sum is positive and fits the word. |
| `Fees.ChargeCovered` | internal/rescue/operation_outcome.go:150-217 | In bounded mode every charge accepted for a receipt is positive and at most what the signing path reserved. |
| `Fees.ChargeAccepted` | internal/budget/ledger.go:446-471 | So the ledger never refuses the charge of an exposed reservation made from that quote. |
| `Fees.NativeNetKept` | internal/rescue/fees.go:166-191 | A native rescue, charged at all, still nets the configured minimum. |
| `QuorumLogs.BigEndianInjective` | internal/rpc/quorum.go:374-390 | Fixed-width big-endian words determine their number. |
| `QuorumLogs.EncodeInjective` | internal/rpc/quorum.go:374-390 | Equal encodings come from equal logs. |
| `QuorumAgreement.LessTotal` | internal/rpc/quorum.go:321-332 | The sort order is total on logs. |
| `QuorumAgreement.LessStrict` | internal/rpc/quorum.go:321-332 | The sort order is irreflexive and asymmetric. |
| `QuorumAgreement.LessTransitive` | internal/rpc/quorum.go:321-332 | The sort order is transitive. |
| `QuorumAgreement.SortedUnique` | internal/rpc/quorum.go:299-338 | Two sorted lists with the same logs are equal. |
| `QuorumAgreement.OrderedIsChronological` | internal/rpc/quorum.go:321-332 | The agreed list ascends by block number, then transaction index, then log index. |
| `QuorumAgreement.EncodingsAgreeIff` | internal/rpc/quorum.go:299-402 | Two normalized responses have equal encodings if and only if the responses contain the same set of logs, whatever their order and repetitions. |
| `QuorumAgreement.Deduplicate` | internal/rpc/quorum.go:299-320 | The loop fails exactly on invalid or contradictory logs and otherwise keeps each log once. |
| `QuorumAgreement.NormalizeLogs` | internal/rpc/quorum.go:299-338 | Succeeds exactly on usable responses, with their sorted form without repetitions. |
| `QuorumAgreement.EqualEncoding` | internal/rpc/quorum.go:392-402 | The byte loops decide equality. |
| `QuorumAgreement.Agree` | internal/rpc/quorum.go:242-272 | There is an answer if and only if every response is usable and all contain the same set of logs; it is the normal form of every response. A mismatch is reported only for different sets of logs, malformed only for an unusable response. |
| `FastWatcherModule.ScannedIsRunIff` | internal/watcher/fast.go:45-106 | After a successful scan of a head that was not cached, the cache is a contiguous hash-linked run if and only if the part of the old cache below the meeting point was one. |
| `FastWatcherModule.ScanLeavesRunIff` | internal/watcher/fast.go:45-106 | From a hash-linked run, one scan with any answers leaves a run if and only if it succeeds, fails before it has written anything, or what it wrote joins what is left below the failure and above the head. |
| `FastWatcherModule.ScansKeepRun` | internal/watcher/fast.go:45-106 | After any sequence of scans, failed ones included, over any reorganizations and regressions, the cache is such a run as long as each scan meets that condition. |
| `FastWatcherModule.SuccessKnowsHead` | internal/watcher/fast.go:45-106 | After a scan that succeeds the cache contains the head. |
| `FastWatcherModule.FailedScanLeavesTwoBranches` | internal/watcher/fast.go:45-106 | Three scans with honest answers: one succeeds, one fails part-way, and the last finds its head known and succeeds over a cache in which two branches stand side by side. |
| `FastWatcherModule.FastWatcher.PutLogs` | internal/watcher/fast.go:84-93 | Succeeds exactly if every log belongs to the block and is accepted; queues nothing but these logs. |
| `FastWatcherModule.FastWatcher.Walk` | internal/watcher/fast.go:63-99 | The loop ends; it succeeds exactly if headers, logs and puts do down to where the branch meets the cache or the window ends, and then the branch is written over the cache. |
| `FastWatcherModule.FastWatcher.ReadHeader` | internal/watcher/fast.go:65-74 | Succeeds exactly if the header read at this height is on the branch of the head. |
| `FastWatcherModule.FastWatcher.Visit` | internal/watcher/fast.go:78-94 | The block is remembered exactly if its logs were read and all queued. |
| `FastWatcherModule.FastWatcher.Scan` | internal/watcher/fast.go:45-106 | Success exactly if headers, logs and puts succeed down to where the branch meets the cache or the window ends; the cache afterwards is the specified one, after a failure with the branch written down to the height that failed; all cached blocks have their logs queued and nothing off the branch is queued. |
| `Sorting.SortedIs` | internal/store/bolt_candidates.go:257-341 | A set of bucket keys has exactly one ascending listing. |

## Left out

- CommitSound: for blocks without FastToken members, which is all the watcher commits (internal/watcher/service.go:506); `EvictReadableIff` and `FastMemberForgotten` say what goes wrong with one.
- StepSound: for commits without FastToken members, for the same reason.
- ValidatedStep: for commits without FastToken members, for the same reason.
- ReachableValidates: for runs without such commits.
- HistoryRun: for runs without such commits.
- ChainUnbroken: for runs without such commits.
- CheckpointExact: for runs without such commits.
- MemberHandledOnce: for runs without such commits and digests that are functions of a candidate's identity; FastToken candidates are not canonical members and may be inserted again after eviction.
- StoreFailures.NeverCorrupt: for runs without such commits and digests that do not collide.
- QueuedEarlierComesFirst: for runs without such commits.
- HandedOutInOrder: for runs without such commits.
- NotBeforeRetry: for runs without such commits.
- ReadyAfterRetry: for runs without such commits, and where promotion still has queue numbers (`PromoteOkIff`).
- NextAnswers: where promotion still has queue numbers; otherwise Next answers corruption.
- CommitNewAnswers: for blocks without FastToken members, digests that do not collide, and numbers left for a full queue, a tombstone and a block.
- NoncesNeverRepeat: for runs without a risky refresh, because the general statement fails (`NonceRepeats`); `RepeatPossibleIff` is the exact condition. It concerns signatures whose signed record was written; one whose write fails is discarded and not sent.
- NoncesDistinct: needs one of its three conditions, for the same reason.
- SendAnswers: for policies in which no network allows overruns, since the ledger may otherwise be refused as corrupt.
- GrantedIsSent: for such policies, and outside latest-state mode.
- BudgetTheorems.NeverCorrupt: for policies in which no network allows overruns, since charges above their reservation are otherwise unbounded.
- BoltStore.CommitCanonicalBlock: the invariant for blocks without FastToken members; a full journal is an error result instead of a wait.
- BoltStore.Next: one round; waiting, waking and the context are not modelled.
- BoltStore: update in place of single bbolt keys is a field holding the whole database, reassigned by each transaction; the transaction's parts are methods on that value.
- Signing protocol: `SigningModel` is a step machine over values, since its steps interleave with crashes; only the loops over stored incidents are methods (`Coordinator`).
- The conflict of `rejectLateCandidate` (internal/store/bolt_candidates.go:68 and :139) is not modelled: its callers have asked `candidateAlreadyScanned` before, which covers the same candidates. `guardPersistedSend` has no callers; the status `CandidateRemoved` is never stored.
- Configuration, network and policies are fixed during a run.
- The two results of a failed admission write are named PersistenceFailed; the source reports them as a capacity limit with a persistence cause.
- Discovered tokens and their overflow flag, which no modelled operation reads.
- Record codecs, schema versions and migration, files, permissions and fsync of bbolt.
- Leases, process fences and the paid-action gate, which only forbid steps the model allows.
- RPC fan-out, deadlines, subscriptions, tickers and provider identities; answers are inputs of the steps.
- Signatures, SHA-256, Keccak, RLP and ABI encoding; a signed transaction is a record with its hash.
- Simulation, gas estimation and on-chain postcondition reads, which are outcomes of steps.
- Base-fee estimation of layer-two networks; in that mode charges are not bounded by the reservation.
- Reading a nil slice apart from an empty one inside a log; encodings treat them alike.
- Metrics, health, alerts, log redaction, configuration, the command line and deployment scripts.
