# Verified model of the bot's job queue and its neighbours

This project models, in Dafny, the parts of the bot that other parts rely on to be right
under concurrency and failure, and proves what they promise.

**The job queue** (`app/queue_lua.py`, `app/queue_contracts.py`, worker side in
`app/queue_runtime.py` and `app/queue_scheduling.py`). One Redis script runs every queue
command as an atomic step: it sweeps expired payloads, deadlines, leases, delays and
metadata, then executes one command. The keyspace is the value `QueueTypes.Db`; the script's
local functions are functions on it (`QueueOps`, `QueueGone`, `QueueAdmission`); its loops are
methods (`QueueLoops`, `QueueClaim`); `QueueMeaning` says in plain fields and numbers, without those
functions, what each command makes of a record and when it gives which answer, and the contracts of
the commands are stated in these terms too; `QueueServer.Store` is the namespace the script mutates,
with one method per command; `QueueRuns.Serve` is any sequence of calls at any times;
`QueueWitness` holds the runs that reach what the queue does not rule out. Beside the keyspace the proofs keep a history (`QueueInvariant.Past`): the log of
admissions, starts and settlements, all owner tokens issued, and a ledger of what counters
have lost track of. `QueueInvariant.Inv` says that every index, counter, permit, record and
history agree; `Settledown` adds that nothing is overdue. `Linked` and `Answered` say that
idempotency keys lead to their jobs.

**The neighbours**: the circuit breaker, the journalled broadcast delivery, the metrics
collector, the worker wakeup, the dashboard source cache, the alias filter rewrite and the
administrator alert limiter, each in a module of its own.

Assumptions of the queue model, stated once:

- each script call is one atomic step; Redis TIME never goes backwards; key TTLs run on the
  same clock as `now`, without rounding to milliseconds;
- the owner token of a claim is new (it is a random UUID, `app/queue_runtime.py:652`);
- task ids and identities are derived by hashes that tell their inputs apart (`QueueNaming`): a
  submission's id and identity both from user and key (`app/queue_runtime.py:242`,
  `app/queue_store.py:100-101`), a retry's child id from the operation alone and its identity from
  the parent's user and the operation (`app/queue_store.py:854-855`);
- policies are positive and execution timeouts lie between 1 and 1800 seconds, which
  `app/queue_contracts.py:77-79` and `app/queue_runtime.py:183-184` enforce;
- ids, tokens, identities and fingerprints are numbers; times are microseconds.

What turned out not to hold of the code, each with its exact condition and, except for the score,
whose failure takes 10^12 submissions, a run that reaches the failure:

- **Payload bytes.** The byte counter can stay too high. A sweep loses bytes if and only if a
  record with a payload still accounted is removed by its own time to live (`LostExactly`; run
  `LossHappens`: a retained payload and a silent day). In a run that overwrites no record, whose
  silences are at most 85500 seconds and whose sweeps each find at most 256 due payloads, it never
  happens: the counter is the true sum in every state (`Serve`, `Run`).
- **Terminal-state counters.** An erasure leaves a state counter too high by exactly the number of
  picked ids whose record was already gone (`Store.Erase`; run `StateLeakHappens`: 257 records
  expire together, the metadata sweep takes 256). All other counters are always exact.
- **Overwritten records.** The script checks the identity of a submission only, so one whose
  identity is unknown overwrites whatever is stored under its id. `Store.Admit` and `Store.Retry`
  model this; the keyspace stays consistent if and only if no index knew the id (`AcceptedExactly`,
  `RetriedExactly`, `Dispatch`). It happens in exactly three ways (`OverwriteWays`):
  the same user's record outlived its key, which takes a silence of more than 82790 seconds (run
  `OverwriteHappens`); the record is gone and its metadata still waits, which takes more than 256
  due entries at once; or an operation is sent again for a job of another user after its key has
  expired or was erased, while the first child is stored (run `ForeignRetryHappens`, which needs
  neither silence nor backlog). In a run without long silences and backlogs only the third way is
  left, and none while every operation is used for one parent (`OverwriteForeign`, `NoneForeign`,
  `Serve`, `Run`). A run ends with the first call that overwrites.
- **Idempotency of active jobs.** In a run that overwrites no record, every call but an erasure
  keeps the identity of each active job answered with that job, at any timing. An erasure does if
  and only if no key it deletes belongs to an active job that stays (`ErasureExact`,
  `Store.Erase`; run `UntidyErasure`: a second user's key, once an alias of the erased job, is taken
  from the second user's own active job). Without a silence of more than 82790 seconds every
  erasure is tidy (`LinkedTidy`).
- **Ready score.** It orders two jobs by priority and submission exactly while the more urgent one
  came less than 10^12 submissions per step of priority later (`ScoreOrderExact`); until 10^12
  submissions the claimed job therefore precedes every other eligible one (`ClaimOrder`).
- **Breaker.** The probe protocol holds for every configuration with
  `failure_threshold <= max_failures + 1` and fails for every other one (`Stuck`).

## Model

| member | source | states |
|---|---|---|
| QueueServer.Store.Sweep | app/queue_lua.py:83-134 | record by record and field by field: a live job whose payload entry was met or whose deadline is over ends in unknown delivery if it was running with effects and expires otherwise, with its reason; a lapsed lease ends in unknown delivery, is cancelled, fails at its last attempt, expires past the queue deadline, or goes back with its attempts; a due delayed job is queued; everything else is unchanged; records, idempotency, operation and payload keys leave exactly by their time to live or with a retired id; whatever the scan order, the payload scan takes the first 256 due entries, the metadata scan retires the first 256 due ones, and a scan that fits its limit leaves nothing due, no active job without its payload and no owner without its record |
| QueueServer.Store.Claim | app/queue_lua.py:205-235 | of the queued jobs of the lane that have their payload and no image job in their way, the first by rank is started: running, one attempt and one revision more, owned by the token, heartbeat now; a daily job of user 0 gets its timeout, or 1800 or 600 seconds by kind, and 10 more as deadline and payload time, any other keeps its own; nothing is started exactly if the lane is paused, runs 3, 2 or 1 jobs, or has no such job; a job ranked before it ends exactly if its payload is gone, all others are untouched |
| QueueServer.Store.Heartbeat | app/queue_lua.py:250-256 | succeeds exactly for the current owner of a running or cancelled start at the current revision, sets the heartbeat, renews lease and permit together, and changes nothing else |
| QueueServer.Store.Finish | app/queue_lua.py:248-278 | settles exactly the start its token owns; a repeat returns without change; a caller that lost the job changes nothing; the record afterwards, by outcome: ambiguous is unknown delivery, else a cancelled job is cancelled, success succeeds, permanent failure fails without a payload, a retryable failure fails at the last attempt, expires if its delay passes the queue deadline, and otherwise waits or is queued by delay, each with its reason, retry eligibility and payload time; the settlement enters the history; the payload stays exactly while it is accounted for |
| QueueServer.Store.Cancel | app/queue_lua.py:279-301 | each reply has its exact condition and a repeat names the stored target; done: a running job is asked, a waiting one ends cancelled, a finished one stays, and the operation is filed under the job for a day; otherwise nothing changes |
| QueueServer.Store.SetLane | app/queue_lua.py:290-297 | each reply has its exact condition; done: the lane is at the next revision with the given pause switches and its own policy, the operation is filed for a day, and nothing else changes |
| QueueServer.Store.Admit | app/queue_lua.py:139-195 | each answer has its exact condition in numbers: known identity with equal or other fingerprint, first conflict key held with or without room for a name, lane paused, payload above the smallest of three limits, lane full, bytes above the budget, and accepted exactly if none of these; an accepted record has the request's fields, state by delay, both deadlines and its payload time, with payload, identity and lane stored; an alias only adds a name to an active job; the keyspace stays consistent exactly if no index knew the id |
| QueueServer.Store.Retry | app/queue_lua.py:279-319 | each reply has its exact condition, with admission decided for the parent's lane, size and conflict keys on the parent's own bytes; a created child has the parent's lane, user, kind, epoch, priority, effects, image work, conflict keys, timeout and payload text, is queued without attempts, and has taken over the one grant and the payload bytes; a repeat names the stored target; consistent exactly if the child's id was unknown |
| QueueServer.Store.Erase | app/queue_lua.py:333-354 | exactly the picked ids leave all indexes, in any state, with exactly their payloads, idempotency and operation keys; the ledger of each state counter grows by exactly the picked ids whose record was gone, the byte ledger not at all; active jobs that stay remain answered exactly if the erasure is tidy |
| QueueServer.Store.constructor | app/queue_lua.py:4-15 | the empty namespace at any time satisfies the invariant |
| QueueMeaning.FinishMeans | app/queue_lua.py:257-277 | the record after a settlement in plain fields, for each outcome, cancellation, attempts and deadline |
| QueueMeaning.BegunMeans | app/queue_lua.py:216-226 | the record of a started job in plain fields and seconds |
| QueueMeaning.SweptMeans | app/queue_lua.py:83-117 | what one sweep makes of a record in plain fields, for each state, deadline, lease, effect and attempt |
| QueueMeaning.CleanedMeans | app/queue_lua.py:118-133 | which idempotency, operation and payload keys a sweep leaves, by their own expiry and the retired identity sets |
| QueueMeaning.DecideMeans | app/queue_lua.py:139-168 | the exact condition of every answer to a submission, in the limits' own numbers |
| QueueMeaning.FirstHolderMeans | app/queue_lua.py:152-160 | the holder found is that of the first held conflict key, and none exactly if no key is held |
| QueueMeaning.NewJobMeans | app/queue_lua.py:169-178 | the record of an accepted submission, field by field |
| QueueMeaning.StoresMeans | app/queue_lua.py:178-191 | an accepted submission stores payload, identity, user entry and lane |
| QueueMeaning.RetryMeans | app/queue_lua.py:303-314 | the child of a retry is its parent's work over again, and the parent keeps its record without grant and payload |
| QueueMeaning.PassedMeans | app/queue_lua.py:209-215 | a job that a claim passes over ends exactly if its payload is gone and no image permit is in its way |
| QueueRuns.Dispatch | app/queue_lua.py:195-354 | every command keeps the invariant, moves records only forward and only extends the history, or it overwrites a record and leaves no consistent keyspace |
| QueueRuns.Serve | app/queue_lua.py:194-354 | over any sequence of calls at any times, up to the first call that overwrites: invariant, forward-only records, growing history, no owner regained by an old token; without long silences and backlogs a call overwrites exactly if its operation was used for another user's job, and none does while operations are used for one parent; with short silences and small payload backlogs no byte is lost track of |
| QueueRuns.Run | app/queue_lua.py:194-354 | the same for every run from the empty namespace at any Redis time, with the payload counter equal to the bytes held in calm runs |
| QueueRuns.Advance | app/queue_lua.py:194-354 | one call, sweep and command, keeps all of it or overwrites a record |
| QueueCalls.RetriedSound | app/queue_lua.py:303-317 | every way a retry can go keeps the invariant: refused without change, joined to work under way, or one new child that is its parent's work over again and a spent parent |
| QueueCalls.ReownedTransitive | app/queue_lua.py:225-226 | over a run a job gets a new owner only through a claim with a token never issued before |
| QueueLoops.SweepPayloads | app/queue_lua.py:84-93 | the first 256 due entries by score are met, all of them when they fit; each met record ends or drops its payload, every other record is untouched |
| QueueLoops.SweepDeadlines | app/queue_lua.py:94-100 | ends exactly the active jobs past their deadline; the limit of 256 cuts nothing off |
| QueueLoops.SweepLeases | app/queue_lua.py:101-110 | treats exactly the lapsed leases, each by effect, cancellation, attempts and deadline |
| QueueLoops.SweepDelayed | app/queue_lua.py:112-116 | makes ready exactly the delayed jobs of the lane that are due |
| QueueLoops.SweepAllDelayed | app/queue_lua.py:111-117 | over all four lanes, every due delayed job becomes ready |
| QueueLoops.SweepMetadata | app/queue_lua.py:118-133 | the first 256 due entries by score, all of records already gone, leave owners and metadata with exactly their idempotency keys, and nothing else does |
| QueueLoops.SweepLoops | app/queue_lua.py:83-134 | the five loops compose, record by record, to `Swept`, and owner by owner to the retirement of the first 256 due entries |
| QueueSweep.ScansComplete | app/queue_lua.py:94-112 | admission caps keep at most 242 deadlines, 7 leases and 100 ready or delayed jobs per lane, below the scan limits of 256 and 128 |
| QueueSweep.SweptEvolves | app/queue_lua.py:83-117 | a sweep moves a job only forward and leaves nothing overdue |
| QueueSweep.LostEffect | app/queue_lua.py:89-104 | an effectful job that loses payload, deadline or lease while running is untouched or ends in unknown delivery, never queued again |
| QueueClaim.Consider | app/queue_lua.py:209-232 | one iteration starts the job exactly if it is eligible; otherwise it ends for exhausted attempts or a missing payload, or waits behind the permit |
| QueueClaim.ClaimLoop | app/queue_lua.py:208-234 | starts the first eligible job of the lane, nothing exactly if there is none, and touches only the jobs ahead of it |
| QueueCommands.BeginStep | app/queue_lua.py:216-230 | a claim keeps the invariant, respects the worker cap and the image permit, and is logged |
| QueueCommands.EndStep | app/queue_lua.py:58-79 | ending a job keeps every index and counter exact and frees its conflicts, permit and payload |
| QueueCommands.ProgressTransitive | app/queue_lua.py:46-51 | forward movement of records composes over any run |
| QueueOwner.BeatStep | app/queue_lua.py:251-256 | a fenced heartbeat keeps the invariant, permit and lease in step |
| QueueOwner.FinishStep | app/queue_lua.py:257-277 | a fenced finish writes exactly the branch's record, keeps the invariant and logs one settlement of the latest start |
| QueueOwner.AskStep | app/queue_lua.py:300-300 | a cancel request keeps the lease and the owner |
| QueueAdmission.FirstHolder | app/queue_lua.py:152-160 | finds nothing exactly when no conflict key of the submission is held in the lane |
| QueueAdmission.AcceptedBounds | app/queue_lua.py:147-168 | an accepted submission is below every ceiling of its lane |
| QueueAdmission.InsertStep | app/queue_lua.py:169-192 | creating a job keeps all indexes, counters and capacity limits |
| QueueAdmission.AliasStep | app/queue_lua.py:152-160 | a conflict aliases the submission to an active job of the lane that holds one of its keys, and changes no record |
| QueueAdmission.RetryStep | app/queue_lua.py:303-316 | a retry keeps the invariant with the parent's payload credit, and the parent had no child and is none |
| QueueAdmission.SpendCredits | app/queue_lua.py:308-314 | the parent's drop gives back exactly the bytes the child was admitted on |
| QueueAdmission.RetryOrder | app/queue_lua.py:308-314 | for two different jobs, creating the child first and spending the parent first end in the same keyspace |
| QueueSteps.QuietEdit | app/queue_lua.py:25-79 | any edit that re-places its indexes and moves its counters by the record's difference keeps the whole invariant |
| QueueSteps.EvictInv | app/queue_lua.py:85-91 | ending a job whose payload was just dropped counts its bytes once |
| QueueGone.ExpireInv | app/queue_lua.py:18-20 | expiry of keys by their time to live keeps the invariant, with lost bytes entered in the ledger |
| QueueGone.RetireInv | app/queue_lua.py:119-132 | retiring a removed record keeps owner, user and state counters exact |
| QueueGone.EraseInv | app/queue_lua.py:337-353 | erasing a live record keeps every index and counter exact |
| QueueIdentity.OneIdentity | app/queue_lua.py:140-146 | no two stored records share an identity, and the identity leads to its record |
| QueueIdentity.LinkedExpire | app/queue_lua.py:73-74 | without a silence of 82790 seconds, record, identity set and keys expire together |
| QueueAnswers.ActiveIdentity | app/queue_lua.py:140-146 | no two active jobs share an identity, and a resubmission is answered with the active job |
| QueueAnswers.AnsweredExpire | app/queue_lua.py:180-181 | no passage of time removes the idempotency record of an active job before its deadline |
| QueueAnswers.AnsweredRetire | app/queue_lua.py:130-132 | the metadata sweep never deletes an idempotency key that is still in use |
| QueueAnswers.ErasureExact | app/queue_lua.py:344-349 | erasure keeps active jobs answered if and only if it is tidy |
| QueueAnswers.LinkedTidy | app/queue_lua.py:344-349 | in runs without long silences every erasure is tidy |
| QueueStock.StockedPostpone | app/queue_lua.py:264-270 | a postponed attempt has its payload until the job's own deadline |
| QueueStock.PayloadThere | app/queue_lua.py:177-179 | an active or retained job has its payload for as long as its record says, and at most a millisecond longer |
| QueueTheorems.CountersExact | app/queue_lua.py:25-51 | counters of active jobs are exact in every state; payload bytes and terminal states are never counted too low, and exactly while their ledger, whose growth `Sweep` and `Erase` fix, is empty |
| QueueTheorems.Capacity | app/queue_lua.py:147-168 | in every state a lane has at most 100, 32 or 10 active jobs, runs at most 3, 2 or 1, both equal to its counters, and holds at most 8388608 payload bytes |
| QueueLedger.LostExactly | app/queue_lua.py:84-93 | a sweep loses bytes if and only if an accounted record is removed by its own time to live |
| QueueLedger.NothingLost | app/queue_lua.py:84-93 | with the payload scan up to date nothing is lost unless the queue is silent for 85500 seconds |
| QueueSweep.SweptPrompt | app/queue_lua.py:84-93 | a sweep that reaches a due payload leaves no retained payload overdue |
| QueueLedger.TightSwept | app/queue_lua.py:84-93 | a sweep after a short silence that reaches every due payload loses nothing |
| QueueLedger.TightExact | app/queue_lua.py:25-33 | then the payload counter is the true sum of the payloads held |
| QueueWitness.LossHappens | app/queue_lua.py:84-93 | a run of the store (admit, claim, finish, a silent day, sweep) that leaves the byte counter above the bytes held |
| QueueWitness.OverwriteHappens | app/queue_lua.py:169-191 | a run in which a resubmission after a silent day overwrites a stored record and leaves no consistent keyspace |
| QueueWitness.ForeignRetryHappens | app/queue_store.py:854-855 | a calm run in which an operation sent again for another user's job overwrites the first user's child |
| QueueWitness.UntidyErasure | app/queue_lua.py:344-349 | a run in which an erasure takes the idempotency key of another user's active job |
| QueueWitness.StateLeakHappens | app/queue_lua.py:333-354 | a run of 257 jobs after which a state counter is one too high |
| QueueTheorems.ImageExclusive | app/queue_lua.py:212-229 | at most one image job is running or being cancelled in all lanes |
| QueueTheorems.PermitHeld | app/queue_lua.py:34-42 | the image permit is held exactly while an image job is running or being cancelled, so it is released with the job |
| QueueTheorems.ActiveYoung | app/queue_lua.py:217-224 | an active job is younger than 3610 seconds, well inside the day of its idempotency record |
| QueueTheorems.ScoreOrder | app/queue_lua.py:43-45 | the score order is priority, then submission, for submissions less than 10^12 apart |
| QueueTheorems.ScoreOrderExact | app/queue_lua.py:43-45 | for any two priorities the score is right exactly while the more urgent job came less than 10^12 submissions per step later; within one priority always |
| QueueTheorems.ClaimOrder | app/queue_lua.py:205-235 | until 10^12 submissions, the claimed job precedes every other eligible one by priority, then submission |
| QueueTheorems.NothingToClaim | app/queue_lua.py:205-235 | once a payload scan was complete, a lane has no eligible job exactly if all its queued jobs are image work behind a held permit |
| QueueTheorems.NoSilentReplay | app/queue_lua.py:258-276 | in any run an effectful job is started again only right after its owner settled the last start as a retryable failure |
| QueueTheorems.DisposedOnce | app/queue_lua.py:248-250 | a settlement closes the latest start of its job under that start's token, and a token settles once in the whole run |
| QueueTheorems.BoundedWork | app/queue_lua.py:303-316 | one submission causes at most six starts in any run: three, and three of at most one child that can have none |
| QueueTheorems.Finality | app/queue_lua.py:58-79 | over any stretch of a run terminal states are final, state changes raise the revision, unknown delivery is never retryable |
| QueueTheorems.LateFinish | app/queue_lua.py:250-250 | an owner that lost a job is refused in every later state, also after requeue and reclaim |
| QueueDuty.AcceptedExactly | app/queue_lua.py:169-192 | an accepted submission leaves a consistent keyspace if and only if no index knows its id |
| QueueDuty.RetriedExactly | app/queue_lua.py:303-316 | the same for the child of an operator retry, also under the parent's own id |
| QueueNaming.OverwriteWays | app/queue_store.py:854-855 | a call overwrites exactly if it creates a job and the same user's record outlived its key, the record is gone with its metadata waiting, or the operation was used for another user's job |
| QueueNaming.OverwriteForeign | app/queue_store.py:854-855 | in a linked keyspace whose metadata scan was complete, exactly the third way is left |
| QueueNaming.NoneForeign | app/queue_store.py:854-855 | and none while every operation is used for one parent |
| SortedSets.Front | app/queue_lua.py:208-208 | the first members in Redis order, all of them when they fit the limit |
| QueueWorker.InterruptedEffect | app/queue_runtime.py:677-714 | a cancelled worker, a cancelled execution or a crash of an effectful job ends in unknown delivery and cannot be retried |
| QueueWorker.StartsAgain | app/queue_runtime.py:577-591 | a finished start goes back to its lane exactly if reported retryable, with attempts and time left and no cancellation |
| QueueWorker.ExecutionSettles | app/queue_runtime.py:677-714 | a finished success succeeds, a permanent failure fails, a seen cancellation of a running job fails with its code, a cancelled job is cancelled unless its effects are in doubt, and only a lost ownership reports nothing |
| QueueWorker.BaseDoubles | app/queue_scheduling.py:14-14 | the base delay is 15 seconds doubled per attempt, at most a minute |
| QueueWorker.RetryDelayBounds | app/queue_scheduling.py:14-18 | at least 15 seconds and at least the provider's wish; without one the base and up to a fifth of it by chance, at most 72 seconds, never shorter for later attempts |
| WorkSignal.Lane.Notify | app/queue_runtime.py:487-492 | a notification sets the event every earlier worker holds and keeps the protocol |
| WorkSignal.Lane.Capture | app/queue_runtime.py:645-647 | a worker holds the event that was current before its claim |
| WorkSignal.Lane.Wake | app/queue_runtime.py:494-499 | a worker stays blocked only while all announced admissions were visible to its empty claim |
| WorkSignal.Lane.NoLostWakeup | app/queue_runtime.py:487-499 | an announced admission that an empty claim missed has set that worker's event |
| WorkSignal.NextDelay | app/queue_runtime.py:494-499 | the idle delay doubles within half a second and five seconds and restarts after a wakeup |
| CircuitBreaker.Breaker.Enter | app/circuit_breaker.py:96-120 | admits exactly in the closed state, or one probe of an open circuit whose cooldown is over |
| CircuitBreaker.Breaker.Exit | app/circuit_breaker.py:122-169 | a call of an older generation changes neither state nor failure count; the end of the probe leaves half-open; statistics go to the admitting generation |
| CircuitBreaker.Breaker.Settle | app/circuit_breaker.py:139-169 | state, count and cooldown after each kind of ending, with the probe protocol kept |
| CircuitBreaker.Breaker.Tally | app/circuit_breaker.py:134-158 | endings are counted once, in the statistics generation of their admission |
| CircuitBreaker.Breaker.OnFailure | app/circuit_breaker.py:171-191 | the circuit opens exactly when the count reaches the threshold |
| CircuitBreaker.Breaker.Monitor | app/circuit_breaker.py:248-250 | the cap on the failure count keeps the protocol |
| CircuitBreaker.Breaker.ForceOpen | app/circuit_breaker.py:280-287 | opens with a fresh generation that no call in flight belongs to |
| CircuitBreaker.Breaker.ForceClose | app/circuit_breaker.py:289-295 | closes with a fresh generation |
| CircuitBreaker.Breaker.Reset | app/circuit_breaker.py:297-308 | also starts new statistics that calls in flight do not enter |
| CircuitBreaker.Breaker.Protocol | app/circuit_breaker.py:96-169 | half-open exactly when one probe of the current generation is in flight; successes and failures never exceed requests |
| CircuitBreaker.Stuck | app/circuit_breaker.py:183-185 | every configuration with a cap below the threshold minus one can get stuck half-open without a probe |
| Delivery.Owner.Send | app/broadcast_delivery.py:67-128 | the Bot calls, the ending, the quarantine and the verdict on record of a send as functions of its two tries: a second call only after a short confirmed rate limit, none once quarantined |
| Delivery.Owner.Prepare | app/broadcast_delivery.py:68-95 | a Bot call is made exactly if nothing is quarantined, both checkpoints pass and the journal opened the attempt; quarantine exactly for a refused or unsettled attempt; otherwise the verdict and reason of each cause |
| Delivery.Owner.Transmit | app/broadcast_delivery.py:96-127 | quarantines exactly an ambiguous or unjournalled call; the verdict is that of the reply; a second try exactly after a confirmed short rate limit |
| Delivery.VerdictOf | app/broadcast_delivery.py:98-126 | unknown exactly for ambiguous replies, failed exactly for definite rejections, retryable exactly for a rate limit, the message of a receipt |
| Delivery.Owner.Deliver | app/broadcast_delivery.py:130-145 | exactly the calls of the sends, none after quarantine; failed or skipped exactly when nothing was quarantined and every Bot call was definitely rejected; sent exactly for an unquarantined delivery with a receipt whose last result is sent, and then names the last receipt; a mixture is partial delivery; without a receipt the last verdict on record stands, and without any the way the helper ended decides |
| Metrics.Collector.Process | app/metrics.py:122-211 | an event adds exactly its weight to each number |
| Metrics.Collector.Drain | app/metrics.py:223-229 | all queued events are counted, in order |
| Metrics.Collector.Snapshot | app/metrics.py:358-400 | copy and reset move the day's numbers into the flush without loss |
| Metrics.Collector.SaveGlobal | app/metrics.py:410-460 | an applied write stores the totals once |
| Metrics.Collector.SaveUsers | app/metrics.py:482-514 | an applied write stores the users' numbers once |
| Metrics.Collector.Compensate | app/metrics.py:530-556 | exactly the parts that were not stored return, on top of what arrived meanwhile |
| Metrics.Collector.FlushDay | app/metrics.py:347-559 | for any events and pruning during the three writes and before compensation, and any partial failure, each number is stored, in memory or in flight exactly once; each part is stored exactly if its write was reached and applied, and then holds what was counted when the flush began; success exactly if no write failed |
| Metrics.Collector.Meantime | app/metrics.py:93-211 | events and pruning between two steps of a flush keep every number |
| Metrics.Collector.FlushAll | app/metrics.py:213-221 | everything queued is counted and every day flushed; it succeeds if no write fails, and then the database holds for each day what was counted when its flush began, and so everything counted or queued before the call |
| Metrics.Collector.Prune | app/metrics.py:93-120 | only entries that count nothing are dropped |
| Metrics.Traffic.Flush | app/metrics.py:231-252 | an applied write raises the stored attempts to the count and never lowers them; stored attempts never exceed the counted ones, even if an applied write was reported as failed |
| SourceCache.Cache.Get | app/dashboard_sources.py:91-110 | a recent entry answers, otherwise the reader joins the one refresh of the source |
| SourceCache.Cache.Complete | app/dashboard_sources.py:115-167 | a result is cached exactly if no invalidation came since its task was created; an available stale value is within its time |
| SourceCache.Cache.Invalidate | app/dashboard_sources.py:79-83 | drops the entry and outdates the refresh in flight |
| SourceCache.Cache.CopyCurrent | app/dashboard_sources.py:85-89 | a stale value beyond its time is never handed out |
| SourceCache.Observed | app/dashboard_sources.py:119-163 | a snapshot is the value just read, partial or not, or exactly while young enough the last good one, marked stale, with the reason of the failure and the time of the last good reading |
| SourceCache.Cache.Abandon | app/dashboard_sources.py:165-167 | a cancelled refresh only frees its place |
| SourceCache.Cache.SingleFlight | app/dashboard_sources.py:103-106 | a source never has two unfinished refreshes |
| SourceCache.LateRefresh | app/dashboard_sources.py:79-167 | a refresh overtaken by an invalidation is not stored, and the next reader starts a new one |
| AliasFilters.RewritePreserves | app/command_aliases.py:283-312 | with no alias pinned, the rewritten tree accepts exactly the same messages |
| AliasFilters.RewriteIdempotent | app/command_aliases.py:283-312 | rewriting twice equals rewriting once |
| AliasFilters.RegexOwner | app/command_aliases.py:291-303 | a regex that became a command's rule finds names of that command and no other, with true witnesses |
| AliasFilters.RegexTaken | app/command_aliases.py:291-303 | a regex that finds exactly one command becomes its rule |
| AliasFilters.RewriteMeans | app/command_aliases.py:235-312 | a rewritten tree accepts exactly what is meant: a command filter also each alias that its first pinned row lets through, a regex with a sole command its native trigger or the pinned aliases of a kind it finds, and all operators as before |
| AliasFilters.PinnedReaches | app/command_aliases.py:262-290 | a rewritten tree that offers a command accepts every message with a pinned slash alias |
| AliasFilters.PinsAreLocal | app/command_aliases.py:235-280 | aliases pinned for other commands never change what a tree accepts |
| AdminAlerts.Limiter.IsRateLimited | app/admin_alerts.py:46-52 | limited exactly if the fifth-last attempt is still inside the window, counting purged history |
| AdminAlerts.Limiter.RecordAlert | app/admin_alerts.py:55-58 | any six consecutive attempts stay more than 300 seconds apart |
| AdminAlerts.Limiter.Alert | app/admin_alerts.py:103-153 | an attempt is recorded exactly if the window has room and somebody can be reached |
| AdminAlerts.Limiter.CanAlertUnauthorized | app/admin_alerts.py:68-77 | refuses exactly during the cooldown of the user |
| AdminAlerts.Limiter.RecordUnauthorized | app/admin_alerts.py:80-81 | alerts about one user stay 600 seconds apart |
| AdminAlerts.Limiter.AlertUnauthorized | app/admin_alerts.py:296-341 | an alert is sent exactly if somebody can be reached, the user's cooldown is over and the window has room |
| AdminAlerts.Limiter.WindowBound | app/admin_alerts.py:46-58 | in any run of the limiter more than five attempts take more than 300 seconds, and alerts about one user are 600 seconds apart |

## Left out

- `lookup_admission`, `read`, `load`, `progress`, `lane`, `list` and `stats` of the script: they read, or write only the result summary, and would add easy members.
- The keys `index`, `terminal` and `malformed` and the record's result summary: only `stats` and `list` read them back.
- Branches of the script that meet an index entry without its active record (stale ready, deadline and running entries): the invariant rules them out, so the loops do not carry them.
- The rejection `unknown_lane`: lanes are a closed type.
- `QueueServer.Store.Erase`: the random choice of up to 100 ids is a parameter, so picks smaller than the script makes are covered too.
- `QueueServer.Store.Finish`: delays are not negative, as `app/queue_runtime.py:577-583` computes them.
- The store adapters, the legacy queue, privacy leases, hashing, encryption and JSON of the queue.
- `WorkSignal`: a worker whose claim raised an error waits on the same event; only empty claims are modelled.
- `Delivery.Owner.Deliver`: an adaptive helper is one of the modelled sequences of sends; Bot methods other than the two journalled sends pass through unobserved and are not modelled.
- `Metrics.Collector.FlushDay`: a failed write is taken as not applied, and users without a row in the users table, whom the SQL statement skips, are taken as stored; the process-lifetime counters, error log texts and streaks are not modelled.
- `SourceCache`: the second joined try of a reader after an invalidated refresh is the caller repeating `Get`; deep copies and scopes are not modelled.
- `AliasFilters`: match data of filters, the handler installation and the validation of alias values are not modelled; pattern search and message parsing are parameters.
- `AdminAlerts`: message texts and transport; startup and shutdown notices bypass the limiter in the source and are not modelled.
- `CircuitBreaker`: logging and the scheduling of the monitor; exception classes are reduced to how they count.
- Broadcast job tables, group chat, routing, i18n, configuration loading and startup order of the bot.
