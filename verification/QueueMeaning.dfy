/** What each command does to a record, field by field and in plain numbers: no function of the
    script's own branches is used here, so these statements stand beside the model as its reference.
    Times are microseconds: a second is 1_000_000. */
module QueueMeaning {
  import opened Wrappers
  import opened QueueTypes
  import opened QueueInvariant
  import opened QueueAnswers
  import opened QueueEvents
  import opened QueueOps
  import opened QueueSteps
  import opened QueueGone
  import opened QueueSweep
  import opened QueueLoops
  import opened QueueClaim
  import opened QueueOwner
  import opened QueueAdmission

  const S: Time := 1_000_000

  // ---- records that end, wait again, or start -----------------------------------------------------------

  /** The job has ended; `kept` says that an operator may retry it, for which its payload stays 900 seconds. */
  ghost predicate EndsAs(now: Time, m: Job, m': Job, to: JobState, why: Reason, kept: bool) {
    m' == m.(state := to, reason := why, owner := None, revision := m.revision + 1,
             metadataExpiresAt := Some(now + 86400 * S), retryEligible := kept, accounted := kept,
             payloadExpiresAt := if kept then now + 900 * S else m.payloadExpiresAt)
  }

  /** Why a job whose effects may have happened is given up. */
  function Doubt(m: Job): Reason { if m.t.kind == Document then StorageUnconfirmed else InterruptedDelivery }

  function Told(reason: Option<string>): Reason {
    match reason case Some(code) => Reported(code) case None => NoReason
  }

  /** The caller still holds the start it was given, at the revision it knows. */
  predicate InCharge(d: Db, id: Id, token: Token, revision: int) {
    && id in d.jobs && (d.jobs[id].state == Running || d.jobs[id].state == CancelRequested)
    && d.jobs[id].owner == Some(token) && d.jobs[id].revision == revision
  }

  /** A settled start, by what its owner reported. `there` says that the payload is still stored. */
  ghost predicate SettlesAs(now: Time, there: bool, m: Job, m': Job, outcome: Outcome, reason: Option<string>,
      delay: Time) {
    && (outcome == Ambiguous ==> EndsAs(now, m, m', UnknownDelivery, Told(reason), false))
    && (outcome != Ambiguous && m.state == CancelRequested ==> EndsAs(now, m, m', Cancelled, CancelAsked, false))
    && (m.state == Running && outcome == Success ==> EndsAs(now, m, m', Succeeded, Told(reason), false))
    && (m.state == Running && outcome == PermanentFailure ==> EndsAs(now, m, m', Failed, Told(reason), false))
    && (m.state == Running && outcome == RetryableFailure && m.attempts >= m.t.maxAttempts ==>
          EndsAs(now, m, m', Failed, if reason == None then AttemptsExhausted else Told(reason), m.retryGrants > 0
            && there))
    && (m.state == Running && outcome == RetryableFailure && m.attempts < m.t.maxAttempts
          && now + delay >= m.t.queueDeadlineAt ==>
          EndsAs(now, m, m', Expired, RetryAfterDeadline, m.retryGrants > 0 && there))
    && (m.state == Running && outcome == RetryableFailure && m.attempts < m.t.maxAttempts
          && now + delay < m.t.queueDeadlineAt ==>
          m' == m.(state := if delay > 0 then Delayed else Queued, owner := None, reason := Told(reason),
                   revision := m.revision + 1, notBefore := now + delay, deadlineAt := m.t.queueDeadlineAt,
                   payloadExpiresAt :=
                     if m.t.user > 0 && m.t.submittedAt + 900 * S < m.t.queueDeadlineAt then m.t.submittedAt + 900 * S
                     else m.t.queueDeadlineAt))
  }

  /** The whole of a settled start: one record, stamped with the token of the start. */
  ghost predicate Settles(d: Db, d': Db, id: Id, token: Token, outcome: Outcome, reason: Option<string>, delay: Time) {
    && id in d.jobs && id in d'.jobs && d'.jobs == d.jobs[id := d'.jobs[id]] && d'.jobs[id].finishToken == Some(token)
    && SettlesAs(d.clock, id in d.payloads, d.jobs[id], d'.jobs[id].(finishToken := d.jobs[id].finishToken), outcome,
                 reason, delay)
  }

  /** The seconds a daily job of the system may run. */
  function Allowance(t: Ticket): int {
    match t.timeout
    case Some(seconds) => seconds
    case None => if t.kind == Tarot then 1800 else 600
  }

  /** A job just started: a daily job of the system gets its own time to run, all others keep theirs. */
  ghost predicate StartsAs(now: Time, m: Job, m': Job, token: Token) {
    var end := now + (Allowance(m.t) + 10) * S;
    var own := m.t.lane == Daily && m.t.user == 0;
    m' == m.(state := Running, owner := Some(token), attempts := m.attempts + 1, revision := m.revision + 1,
             heartbeatAt := now, finishToken := None,
             deadlineAt := if own then end else m.deadlineAt, payloadExpiresAt := if own then end
               else m.payloadExpiresAt)
  }

  /** A cancelled job: asked if it runs, ended if it waits, left alone if it is over. */
  ghost predicate CancelsAs(now: Time, m: Job, m': Job) {
    && (m.state == Running || m.state == CancelRequested ==>
          m' == m.(state := CancelRequested, revision := m.revision + 1, reason := CancelAsked))
    && (m.state == Queued || m.state == Delayed ==> EndsAs(now, m, m', Cancelled, CancelAsked, false))
    && (m.state !in {Queued, Delayed, Running, CancelRequested} ==> m' == m)
  }

  ghost predicate Cancels(d: Db, d': Db, id: Id) {
    && id in d.jobs && id in d'.jobs && d'.jobs == d.jobs[id := d'.jobs[id]]
    && CancelsAs(d.clock, d.jobs[id], d'.jobs[id])
  }

  // ---- the sweep -------------------------------------------------------------------------------------------

  predicate InProgress(m: Job) { m.state == Running || m.state == CancelRequested }
  predicate Live(m: Job) { m.state == Queued || m.state == Delayed || InProgress(m) }
  predicate GivenUp(now: Time, hit: bool, m: Job) { Live(m) && (hit || m.deadlineAt <= now) }
  predicate LeaseOver(now: Time, hit: bool, m: Job)
      { InProgress(m) && !GivenUp(now, hit, m) && m.heartbeatAt + 60 * S <= now }

  /** What a sweep makes of a record. `hit`: its payload entry was due and met; `there`: its payload is stored. */
  ghost predicate SweepsTo(now: Time, hit: bool, there: bool, m: Job, m': Job) {
    && (!Live(m) ==> m' == if hit then m.(accounted := false, retryEligible := false) else m)
    && (GivenUp(now, hit, m) && InProgress(m) && m.t.effectful ==>
          EndsAs(now, m, m', UnknownDelivery, if hit then PayloadExpired else Doubt(m), false))
    && (GivenUp(now, hit, m) && !(InProgress(m) && m.t.effectful) ==>
          EndsAs(now, m, m', Expired, if hit then PayloadExpired else DeadlineExceeded, false))
    && (LeaseOver(now, hit, m) && m.t.effectful ==> EndsAs(now, m, m', UnknownDelivery, Doubt(m), false))
    && (LeaseOver(now, hit, m) && !m.t.effectful && m.state == CancelRequested ==>
          EndsAs(now, m, m', Cancelled, CancelAsked, false))
    && (LeaseOver(now, hit, m) && !m.t.effectful && m.state == Running && m.attempts == m.t.maxAttempts ==>
          EndsAs(now, m, m', Failed, AttemptsExhausted, m.retryGrants > 0 && there))
    && (LeaseOver(now, hit, m) && !m.t.effectful && m.state == Running && m.attempts < m.t.maxAttempts
          && now >= m.t.queueDeadlineAt ==>
          EndsAs(now, m, m', Expired, DeadlineExceeded, m.retryGrants > 0 && there))
    && (LeaseOver(now, hit, m) && !m.t.effectful && m.state == Running && m.attempts < m.t.maxAttempts
          && now < m.t.queueDeadlineAt ==>
          m' == m.(state := Queued, owner := None, revision := m.revision + 1, deadlineAt := m.t.queueDeadlineAt))
    && (m.state == Delayed && !GivenUp(now, hit, m) && m.notBefore <= now ==>
          m' == m.(state := Queued, revision := m.revision + 1))
    && (Live(m) && !GivenUp(now, hit, m) && !LeaseOver(now, hit, m) && !(m.state == Delayed && m.notBefore <= now) ==>
          m' == m)
  }

  predicate Lasts(payloads: map<Id, Payload>, id: Id, now: Time) { id in payloads && payloads[id].expiresAt > now }

  /** The identity set of `id` is still stored and names `k`. */
  predicate NamedBy(d: Db, id: Id, k: Key, now: Time) {
    && id in d.identities && k in d.identities[id].members
    && (d.identities[id].expiresAt.Some? ==> d.identities[id].expiresAt.value > now)
  }

  /** The records after a sweep whose payload scan met the ids of `batch`. */
  ghost predicate SweepsRecords(d: Db, d': Db, now: Time, batch: set<Id>) {
    && (forall id :: id in d'.jobs <==>
          id in d.jobs && (d.jobs[id].metadataExpiresAt.Some? ==> d.jobs[id].metadataExpiresAt.value > now))
    && (forall id :: id in d'.jobs ==>
          SweepsTo(now, id in batch, Lasts(d.payloads, id, now), d.jobs[id], d'.jobs[id]))
  }

  ghost predicate SweepsNames(d: Db, d': Db, now: Time, retired: set<Id>) {
    && (forall k :: k in d'.idem <==>
          k in d.idem && d.idem[k].expiresAt > now && forall id :: id in retired ==> !NamedBy(d, id, k, now))
    && (forall k :: k in d'.idem ==>
          d'.idem[k].task == d.idem[k].task && d'.idem[k].fingerprint == d.idem[k].fingerprint)
  }

  /** The other keys after a sweep whose last scan retired the ids of `retired`. */
  ghost predicate SweepsKeys(d: Db, d': Db, now: Time, retired: set<Id>) {
    && (forall k :: k in d'.operations <==> k in d.operations && d.operations[k].expiresAt > now)
    && (forall k :: k in d'.operations ==> d'.operations[k] == d.operations[k])
    && SweepsNames(d, d', now, retired)
    && (forall id :: id in d'.payloads ==> Lasts(d.payloads, id, now) && d'.payloads[id].text == d.payloads[id].text)
  }

  // ---- operations by key --------------------------------------------------------------------------------------

  /** A repeated operation, and one key used for two. */
  predicate KnownOperation(d: Db, op: Key, fingerprint: Key) {
    op in d.operations && d.operations[op].fingerprint == fingerprint
  }
  predicate OtherOperation(d: Db, op: Key, fingerprint: Key) {
    op in d.operations && d.operations[op].fingerprint != fingerprint
  }

  /** The operation is filed for a day, under its job if it has one. */
  ghost predicate Files(d: Db, d': Db, op: Key, fingerprint: Key, target: Option<Id>, about: Option<Id>) {
    && d'.operations == d.operations[op := Operation(fingerprint, target, d.clock + 86400 * S)]
    && (about == None ==> d'.commands == d.commands)
    && (about.Some? ==> d'.commands == d.commands[about.value := FiledUnder(d, about.value) + {op}])
  }

  function FiledUnder(d: Db, id: Id): set<Key> { if id in d.commands then d.commands[id] else {} }

  /** The pause switches of a lane that no operator has set are off, at revision 0. */
  predicate AtRevision(d: Db, l: Lane, revision: int) {
    revision == if l in d.lanes then d.lanes[l].revision else 0
  }

  // ---- admission -------------------------------------------------------------------------------------------

  /** The first conflict key of a submission that is held in its lane. */
  ghost predicate FirstHeld(d: Db, l: Lane, keys: seq<Key>, i: nat) {
    i < |keys| && (l, keys[i]) in d.conflicts && forall j :: 0 <= j < i ==> (l, keys[j]) !in d.conflicts
  }

  /** Its holder can (`room`) or cannot take one more of at most 256 names. */
  ghost predicate HeldBy(d: Db, l: Lane, keys: seq<Key>, i: nat, room: bool) {
    FirstHeld(d, l, keys, i) && (room <==> |NamesOf(d, d.conflicts[(l, keys[i])])| < 256)
  }

  ghost predicate NoneHeld(d: Db, l: Lane, keys: seq<Key>)
      { forall i :: 0 <= i < |keys| ==> (l, keys[i]) !in d.conflicts }

  predicate LanePaused(d: Db, l: Lane) { l in d.lanes && d.lanes[l].admissionPaused }

  predicate SizeFits(d: Db, l: Lane, size: int, p: Policy) {
    size <= p.maxPayload && size <= 262144 && (l in d.lanes ==> size <= d.lanes[l].policy.maxPayload)
  }

  predicate RoomFor(d: Db, l: Lane, p: Policy) {
    var n := Counter(d.counts, l, Nonterminal);
    && n < p.maxJobs && n < (if l == Daily then 32 else if l == Broadcast then 10 else 100)
    && (l in d.lanes ==> n < d.lanes[l].policy.maxJobs)
  }

  predicate BytesFit(d: Db, l: Lane, size: int, credit: int, p: Policy) {
    var n := Counter(d.counts, l, PayloadBytes) + size - credit;
    n <= p.maxTotal && n <= 8388608 && (l in d.lanes ==> n <= d.lanes[l].policy.maxTotal)
  }

  /** The smallest of two limits and, if the lane has a policy, of its own. */
  predicate IsLeast(x: int, a: int, b: int, own: Option<int>) {
    x <= a && x <= b && (own.Some? ==> x <= own.value) && (x == a || x == b || own == Some(x))
  }

  function OwnAge(d: Db, l: Lane): Option<int> { if l in d.lanes then Some(d.lanes[l].policy.maxAge) else None }
  function OwnAttempts(d: Db, l: Lane): Option<int>
      { if l in d.lanes then Some(d.lanes[l].policy.maxAttempts) else None }

  /** The exact condition of every answer to a submission of `size` bytes. */
  ghost predicate AnswersTo(
      d: Db, l: Lane, size: int, keys: seq<Key>, p: Policy, identity: Key, fingerprint: Key, credit: int, a: Decision) {
    var free := identity !in d.idem && NoneHeld(d, l, keys);
    && (a.Existing? <==> identity in d.idem)
    && (a.Existing? ==> a.task == d.idem[identity].task && (a.same <==> d.idem[identity].fingerprint == fingerprint))
    && (a.Alias? <==> identity !in d.idem && exists i: nat :: HeldBy(d, l, keys, i, true))
    && (a == Refuse(IdempotencyCapacity) <==> identity !in d.idem && exists i: nat :: HeldBy(d, l, keys, i, false))
    && (forall i: nat :: a.Alias? && FirstHeld(d, l, keys, i) ==> a.task == d.conflicts[(l, keys[i])])
    && (a == Refuse(AdmissionPaused) <==> free && LanePaused(d, l))
    && (a == Refuse(PayloadTooLarge) <==> free && !LanePaused(d, l) && !SizeFits(d, l, size, p))
    && (a == Refuse(JobCapacity) <==> free && !LanePaused(d, l) && SizeFits(d, l, size, p) && !RoomFor(d, l, p))
    && (a == Refuse(ByteCapacity) <==>
          free && !LanePaused(d, l) && SizeFits(d, l, size, p) && RoomFor(d, l, p) && !BytesFit(d, l, size, credit, p))
    && (a.Accept? <==>
          free && !LanePaused(d, l) && SizeFits(d, l, size, p) && RoomFor(d, l, p) && BytesFit(d, l, size, credit, p))
    && (a.Accept? ==>
          && IsLeast(a.policy.maxAge, p.maxAge, if l == Daily then 1800 else 900, OwnAge(d, l))
          && IsLeast(a.policy.maxAttempts, p.maxAttempts, 3, OwnAttempts(d, l))
          && (l in d.lanes ==> a.lane == d.lanes[l])
          && (l !in d.lanes ==> a.lane == LaneState(0, false, false, a.policy))
          && (l !in d.lanes ==>
                && IsLeast(a.policy.maxJobs, p.maxJobs, if l == Daily then 32 else if l == Broadcast then 10
                  else 100, None)
                && IsLeast(a.policy.maxPayload, p.maxPayload, 262144, None)
                && IsLeast(a.policy.maxTotal, p.maxTotal, 8388608, None)))
  }

  function NamesOf(d: Db, id: Id): set<Key> { if id in d.identities then d.identities[id].members else {} }

  /** The record of an accepted submission, with the age and the attempts its policies leave it. */
  ghost predicate EntersAs(d: Db, q: Request, age: int, attempts: int, identity: Key, fingerprint: Key,
      parent: Option<Id>, m: Job) {
    && m.t.id == q.id && m.t.lane == q.lane && m.t.user == q.user && m.t.kind == q.kind && m.t.epoch == q.epoch
    && m.t.priority == q.priority && m.t.effectful == q.effectful && m.t.imageWork == q.imageWork
    && m.t.conflictKeys == q.conflictKeys && m.t.timeout == q.timeout && m.t.parent == parent
    && m.t.identity == identity && m.t.fingerprint == fingerprint && m.t.payloadBytes == |q.text|
    && m.t.sequence == d.sequence + 1 && m.t.submittedAt == d.clock && m.t.maxAttempts == attempts
    && m.t.queueDeadlineAt == d.clock + age * S && m.deadlineAt == d.clock + age * S
    && m.state == (if q.delay > 0 then Delayed else Queued)
    && m.notBefore == (if q.delay > 0 then d.clock + q.delay else d.clock)
    && m.payloadExpiresAt == d.clock + (if q.user > 0 && age > 900 then 900 else age) * S
    && m.revision == 1 && m.attempts == 0 && m.retryGrants == q.retryGrants && m.accounted && !m.retryEligible
    && m.owner == None && m.finishToken == None && m.metadataExpiresAt == None && m.reason == NoReason
  }

  /** An accepted submission stores its payload and its identity for a day. */
  ghost predicate Stores(d: Db, d': Db, id: Id, text: string, identity: Key, fingerprint: Key) {
    && id in d'.jobs && id in d'.payloads && d'.payloads[id] == Payload(text, d'.jobs[id].payloadExpiresAt)
    && d'.jobs[id].t.identity == identity && d'.jobs[id].t.fingerprint == fingerprint
    && identity in d'.idem && d'.idem[identity] == Idem(id, fingerprint, d.clock + 86400 * S)
    && id in d'.identities && identity in d'.identities[id].members && (d'.jobs[id].t.user, id) in d'.users
  }

  /** A submission that became another name of the job `task`. */
  ghost predicate Aliases(d: Db, d': Db, task: Id, identity: Key, fingerprint: Key) {
    && d' == d.(idem := d.idem[identity := Idem(task, fingerprint, d.clock + 86400 * S)], identities := d'.identities)
    && task in d'.identities && d'.identities[task].members == NamesOf(d, task) + {identity}
    && d'.identities == d.identities[task := d'.identities[task]]
    && d'.identities[task].expiresAt == if task in d.identities then d.identities[task].expiresAt else None
  }

  // ---- operator retry -----------------------------------------------------------------------------------

  /** When an operator may retry a job. */
  predicate MayRetry(d: Db, id: Id, revision: int, epoch: Option<int>) {
    && id in d.jobs && d.jobs[id].revision == revision && d.jobs[id].state in {Failed, Expired}
    && d.jobs[id].retryEligible && d.jobs[id].retryGrants > 0 && id in d.payloads && d.jobs[id].t.epoch == epoch
  }

  /** The child is its parent's work over again: nothing but ids, times and grants differ. */
  ghost predicate Inherits(d: Db, d': Db, id: Id, child: Id, age: int, attempts: int) {
    && id in d.jobs && id in d.payloads && child in d'.jobs && child in d'.payloads
    && var t, u, m := d'.jobs[child].t, d.jobs[id].t, d'.jobs[child];
       && t.lane == u.lane && t.user == u.user && t.kind == u.kind && t.epoch == u.epoch && t.priority == u.priority
       && t.effectful == u.effectful && t.imageWork == u.imageWork && t.conflictKeys == u.conflictKeys
       && t.timeout == u.timeout && t.parent == Some(id) && t.id == child && t.submittedAt == d.clock
       && d'.payloads[child].text == d.payloads[id].text && t.payloadBytes == |d.payloads[id].text|
       && t.maxAttempts == attempts && t.queueDeadlineAt == d.clock + age * S && t.sequence == d.sequence + 1
       && m.state == Queued && m.attempts == 0 && m.revision == 1 && m.retryGrants == 0 && m.owner == None
       && m.notBefore == d.clock && m.deadlineAt == d.clock + age * S && m.accounted && !m.retryEligible
       && m.payloadExpiresAt == d.clock + (if u.user > 0 && age > 900 then 900 else age) * S
  }

  /** The parent keeps its record and loses grant and payload. */
  ghost predicate GivesUp(m: Job, m': Job) { m' == m.(retryGrants := 0, accounted := false, retryEligible := false) }

  // ---- claim ------------------------------------------------------------------------------------------------

  /** The place of a job in the ready list of its lane: urgent first, then first come. */
  function Rank(m: Job): int { (5 - m.t.priority) * 1_000_000_000_000 + m.t.sequence }

  predicate RanksBefore(d: Db, a: Id, b: Id)
    requires a in d.jobs && b in d.jobs
  {
    Rank(d.jobs[a]) < Rank(d.jobs[b]) || (Rank(d.jobs[a]) == Rank(d.jobs[b]) && a <= b)
  }

  /** A job that a claim of the lane may start. */
  predicate Startable(d: Db, l: Lane, id: Id) {
    && id in d.jobs && d.jobs[id].state == Queued && d.jobs[id].t.lane == l && id in d.payloads
    && !(d.jobs[id].t.imageWork && d.permit.Some?)
  }

  /** A claim that starts `r` ends the jobs before it that have lost their payload, and no other. */
  ghost predicate LeavesAs(d: Db, d': Db, l: Lane, r: Option<Id>, id: Id)
    requires id in d.jobs && id in d'.jobs && (r.Some? ==> r.value in d.jobs)
  {
    var m := d.jobs[id];
    var lost := m.t.lane == l && m.state == Queued && id !in d.payloads && !(m.t.imageWork && d.permit.Some?)
      && (r.Some? ==> RanksBefore(d, id, r.value));
    && (lost ==> EndsAs(d.clock, m, d'.jobs[id], Expired, PayloadExpired, false))
    && (!lost ==> d'.jobs[id] == m)
  }

  /** A lane that starts nothing for now: paused, or at its number of workers. */
  predicate LaneStopped(d: Db, l: Lane) {
    || (l in d.lanes && d.lanes[l].claimPaused)
    || Counter(d.counts, l, RunningNow) >= (if l == Deferred then 3 else if l == Daily then 2 else 1)
  }

  /** A claim: it starts the first job that may start, and nothing exactly when there is none. */
  ghost predicate ClaimsAs(d: Db, d': Db, l: Lane, token: Token, r: Option<Id>) {
    && d'.jobs.Keys == d.jobs.Keys
    && (r == None <==> LaneStopped(d, l) || forall id :: !Startable(d, l, id))
    && (r.Some? ==>
          && r.value in d.jobs && Startable(d, l, r.value)
          && StartsAs(d.clock, d.jobs[r.value], d'.jobs[r.value], token)
          && (forall o :: o in d.jobs && Startable(d, l, o) ==> RanksBefore(d, r.value, o)))
    && (forall id :: id in d.jobs && r != Some(id) ==>
          if LaneStopped(d, l) then d'.jobs[id] == d.jobs[id] else LeavesAs(d, d', l, r, id))
  }

  // ---- the model meets its meaning --------------------------------------------------------------------------

  lemma FinishMeans(d: Db, m: Job, token: Token, outcome: Outcome, reason: Option<string>, delay: Time)
    requires Held(m.state) && m.accounted && m.t.id in d.jobs
    ensures var m' := FinishedJob(d, m, token, outcome, reason, delay);
            m'.finishToken == Some(token)
            && SettlesAs(d.clock, m.t.id in d.payloads, m, m'.(finishToken := m.finishToken), outcome, reason, delay)
  {
  }

  lemma SettleMeans(d: Db, d': Db, id: Id, token: Token, outcome: Outcome, reason: Option<string>, delay: Time,
      past: Past)
    requires id in d.jobs && Held(d.jobs[id].state)
    requires Rewrote(d, d', id, FinishedJob(d, d.jobs[id], token, outcome, reason, delay))
    requires Inv(d, past)
    ensures Settles(d, d', id, token, outcome, reason, delay)
  {
    hide Inv, FinishedJob, SettlesAs, RecordOk, PayloadsExact, ConflictsExact;
    Known(d, id, past);
    RecordRange(d.jobs[id], d.clock);
    FinishMeans(d, d.jobs[id], token, outcome, reason, delay);
  }

  lemma BegunMeans(now: Time, m: Job, token: Token)
    requires m.t.timeout.Some? ==> m.t.timeout.value <= 1800
    ensures StartsAs(now, m, Begun(now, m, token), token)
  {
  }

  lemma SweptMeans(now: Time, hit: bool, there: bool, m: Job)
    requires Active(m.state) ==> m.accounted && m.attempts <= m.t.maxAttempts
    ensures SweepsTo(now, hit, there, m, Swept(now, hit, there, m))
  {
  }

  lemma SweepMeans(d: Db, d': Db, now: Time, batch: set<Id>, past: Past)
    requires d'.jobs.Keys == Alive(d.jobs, now).Keys
    requires forall id :: id in d'.jobs ==>
      d'.jobs[id] == Swept(now, id in batch, id in ExpireKeys(d, now).payloads, d.jobs[id])
    requires Inv(d, past)
    ensures SweepsRecords(d, d', now, batch)
  {
    hide Inv, Swept, SweepsTo, RecordOk, PayloadsExact, ConflictsExact;
    forall id | id in d'.jobs
      ensures id in d.jobs && SweepsTo(now, id in batch, Lasts(d.payloads, id, now), d.jobs[id], d'.jobs[id])
    {
      Known(d, id, past);
      RecordRange(d.jobs[id], d.clock);
      SweptMeans(now, id in batch, Lasts(d.payloads, id, now), d.jobs[id]);
    }
  }

  lemma CleanedMeans(d: Db, d': Db, now: Time, retired: set<Id>)
    requires Cleaned(ExpireKeys(d, now), d', retired)
    ensures SweepsKeys(d, d', now, retired)
  {
    hide Due, Alive, Members, KeysLeft, SweepsNames;
    NamesCleaned(d, d', now, retired);
  }

  lemma NamesCleaned(d: Db, d': Db, now: Time, retired: set<Id>)
    requires KeysLeft(ExpireKeys(d, now), d', retired) && SameNames(ExpireKeys(d, now).idem, d'.idem)
    ensures SweepsNames(d, d', now, retired)
  {
    hide Alive;
    forall id, k ensures k in Members(ExpireKeys(d, now).identities, id) <==> NamedBy(d, id, k, now) { }
    hide Members, NamedBy;
  }

  lemma RecordRange(m: Job, clock: Time)
    requires RecordOk(m, clock)
    ensures m.attempts <= m.t.maxAttempts && (Active(m.state) ==> m.accounted)
    ensures m.t.timeout.Some? ==> m.t.timeout.value <= 1800
  {
  }

  lemma DecideMeans(d: Db, r: Request, p: Policy, identity: Key, fingerprint: Key, credit: int)
    ensures AnswersTo(d, r.lane, |r.text|, r.conflictKeys, p, identity, fingerprint, credit,
                      Decide(d, r, p, identity, fingerprint, credit))
  {
    hide Counter, FirstHolder, FirstHeld;
    FirstHolderMeans(d, r.lane, r.conflictKeys);
    if FirstHolder(d.conflicts, r.lane, r.conflictKeys).Some? {
      var i: nat :| Names(d, r.lane, r.conflictKeys, i);
      assert HeldBy(d, r.lane, r.conflictKeys, i, true) || HeldBy(d, r.lane, r.conflictKeys, i, false);
    }
  }

  ghost predicate Names(d: Db, l: Lane, keys: seq<Key>, i: nat) {
    FirstHeld(d, l, keys, i) && FirstHolder(d.conflicts, l, keys) == Some(d.conflicts[(l, keys[i])])
  }

  lemma {:induction false} FirstHolderMeans(d: Db, l: Lane, keys: seq<Key>)
    ensures FirstHolder(d.conflicts, l, keys) == None <==> NoneHeld(d, l, keys)
    ensures FirstHolder(d.conflicts, l, keys).Some? ==> exists i: nat :: Names(d, l, keys, i)
    ensures NoneHeld(d, l, keys) ==> forall i: nat :: !FirstHeld(d, l, keys, i)
    ensures forall i: nat, j: nat :: FirstHeld(d, l, keys, i) && FirstHeld(d, l, keys, j) ==> i == j
  {
    if keys != [] && (l, keys[0]) !in d.conflicts {
      FirstHolderMeans(d, l, keys[1..]);
      if FirstHolder(d.conflicts, l, keys[1..]).Some? {
        var i: nat :| Names(d, l, keys[1..], i);
        assert Names(d, l, keys, i + 1);
      }
    } else if keys != [] {
      assert Names(d, l, keys, 0);
    }
  }

  lemma NewJobMeans(d: Db, r: Request, q: Policy, identity: Key, fingerprint: Key, parent: Option<Id>)
    ensures EntersAs(d, r, q.maxAge, q.maxAttempts, identity, fingerprint, parent,
                     NewJob(d, r, q, identity, fingerprint, parent))
  {
  }

  lemma StoresMeans(d: Db, r: Request, a: Decision, identity: Key, fingerprint: Key, parent: Option<Id>)
    requires a.Accept?
    ensures var d' := InsertOne(d, r, a, identity, fingerprint, parent);
      Stores(d, d', r.id, r.text, identity, fingerprint) && d'.lanes == d.lanes[r.lane := a.lane]
  {
    hide AdmitCounts, AddConflicts;
  }

  lemma AliasMeans(d: Db, task: Id, identity: Key, fingerprint: Key)
    ensures Aliases(d, AliasTo(d, task, identity, fingerprint), task, identity, fingerprint)
  {
  }

  lemma RetryableMeans(d: Db, id: Id, revision: int, epoch: Option<int>)
    ensures Retryable(d, id, revision, epoch) <==> MayRetry(d, id, revision, epoch)
  {
  }

  lemma RetryMeans(d: Db, id: Id, child: Id, a: Decision, identity: Key, fingerprint: Key)
    requires id in d.jobs && id in d.payloads && a.Accept? && child != id && d.jobs[id].t.id == id
    ensures var d' := RetryOne(d, id, child, a, identity, fingerprint);
      && Inherits(d, d', id, child, a.policy.maxAge, a.policy.maxAttempts)
      && GivesUp(d.jobs[id], d'.jobs[id]) && id !in d'.payloads
      && Stores(d, d', child, d.payloads[id].text, identity, fingerprint)
  {
    hide AdmitCounts, AddConflicts, ByteCounts;
  }

  lemma PassedMeans(d: Db, d': Db, l: Lane, r: Option<Id>, id: Id, clock: Time)
    requires AllPassed(d, d', l, r) && id in d.jobs && r != Some(id) && (r.Some? ==> r.value in d.jobs)
    requires RecordOk(d.jobs[id], clock)
    ensures LeavesAs(d, d', l, r, id)
  {
    hide Undisturbed;
  }

  lemma StartableMeans(d: Db, l: Lane, id: Id, clock: Time)
    requires id in d.jobs ==> RecordOk(d.jobs[id], clock)
    ensures Eligible(d, l, id) <==> Startable(d, l, id)
  {
  }

  lemma RanksMeans(d: Db, a: Id, b: Id)
    requires a in d.jobs && b in d.jobs
    ensures Ahead(d, a, b) <==> RanksBefore(d, a, b)
  {
  }
}
