/** What every index, counter and history of the queue says about the job records. */
module QueueInvariant {
  import opened Wrappers
  import opened QueueTypes
  import opened Totals
  import opened QueueLog

  /** Auxiliary history, not stored by the source: the event log, every owner token ever
      issued, and what the counters have lost track of. */
  datatype Past = Past(log: Log, tokens: set<Token>, leaked: Counts)

  // ---- indexes -------------------------------------------------------------

  ghost predicate ReadyExact(z: map<(Lane, Id), int>, jobs: map<Id, Job>) {
    && (forall l: Lane, id: Id :: (l, id) in z <==> id in jobs && jobs[id].t.lane == l && jobs[id].state == Queued)
    && (forall l: Lane, id: Id :: (l, id) in z ==> z[(l, id)] == Score(jobs[id]))
  }

  ghost predicate DelayedExact(z: map<(Lane, Id), int>, jobs: map<Id, Job>) {
    && (forall l: Lane, id: Id :: (l, id) in z <==> id in jobs && jobs[id].t.lane == l && jobs[id].state == Delayed)
    && (forall l: Lane, id: Id :: (l, id) in z ==> z[(l, id)] == jobs[id].notBefore)
  }

  ghost predicate RunningExact(z: map<Id, int>, jobs: map<Id, Job>) {
    && (forall id :: id in z <==> id in jobs && Held(jobs[id].state))
    && (forall id :: id in z ==> z[id] == jobs[id].heartbeatAt + LEASE)
  }

  ghost predicate DeadlineExact(z: map<Id, int>, jobs: map<Id, Job>) {
    && (forall id :: id in z <==> id in jobs && Active(jobs[id].state))
    && (forall id :: id in z ==> z[id] == jobs[id].deadlineAt)
  }

  /** Entries of records Redis has already removed may remain until the sweep meets them. */
  ghost predicate PayloadExpiryExact(z: map<Id, int>, jobs: map<Id, Job>) {
    && (forall id :: id in jobs ==> (id in z <==> jobs[id].accounted))
    && (forall id :: id in jobs && id in z ==> z[id] == jobs[id].payloadExpiresAt)
  }

  ghost predicate PayloadsExact(payloads: map<Id, Payload>, jobs: map<Id, Job>) {
    forall id :: id in payloads && id in jobs ==>
      jobs[id].accounted && |payloads[id].text| == jobs[id].t.payloadBytes
  }

  ghost predicate OwnersExact(owners: map<Id, Owner>, jobs: map<Id, Job>) {
    && (forall id :: id in jobs ==> id in owners && owners[id] == OwnerOf(jobs[id]))
    && (forall id :: id in owners && id !in jobs ==> !Active(owners[id].state))
  }

  ghost predicate MetaExact(z: map<Id, int>, owners: map<Id, Owner>, jobs: map<Id, Job>) {
    && (forall id :: id in z <==> id in owners && !Active(owners[id].state))
    && (forall id :: id in z && id in jobs ==> jobs[id].metadataExpiresAt == Some(z[id]))
  }

  ghost predicate UsersExact(users: set<(int, Id)>, owners: map<Id, Owner>) {
    forall u: int, id: Id :: (u, id) in users <==> id in owners && owners[id].user == u
  }

  ghost predicate ConflictsExact(conflicts: map<(Lane, Key), Id>, jobs: map<Id, Job>) {
    && (forall l: Lane, k: Key :: (l, k) in conflicts ==>
          var id := conflicts[(l, k)];
          id in jobs && Active(jobs[id].state) && jobs[id].t.lane == l && k in jobs[id].t.conflictKeys)
    && (forall id, k :: id in jobs && Active(jobs[id].state) && k in jobs[id].t.conflictKeys ==>
          (jobs[id].t.lane, k) in conflicts && conflicts[(jobs[id].t.lane, k)] == id)
  }

  // ---- records -------------------------------------------------------------

  ghost predicate RecordOk(m: Job, clock: Time) {
    && (Active(m.state) ==> m.accounted && m.metadataExpiresAt == None)
    && (!Active(m.state) ==> m.metadataExpiresAt.Some? && m.metadataExpiresAt.value > clock)
    && (Held(m.state) <==> m.owner.Some?)
    && (m.retryEligible ==> m.accounted && (m.state == Failed || m.state == Expired))
    && m.attempts <= m.t.maxAttempts <= 3
    && m.t.payloadBytes >= 0
    && (Held(m.state) ==> m.attempts >= 1)
    && (Waiting(m.state) ==> m.attempts < m.t.maxAttempts)
    && (Waiting(m.state) ==> m.deadlineAt == m.t.queueDeadlineAt)
    && (Active(m.state) ==> m.deadlineAt < m.t.submittedAt + 3610 * SECOND)
    && m.t.queueDeadlineAt <= m.t.submittedAt + 1800 * SECOND
    && (m.t.timeout.Some? ==> 1 <= m.t.timeout.value <= 1800)
    && (m.t.parent.Some? ==> m.retryGrants <= 0)
    && (!Active(m.state) && m.accounted && m.metadataExpiresAt.Some? ==>
          m.metadataExpiresAt.value == m.payloadExpiresAt + (DAY - RETRY_KEEP))
  }

  ghost predicate RecordsOk(jobs: map<Id, Job>, clock: Time, sequence: nat) {
    && (forall id :: id in jobs ==> jobs[id].t.id == id && RecordOk(jobs[id], clock))
    && (forall id :: id in jobs ==> jobs[id].t.sequence <= sequence)
    && (forall a, b :: a in jobs && b in jobs && a != b ==> jobs[a].t.sequence != jobs[b].t.sequence)
  }

  ghost predicate LanesOk(lanes: map<Lane, LaneState>) {
    forall l :: l in lanes ==> Positive(lanes[l].policy)
  }

  // ---- counters ------------------------------------------------------------

  function Weight(l: Lane, f: Field, m: Job): int {
    if m.t.lane != l then 0
    else match f
      case Nonterminal => if Active(m.state) then 1 else 0
      case RunningNow => if Held(m.state) then 1 else 0
      case PayloadBytes => if m.accounted then m.t.payloadBytes else 0
      case InState(_) => 0
  }

  function OwnerWeight(l: Lane, s: JobState, o: Owner): int {
    if o.lane == l && o.state == s then 1 else 0
  }

  function JobWeights(jobs: map<Id, Job>, l: Lane, f: Field): map<Id, int> {
    map id | id in jobs :: Weight(l, f, jobs[id])
  }

  function OwnerWeights(owners: map<Id, Owner>, l: Lane, s: JobState): map<Id, int> {
    map id | id in owners :: OwnerWeight(l, s, owners[id])
  }

  /** The true value a counter stands for. */
  ghost function Measure(jobs: map<Id, Job>, owners: map<Id, Owner>, l: Lane, f: Field): int {
    match f
    case InState(s) => Total(OwnerWeights(owners, l, s))
    case _ => Total(JobWeights(jobs, l, f))
  }

  ghost predicate CountsExact(counts: Counts, leaked: Counts, jobs: map<Id, Job>, owners: map<Id, Owner>) {
    forall l: Lane, f: Field ::
      Counter(counts, l, f) == Measure(jobs, owners, l, f) + Counter(leaked, l, f)
  }

  /** The counters that can lose track: payload bytes and jobs in a terminal state. */
  predicate Leaky(f: Field) { f == PayloadBytes || (f.InState? && !Active(f.state)) }

  ghost predicate LeaksOk(leaked: Counts) {
    forall l: Lane, f: Field :: Counter(leaked, l, f) >= 0 && (!Leaky(f) ==> Counter(leaked, l, f) == 0)
  }

  ghost predicate CapsOk(counts: Counts) {
    forall l: Lane ::
      && Counter(counts, l, Nonterminal) <= JobCap(l)
      && Counter(counts, l, RunningNow) <= Workers(l)
      && Counter(counts, l, PayloadBytes) <= BYTE_CAP
  }

  // ---- ownership and history -------------------------------------------------

  predicate HoldsImage(m: Job, clock: Time) {
    Held(m.state) && m.owner.Some? && m.t.imageWork && m.heartbeatAt + LEASE > clock
  }

  /** The attempt that an image permit was given to. */
  predicate Backs(p: Permit, m: Job) {
    Held(m.state) && m.t.imageWork && m.owner == Some(p.token) && p.expiresAt == m.heartbeatAt + LEASE
  }

  /** An image job in progress holds the permit for exactly as long as its lease, and a permit is held by
      such a job. */
  ghost predicate PermitExact(permit: Option<Permit>, jobs: map<Id, Job>, clock: Time) {
    && (forall id :: id in jobs && HoldsImage(jobs[id], clock) ==>
          permit == Some(Permit(jobs[id].owner.value, jobs[id].heartbeatAt + LEASE)))
    && (permit.Some? ==> permit.value.expiresAt > clock && exists id :: id in jobs && Backs(permit.value, jobs[id]))
  }

  ghost predicate TokensOk(tokens: set<Token>, jobs: map<Id, Job>) {
    && (forall id :: id in jobs && jobs[id].owner.Some? ==> jobs[id].owner.value in tokens)
    && (forall id :: id in jobs && jobs[id].finishToken.Some? ==> jobs[id].finishToken.value in tokens)
    && (forall a, b :: a in jobs && b in jobs && a != b && jobs[a].owner.Some? ==> jobs[a].owner != jobs[b].owner)
  }

  ghost predicate JobLog(log: Log, m: Job) {
    var q := m.t.sequence;
    && Claims(log, q) == m.attempts
    && (m.attempts == 0 ==> Latest(log, q) == None)
    && (Held(m.state) && m.owner.Some? ==> Latest(log, q) == Some(Claimed(q, m.owner.value, m.t.effectful)))
    && (m.t.effectful && Waiting(m.state) && m.attempts > 0 ==> RetryReported(Latest(log, q)))
    && (m.retryGrants > 0 ==> !HasChild(log, q) && !IsChild(log, q))
    && (m.owner.Some? ==> !SettledBy(log, m.owner.value))
  }

  ghost predicate LogShape(log: Log, tokens: set<Token>, sequence: nat) {
    && NoReplay(log) && SettledOnce(log) && Fenced(log) && OneGeneration(log)
    && (forall q: nat :: Claims(log, q) <= 3)
    && (forall q: nat :: Mentions(log, q) ==> q <= sequence)
    && (forall t: Token :: SettledBy(log, t) ==> t in tokens)
  }

  ghost predicate JobLogs(log: Log, jobs: map<Id, Job>) {
    forall id :: id in jobs ==> JobLog(log, jobs[id])
  }

  // ---- the whole invariant ---------------------------------------------------

  ghost predicate Indexed(db: Db) {
    && ReadyExact(db.ready, db.jobs) && DelayedExact(db.delayed, db.jobs)
    && RunningExact(db.running, db.jobs) && DeadlineExact(db.deadline, db.jobs)
    && PayloadExpiryExact(db.payloadExpiry, db.jobs) && PayloadsExact(db.payloads, db.jobs)
    && OwnersExact(db.owners, db.jobs) && MetaExact(db.metaExpiry, db.owners, db.jobs)
    && UsersExact(db.users, db.owners) && ConflictsExact(db.conflicts, db.jobs)
  }

  ghost predicate Accounted(db: Db, past: Past) {
    CountsExact(db.counts, past.leaked, db.jobs, db.owners) && LeaksOk(past.leaked) && CapsOk(db.counts)
  }

  ghost predicate Recorded(db: Db, past: Past) {
    && LogShape(past.log, past.tokens, db.sequence) && JobLogs(past.log, db.jobs)
    && TokensOk(past.tokens, db.jobs)
  }

  ghost predicate Inv(db: Db, past: Past) {
    && Indexed(db)
    && RecordsOk(db.jobs, db.clock, db.sequence) && LanesOk(db.lanes)
    && Accounted(db, past)
    && PermitExact(db.permit, db.jobs, db.clock)
    && Recorded(db, past)
  }

  ghost predicate FreshJob(m: Job, clock: Time) {
    && (Active(m.state) ==> m.deadlineAt > clock)
    && (Held(m.state) ==> m.heartbeatAt + LEASE > clock)
    && (m.state == Delayed ==> m.notBefore > clock)
  }

  ghost predicate Fresh(db: Db) {
    forall id :: id in db.jobs ==> FreshJob(db.jobs[id], db.clock)
  }

  /** The payload scan has seen every retained payload in time. */
  ghost predicate PromptJob(m: Job, clock: Time) { !Active(m.state) && m.accounted ==> m.payloadExpiresAt > clock }

  ghost predicate Prompt(db: Db) {
    forall id :: id in db.jobs ==> PromptJob(db.jobs[id], db.clock)
  }

  /** The state between two script calls. */
  ghost predicate Settledown(db: Db, past: Past) { Inv(db, past) && Fresh(db) }

  // ---- one record edited -----------------------------------------------------

  /** The script's working copy of one record beside the keyspace it edits. */
  datatype Cursor = Cursor(db: Db, m: Job)

  function WeightAt(jobs: map<Id, Job>, id: Id, l: Lane, f: Field): int {
    if id in jobs then Weight(l, f, jobs[id]) else 0
  }

  function OwnerWeightAt(owners: map<Id, Owner>, id: Id, l: Lane, s: JobState): int {
    if id in owners then OwnerWeight(l, s, owners[id]) else 0
  }

  /** How far a counter must move when record `m` replaces what was stored under its id. */
  function Delta(db: Db, m: Job, l: Lane, f: Field): int {
    match f
    case InState(s) => OwnerWeight(l, s, OwnerOf(m)) - OwnerWeightAt(db.owners, m.t.id, l, s)
    case _ => Weight(l, f, m) - WeightAt(db.jobs, m.t.id, l, f)
  }

  /** How far a counter must move between two versions of one record. */
  function Shift(a: Job, b: Job, l: Lane, f: Field): int {
    match f
    case InState(s) => OwnerWeight(l, s, OwnerOf(b)) - OwnerWeight(l, s, OwnerOf(a))
    case _ => Weight(l, f, b) - Weight(l, f, a)
  }

  lemma DeltaIsShift(db: Db, m: Job, l: Lane, f: Field)
    requires OwnersExact(db.owners, db.jobs) && m.t.id in db.jobs
    ensures Delta(db, m, l, f) == Shift(db.jobs[m.t.id], m, l, f)
  {
    hide Weight, OwnerWeight;
  }

  function MetaScore(m: Job): int { if m.metadataExpiresAt.Some? then m.metadataExpiresAt.value else 0 }

  function Save(c: Cursor): Db { c.db.(jobs := c.db.jobs[c.m.t.id := c.m]) }

  // ---- one record replaced ---------------------------------------------------
  //
  // When record `m` replaces the one stored under its id, each index is either re-placed
  // for `m` or already right for it.

  ghost predicate ReadyFollows(z: map<(Lane, Id), int>, z': map<(Lane, Id), int>, jobs: map<Id, Job>, m: Job) {
    || z' == Place(z, (m.t.lane, m.t.id), m.state == Queued, Score(m))
    || (z' == z && m.t.id in jobs && (jobs[m.t.id].state == Queued <==> m.state == Queued))
    || (z' == z && m.t.id !in jobs && m.state != Queued)
  }

  ghost predicate DelayedFollows(z: map<(Lane, Id), int>, z': map<(Lane, Id), int>, jobs: map<Id, Job>, m: Job) {
    || z' == Place(z, (m.t.lane, m.t.id), m.state == Delayed, m.notBefore)
    || (z' == z && m.t.id in jobs && m.state != Delayed && jobs[m.t.id].state != Delayed)
    || (z' == z && m.t.id in jobs && m.state == Delayed && jobs[m.t.id].state == Delayed
      && m.notBefore == jobs[m.t.id].notBefore)
    || (z' == z && m.t.id !in jobs && m.state != Delayed)
  }

  ghost predicate RunningFollows(z: map<Id, int>, z': map<Id, int>, jobs: map<Id, Job>, m: Job) {
    || z' == Place(z, m.t.id, Held(m.state), m.heartbeatAt + LEASE)
    || (z' == z && m.t.id in jobs && !Held(m.state) && !Held(jobs[m.t.id].state))
    || (z' == z && m.t.id in jobs && Held(m.state) && Held(jobs[m.t.id].state)
      && m.heartbeatAt == jobs[m.t.id].heartbeatAt)
    || (z' == z && m.t.id !in jobs && !Held(m.state))
  }

  ghost predicate DeadlineFollows(z: map<Id, int>, z': map<Id, int>, jobs: map<Id, Job>, m: Job) {
    || z' == Place(z, m.t.id, Active(m.state), m.deadlineAt)
    || (z' == z && m.t.id in jobs && !Active(m.state) && !Active(jobs[m.t.id].state))
    || (z' == z && m.t.id in jobs && Active(m.state) && Active(jobs[m.t.id].state)
      && m.deadlineAt == jobs[m.t.id].deadlineAt)
  }

  ghost predicate PayloadExpiryFollows(z: map<Id, int>, z': map<Id, int>, jobs: map<Id, Job>, m: Job) {
    || z' == Place(z, m.t.id, m.accounted, m.payloadExpiresAt)
    || (z' == z && m.t.id in jobs && m.accounted == jobs[m.t.id].accounted
      && m.payloadExpiresAt == jobs[m.t.id].payloadExpiresAt)
  }

  ghost predicate PayloadsFollow(p: map<Id, Payload>, p': map<Id, Payload>, m: Job) {
    && (m.t.id in p' ==> m.accounted && |p'[m.t.id].text| == m.t.payloadBytes)
    && (forall id :: id in p' && id != m.t.id ==> id in p && p'[id] == p[id])
  }

  ghost predicate OwnersFollow(owners: map<Id, Owner>, owners': map<Id, Owner>, jobs: map<Id, Job>, m: Job) {
    || owners' == owners[m.t.id := OwnerOf(m)]
    || (owners' == owners && m.t.id in jobs && OwnerOf(jobs[m.t.id]) == OwnerOf(m))
  }

  ghost predicate MetaFollows(z: map<Id, int>, z': map<Id, int>, jobs: map<Id, Job>, m: Job) {
    && (!Active(m.state) ==> m.metadataExpiresAt.Some?)
    && (|| z' == Place(z, m.t.id, !Active(m.state), MetaScore(m))
        || (z' == z && Active(m.state) && (m.t.id in jobs ==> Active(jobs[m.t.id].state)))
        || (z' == z && m.t.id in jobs && !Active(m.state) && !Active(jobs[m.t.id].state)
          && m.metadataExpiresAt == jobs[m.t.id].metadataExpiresAt))
  }

  ghost predicate UsersFollow(users: set<(int, Id)>, users': set<(int, Id)>, jobs: map<Id, Job>, m: Job) {
    users' == users + {(m.t.user, m.t.id)} || (users' == users && m.t.id in jobs)
  }

  ghost predicate ConflictsAdded(before: map<(Lane, Key), Id>, after: map<(Lane, Key), Id>, m: Job) {
    && (forall k :: k in m.t.conflictKeys ==> (m.t.lane, k) !in before)
    && (forall l: Lane, k: Key :: (l, k) in after <==> (l, k) in before || (l == m.t.lane && k in m.t.conflictKeys))
    && (forall l: Lane, k: Key :: (l, k) in after ==>
          after[(l, k)] == if (l, k) in before then before[(l, k)] else m.t.id)
  }

  ghost predicate ConflictsFreed(before: map<(Lane, Key), Id>, after: map<(Lane, Key), Id>, m: Job) {
    && (forall l: Lane, k: Key :: (l, k) in after <==> (l, k) in before && !(l == m.t.lane && k in m.t.conflictKeys))
    && (forall l: Lane, k: Key :: (l, k) in after ==> after[(l, k)] == before[(l, k)])
  }

  ghost predicate ConflictsFollow(before: map<(Lane, Key), Id>, after: map<(Lane, Key), Id>, jobs: map<Id, Job>,
      m: Job) {
    if m.t.id !in jobs then Active(m.state) && ConflictsAdded(before, after, m)
    else if !Active(m.state) && Active(jobs[m.t.id].state) then ConflictsFreed(before, after, m)
    else after == before && (Active(m.state) <==> Active(jobs[m.t.id].state))
  }

  ghost predicate Follows(d: Db, d': Db, m: Job) {
    && (m.t.id in d.jobs ==> d.jobs[m.t.id].t == m.t) && (m.t.id in d.owners ==> m.t.id in d.jobs)
    && d'.jobs == d.jobs[m.t.id := m]
    && ReadyFollows(d.ready, d'.ready, d.jobs, m) && DelayedFollows(d.delayed, d'.delayed, d.jobs, m)
    && RunningFollows(d.running, d'.running, d.jobs, m) && DeadlineFollows(d.deadline, d'.deadline, d.jobs, m)
    && PayloadExpiryFollows(d.payloadExpiry, d'.payloadExpiry, d.jobs, m) && PayloadsFollow(d.payloads, d'.payloads, m)
    && OwnersFollow(d.owners, d'.owners, d.jobs, m) && MetaFollows(d.metaExpiry, d'.metaExpiry, d.jobs, m)
    && UsersFollow(d.users, d'.users, d.jobs, m) && ConflictsFollow(d.conflicts, d'.conflicts, d.jobs, m)
  }

  lemma ReadyNext(z: map<(Lane, Id), int>, z': map<(Lane, Id), int>, jobs: map<Id, Job>, m: Job)
    requires ReadyExact(z, jobs) && ReadyFollows(z, z', jobs, m) && (m.t.id in jobs ==> jobs[m.t.id].t == m.t)
    ensures ReadyExact(z', jobs[m.t.id := m])
  {
  }

  lemma DelayedNext(z: map<(Lane, Id), int>, z': map<(Lane, Id), int>, jobs: map<Id, Job>, m: Job)
    requires DelayedExact(z, jobs) && DelayedFollows(z, z', jobs, m) && (m.t.id in jobs ==> jobs[m.t.id].t == m.t)
    ensures DelayedExact(z', jobs[m.t.id := m])
  {
  }

  lemma RunningNext(z: map<Id, int>, z': map<Id, int>, jobs: map<Id, Job>, m: Job)
    requires RunningExact(z, jobs) && RunningFollows(z, z', jobs, m)
    ensures RunningExact(z', jobs[m.t.id := m])
  {
  }

  lemma DeadlineNext(z: map<Id, int>, z': map<Id, int>, jobs: map<Id, Job>, m: Job)
    requires DeadlineExact(z, jobs) && DeadlineFollows(z, z', jobs, m)
    ensures DeadlineExact(z', jobs[m.t.id := m])
  {
  }

  lemma PayloadExpiryNext(z: map<Id, int>, z': map<Id, int>, jobs: map<Id, Job>, m: Job)
    requires PayloadExpiryExact(z, jobs) && PayloadExpiryFollows(z, z', jobs, m)
    ensures PayloadExpiryExact(z', jobs[m.t.id := m])
  {
  }

  lemma PayloadsNext(p: map<Id, Payload>, p': map<Id, Payload>, jobs: map<Id, Job>, m: Job)
    requires PayloadsExact(p, jobs) && PayloadsFollow(p, p', m)
    ensures PayloadsExact(p', jobs[m.t.id := m])
  {
  }

  lemma OwnersNext(owners: map<Id, Owner>, owners': map<Id, Owner>, jobs: map<Id, Job>, m: Job)
    requires OwnersExact(owners, jobs) && OwnersFollow(owners, owners', jobs, m)
    ensures OwnersExact(owners', jobs[m.t.id := m]) && owners' == owners[m.t.id := OwnerOf(m)]
  {
  }

  lemma MetaNext(z: map<Id, int>, z': map<Id, int>, owners: map<Id, Owner>, jobs: map<Id, Job>, m: Job)
    requires MetaExact(z, owners, jobs) && OwnersExact(owners, jobs) && MetaFollows(z, z', jobs, m)
    requires m.t.id in owners ==> m.t.id in jobs
    ensures MetaExact(z', owners[m.t.id := OwnerOf(m)], jobs[m.t.id := m])
  {
  }

  lemma UsersNext(users: set<(int, Id)>, users': set<(int, Id)>, owners: map<Id, Owner>, jobs: map<Id, Job>, m: Job)
    requires UsersExact(users, owners) && OwnersExact(owners, jobs) && UsersFollow(users, users', jobs, m)
    requires (m.t.id in jobs ==> jobs[m.t.id].t == m.t) && (m.t.id in owners ==> m.t.id in jobs)
    ensures UsersExact(users', owners[m.t.id := OwnerOf(m)])
  {
  }

  lemma ConflictsNext(before: map<(Lane, Key), Id>, after: map<(Lane, Key), Id>, jobs: map<Id, Job>, m: Job)
    requires ConflictsExact(before, jobs) && ConflictsFollow(before, after, jobs, m)
    requires m.t.id in jobs ==> jobs[m.t.id].t == m.t
    ensures ConflictsExact(after, jobs[m.t.id := m])
  {
    var jobs' := jobs[m.t.id := m];
    forall l: Lane, k: Key | (l, k) in after
      ensures var id := after[(l, k)];
              id in jobs' && Active(jobs'[id].state) && jobs'[id].t.lane == l && k in jobs'[id].t.conflictKeys
    {
      assert (l, k) in before || after[(l, k)] == m.t.id;
    }
    forall id, k | id in jobs' && Active(jobs'[id].state) && k in jobs'[id].t.conflictKeys
      ensures (jobs'[id].t.lane, k) in after && after[(jobs'[id].t.lane, k)] == id
    {
      var l := jobs'[id].t.lane;
      if id != m.t.id { assert (l, k) in before; }
    }
  }

  lemma IndexesFollow(d: Db, d': Db, m: Job)
    requires Indexed(d) && Follows(d, d', m)
    ensures Indexed(d') && d'.owners == d.owners[m.t.id := OwnerOf(m)]
  {
    hide ReadyExact, DelayedExact, RunningExact, DeadlineExact, PayloadExpiryExact, PayloadsExact;
    hide OwnersExact, MetaExact, UsersExact, ConflictsExact;
    hide ReadyFollows, DelayedFollows, RunningFollows, DeadlineFollows, PayloadExpiryFollows, PayloadsFollow;
    hide OwnersFollow, MetaFollows, UsersFollow, ConflictsFollow;
    ReadyNext(d.ready, d'.ready, d.jobs, m);
    DelayedNext(d.delayed, d'.delayed, d.jobs, m);
    RunningNext(d.running, d'.running, d.jobs, m);
    DeadlineNext(d.deadline, d'.deadline, d.jobs, m);
    PayloadExpiryNext(d.payloadExpiry, d'.payloadExpiry, d.jobs, m);
    PayloadsNext(d.payloads, d'.payloads, d.jobs, m);
    OwnersNext(d.owners, d'.owners, d.jobs, m);
    MetaNext(d.metaExpiry, d'.metaExpiry, d.owners, d.jobs, m);
    UsersNext(d.users, d'.users, d.owners, d.jobs, m);
    ConflictsNext(d.conflicts, d'.conflicts, d.jobs, m);
  }

  lemma OwnerWeightPut(owners: map<Id, Owner>, id: Id, o: Owner, l: Lane, s: JobState)
    ensures Total(OwnerWeights(owners[id := o], l, s))
            == Total(OwnerWeights(owners, l, s)) - OwnerWeightAt(owners, id, l, s) + OwnerWeight(l, s, o)
  {
    TotalPut(OwnerWeights(owners, l, s), id, OwnerWeight(l, s, o));
    assert OwnerWeights(owners[id := o], l, s) == OwnerWeights(owners, l, s)[id := OwnerWeight(l, s, o)];
  }

  lemma JobWeightPut(jobs: map<Id, Job>, m: Job, l: Lane, f: Field)
    ensures Total(JobWeights(jobs[m.t.id := m], l, f))
            == Total(JobWeights(jobs, l, f)) - WeightAt(jobs, m.t.id, l, f) + Weight(l, f, m)
  {
    TotalPut(JobWeights(jobs, l, f), m.t.id, Weight(l, f, m));
    assert JobWeights(jobs[m.t.id := m], l, f) == JobWeights(jobs, l, f)[m.t.id := Weight(l, f, m)];
  }

  lemma MeasurePut(db: Db, m: Job, l: Lane, f: Field)
    ensures Measure(db.jobs[m.t.id := m], db.owners[m.t.id := OwnerOf(m)], l, f)
            == Measure(db.jobs, db.owners, l, f) + Delta(db, m, l, f)
  {
    hide Weight, OwnerWeight, WeightAt, OwnerWeightAt, JobWeights, OwnerWeights, Total;
    match f
    case InState(s) => OwnerWeightPut(db.owners, m.t.id, OwnerOf(m), l, s);
    case _ => JobWeightPut(db.jobs, m, l, f);
  }

  /** Counters stay exact when they move by the difference of two versions of a record. */
  lemma CountsNext(db: Db, m: Job, counts: Counts, leaked: Counts)
    requires CountsExact(db.counts, leaked, db.jobs, db.owners)
    requires forall l: Lane, f: Field :: Counter(counts, l, f) == Counter(db.counts, l, f) + Delta(db, m, l, f)
    ensures CountsExact(counts, leaked, db.jobs[m.t.id := m], db.owners[m.t.id := OwnerOf(m)])
  {
    hide Measure, Delta, Counter;
    var jobs, owners := db.jobs[m.t.id := m], db.owners[m.t.id := OwnerOf(m)];
    forall l: Lane, f: Field
      ensures Counter(counts, l, f) == Measure(jobs, owners, l, f) + Counter(leaked, l, f)
    {
      MeasurePut(db, m, l, f);
    }
  }
}
