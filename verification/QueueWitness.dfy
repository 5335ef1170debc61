/** Runs of the store that reach what the queue does not rule out: lost bytes, overwritten records,
    an erasure that takes a key in use, and a state counter left behind. */
module QueueWitness {
  import opened Wrappers
  import opened QueueTypes
  import opened Totals
  import opened QueueInvariant
  import opened QueueOps
  import opened QueueSteps
  import opened QueueEvents
  import opened QueueGone
  import opened QueueSweep
  import opened SortedSets
  import opened QueueLoops
  import opened QueueClaim
  import opened QueueOwner
  import opened QueueAdmission
  import opened QueueIdentity
  import opened QueueAnswers
  import opened QueueStock
  import opened QueueDuty
  import opened QueueCalls
  import opened QueueMeaning
  import opened QueueServer
  import opened QueueLedger
  import opened QueueTheorems
  import opened QueueNaming

  const EMPTY: Db := Vacant(0)

  const POLICY: Policy := Policy(100, 262144, BYTE_CAP, 900, 1)

  function Submission(id: Id, user: int, conflictKeys: seq<Key>): Request {
    Request(id, Deferred, user, Other, "payload", None, 3, 0, false, false, 1, conflictKeys, None)
  }

  predicate Plain(lanes: map<Lane, LaneState>) {
    Deferred in lanes ==> lanes[Deferred] == LaneState(0, false, false, POLICY)
  }

  /** A lane with room accepts a submission that is neither known nor in conflict. */
  lemma Accepted(d: Db, id: Id, user: int, keys: seq<Key>, identity: Key)
    requires identity !in d.idem && Plain(d.lanes) && forall k :: k in keys ==> (Deferred, k) !in d.conflicts
    requires Counter(d.counts, Deferred, Nonterminal) == 0 && Counter(d.counts, Deferred, PayloadBytes) <= 1000
    ensures Decide(d, Submission(id, user, keys), POLICY, identity, identity, 0)
              == Accept(POLICY, LaneState(0, false, false, POLICY))
  {
    hide Counter;
  }

  /** Every stored job has ended and given up its payload. */
  ghost predicate AllEnded(d: Db) { forall id :: id in d.jobs ==> !Active(d.jobs[id].state) && !d.jobs[id].accounted }

  lemma IdleCounters(d: Db, past: Past)
    requires AllEnded(d) && Counter(past.leaked, Deferred, PayloadBytes) == 0
    requires Settledown(d, past)
    ensures Counter(d.counts, Deferred, Nonterminal) == 0 && Counter(d.counts, Deferred, PayloadBytes) == 0
    ensures forall k: Key :: (Deferred, k) !in d.conflicts
  {
    hide Inv, Counter, Fresh, JobWeights, Total;
    Counted(d, past, Deferred, Nonterminal);
    Counted(d, past, Deferred, PayloadBytes);
    NoWeight(d.jobs);
    forall k: Key ensures (Deferred, k) !in d.conflicts {
      if (Deferred, k) in d.conflicts { HolderStored(d, Deferred, k, past); }
    }
  }

  lemma NoWeight(jobs: map<Id, Job>)
    requires forall id :: id in jobs ==> !Active(jobs[id].state) && !jobs[id].accounted
    ensures Total(JobWeights(jobs, Deferred, Nonterminal)) == 0 && Total(JobWeights(jobs, Deferred, PayloadBytes)) == 0
  {
    hide Total;
    TotalZero(JobWeights(jobs, Deferred, Nonterminal));
    TotalZero(JobWeights(jobs, Deferred, PayloadBytes));
  }

  /** The keys of a submission just accepted. */
  lemma InsertKeys(d: Db, id: Id, user: int, keys: seq<Key>, identity: Key)
    ensures var a := Accept(POLICY, LaneState(0, false, false, POLICY));
            var d' := InsertOne(d, Submission(id, user, keys), a, identity, identity, None);
            && d'.jobs == d.jobs[id := NewJob(d, Submission(id, user, keys), POLICY, identity, identity, None)]
            && d'.payloads.Keys == d.payloads.Keys + {id} && d'.idem.Keys == d.idem.Keys + {identity}
            && d'.idem[identity].expiresAt == d.clock + DAY
              && (forall k :: k in d.idem && k != identity ==> d'.idem[k] == d.idem[k])
            && d'.identities == AddIdentity(d.identities, id, identity) && d'.owners.Keys == d.owners.Keys + {id}
            && Plain(d'.lanes) && d'.clock == d.clock && d'.permit == d.permit && d'.operations == d.operations
            && d'.conflicts == AddConflicts(d.conflicts, d'.jobs[id].t)
  {
    hide AddConflicts, AdmitCounts, AddIdentity;
  }

  // ---- a job that fails and keeps its payload -----------------------------------------------------------

  /** The job of a submission before and during its only attempt, and after it failed. */
  ghost predicate Waits(m: Job, id: Id, user: int) {
    && m.t.id == id && m.t.user == user && m.t.lane == Deferred && !m.t.imageWork && m.t.maxAttempts == 1
    && m.t.payloadBytes == 7 && m.t.epoch == None && m.t.conflictKeys == [] && m.state == Queued && m.attempts == 0
    && m.revision == 1 && m.retryGrants == 1 && m.accounted && m.finishToken == None
  }

  ghost predicate Runs(m: Job, id: Id, user: int) {
    && m.t.id == id && m.t.user == user && m.t.lane == Deferred && m.t.maxAttempts == 1 && m.t.payloadBytes == 7
    && m.t.epoch == None && m.t.conflictKeys == [] && m.state == Running && m.attempts == 1 && m.revision == 2
    && m.retryGrants == 1 && m.accounted && m.finishToken == None
  }

  ghost predicate Keeping(m: Job, id: Id, user: int, now: Time) {
    && m.t.id == id && m.t.user == user && m.t.lane == Deferred && m.t.payloadBytes == 7 && m.t.epoch == None
    && m.t.conflictKeys == [] && m.state == Failed && m.retryEligible && m.retryGrants == 1 && m.revision == 3
    && m.accounted && m.metadataExpiresAt == Some(now + DAY)
  }

  lemma NewWaits(d: Db, id: Id, user: int)
    ensures Waits(NewJob(d, Submission(id, user, []), POLICY, id, id, None), id, user)
  {
  }

  lemma BegunRuns(now: Time, m: Job, token: Token, id: Id, user: int)
    requires Waits(m, id, user)
    ensures Runs(Begun(now, m, token), id, user) && Begun(now, m, token).owner == Some(token)
  {
    hide Rebudgeted, BudgetEnd;
  }

  lemma FailedKeeps(d: Db, m: Job, token: Token, id: Id, user: int)
    requires Runs(m, id, user) && id in d.payloads
    ensures Keeping(FinishedJob(d, m, token, RetryableFailure, None, 0), id, user, d.clock)
    ensures FinishedJob(d, m, token, RetryableFailure, None, 0).accounted
  {
  }

  /** A state in which every job has ended and a new one may come. */
  ghost predicate Quiet0(d: Db, p: Past, id: Id) {
    && AllEnded(d) && Plain(d.lanes) && Counter(p.leaked, Deferred, PayloadBytes) == 0
    && id !in d.idem && id !in d.owners && id !in d.jobs
  }

  /** One more job than before, failed and with its payload retained. */
  ghost predicate Retained0(d: Db, d': Db, id: Id, user: int) {
    && RetainedJobs(d.jobs, d'.jobs, id) && Keeping(d'.jobs[id], id, user, d.clock) && id in d'.payloads
    && d'.clock == d.clock && d'.owners.Keys == d.owners.Keys + {id} && d'.idem.Keys == d.idem.Keys + {id}
    && d'.operations == d.operations && Plain(d'.lanes)
  }

  ghost predicate RetainedJobs(jobs: map<Id, Job>, jobs': map<Id, Job>, id: Id) {
    jobs'.Keys == jobs.Keys + {id} && forall o :: o in jobs && o != id ==> jobs'[o] == jobs[o]
  }

  lemma RetainedBoth(a: map<Id, Job>, b: map<Id, Job>, c: map<Id, Job>, id: Id, m: Job)
    requires id in b && b == a[id := b[id]] && c.Keys == b.Keys && forall o :: o in b && o != id ==> c[o] == b[o]
    ensures RetainedJobs(a, c[id := m], id)
  {
  }

  method Retain(s: Store, id: Id, user: int, token: Token)
    requires Quiet0(s.db, s.past, id) && token !in s.past.tokens
    requires Settledown(s.db, s.past)
    modifies s
    ensures Settledown(s.db, s.past) && Retained0(old(s.db), s.db, id, user) && (Linked(old(s.db)) ==> Linked(s.db))
    ensures s.past.leaked == old(s.past).leaked && s.past.tokens == old(s.past).tokens + {token}
  {
    hide AnswersTo, EntersAs, Stores, ClaimsAs, Settles, InCharge;
    hide Settledown, Counter, Measure, Progress, Linked, Answered, Stocked, Undisturbed, AllPaid, Prompt, Reowned,
      Consistent;
    hide InsertOne, Chosen, AllPassed, NoneEligible, Rewrote, Decide, NewJob, Submission, Waits, Runs, Keeping,
      FinishedJob;
    hide SameBytes, AddIdentity, AddConflicts, AllEnded, Retained0;
    ghost var d0, p0 := s.db, s.past;
    IdleCounters(d0, p0);
    Accepted(d0, id, user, [], id);
    Submits(id, user, []);
    var a := s.Admit(Submission(id, user, []), POLICY, id, id);
    InsertKeys(d0, id, user, [], id);
    NewWaits(d0, id, user);
    ghost var d1, p1 := s.db, s.past;
    OneQueued(d0, d1, p1, id, user);
    var r := s.Claim(Deferred, token);
    ghost var d2 := s.db;
    OneClaimed(d0, d1, d2, r, token, id, user);
    var f := s.Finish(id, token, 2, RetryableFailure, None, 0);
    OneFailed(d0, d1, d2, s.db, token, id, user);
  }

  lemma OneQueued(d0: Db, d: Db, p: Past, id: Id, user: int)
    requires AllEnded(d0) && id in d.jobs && d.jobs == d0.jobs[id := d.jobs[id]] && Waits(d.jobs[id], id, user)
    requires id in d.payloads && Plain(d.lanes)
    requires Settledown(d, p)
    ensures !Paused(d, Deferred) && Counter(d.counts, Deferred, RunningNow) < Workers(Deferred)
    ensures !NoneEligible(d, Deferred)
  {
    hide Settledown, Counter, Inv;
    SettledInv(d, p);
    Capacity(d, p, Deferred);
    assert HeldIn(d.jobs, Deferred) == {};
    assert Eligible(d, Deferred, id);
  }

  lemma OneClaimed(d0: Db, d1: Db, d2: Db, r: Option<Id>, token: Token, id: Id, user: int)
    requires AllEnded(d0) && id in d1.jobs && d1.jobs == d0.jobs[id := d1.jobs[id]] && Waits(d1.jobs[id], id, user)
    requires r.Some? && Chosen(d1, d2, Deferred, token, r.value) && AllPassed(d1, d2, Deferred, r)
    ensures r == Some(id) && d2.jobs.Keys == d1.jobs.Keys && Runs(d2.jobs[id], id, user) && id in d2.payloads
    ensures Owns(d2, id, token, 2) && d2.jobs[id].finishToken != Some(token) && Undisturbed(d1, d2)
    ensures forall o :: o in d1.jobs && o != id ==> d2.jobs[o] == d1.jobs[o]
  {
    hide Ahead, Considered, Begun, Undisturbed;
    assert Eligible(d1, Deferred, r.value);
    BegunRuns(d1.clock, d1.jobs[id], token, id, user);
  }

  lemma OneFailed(d0: Db, d1: Db, d2: Db, d3: Db, token: Token, id: Id, user: int)
    requires id !in d0.jobs && id in d1.jobs && d1.jobs == d0.jobs[id := d1.jobs[id]] && d1.clock == d0.clock
    requires d1.owners.Keys == d0.owners.Keys + {id} && d1.idem.Keys == d0.idem.Keys + {id}
    requires d1.operations == d0.operations && Plain(d1.lanes) && Undisturbed(d1, d2) && Undisturbed(d2, d3)
    requires d2.jobs.Keys == d1.jobs.Keys && Runs(d2.jobs[id], id, user) && id in d2.payloads
    requires forall o :: o in d1.jobs && o != id ==> d2.jobs[o] == d1.jobs[o]
    requires Rewrote(d2, d3, id, FinishedJob(d2, d2.jobs[id], token, RetryableFailure, None, 0))
    requires id in d3.payloads <==> d3.jobs[id].accounted && id in d2.payloads
    ensures Retained0(d0, d3, id, user)
  {
    hide FinishedJob, Runs, Keeping, Undisturbed, Plain, Rewrote, RetainedJobs;
    var m := FinishedJob(d2, d2.jobs[id], token, RetryableFailure, None, 0);
    UndisturbedThrough(d1, d2, d3);
    UndisturbedKeys(d1, d3);
    UndisturbedClock(d1, d2);
    FailedKeeps(d2, d2.jobs[id], token, id, user);
    RewroteFrame(d2, d3, id, m);
    RetainedBoth(d0.jobs, d1.jobs, d2.jobs, id, m);
  }

  lemma UndisturbedKeys(d: Db, d': Db)
    requires Undisturbed(d, d')
    ensures d'.clock == d.clock && d'.owners.Keys == d.owners.Keys && d'.idem.Keys == d.idem.Keys
    ensures d'.operations == d.operations && d'.lanes == d.lanes
  {
    hide Members, Due;
  }

  lemma VacantQuiet(id: Id)
    ensures Quiet0(EMPTY, START, id) && EMPTY.clock == 0 && EMPTY.jobs == map[] && EMPTY.owners == map[]
    ensures EMPTY.idem == map[] && EMPTY.operations == map[]
  {
  }

  lemma EmptyAccepts(keys: seq<Key>)
    ensures Decide(EMPTY, Submission(1, 7, keys), POLICY, 1, 1, 0) == Accept(POLICY, LaneState(0, false, false, POLICY))
    ensures Positive(POLICY) && Fits(Submission(1, 7, keys), None) && Submission(1, 7, keys).id == 1
    ensures EMPTY.jobs == map[] && EMPTY.owners == map[] && EMPTY.clock == 0
  {
    Accepted(EMPTY, 1, 7, keys, 1);
  }

  // ---- lost bytes --------------------------------------------------------------------------------------

  /** A retained payload and a silent day: the sweep that finds the record gone leaves the byte counter
      above the bytes really held. */
  method LossHappens() returns (s: Store)
    ensures fresh(s) && Settledown(s.db, s.past)
    ensures Counter(s.db.counts, Deferred, PayloadBytes) > Measure(s.db.jobs, s.db.owners, Deferred, PayloadBytes)
  {
    hide SweepsRecords, SweepsKeys;
    hide Settledown, Counter, Measure, Progress, Linked, Answered, Stocked, AllPaid, Prompt, Reowned, Swept, LeakBytes;
    hide Quiet0, Cleaned, FirstOf;
    s := new Store(0);
    VacantQuiet(1);
    Retain(s, 1, 7, 5);
    ghost var d, p := s.db, s.past;
    var _, _ := s.Sweep(DAY);
    Lost(d, p, s.db, s.past);
  }

  lemma Lost(d: Db, p: Past, d': Db, p': Past)
    requires d.jobs.Keys == {1} && p.leaked == map[] && p' == p.(leaked := LeakBytes(p.leaked, d.jobs, DAY))
    requires Keeping(d.jobs[1], 1, 7, 0)
    requires Settledown(d', p')
    ensures Counter(d'.counts, Deferred, PayloadBytes) > Measure(d'.jobs, d'.owners, Deferred, PayloadBytes)
  {
    hide Settledown, Measure, LeakBytes, LostBytes;
    SettledInv(d', p');
    assert Lossy(d.jobs[1], DAY, Deferred);
    LostExactly(d.jobs, DAY, Deferred);
    LeakBytesAt(p.leaked, d.jobs, DAY, Deferred, PayloadBytes);
    CountersExact(d', p', Deferred, PayloadBytes);
  }

  // ---- a silent day ----------------------------------------------------------------------------------

  const LATER: Time := DAY + SECOND

  ghost predicate WaitingAll(d: Db) {
    forall id :: id in d.jobs ==>
      d.jobs[id].state == Queued && d.jobs[id].deadlineAt <= LATER && d.jobs[id].metadataExpiresAt == None
  }

  lemma SweptEnds(now: Time, hit: bool, present: bool, m: Job)
    requires m.state == Queued && m.deadlineAt <= now
    ensures var m' := Swept(now, hit, present, m); !Active(m'.state) && !m'.accounted && m'.t == m.t
  {
  }

  /** After a day of silence every waiting job has ended, every key is gone, and no byte was lost. */
  lemma SilentDay(d: Db, p: Past, d': Db, p': Past, batch: set<Id>, retired: set<Id>)
    requires WaitingAll(d) && (forall k :: k in d.idem ==> d.idem[k].expiresAt <= LATER) && p.leaked == map[]
    requires d'.jobs.Keys == Alive(d.jobs, LATER).Keys && p' == p.(leaked := LeakBytes(p.leaked, d.jobs, LATER))
    requires forall id :: id in d'.jobs ==>
      d'.jobs[id] == Swept(LATER, id in batch, id in ExpireKeys(d, LATER).payloads, d.jobs[id])
    requires Cleaned(ExpireKeys(d, LATER), d', retired)
    ensures d'.jobs.Keys == d.jobs.Keys && AllEnded(d') && d'.idem.Keys == {} && d'.owners.Keys <= d.owners.Keys
    ensures Counter(p'.leaked, Deferred, PayloadBytes) == 0
    ensures forall id :: id in d'.jobs ==> d'.jobs[id].t == d.jobs[id].t
    ensures forall id :: id in d'.jobs ==> Members(d'.identities, id) == Members(ExpireKeys(d, LATER).identities, id)
  {
    hide Swept, LeakBytes, Members, Alive, ExpireKeys, Cleaned, Counter, WaitingAll, AllEnded;
    SilentRecords(d, d', batch);
    SilentKeys(d, d', retired);
    SilentLedger(d, p.leaked);
  }

  lemma SilentRecords(d: Db, d': Db, batch: set<Id>)
    requires WaitingAll(d) && d'.jobs.Keys == Alive(d.jobs, LATER).Keys
    requires forall id :: id in d'.jobs ==>
      d'.jobs[id] == Swept(LATER, id in batch, id in ExpireKeys(d, LATER).payloads, d.jobs[id])
    ensures d'.jobs.Keys == d.jobs.Keys && AllEnded(d') && forall id :: id in d'.jobs ==> d'.jobs[id].t == d.jobs[id].t
  {
    hide Swept;
    forall id | id in d'.jobs ensures !Active(d'.jobs[id].state) && !d'.jobs[id].accounted
      && d'.jobs[id].t == d.jobs[id].t {
      SweptEnds(LATER, id in batch, id in ExpireKeys(d, LATER).payloads, d.jobs[id]);
    }
  }

  lemma SilentKeys(d: Db, d': Db, retired: set<Id>)
    requires (forall k :: k in d.idem ==> d.idem[k].expiresAt <= LATER) && Cleaned(ExpireKeys(d, LATER), d', retired)
    ensures d'.idem.Keys == {} && d'.owners.Keys <= d.owners.Keys
    ensures forall id :: id in d'.jobs ==> Members(d'.identities, id) == Members(ExpireKeys(d, LATER).identities, id)
  {
    hide Members, Alive, Due;
  }

  lemma SilentLedger(d: Db, leaked: Counts)
    requires WaitingAll(d) && leaked == map[]
    ensures Counter(LeakBytes(leaked, d.jobs, LATER), Deferred, PayloadBytes) == 0
  {
    hide LeakBytes;
    LeakBytesAt(leaked, d.jobs, LATER, Deferred, PayloadBytes);
    assert Departed(d.jobs, LATER) == map[];
    TotalZero(JobWeights(Departed(d.jobs, LATER), Deferred, PayloadBytes));
  }

  lemma NewQueued(d: Db, id: Id, user: int, keys: seq<Key>, identity: Key)
    requires d.clock <= SECOND
    ensures var m := NewJob(d, Submission(id, user, keys), POLICY, identity, identity, None);
            && m.state == Queued && m.deadlineAt <= LATER && m.metadataExpiresAt == None && m.t.user == user
              && m.t.id == id
            && m.t.identity == identity && m.t.conflictKeys == keys && m.t.lane == Deferred
  {
  }

  lemma Submits(id: Id, user: int, keys: seq<Key>)
    ensures Positive(POLICY) && Fits(Submission(id, user, keys), None)
    ensures Submission(id, user, keys).id == id && Submission(id, user, keys).lane == Deferred
      && Submission(id, user, keys).conflictKeys == keys
  {
  }

  /** A job alive over a silent day loses its key and keeps its record: the same submission, sent again under
      the same id, overwrites the record, and nothing makes the keyspace consistent again. */
  method OverwriteHappens() returns (s: Store, a: Decision)
    ensures fresh(s) && a.Accept? && !Consistent(s.db)
  {
    hide AnswersTo, EntersAs, Stores, SweepsRecords, SweepsKeys;
    hide Settledown, Counter, Measure, Progress, Linked, Answered, Stocked, Undisturbed, AllPaid, Prompt, Reowned,
      Consistent, InsertOne, Swept,
      LeakBytes;
    hide Decide, NewJob, Submission, SameBytes, WaitingAll, AllEnded, Cleaned, FirstOf, AddConflicts, AddIdentity,
      Plain, Alive, ExpireKeys;
    s := new Store(0);
    EmptyAccepts([]);
    Submits(1, 7, []);
    a := s.Admit(Submission(1, 7, []), POLICY, 1, 1);
    InsertKeys(EMPTY, 1, 7, [], 1);
    NewQueued(EMPTY, 1, 7, [], 1);
    ghost var d, p := s.db, s.past;
    assert WaitingAll(d) by { OneWaiting(d); }
    ghost var batch, retired := s.Sweep(LATER);
    SilentDay(d, p, s.db, s.past, batch, retired);
    IdleCounters(s.db, s.past);
    Accepted(s.db, 1, 7, [], 1);
    SettledInv(s.db, s.past);
    OwnedIfStored(s.db, 1, s.past);
    a := s.Admit(Submission(1, 7, []), POLICY, 1, 1);
  }

  lemma OneWaiting(d: Db)
    requires d.jobs.Keys == {1} && d.jobs[1].state == Queued && d.jobs[1].deadlineAt <= LATER
      && d.jobs[1].metadataExpiresAt == None
    ensures WaitingAll(d)
  {
  }

  // ---- an erasure that takes a key in use ----------------------------------------------------------------

  /** Another user's submission becomes a second name of a job; after a silent day the job has ended with
      both names still in its set, and the second name belongs to a job of its own. Erasing the first user
      then deletes the key of the second user's active job: its next resubmission is not recognised, and its
      id is not free either. */
  method UntidyErasure() returns (s: Store)
    ensures fresh(s) && Settledown(s.db, s.past)
    ensures 2 in s.db.jobs && Active(s.db.jobs[2].state) && s.db.jobs[2].t.identity == 2 && 2 !in s.db.idem
    ensures !Answered(s.db) && 2 in s.db.owners
  {
    hide Settledown, Counter, Measure, Progress, Linked, Answered, Stocked, Undisturbed, AllPaid, Prompt, Reowned,
      Consistent, InsertOne, Swept,
      LeakBytes, Tidy;
    hide Decide, NewJob, Submission, SameBytes, WaitingAll, AllEnded, Cleaned, FirstOf, AddConflicts, AddIdentity,
      Plain, Alive, ExpireKeys;
    hide AliasTo, Erased, Forgotten, Charged, Members;
    s := new Store(0);
    ghost var d1, p1 := Twins(s);
    ghost var d3 := Resubmit(s, d1, p1);
    SettledInv(d3, s.past);
    UserOf(d3, 1, 7, s.past);
    EraseOne(s, 7, 1);
    KeyTaken(d3, s.db, s.past);
  }

  /** The erasure of a user with a single job. */
  method EraseOne(s: Store, user: int, id: Id)
    requires (user, id) in s.db.users
    requires Settledown(s.db, s.past)
    modifies s
    ensures Settledown(s.db, s.past) && Forgotten(old(s.db), s.db, {id})
    ensures Charged(old(s.db), old(s.past).leaked, s.past.leaked, {id})
  {
    hide Settledown, Progress, Linked, Answered, Stocked, Prompt, Reowned, SameBytes, Tidy, Erased, Forgotten, Charged;
    SingleDistinct(id);
    TakenOne(id);
    s.Erase(user, [id]);
  }

  lemma TakenOne(id: Id)
    ensures Taken([id], 1) == {id}
  {
    assert [id][0] == id;
  }

  /** After the silent day the second submission gets a job of its own. */
  method Resubmit(s: Store, ghost d1: Db, ghost p1: Past) returns (ghost d3: Db)
    requires d1 == s.db && p1 == s.past && d1.clock == 0 && p1.leaked == map[] && Plain(d1.lanes)
    requires d1.jobs.Keys == {1} && d1.owners.Keys == {1} && WaitingAll(d1) && d1.jobs[1].t.user == 7
    requires (forall k :: k in d1.idem ==> d1.idem[k].expiresAt <= LATER) && 1 in d1.identities
      && d1.identities[1] == IdemSet({1, 2}, None)
    requires Settledown(s.db, s.past)
    modifies s
    ensures d3 == s.db && Settledown(d3, s.past)
    ensures 1 in d3.jobs && d3.jobs[1].t.user == 7 && 2 in KeysOf(d3, 1)
    ensures 2 in d3.jobs && Young(d3.jobs[2], d3.clock) && d3.jobs[2].t.identity == 2
  {
    hide SweepsRecords, SweepsKeys, AnswersTo, EntersAs, Stores;
    hide Settledown, Counter, Measure, Progress, Linked, Answered, Stocked, Undisturbed, AllPaid, Prompt, Reowned,
      Consistent, InsertOne, Swept,
      LeakBytes, Young, KeysOf;
    hide Decide, NewJob, Submission, SameBytes, WaitingAll, AllEnded, Cleaned, FirstOf, AddConflicts, AddIdentity,
      Plain, Alive, ExpireKeys, Members;
    ghost var batch, retired := s.Sweep(LATER);
    SilentDay(d1, p1, s.db, s.past, batch, retired);
    ghost var d2 := s.db;
    TwinsKept(d1, d2);
    IdleCounters(d2, s.past);
    Accepted(d2, 2, 8, [9], 2);
    Submits(2, 8, [9]);
    var a := s.Admit(Submission(2, 8, [9]), POLICY, 2, 2);
    InsertKeys(d2, 2, 8, [9], 2);
    d3 := s.db;
    SecondOwn(d2, d3);
  }

  /** One active job with two names. */
  method Twins(s: Store) returns (ghost d: Db, ghost p: Past)
    requires s.db == EMPTY && s.past == START
    requires Settledown(s.db, s.past)
    modifies s
    ensures d == s.db && p == s.past && Settledown(d, p) && d.clock == 0 && p.leaked == map[] && Plain(d.lanes)
    ensures d.jobs.Keys == {1} && d.owners.Keys == {1} && WaitingAll(d) && d.jobs[1].t.user == 7
    ensures (forall k :: k in d.idem ==> d.idem[k].expiresAt <= LATER) && 1 in d.identities
      && d.identities[1] == IdemSet({1, 2}, None)
  {
    hide AnswersTo, EntersAs, Stores;
    hide Settledown, Counter, Measure, Progress, Linked, Answered, Stocked, Undisturbed, AllPaid, Prompt, Reowned,
      Consistent, InsertOne;
    hide Decide, NewJob, Submission, SameBytes, WaitingAll, Plain, AddConflicts, AddIdentity, AliasTo;
    Submits(1, 7, [9]);
    Submits(2, 8, [9]);
    EmptyAccepts([9]);
    var a := s.Admit(Submission(1, 7, [9]), POLICY, 1, 1);
    InsertKeys(EMPTY, 1, 7, [9], 1);
    NewQueued(EMPTY, 1, 7, [9], 1);
    ghost var d1 := s.db;
    FirstName(d1);
    SecondName(d1);
    a := s.Admit(Submission(2, 8, [9]), POLICY, 2, 2);
    TwoNames(d1, s.db);
    OneWaiting(s.db);
    d, p := s.db, s.past;
  }

  lemma FirstName(d1: Db)
    requires d1.identities == AddIdentity(map[], 1, 1) && 1 in d1.jobs
      && d1.conflicts == AddConflicts(map[], d1.jobs[1].t)
    requires d1.jobs[1].t.conflictKeys == [9] && d1.jobs[1].t.lane == Deferred && d1.jobs[1].t.id == 1
    ensures d1.identities == map[1 := IdemSet({1}, None)] && (Deferred, 9) in d1.conflicts
      && d1.conflicts[(Deferred, 9)] == 1
  {
    assert 9 in d1.jobs[1].t.conflictKeys;
  }

  lemma SecondName(d1: Db)
    requires 2 !in d1.idem && d1.identities == map[1 := IdemSet({1}, None)]
    requires (Deferred, 9) in d1.conflicts && d1.conflicts[(Deferred, 9)] == 1
    ensures Decide(d1, Submission(2, 8, [9]), POLICY, 2, 2, 0) == Alias(1)
  {
    hide Counter;
    assert FirstHolder(d1.conflicts, Deferred, [9]) == Some(1);
    assert |Members(d1.identities, 1)| == 1;
  }

  lemma TwoNames(d1: Db, d: Db)
    requires d == AliasTo(d1, 1, 2, 2) && d1.clock == 0 && d1.identities == map[1 := IdemSet({1}, None)]
    requires d1.idem.Keys == {1} && d1.idem[1].expiresAt == DAY
    ensures d.jobs == d1.jobs && d.owners == d1.owners && d.lanes == d1.lanes && d.clock == 0
    ensures (forall k :: k in d.idem ==> d.idem[k].expiresAt <= LATER) && 1 in d.identities
      && d.identities[1] == IdemSet({1, 2}, None)
  {
  }

  lemma TwinsKept(d1: Db, d2: Db)
    requires 1 in d1.identities && d1.identities[1] == IdemSet({1, 2}, None) && 1 in d2.jobs
    requires forall id :: id in d2.jobs ==> Members(d2.identities, id) == Members(ExpireKeys(d1, LATER).identities, id)
    ensures Members(d2.identities, 1) == {1, 2}
  {
    hide Alive;
  }

  /** The second submission has a job of its own now, and its key is in both sets. */
  lemma SecondOwn(d2: Db, d3: Db)
    requires d2.jobs.Keys == {1} && Members(d2.identities, 1) == {1, 2} && d2.jobs[1].t.user == 7 && d2.clock == LATER
    requires d3.jobs == d2.jobs[2 := NewJob(d2, Submission(2, 8, [9]), POLICY, 2, 2, None)] && d3.clock == d2.clock
    requires d3.identities == AddIdentity(d2.identities, 2, 2)
    ensures 1 in d3.jobs && d3.jobs[1].t.user == 7 && 2 in KeysOf(d3, 1)
    ensures 2 in d3.jobs && Young(d3.jobs[2], d3.clock) && d3.jobs[2].t.identity == 2
  {
  }

  lemma UserOf(d: Db, id: Id, user: int, past: Past)
    requires id in d.jobs && d.jobs[id].t.user == user
    requires Inv(d, past)
    ensures (user, id) in d.users
  {
    hide ReadyExact, DelayedExact, RunningExact, DeadlineExact, PayloadExpiryExact, PayloadsExact;
    hide MetaExact, ConflictsExact, RecordsOk, Accounted, PermitExact, Recorded;
  }

  lemma KeyTaken(d3: Db, d4: Db, past: Past)
    requires Forgotten(d3, d4, {1}) && 2 in KeysOf(d3, 1)
    requires 2 in d3.jobs && Young(d3.jobs[2], d3.clock) && d3.jobs[2].t.identity == 2
    requires Settledown(d4, past)
    ensures 2 in d4.jobs && Active(d4.jobs[2].state) && d4.jobs[2].t.identity == 2 && 2 !in d4.idem
    ensures !Answered(d4) && 2 in d4.owners
  {
    hide Inv, Fresh, KeysOf, Fading, SetsTimed, Aged;
    assert 2 in AllKeys(d3, {1});
    assert 2 in d4.jobs && d4.jobs[2] == d3.jobs[2];
    assert !Answers(d4.idem, d4.jobs[2]);
    OwnedIfStored(d4, 2, past);
  }

  // ---- a state counter left behind ------------------------------------------------------------------------

  ghost function Upto(n: nat): (s: set<Id>)
    ensures |s| == n && forall i: Id :: i in s <==> i < n
  {
    if n == 0 then {} else Upto(n - 1) + {n - 1}
  }

  /** `n` jobs were submitted and cancelled at time zero. */
  ghost predicate Crowd(d: Db, p: Past, n: nat) {
    && d.clock == 0 && Plain(d.lanes) && p.leaked == map[]
    && d.owners.Keys == Upto(n) && d.idem.Keys == Upto(n) && d.operations.Keys == Upto(n) && CrowdJobs(d.jobs, n)
  }

  ghost predicate CrowdJobs(jobs: map<Id, Job>, n: nat)
      { jobs.Keys == Upto(n) && forall id :: id in jobs ==> Over(jobs[id]) }

  ghost predicate Over(m: Job) { !Active(m.state) && !m.accounted && m.metadataExpiresAt == Some(DAY) }

  lemma UptoNext(n: nat)
    ensures Upto(n + 1) == Upto(n) + {n}
  {
  }

  lemma CrowdJobsNext(jobs: map<Id, Job>, n: nat, m: Job)
    requires CrowdJobs(jobs, n) && Over(m)
    ensures CrowdJobs(jobs[n := m], n + 1)
  {
    hide Upto, Over;
    UptoNext(n);
  }

  lemma CalledOffEnds(m: Job)
    requires m.state == Queued
    ensures Over(CalledOff(0, m))
  {
  }

  lemma CrowdNext(d: Db, p: Past, d1: Db, d2: Db, p2: Past, n: nat)
    requires Crowd(d, p, n) && p2.leaked == p.leaked && d1.clock == 0 && Plain(d1.lanes)
    requires n in d1.jobs && d1.jobs[n].state == Queued && d1.jobs == d.jobs[n := d1.jobs[n]]
    requires d1.owners.Keys == d.owners.Keys + {n} && d1.idem.Keys == d.idem.Keys + {n} && d1.operations == d.operations
    requires Rewrote(d1, d2, n, CalledOff(0, d1.jobs[n]))
    requires d2.owners.Keys == d1.owners.Keys && d2.idem.Keys == d1.idem.Keys
      && d2.operations.Keys == d1.operations.Keys + {n}
    ensures Crowd(d2, p2, n + 1)
  {
    hide Upto, CalledOff, Plain, Over, CrowdJobs, Rewrote;
    RewroteFrame(d1, d2, n, CalledOff(0, d1.jobs[n]));
    CalledOffEnds(d1.jobs[n]);
    UptoNext(n);
    CrowdJobsNext(d.jobs, n, CalledOff(0, d1.jobs[n]));
    OverAgain(d.jobs, n, d1.jobs[n], CalledOff(0, d1.jobs[n]));
  }

  lemma RewroteFrame(d: Db, d': Db, id: Id, m: Job)
    requires Rewrote(d, d', id, m)
    ensures d'.jobs == d.jobs[id := m] && d'.clock == d.clock && d'.lanes == d.lanes
  {
  }

  lemma OverAgain(jobs: map<Id, Job>, n: Id, a: Job, b: Job)
    ensures jobs[n := a][n := b] == jobs[n := b]
  {
  }

  method Gather(s: Store)
    requires s.db == EMPTY && s.past == START
    requires Settledown(s.db, s.past)
    modifies s
    ensures Settledown(s.db, s.past) && Crowd(s.db, s.past, 257)
  {
    hide AnswersTo, EntersAs, Stores, Cancels, Files;
    hide Settledown, Counter, Measure, Progress, Linked, Answered, Stocked, Undisturbed, AllPaid, Prompt, Reowned,
      Consistent, InsertOne, Crowd, Upto;
    hide Decide, NewJob, Submission, SameBytes, AllEnded, Plain, AddConflicts, AddIdentity, Rewrote, CalledOff;
    NobodyYet();
    for n := 0 to 257
      invariant Settledown(s.db, s.past) && Crowd(s.db, s.past, n)
    {
      ghost var d, p := s.db, s.past;
      CrowdAccepts(d, p, n);
      Submits(n, 7, []);
      var a := s.Admit(Submission(n, 7, []), POLICY, n, n);
      InsertKeys(d, n, 7, [], n);
      NewQueued(d, n, 7, [], n);
      NewRevision(d, n);
      ghost var d1 := s.db;
      var r := s.Cancel(n, 1, n, 1);
      CrowdNext(d, p, d1, s.db, s.past, n);
    }
  }

  lemma NobodyYet()
    ensures Crowd(EMPTY, START, 0)
  {
  }

  lemma NewRevision(d: Db, n: Id)
    ensures NewJob(d, Submission(n, 7, []), POLICY, n, n, None).revision == 1
  {
  }

  lemma CrowdAccepts(d: Db, p: Past, n: nat)
    requires Crowd(d, p, n)
    requires Settledown(d, p)
    ensures Decide(d, Submission(n, 7, []), POLICY, n, n, 0) == Accept(POLICY, LaneState(0, false, false, POLICY))
    ensures n !in d.owners && n !in d.operations && n !in d.jobs && d.clock == 0
  {
    hide Settledown, Decide, Submission, Plain;
    IdleCounters(d, p);
    Accepted(d, n, 7, [], n);
  }

  /** 257 finished jobs reach the end of their metadata together: the sweep retires 256, and one owner entry
      stays without a record. */
  lemma OneWaits(d: Db, p: Past, d': Db, batch: set<Id>, retired: set<Id>) returns (id: Id)
    requires Crowd(d, p, 257) && d'.jobs.Keys == Alive(d.jobs, DAY).Keys
    requires FirstOf(Due(d.metaExpiry, DAY), retired, 256) && Cleaned(ExpireKeys(d, DAY), d', retired)
    requires Settledown(d, p)
    ensures id in d'.owners && id !in d'.jobs
  {
    hide Inv, Fresh, Plain, AllEnded, Members, Upto;
    MetaKnown(d, p);
    forall o | o in d.jobs ensures o !in d'.jobs { assert Gone(d.jobs[o], DAY); }
    if Upto(257) <= retired { SubsetSize(Upto(257), retired); }
    id :| id in Upto(257) && id !in retired;
  }

  /** Erasing that entry leaves its state counter one too high for good. */
  method StateLeakHappens() returns (s: Store, ghost l: Lane, ghost state: JobState)
    ensures fresh(s) && Settledown(s.db, s.past)
    ensures Counter(s.db.counts, l, InState(state)) == Measure(s.db.jobs, s.db.owners, l, InState(state)) + 1
  {
    hide SweepsRecords, SweepsKeys;
    hide Settledown, Counter, Measure, Progress, Linked, Answered, Stocked, Undisturbed, AllPaid, Prompt, Reowned,
      Swept, LeakBytes, Crowd, Tidy;
    hide SameBytes, Cleaned, FirstOf, Alive, ExpireKeys, Erased, Forgotten, Charged;
    s := new Store(0);
    Gather(s);
    ghost var d, p := s.db, s.past;
    CrowdClock(d, p);
    ghost var batch, retired := s.Sweep(DAY);
    ghost var d1, p1 := s.db, s.past;
    ghost var waits := OneWaits(d, p, s.db, batch, retired);
    var id :| id in s.db.owners && id !in s.db.jobs;
    l, state := s.db.owners[id].lane, s.db.owners[id].state;
    SettledInv(d1, p1);
    OwnerUser(d1, id, p1);
    LedgerClear(p.leaked, d.jobs, l, state);
    EraseOne(s, s.db.owners[id].user, id);
    SettledInv(s.db, s.past);
    OneCharged(d1, p1.leaked, s.past.leaked, id);
    Counted(s.db, s.past, l, InState(state));
  }

  lemma CrowdClock(d: Db, p: Past)
    requires Crowd(d, p, 257)
    ensures d.clock == 0 && p.leaked == map[]
  {
  }

  lemma OwnerUser(d: Db, id: Id, past: Past)
    requires id in d.owners
    requires Inv(d, past)
    ensures (d.owners[id].user, id) in d.users
  {
    hide ReadyExact, DelayedExact, RunningExact, DeadlineExact, PayloadExpiryExact, PayloadsExact;
    hide OwnersExact, MetaExact, ConflictsExact, RecordsOk, Accounted, PermitExact, Recorded;
  }

  lemma LedgerClear(leaked: Counts, jobs: map<Id, Job>, l: Lane, state: JobState)
    requires leaked == map[]
    ensures Counter(LeakBytes(leaked, jobs, DAY), l, InState(state)) == 0
  {
    hide LeakBytes;
    LeakBytesAt(leaked, jobs, DAY, l, InState(state));
  }

  lemma SingleDistinct(id: Id)
    ensures Distinct([id])
  {
  }

  lemma OneCharged(d: Db, leaked: Counts, leaked': Counts, id: Id)
    requires Charged(d, leaked, leaked', {id}) && id in d.owners && id !in d.jobs
    ensures var o := d.owners[id];
            Counter(leaked', o.lane, InState(o.state)) == Counter(leaked, o.lane, InState(o.state)) + 1
  {
    hide Counter;
    var o := d.owners[id];
    assert Vanished(d, {id}, o.lane, InState(o.state)) == {id};
  }

  // ---- one operation for two users -----------------------------------------------------------------------

  const SOON: Time := 1000 * SECOND
  const NOON: Time := 50000 * SECOND
  const NEXT: Time := DAY + 500 * SECOND

  /** An operator retry is granted: the operation is unused, the parent is retained, the identity is new. */
  lemma RetryAccepted(d: Db, p: Past, id: Id, user: int, now: Time, identity: Key)
    requires id in d.jobs && Keeping(d.jobs[id], id, user, now) && identity !in d.idem && Plain(d.lanes)
    requires forall o :: o in d.jobs && o != id ==> !Active(d.jobs[o].state)
    requires id in d.payloads
    requires Settledown(d, p)
    ensures Retryable(d, id, 3, None)
    ensures RetryDecision(d, id, 50, POLICY, identity, 90) == Accept(POLICY, LaneState(0, false, false, POLICY))
  {
    hide Inv, Fresh, Counter, PayloadsExact, ConflictsExact, RecordOk;
    Known(d, id, p);
    Capacity(d, p, Deferred);
    CapsOf(d, p, Deferred);
    assert ActiveIn(d.jobs, Deferred) == {};
  }

  /** A parent of user 7 with its one child. */
  ghost predicate Fostered(d: Db) {
    && d.clock == 0 && Plain(d.lanes) && d.jobs.Keys == {1, 50} && d.owners.Keys == {1, 50} && d.idem.Keys == {1, 11}
    && !Active(d.jobs[1].state) && !d.jobs[1].accounted
    && d.jobs[50].state == Queued && d.jobs[50].deadlineAt <= SOON && d.jobs[50].metadataExpiresAt == None
    && d.jobs[50].t.user == 7 && 90 in d.operations && d.operations.Keys == {90} && d.operations[90].expiresAt == DAY
  }

  lemma FosterShape(d: Db, id: Id, identity: Key)
    requires id in d.jobs && id in d.payloads && d.jobs[id].t.id == id && id != 50 && d.jobs[id].t.lane == Deferred
    ensures var a := Accept(POLICY, LaneState(0, false, false, POLICY));
            var d' := RetryOne(d, id, 50, a, identity, 90);
            && d'.jobs == d.jobs[50 := FosterChild(d, id, identity)][id := Spent(d.jobs[id])]
            && d'.owners.Keys == d.owners.Keys + {50} && d'.idem.Keys == d.idem.Keys + {identity}
            && d'.operations == d.operations && Plain(d'.lanes) && d'.clock == d.clock
  {
    hide AddConflicts, AdmitCounts, AddIdentity, ByteCounts, NewJob, Spent, ChildRequest;
    ChildOf(d, id, identity);
  }

  function FosterChild(d: Db, id: Id, identity: Key): Job
    requires id in d.jobs && id in d.payloads
  {
    NewJob(d, ChildRequest(d, id, 50), POLICY, identity, 90, Some(id))
  }

  lemma ChildOf(d: Db, id: Id, identity: Key)
    requires id in d.jobs && id in d.payloads
    ensures ChildRequest(d, id, 50).id == 50
    ensures var m := FosterChild(d, id, identity);
            && m.t.id == 50 && m.t.lane == d.jobs[id].t.lane && m.t.user == d.jobs[id].t.user
              && m.t.identity == identity
            && m.state == Queued && m.deadlineAt == d.clock + 900 * SECOND && m.metadataExpiresAt == None
    ensures Spent(d.jobs[id]).t == d.jobs[id].t && !Spent(d.jobs[id]).accounted
    ensures Spent(d.jobs[id]).state == d.jobs[id].state
  {
  }

  /** The first use of operation 90, for the job of user 7. */
  method Foster(s: Store)
    requires s.db == EMPTY && s.past == START && Linked(s.db)
    requires Settledown(s.db, s.past)
    modifies s
    ensures Settledown(s.db, s.past) && Fostered(s.db) && s.past.leaked == map[] && s.past.tokens == {5} && Linked(s.db)
  {
    hide AnswersTo, MayRetry, Files;
    hide Settledown, Linked, Answered, Consistent, Quiet0, Retained0, Fostered, Retryable, RetryDecision, RetryOne,
      Noted;
    hide Regular, Sound;
    VacantQuiet(1);
    Retain(s, 1, 7, 5);
    ghost var d1, p1 := s.db, s.past;
    RetainedRetry(EMPTY, d1, p1, 1, 7, 11);
    var r := s.Retry(90, 90, 1, 3, None, 50, POLICY, 11);
    FosterDone(d1, s.db);
    RegularSound(d1, p1, s.db, s.past, 1, 50, Accept(POLICY, LaneState(0, false, false, POLICY)), 11);
  }

  lemma RegularSound(d: Db, p: Past, d': Db, p': Past, id: Id, child: Id, a: Decision, identity: Key)
    requires Regular(d, p, d', p', id, child, a, identity)
    ensures Settledown(d', p') && (Linked(d) ==> Linked(d'))
  {
    hide Settledown, Linked, Progress, Reowned, Prompt, SameBytes, Begot, Answered, Stocked;
  }

  /** A job just retained can be retried under an operation and an identity not used before. */
  lemma RetainedRetry(d0: Db, d: Db, p: Past, id: Id, user: int, identity: Key)
    requires AllEnded(d0) && Retained0(d0, d, id, user) && identity !in d0.idem && identity != id
      && 90 !in d0.operations
    requires Settledown(d, p)
    ensures Retryable(d, id, 3, None) && Positive(POLICY) && 90 !in d.operations && id in d.jobs && id in d.payloads
    ensures RetryDecision(d, id, 50, POLICY, identity, 90) == Accept(POLICY, LaneState(0, false, false, POLICY))
    ensures 50 !in d0.owners && id != 50 ==> 50 !in d.owners
    ensures 50 in d0.owners ==> 50 in d.owners
  {
    hide Settledown, Keeping, Retryable, RetryDecision, Plain;
    RetryAccepted(d, p, id, user, d0.clock, identity);
  }

  lemma FosterDone(d1: Db, d: Db)
    requires Retained0(EMPTY, d1, 1, 7)
    requires d == Noted(RetryOne(d1, 1, 50, Accept(POLICY, LaneState(0, false, false, POLICY)), 11, 90), 90, 90,
                        Some(50), Some(1))
    ensures Fostered(d)
  {
    hide RetryOne, Spent, FosterChild, Plain, Keeping, Retained0, Fostered, Noted;
    RetainedAlone(d1);
    FosterShape(d1, 1, 11);
    ChildOf(d1, 1, 11);
    var e := RetryOne(d1, 1, 50, Accept(POLICY, LaneState(0, false, false, POLICY)), 11, 90);
    FosterNoted(d1, e, d);
  }

  lemma RetainedAlone(d: Db)
    requires Retained0(EMPTY, d, 1, 7)
    ensures d.jobs.Keys == {1} && d.owners.Keys == {1} && d.idem.Keys == {1} && d.operations == map[] && d.clock == 0
    ensures 1 in d.payloads && d.jobs[1].t.id == 1 && d.jobs[1].t.user == 7 && d.jobs[1].t.lane == Deferred
    ensures !Active(d.jobs[1].state)
  {
    hide Plain;
  }

  lemma FosterNoted(d1: Db, e: Db, d: Db)
    requires d1.jobs.Keys == {1} && d1.owners.Keys == {1} && d1.idem.Keys == {1} && 1 in d1.payloads
    requires e.jobs == d1.jobs[50 := FosterChild(d1, 1, 11)][1 := Spent(d1.jobs[1])] && e.operations == map[]
    requires e.owners.Keys == d1.owners.Keys + {50} && e.idem.Keys == d1.idem.Keys + {11}
    requires Plain(e.lanes) && e.clock == 0
    requires !Active(Spent(d1.jobs[1]).state) && !Spent(d1.jobs[1]).accounted
    requires var m := FosterChild(d1, 1, 11);
             m.state == Queued && m.deadlineAt <= SOON && m.metadataExpiresAt == None && m.t.user == 7
    requires d == Noted(e, 90, 90, Some(50), Some(1))
    ensures Fostered(d)
  {
    hide Spent, FosterChild, Plain;
    assert d.jobs.Keys == {1, 50};
  }

  /** Every job has ended and given up its payload, or is about to. */
  ghost predicate Ending(d: Db, now: Time) {
    forall id :: id in d.jobs ==>
      || (!Active(d.jobs[id].state) && !d.jobs[id].accounted)
      || (d.jobs[id].state == Queued && d.jobs[id].deadlineAt <= now && d.jobs[id].metadataExpiresAt == None)
  }

  lemma SweptEnded(now: Time, hit: bool, present: bool, m: Job)
    ensures !Active(m.state) && !m.accounted ==>
      var m' := Swept(now, hit, present, m);
      m'.state == m.state && !m'.accounted && m'.t == m.t && m'.metadataExpiresAt == m.metadataExpiresAt
    ensures m.state == Queued && m.deadlineAt <= now ==>
      var m' := Swept(now, hit, present, m);
      !Active(m'.state) && !m'.accounted && m'.t == m.t && m'.metadataExpiresAt == Some(now + DAY)
  {
  }

  /** Such a state stays so over a sweep, and no byte is lost. */
  lemma QuietSweep(d: Db, p: Past, d': Db, p': Past, now: Time, batch: set<Id>, retired: set<Id>)
    requires Ending(d, now) && Counter(p.leaked, Deferred, PayloadBytes) == 0
    requires d'.jobs.Keys == Alive(d.jobs, now).Keys && p' == p.(leaked := LeakBytes(p.leaked, d.jobs, now))
    requires forall id :: id in d'.jobs ==>
      d'.jobs[id] == Swept(now, id in batch, id in ExpireKeys(d, now).payloads, d.jobs[id])
    requires Cleaned(ExpireKeys(d, now), d', retired)
    ensures AllEnded(d') && Counter(p'.leaked, Deferred, PayloadBytes) == 0
    ensures d'.idem.Keys <= d.idem.Keys && d'.owners.Keys <= d.owners.Keys
    ensures forall k :: k in d'.operations ==>
      k in d.operations && d.operations[k].expiresAt > now && d'.operations[k] == d.operations[k]
    ensures forall id :: id in d.jobs && !Gone(d.jobs[id], now) ==> StaysOver(d, d', id, now)
  {
    hide Swept, LeakBytes, Members, Due, Counter;
    forall id | id in d'.jobs
      ensures !Active(d'.jobs[id].state) && !d'.jobs[id].accounted && StaysOver(d, d', id, now)
    {
      SweptEnded(now, id in batch, id in ExpireKeys(d, now).payloads, d.jobs[id]);
    }
    QuietLedger(d, p.leaked, now);
  }

  ghost predicate StaysOver(d: Db, d': Db, id: Id, now: Time) {
    && id in d.jobs && id in d'.jobs && d'.jobs[id].t == d.jobs[id].t
    && d'.jobs[id].metadataExpiresAt == if Active(d.jobs[id].state) then Some(now + DAY)
      else d.jobs[id].metadataExpiresAt
  }

  lemma QuietLedger(d: Db, leaked: Counts, now: Time)
    requires Ending(d, now)
    ensures Counter(LeakBytes(leaked, d.jobs, now), Deferred, PayloadBytes) == Counter(leaked, Deferred, PayloadBytes)
  {
    hide LeakBytes, Counter;
    LeakBytesAt(leaked, d.jobs, now, Deferred, PayloadBytes);
    var w := JobWeights(Departed(d.jobs, now), Deferred, PayloadBytes);
    forall id | id in w ensures w[id] == 0 { assert id in d.jobs && Gone(d.jobs[id], now); }
    TotalZero(w);
  }

  /** The child of user 7 is stored, the operation that made it is forgotten. */
  ghost predicate Forlorn(d: Db, p: Past, now: Time) {
    && d.clock == now && AllEnded(d) && Plain(d.lanes) && Counter(p.leaked, Deferred, PayloadBytes) == 0
    && 2 !in d.idem && 12 !in d.idem && 2 !in d.owners && 6 !in p.tokens
    && (90 in d.operations ==> d.operations[90].expiresAt == DAY)
    && 50 in d.jobs && d.jobs[50].t.user == 7 && d.jobs[50].metadataExpiresAt == Some(SOON + DAY)
  }

  /** Three sweeps, none of them after a long silence, outlive the operation but not the child. */
  method Outlive(s: Store)
    requires Fostered(s.db) && s.past.leaked == map[] && s.past.tokens == {5} && Linked(s.db)
    requires Settledown(s.db, s.past)
    modifies s
    ensures Settledown(s.db, s.past) && Forlorn(s.db, s.past, NEXT) && 90 !in s.db.operations && Linked(s.db)
  {
    hide SweepsRecords, SweepsKeys;
    hide Settledown, Linked, Answered, Stocked, Fostered, Forlorn, Cleaned, FirstOf, Swept, LeakBytes, Progress,
      Reowned;
    hide Prompt, AllPaid, Alive, ExpireKeys, Due;
    ghost var d0, p0 := s.db, s.past;
    FosteredClock(d0);
    ghost var b1, r1 := s.Sweep(SOON);
    FosteredSwept(d0, p0, s.db, s.past, b1, r1);
    ghost var d1, p1 := s.db, s.past;
    ghost var b2, r2 := s.Sweep(NOON);
    ForlornSwept(d1, p1, s.db, s.past, SOON, NOON, b2, r2);
    ghost var d2, p2 := s.db, s.past;
    ghost var b3, r3 := s.Sweep(NEXT);
    ForlornSwept(d2, p2, s.db, s.past, NOON, NEXT, b3, r3);
  }

  lemma FosteredClock(d: Db)
    requires Fostered(d)
    ensures d.clock == 0
  {
  }

  lemma FosteredEnds(d: Db)
    requires Fostered(d)
    ensures Ending(d, SOON) && Plain(d.lanes) && 2 !in d.idem && 12 !in d.idem && 2 !in d.owners
    ensures 50 in d.jobs && Active(d.jobs[50].state) && d.jobs[50].t.user == 7 && !Gone(d.jobs[50], SOON)
    ensures 90 in d.operations ==> d.operations[90].expiresAt == DAY
  {
    hide Plain;
  }

  lemma NoCounter(leaked: Counts)
    requires leaked == map[]
    ensures Counter(leaked, Deferred, PayloadBytes) == 0
  {
  }

  lemma FosteredSwept(d: Db, p: Past, d': Db, p': Past, batch: set<Id>, retired: set<Id>)
    requires Fostered(d) && p.leaked == map[] && 6 !in p.tokens
    requires d'.jobs.Keys == Alive(d.jobs, SOON).Keys && p' == p.(leaked := LeakBytes(p.leaked, d.jobs, SOON))
    requires forall id :: id in d'.jobs ==>
      d'.jobs[id] == Swept(SOON, id in batch, id in ExpireKeys(d, SOON).payloads, d.jobs[id])
    requires Cleaned(ExpireKeys(d, SOON), d', retired) && d'.clock == SOON && d'.lanes == d.lanes
    ensures Forlorn(d', p', SOON)
  {
    hide Swept, LeakBytes, Cleaned, Alive, ExpireKeys, Fostered, Ending, Plain, AllEnded, Counter;
    FosteredEnds(d);
    NoCounter(p.leaked);
    QuietSweep(d, p, d', p', SOON, batch, retired);
    assert StaysOver(d, d', 50, SOON);
  }

  lemma ForlornSwept(d: Db, p: Past, d': Db, p': Past, now: Time, later: Time, batch: set<Id>, retired: set<Id>)
    requires Forlorn(d, p, now) && later < SOON + DAY
    requires d'.jobs.Keys == Alive(d.jobs, later).Keys && p' == p.(leaked := LeakBytes(p.leaked, d.jobs, later))
    requires forall id :: id in d'.jobs ==>
      d'.jobs[id] == Swept(later, id in batch, id in ExpireKeys(d, later).payloads, d.jobs[id])
    requires Cleaned(ExpireKeys(d, later), d', retired) && d'.clock == later && d'.lanes == d.lanes
    ensures Forlorn(d', p', later) && (later >= DAY ==> 90 !in d'.operations)
  {
    hide Swept, LeakBytes, Cleaned, Alive, ExpireKeys, Counter, Plain;
    assert Ending(d, later);
    QuietSweep(d, p, d', p', later, batch, retired);
    assert StaysOver(d, d', 50, later);
  }

  /** An operator sends the same operation for a job of another user after the operation key has expired: the
      child id is the same, the identity is not, and the child of the first user is overwritten. No silence
      and no backlog is needed. */
  method ForeignRetryHappens() returns (s: Store, r: OperationReply, ghost before: Db, ghost c: Command)
    ensures fresh(s) && r == Done(Some(50)) && !Consistent(s.db)
    ensures Overwrites(before, c) && Foreign(before, c) && Linked(before)
    ensures c == DoRetry(90, 90, 2, 3, None, 50, POLICY, 12)
  {
    hide AnswersTo, MayRetry, Files;
    hide Settledown, Linked, Answered, Consistent, Quiet0, Retained0, Fostered, Forlorn, Retryable, RetryDecision,
      Retried;
    hide AllEnded, Overwrites, Foreign, Noted, Regular, Sound, Stocked, Prompt;
    s := new Store(0);
    Foster(s);
    Outlive(s);
    ghost var d, p := s.db, s.past;
    ForlornQuiet(d, p);
    Retain(s, 2, 8, 6);
    before := s.db;
    c := DoRetry(90, 90, 2, 3, None, 50, POLICY, 12);
    SecondUse(d, before, s.past, c);
    r := s.Retry(90, 90, 2, 3, None, 50, POLICY, 12);
  }

  lemma ForlornQuiet(d: Db, p: Past)
    requires Forlorn(d, p, NEXT)
    requires Settledown(d, p)
    ensures Quiet0(d, p, 2) && 6 !in p.tokens && AllEnded(d) && 12 !in d.idem
    ensures 50 in d.jobs && 50 in d.owners && d.jobs[50].t.user == 7 && d.clock == NEXT
  {
    hide Plain, Counter, AllEnded, Settledown;
    SettledInv(d, p);
    OwnedIfStored(d, 2, p);
    OwnedIfStored(d, 50, p);
  }

  lemma SecondUse(d0: Db, d: Db, p: Past, c: Command)
    requires AllEnded(d0) && 12 !in d0.idem && 90 !in d0.operations && 50 in d0.jobs && 50 in d0.owners
    requires d0.jobs[50].t.user == 7 && Retained0(d0, d, 2, 8)
    requires c == DoRetry(90, 90, 2, 3, None, 50, POLICY, 12)
    requires Settledown(d, p)
    ensures Overwrites(d, c) && Foreign(d, c) && Retryable(d, 2, 3, None) && Positive(POLICY) && 90 !in d.operations
    ensures 2 in d.jobs && 2 in d.payloads && 50 in d.owners
    ensures RetryDecision(d, 2, 50, POLICY, 12, 90) == Accept(POLICY, LaneState(0, false, false, POLICY))
  {
    hide Settledown, Retryable, RetryDecision, Plain, Keeping, Decide, Retained0, AllEnded, Overwrites, Foreign;
    RetainedRetry(d0, d, p, 2, 8, 12);
    SecondOverwrites(d, c);
    SecondForeign(d0, d, c);
  }

  lemma SecondOverwrites(d: Db, c: Command)
    requires c == DoRetry(90, 90, 2, 3, None, 50, POLICY, 12) && 90 !in d.operations && Retryable(d, 2, 3, None)
    requires 2 in d.jobs && 2 in d.payloads && RetryDecision(d, 2, 50, POLICY, 12, 90).Accept? && 50 in d.owners
    ensures Overwrites(d, c)
  {
    hide Retryable, RetryDecision;
  }

  lemma SecondForeign(d0: Db, d: Db, c: Command)
    requires c == DoRetry(90, 90, 2, 3, None, 50, POLICY, 12) && Retained0(d0, d, 2, 8)
    requires 50 in d0.jobs && d0.jobs[50].t.user == 7
    ensures Foreign(d, c)
  {
    hide Plain;
  }

  lemma KeepingTicket(m: Job, id: Id, user: int, now: Time)
    requires Keeping(m, id, user, now)
    ensures m.t.id == id && m.t.user == user && m.t.lane == Deferred && !Active(m.state)
  {
  }
}
