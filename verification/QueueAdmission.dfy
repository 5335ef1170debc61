/** Admission and the operator retry that reuses it. */
module QueueAdmission {
  import opened Wrappers
  import opened QueueTypes
  import opened QueueInvariant
  import opened QueueLog
  import opened QueueOps
  import opened QueueSteps
  import opened QueueEvents
  import opened QueueLoops
  import opened QueueCommands
  import opened QueueIdentity
  import opened QueueAnswers
  import opened QueueStock

  datatype Request = Request(
    id: Id, lane: Lane, user: int, kind: Kind, text: string, epoch: Option<int>, priority: int, delay: Time,
    effectful: bool, imageWork: bool, retryGrants: int, conflictKeys: seq<Key>, timeout: Option<int>)

  datatype Refusal =
    | AdmissionPaused | PayloadTooLarge | JobCapacity | ByteCapacity | IdempotencyCapacity | IdempotencyConflict

  datatype Decision =
    | Existing(task: Id, same: bool)
    | Alias(task: Id)
    | Refuse(why: Refusal)
    | Accept(policy: Policy, lane: LaneState)

  function Ceiling(p: Policy, l: Lane): Policy {
    Policy(Min(p.maxJobs, JobCap(l)), Min(p.maxPayload, 262144), Min(p.maxTotal, BYTE_CAP), Min(p.maxAge, AgeCap(l)),
      Min(p.maxAttempts, 3))
  }

  function Tighten(p: Policy, q: Policy): Policy {
    Policy(Min(p.maxJobs, q.maxJobs), Min(p.maxPayload, q.maxPayload), Min(p.maxTotal, q.maxTotal),
      Min(p.maxAge, q.maxAge), Min(p.maxAttempts, q.maxAttempts))
  }

  function LaneOf(d: Db, l: Lane, p: Policy): LaneState {
    if l in d.lanes then d.lanes[l] else LaneState(0, false, false, p)
  }

  /** The first conflict key that an active job of the lane already holds. */
  function FirstHolder(conflicts: map<(Lane, Key), Id>, l: Lane, keys: seq<Key>): (r: Option<Id>)
    ensures r == None <==> forall k :: k in keys ==> (l, k) !in conflicts
  {
    if keys == [] then None
    else if (l, keys[0]) in conflicts then Some(conflicts[(l, keys[0])])
    else
      assert keys == [keys[0]] + keys[1..];
      FirstHolder(conflicts, l, keys[1..])
  }

  /** Every check of `admission`, in the script's order. */
  function Decide(d: Db, r: Request, p0: Policy, identity: Key, fingerprint: Key, credit: int): Decision {
    if identity in d.idem then Existing(d.idem[identity].task, d.idem[identity].fingerprint == fingerprint)
    else
      var p := Ceiling(p0, r.lane);
      var holder := FirstHolder(d.conflicts, r.lane, r.conflictKeys);
      if holder.Some? then
        if |Members(d.identities, holder.value)| >= 256 then Refuse(IdempotencyCapacity) else Alias(holder.value)
      else
        var lane := LaneOf(d, r.lane, p);
        var q := Tighten(p, lane.policy);
        if lane.admissionPaused then Refuse(AdmissionPaused)
        else if |r.text| > q.maxPayload then Refuse(PayloadTooLarge)
        else if Counter(d.counts, r.lane, Nonterminal) >= q.maxJobs then Refuse(JobCapacity)
        else if Counter(d.counts, r.lane, PayloadBytes) + |r.text| - credit > q.maxTotal then Refuse(ByteCapacity)
        else Accept(q, lane)
  }

  function NewJob(d: Db, r: Request, q: Policy, identity: Key, fingerprint: Key, parent: Option<Id>): Job {
    var end := d.clock + q.maxAge * SECOND;
    Job(
      Ticket(r.id, r.lane, r.user, r.kind, r.epoch, r.priority, r.effectful, r.imageWork, parent, r.conflictKeys,
             r.timeout, q.maxAttempts, d.clock, end, |r.text|, d.sequence + 1, identity, fingerprint),
      if r.delay > 0 then Delayed else Queued, 1, 0, d.clock + Max(0, r.delay), end, d.clock, NoReason,
      r.retryGrants, false, true, None, None,
      d.clock + (if r.user > 0 then Min(900, q.maxAge) else q.maxAge) * SECOND, None)
  }

  /** A conflict makes the submission another name of the job that holds the key. */
  function AliasTo(d: Db, task: Id, identity: Key, fingerprint: Key): Db {
    d.(idem := d.idem[identity := Idem(task, fingerprint, d.clock + DAY)],
      identities := AddIdentity(d.identities, task, identity))
  }

  predicate Fits(r: Request, parent: Option<Id>) {
    (r.timeout.Some? ==> 1 <= r.timeout.value <= 1800) && (parent.Some? ==> r.retryGrants <= 0)
  }

  lemma NewJobOk(d: Db, r: Request, q: Policy, identity: Key, fingerprint: Key, parent: Option<Id>)
    requires Positive(q) && q.maxAge <= 1800 && q.maxAttempts <= 3 && Fits(r, parent)
    ensures var m := NewJob(d, r, q, identity, fingerprint, parent); RecordOk(m, d.clock) && FreshJob(m, d.clock)
  {
  }

  /** An accepted decision respects every ceiling. */
  lemma AcceptedBounds(d: Db, r: Request, p0: Policy, identity: Key, fingerprint: Key, credit: int)
    requires Positive(p0) && LanesOk(d.lanes)
    requires Decide(d, r, p0, identity, fingerprint, credit).Accept?
    ensures var a := Decide(d, r, p0, identity, fingerprint, credit);
            && Positive(a.policy) && a.policy.maxAge <= 1800 && a.policy.maxAttempts <= 3 && Positive(a.lane.policy)
            && Counter(d.counts, r.lane, Nonterminal) < JobCap(r.lane)
            && Counter(d.counts, r.lane, PayloadBytes) + |r.text| - credit <= BYTE_CAP
            && identity !in d.idem && (forall k :: k in r.conflictKeys ==> (r.lane, k) !in d.conflicts)
  {
  }

  function InsertOne(d: Db, r: Request, a: Decision, identity: Key, fingerprint: Key, parent: Option<Id>): Db
    requires a.Accept?
  {
    Insert(d, NewJob(d, r, a.policy, identity, fingerprint, parent), r.text, a.lane)
  }

  lemma InsertFresh(d: Db, m: Job, text: string, lane: LaneState)
    requires Fresh(d) && FreshJob(m, d.clock) && m.t.id !in d.jobs && m.t.sequence == d.sequence + 1
    ensures Fresh(Insert(d, m, text, lane)) && Progress(d, Insert(d, m, text, lane))
  {
    hide FreshJob, AdmitCounts, AddConflicts, AddIdentity;
    var d' := Insert(d, m, text, lane);
    assert d'.jobs == d.jobs[m.t.id := m];
  }

  /** Creating a job under an id that no index knows. */
  lemma InsertStep(d: Db, r: Request, a: Decision, identity: Key, fingerprint: Key, parent: Option<Id>, past: Past)
    requires a.Accept? && Positive(a.policy) && a.policy.maxAge <= 1800 && a.policy.maxAttempts <= 3
      && Positive(a.lane.policy)
    requires Counter(d.counts, r.lane, Nonterminal) < JobCap(r.lane)
    requires Counter(d.counts, r.lane, PayloadBytes) + |r.text| <= BYTE_CAP
    requires forall k :: k in r.conflictKeys ==> (r.lane, k) !in d.conflicts
    requires r.id !in d.owners && Fits(r, parent)
    requires Settledown(d, past)
    ensures var d' := InsertOne(d, r, a, identity, fingerprint, parent);
            Settledown(d', past) && Progress(d, d')
              && d'.jobs == d.jobs[r.id := NewJob(d, r, a.policy, identity, fingerprint, parent)]
            && d'.clock == d.clock && d'.sequence == d.sequence + 1 && r.id !in d.jobs
  {
    hide Inv, Fresh, FreshJob, RecordOk, AdmitCounts, AddConflicts, AddIdentity, Progress, Counter;
    var m := NewJob(d, r, a.policy, identity, fingerprint, parent);
    NewJobOk(d, r, a.policy, identity, fingerprint, parent);
    OwnedIfStored(d, r.id, past);
    assert NewRecord(d, m, r.text);
    hide NewRecord;
    InsertInv(d, m, r.text, a.lane, past);
    InsertFresh(d, m, r.text, a.lane);
  }

  lemma OwnedIfStored(d: Db, id: Id, past: Past)
    requires Inv(d, past)
    ensures id in d.jobs ==> id in d.owners && d.owners[id] == OwnerOf(d.jobs[id])
  {
    hide ReadyExact, DelayedExact, RunningExact, DeadlineExact, PayloadExpiryExact, PayloadsExact;
    hide MetaExact, UsersExact, ConflictsExact, RecordsOk, Accounted, PermitExact, Recorded;
  }

  ghost function AdmitPast(past: Past, q: nat, parent: Option<nat>): Past {
    past.(log := Snoc(past.log, Admitted(q, parent)))
  }

  lemma LogInv(d: Db, past: Past, past': Past)
    requires Settledown(d, past)
    requires past'.leaked == past.leaked && Recorded(d, past')
    ensures Settledown(d, past')
  {
    hide Indexed, RecordsOk, LanesOk, CountsExact, LeaksOk, CapsOk, PermitExact, Recorded, Fresh;
  }

  lemma Histories(d: Db, past: Past)
    requires Inv(d, past)
    ensures Recorded(d, past) && RecordsOk(d.jobs, d.clock, d.sequence) && LanesOk(d.lanes)
    ensures forall q: nat :: Mentions(past.log, q) ==> q <= d.sequence
  {
    hide Indexed, RecordsOk, Accounted, PermitExact, JobLogs, TokensOk, LanesOk, NoReplay, SettledOnce, Fenced,
      OneGeneration;
  }

  /** A plain submission. */
  lemma AdmitStep(d: Db, r: Request, p0: Policy, identity: Key, fingerprint: Key, past: Past)
    requires Positive(p0) && Decide(d, r, p0, identity, fingerprint, 0).Accept?
    requires r.id !in d.owners && Fits(r, None)
    requires Settledown(d, past)
    ensures var a := Decide(d, r, p0, identity, fingerprint, 0);
            var d' := InsertOne(d, r, a, identity, fingerprint, None);
            && Settledown(d', AdmitPast(past, d'.sequence, None)) && Progress(d, d')
            && d'.jobs == d.jobs[r.id := NewJob(d, r, a.policy, identity, fingerprint, None)] && r.id !in d.jobs
              && d'.clock == d.clock
  {
    hide Inv, Fresh, Decide, InsertOne, NewJob, Counter, Progress, Recorded, RecordsOk, LanesOk;
    Histories(d, past);
    AcceptedBounds(d, r, p0, identity, fingerprint, 0);
    var a := Decide(d, r, p0, identity, fingerprint, 0);
    InsertStep(d, r, a, identity, fingerprint, None, past);
    var d' := InsertOne(d, r, a, identity, fingerprint, None);
    Histories(d', past);
    AdmittedRecorded(d', past, d'.sequence, None);
    LogInv(d', past, AdmitPast(past, d'.sequence, None));
  }

  // ---- operator retry ------------------------------------------------------------------------

  function Spent(m: Job): Job { Dropped(m).(retryGrants := 0) }

  /** The parent gives up its grant and its payload. */
  function SpendOne(d: Db, id: Id): Db
    requires id in d.jobs
  {
    var m := d.jobs[id];
    Save(Cursor(DropPayload(Cursor(d, m)).db, Spent(m)))
  }

  lemma SpendFollows(d: Db, m: Job)
    requires m.t.id in d.jobs && d.jobs[m.t.id] == m && (!Active(m.state) ==> m.metadataExpiresAt.Some?)
    ensures Follows(d, SpendOne(d, m.t.id), Spent(m)) && CountsFollow(d, SpendOne(d, m.t.id).counts, Spent(m))
  {
    hide Counter, ByteCounts;
    var n := ByteCounts(d.counts, m);
    forall l: Lane, f: Field ensures Counter(n, l, f) == Counter(d.counts, l, f) + Shift(m, Spent(m), l, f) {
      ByteCountsAt(d.counts, m, l, f);
    }
  }

  lemma SpentOk(m: Job, clock: Time)
    requires RecordOk(m, clock) && !Active(m.state) && m.retryGrants >= 0
    ensures RecordOk(Spent(m), clock) && Quiet(m, Spent(m)) && Shrinks(m, Spent(m)) && Evolves(m, Spent(m))
      && FreshJob(Spent(m), clock)
  {
  }

  lemma SpendStep(d: Db, id: Id, past: Past)
    requires id in d.jobs && !Active(d.jobs[id].state) && d.jobs[id].retryGrants >= 0
    requires Settledown(d, past)
    ensures var d' := SpendOne(d, id);
            Settledown(d', past) && Progress(d, d') && Rewrote(d, d', id, Spent(d.jobs[id]))
            && d'.owners == d.owners && d'.conflicts == d.conflicts
  {
    hide Inv, Fresh, Evolves, Progress, RecordOk, PayloadsExact, ConflictsExact, ByteCounts, FreshJob, Follows,
      CountsFollow, Quiet, Shrinks;
    var m := d.jobs[id];
    Known(d, id, past);
    assert !Active(m.state) ==> m.metadataExpiresAt.Some? by { RecordMeta(m, d.clock); }
    SpendFollows(d, m);
    SpentOk(m, d.clock);
    QuietEdit(d, SpendOne(d, id), Spent(m), past);
    assert Rewrote(d, SpendOne(d, id), id, Spent(m));
    FreshNext(d, SpendOne(d, id), id, Spent(m));
    ProgressNext(d, SpendOne(d, id), id, Spent(m));
  }

  lemma RecordMeta(m: Job, clock: Time)
    requires RecordOk(m, clock)
    ensures !Active(m.state) ==> m.metadataExpiresAt.Some?
    ensures m.retryEligible ==> m.accounted
  {
  }

  /** Dropping the parent's payload gives back exactly the credit its child was admitted on. */
  lemma SpendCredits(d: Db, id: Id)
    requires id in d.jobs && !Active(d.jobs[id].state) && d.jobs[id].accounted
    ensures var d', m := SpendOne(d, id), d.jobs[id];
            && Counter(d'.counts, m.t.lane, PayloadBytes)
              == Counter(d.counts, m.t.lane, PayloadBytes) - m.t.payloadBytes
            && Counter(d'.counts, m.t.lane, Nonterminal) == Counter(d.counts, m.t.lane, Nonterminal)
  {
    hide ByteCounts, Counter;
    ByteCountsAt(d.counts, d.jobs[id], d.jobs[id].t.lane, PayloadBytes);
    ByteCountsAt(d.counts, d.jobs[id], d.jobs[id].t.lane, Nonterminal);
  }

  /** Conditions under which an operator may retry a finished job. */
  predicate Retryable(d: Db, id: Id, revision: int, epoch: Option<int>) {
    && id in d.jobs && d.jobs[id].revision == revision && (d.jobs[id].state == Failed || d.jobs[id].state == Expired)
    && d.jobs[id].retryEligible && d.jobs[id].retryGrants >= 1 && id in d.payloads && d.jobs[id].t.epoch == epoch
  }

  function ChildRequest(d: Db, id: Id, child: Id): Request
    requires id in d.jobs && id in d.payloads
  {
    var m := d.jobs[id];
    Request(child, m.t.lane, m.t.user, m.t.kind, d.payloads[id].text, m.t.epoch, m.t.priority, 0,
            m.t.effectful, m.t.imageWork, 0, m.t.conflictKeys, m.t.timeout)
  }

  function Credit(m: Job): int { if m.accounted then m.t.payloadBytes else 0 }

  /** An accepted retry as the script does it: the child is created, then the parent gives up its grant
      and its payload. */
  function RetryOne(d: Db, id: Id, child: Id, a: Decision, identity: Key, fingerprint: Key): Db
    requires id in d.jobs && id in d.payloads && a.Accept?
  {
    var m := d.jobs[id];
    var d1 := InsertOne(d, ChildRequest(d, id, child), a, identity, fingerprint, Some(id));
    Save(Cursor(DropPayload(Cursor(d1, m)).db, Spent(m)))
  }

  /** The same with the parent's part first. */
  function SpentFirst(d: Db, id: Id, child: Id, a: Decision, identity: Key, fingerprint: Key): Db
    requires id in d.jobs && id in d.payloads && a.Accept?
  {
    InsertOne(SpendOne(d, id), ChildRequest(d, id, child), a, identity, fingerprint, Some(id))
  }

  lemma RetryFacts(d: Db, id: Id, revision: int, epoch: Option<int>, past: Past)
    requires Retryable(d, id, revision, epoch)
    requires Settledown(d, past)
    ensures d.jobs[id].accounted && |d.payloads[id].text| == d.jobs[id].t.payloadBytes && d.jobs[id].t.id == id
    ensures Fits(ChildRequest(d, id, 0), Some(id))
    ensures !HasChild(past.log, d.jobs[id].t.sequence) && !IsChild(past.log, d.jobs[id].t.sequence)
    ensures d.jobs[id].t.sequence <= d.sequence && id in d.owners
    ensures forall o :: o in d.jobs && d.jobs[o].t.sequence == d.jobs[id].t.sequence ==> o == id
    ensures forall o :: o in d.jobs ==> d.jobs[o].t.sequence <= d.sequence
  {
    hide Fresh, Inv, PayloadsExact, ConflictsExact, LanesOk;
    Known(d, id, past);
    OwnedIfStored(d, id, past);
    Histories(d, past);
    assert JobLog(past.log, d.jobs[id]);
  }

  /** An accepted operator retry: the child takes over the parent's payload bytes and its one grant. */
  lemma RetryStep(d: Db, id: Id, revision: int, epoch: Option<int>, child: Id, p0: Policy, identity: Key,
      fingerprint: Key, past: Past)
    requires Retryable(d, id, revision, epoch) && Positive(p0)
    requires Decide(d, ChildRequest(d, id, child), p0, identity, fingerprint, Credit(d.jobs[id])).Accept?
    requires child !in d.owners
    requires Settledown(d, past)
    ensures var a := Decide(d, ChildRequest(d, id, child), p0, identity, fingerprint, Credit(d.jobs[id]));
            var d' := RetryOne(d, id, child, a, identity, fingerprint);
            && Settledown(d', AdmitPast(past, d'.sequence, Some(d.jobs[id].t.sequence))) && Progress(d, d')
            && child !in d.jobs && child in d'.jobs && d'.clock == d.clock && d'.jobs[child].t.parent == Some(id)
              && d'.jobs[child].t.identity == identity && Waiting(d'.jobs[child].state)
              && d'.jobs[child].t.user == d.jobs[id].t.user && d'.jobs[child].t.id == child
              && d'.jobs[child].retryGrants == 0 && d'.jobs[child].owner == None
            && d'.jobs == d.jobs[id := Spent(d.jobs[id])][child := d'.jobs[child]]
            && Counter(d'.counts, d.jobs[id].t.lane, PayloadBytes) <= BYTE_CAP
  {
    hide Inv, Fresh, Decide, Progress, Counter, Recorded, RecordsOk, LanesOk, AdmitCounts, AddConflicts, AddIdentity,
      SpendOne, Spent, Insert, Rewrote, Retryable, Fits, RetryOne, DropPayload;
    RetryParent(d, id, revision, epoch);
    var m, r := d.jobs[id], ChildRequest(d, id, child);
    var a := Decide(d, r, p0, identity, fingerprint, Credit(m));
    Histories(d, past);
    AcceptedBounds(d, r, p0, identity, fingerprint, Credit(m));
    RetryFacts(d, id, revision, epoch, past);
    ChildFits(d, id, child);
    SpendStep(d, id, past);
    SpendCredits(d, id);
    var s := SpendOne(d, id);
    SpentFrame(d, s, id);
    InsertStep(s, r, a, identity, fingerprint, Some(id), past);
    var d' := SpentFirst(d, id, child, a, identity, fingerprint);
    RetryOrder(d, id, child, a, identity, fingerprint);
    ProgressTransitive(d, s, d');
    Histories(d', past);
    CapsOf(d', past, m.t.lane);
    RetryRecorded(d, s, d', id, r, a, identity, fingerprint, past);
    LogInv(d', past, AdmitPast(past, d'.sequence, Some(m.t.sequence)));
  }

  /** For two different jobs the order makes no difference. */
  lemma RetryOrder(d: Db, id: Id, child: Id, a: Decision, identity: Key, fingerprint: Key)
    requires id in d.jobs && id in d.payloads && a.Accept? && child != id && d.jobs[id].t.id == id
    ensures RetryOne(d, id, child, a, identity, fingerprint) == SpentFirst(d, id, child, a, identity, fingerprint)
  {
    hide AddConflicts, AddIdentity, ByteCounts, AdmitCounts, NewJob, Spent;
    var m, r := d.jobs[id], ChildRequest(d, id, child);
    var c := NewJob(d, r, a.policy, identity, fingerprint, Some(id));
    SameNewJob(d, SpendOne(d, id), r, a.policy, identity, fingerprint, Some(id));
    SpentTicket(m);
    OtherKey(d.jobs, id, Spent(m), child, c);
    OtherDrop(d.payloads, id, child, Payload(r.text, c.payloadExpiresAt));
    OtherDrop(d.payloadExpiry, id, child, c.payloadExpiresAt);
    CountsCommute(d.counts, m, c);
  }

  lemma SameNewJob(d: Db, d': Db, r: Request, q: Policy, identity: Key, fingerprint: Key, parent: Option<Id>)
    requires d'.clock == d.clock && d'.sequence == d.sequence
    ensures NewJob(d', r, q, identity, fingerprint, parent) == NewJob(d, r, q, identity, fingerprint, parent)
    ensures NewJob(d, r, q, identity, fingerprint, parent).t.id == r.id
  {
  }

  lemma SpentTicket(m: Job)
    ensures Spent(m).t == m.t
  {
  }

  lemma OtherKey<T>(z: map<Id, T>, a: Id, x: T, b: Id, y: T)
    requires a != b
    ensures z[a := x][b := y] == z[b := y][a := x]
  {
  }

  lemma OtherDrop<T>(z: map<Id, T>, a: Id, b: Id, y: T)
    requires a != b
    ensures (z - {a})[b := y] == z[b := y] - {a}
  {
  }

  lemma CountsCommute(n: Counts, m: Job, c: Job)
    ensures AdmitCounts(ByteCounts(n, m), c) == ByteCounts(AdmitCounts(n, c), m)
  {
    if m.accounted {
      var b := -m.t.payloadBytes;
      var n1 := Bump(n, c.t.lane, Nonterminal, 1);
      var n2 := Bump(n1, c.t.lane, PayloadBytes, c.t.payloadBytes);
      BumpCommutes(n, m.t.lane, PayloadBytes, b, c.t.lane, Nonterminal, 1);
      BumpCommutes(n1, m.t.lane, PayloadBytes, b, c.t.lane, PayloadBytes, c.t.payloadBytes);
      BumpCommutes(n2, m.t.lane, PayloadBytes, b, c.t.lane, InState(c.state), 1);
    }
  }

  lemma BumpCommutes(n: Counts, l: Lane, f: Field, x: int, l': Lane, f': Field, y: int)
    ensures Bump(Bump(n, l, f, x), l', f', y) == Bump(Bump(n, l', f', y), l, f, x)
  {
  }

  lemma RetryParent(d: Db, id: Id, revision: int, epoch: Option<int>)
    requires Retryable(d, id, revision, epoch)
    ensures id in d.jobs && id in d.payloads && !Active(d.jobs[id].state) && d.jobs[id].retryGrants >= 1
  {
  }

  lemma ChildFits(d: Db, id: Id, child: Id)
    requires id in d.jobs && id in d.payloads && Fits(ChildRequest(d, id, 0), Some(id))
    ensures Fits(ChildRequest(d, id, child), Some(id))
  {
  }

  lemma SpentFrame(d: Db, s: Db, id: Id)
    requires id in d.jobs && Rewrote(d, s, id, Spent(d.jobs[id]))
    ensures s.jobs == d.jobs[id := Spent(d.jobs[id])] && s.clock == d.clock && s.sequence == d.sequence
      && s.lanes == d.lanes
    ensures Spent(d.jobs[id]).t == d.jobs[id].t
  {
  }

  lemma CapsOf(d: Db, past: Past, l: Lane)
    requires Settledown(d, past)
    ensures Counter(d.counts, l, PayloadBytes) <= BYTE_CAP
  {
    hide Indexed, RecordsOk, LanesOk, CountsExact, LeaksOk, PermitExact, Recorded, Fresh;
  }

  lemma RetryRecorded(d: Db, s: Db, d': Db, id: Id, r: Request, a: Decision, identity: Key, fingerprint: Key,
      past: Past)
    requires a.Accept? && id in d.jobs && r.id !in s.jobs && r.retryGrants == 0
    requires s.jobs == d.jobs[id := Spent(d.jobs[id])] && s.sequence == d.sequence
      && Spent(d.jobs[id]).t == d.jobs[id].t
    requires d'.jobs == s.jobs[r.id := NewJob(s, r, a.policy, identity, fingerprint, Some(id))]
      && d'.sequence == s.sequence + 1
    requires !HasChild(past.log, d.jobs[id].t.sequence) && !IsChild(past.log, d.jobs[id].t.sequence)
    requires d.jobs[id].t.sequence <= d.sequence
    requires forall o :: o in d.jobs && d.jobs[o].t.sequence == d.jobs[id].t.sequence ==> o == id
    requires forall o :: o in d.jobs ==> d.jobs[o].t.sequence <= d.sequence
    requires forall q: nat :: Mentions(past.log, q) ==> q <= d.sequence
    requires Recorded(d', past)
    ensures Recorded(d', AdmitPast(past, d'.sequence, Some(d.jobs[id].t.sequence)))
  {
    hide Recorded;
    AdmittedRecorded(d', past, d'.sequence, Some(d.jobs[id].t.sequence));
  }

  // ---- identities ------------------------------------------------------------------------------

  lemma NewPaid(d: Db, r: Request, q: Policy, identity: Key, fingerprint: Key, parent: Option<Id>)
    ensures PaidOk(NewJob(d, r, q, identity, fingerprint, parent))
  {
  }

  lemma InsertNames(d: Db, r: Request, a: Decision, identity: Key, fingerprint: Key, parent: Option<Id>, past: Past)
    requires a.Accept? && identity !in d.idem && r.id !in d.owners
    requires Settledown(d, past)
    ensures Upholds(d, InsertOne(d, r, a, identity, fingerprint, parent))
  {
    hide Inv, Fresh, Linked, Answered, Stocked, PaidOk, Insert;
    OwnedIfStored(d, r.id, past);
    Unswept(d, r.id, past);
    var m := NewJob(d, r, a.policy, identity, fingerprint, parent);
    if Linked(d) { LinkedInsert(d, m, r.text, a.lane); }
    if Answered(d) { AnsweredInsert(d, m, r.text, a.lane); }
    NewPaid(d, r, a.policy, identity, fingerprint, parent);
    if Stocked(d) { StockedInsert(d, m, r.text, a.lane); }
  }

  lemma SpendShape(d: Db, id: Id)
    requires id in d.jobs
    ensures var d', m := SpendOne(d, id), Spent(d.jobs[id]);
            && m.t == d.jobs[id].t && m.metadataExpiresAt == d.jobs[id].metadataExpiresAt && m.state == d.jobs[id].state
            && d'.jobs == d.jobs[m.t.id := m] && d'.idem == d.idem && d'.identities == d.identities
            && d'.clock == d.clock && d'.metaExpiry == d.metaExpiry && d'.owners == d.owners
            && d'.payloads == d.payloads - {m.t.id} && !m.accounted
  {
    hide ByteCounts;
  }

  lemma SpendNames(d: Db, id: Id, past: Past)
    requires id in d.jobs && !Active(d.jobs[id].state) && Settledown(d, past)
    ensures Upholds(d, SpendOne(d, id))
  {
    hide Inv, Fresh, Linked, Answered, Stocked, SpendOne, Spent, RecordOk, PayloadsExact, ConflictsExact;
    Known(d, id, past);
    SpendShape(d, id);
    if Linked(d) { LinkedEdit(d, SpendOne(d, id), Spent(d.jobs[id])); }
    if Answered(d) { AnsweredEdit(d, SpendOne(d, id), Spent(d.jobs[id])); }
    if Stocked(d) { StockedEdit(d, SpendOne(d, id), Spent(d.jobs[id])); }
  }

  /** The holder of a conflict key is an active job of the lane. */
  lemma HolderActive(d: Db, l: Lane, keys: seq<Key>, past: Past)
    requires FirstHolder(d.conflicts, l, keys).Some?
    requires Inv(d, past)
    ensures var id := FirstHolder(d.conflicts, l, keys).value;
            id in d.jobs && Active(d.jobs[id].state) && d.jobs[id].t.lane == l
              && (exists k :: k in keys && k in d.jobs[id].t.conflictKeys)
            && d.jobs[id].metadataExpiresAt == None
  {
    hide Inv, PayloadsExact, RecordOk, ConflictsExact;
    var k := HolderKey(d.conflicts, l, keys);
    var id := FirstHolder(d.conflicts, l, keys).value;
    HolderStored(d, l, k, past);
    Known(d, id, past);
    ActiveUnended(d.jobs[id], d.clock);
  }

  lemma {:induction false} HolderKey(conflicts: map<(Lane, Key), Id>, l: Lane, keys: seq<Key>) returns (k: Key)
    requires FirstHolder(conflicts, l, keys).Some?
    ensures k in keys && (l, k) in conflicts && FirstHolder(conflicts, l, keys) == Some(conflicts[(l, k)])
  {
    if (l, keys[0]) in conflicts { k := keys[0]; } else { k := HolderKey(conflicts, l, keys[1..]); }
  }

  lemma HolderStored(d: Db, l: Lane, k: Key, past: Past)
    requires (l, k) in d.conflicts
    requires Inv(d, past)
    ensures var id := d.conflicts[(l, k)];
            id in d.jobs && Active(d.jobs[id].state) && d.jobs[id].t.lane == l && k in d.jobs[id].t.conflictKeys
  {
    hide ReadyExact, DelayedExact, RunningExact, DeadlineExact, PayloadExpiryExact, PayloadsExact;
    hide OwnersExact, MetaExact, UsersExact, RecordsOk, Accounted, PermitExact, Recorded;
  }

  lemma ActiveUnended(m: Job, clock: Time)
    requires RecordOk(m, clock) && Active(m.state)
    ensures m.metadataExpiresAt == None
  {
  }

  /** A conflict makes the submission a further name of the job in its way, and changes nothing else. */
  lemma AliasStep(d: Db, r: Request, p0: Policy, identity: Key, fingerprint: Key, credit: int, past: Past)
    requires Decide(d, r, p0, identity, fingerprint, credit).Alias?
    requires Settledown(d, past)
    ensures var task := Decide(d, r, p0, identity, fingerprint, credit).task;
            var d' := AliasTo(d, task, identity, fingerprint);
            && Settledown(d', past) && Progress(d, d') && Upholds(d, d') && d'.jobs == d.jobs
            && task in d.jobs && Active(d.jobs[task].state) && d.jobs[task].t.lane == r.lane
            && (exists k :: k in r.conflictKeys && k in d.jobs[task].t.conflictKeys)
  {
    hide Inv, Fresh, Linked, Answered, Stocked, Progress, AddIdentity, Settledown, FirstHolder;
    var task := Decide(d, r, p0, identity, fingerprint, credit).task;
    SettledInv(d, past);
    HolderActive(d, r.lane, r.conflictKeys, past);
    SideInv(d, AliasTo(d, task, identity, fingerprint), past);
    Unswept(d, task, past);
    if Linked(d) { LinkedAlias(d, AliasTo(d, task, identity, fingerprint), task, identity, fingerprint); }
    if Answered(d) { AnsweredAlias(d, AliasTo(d, task, identity, fingerprint), task, identity, fingerprint); }
    if Stocked(d) { StockedFrame(d, AliasTo(d, task, identity, fingerprint)); }
  }

  lemma SettledInv(d: Db, past: Past)
    requires Settledown(d, past)
    ensures Inv(d, past) && Fresh(d)
  {
    hide Inv, Fresh;
  }
}
