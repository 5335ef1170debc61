/** Edits that write history: a start, a settlement and an admission. */
module QueueEvents {
  import opened Wrappers
  import opened QueueTypes
  import opened QueueInvariant
  import opened QueueLog
  import opened QueueOps
  import opened QueueSteps

  lemma FrameInv(d: Db, d': Db, m: Job, past: Past, past': Past)
    requires Inv(d, past) && m.t.id in d.jobs && d'.jobs == d.jobs[m.t.id := m] && Alike(d, d')
      && d.jobs[m.t.id].t == m.t
    requires Indexed(d') && CountsExact(d'.counts, past.leaked, d'.jobs, d'.owners) && CapsOk(d'.counts)
    requires RecordOk(m, d.clock) && PermitFollows(d, d', m)
    requires Recorded(d', past') && past'.leaked == past.leaked
    ensures Inv(d', past')
  {
    hide Indexed, CountsExact, CapsOk, RecordOk, RecordsOk, PermitExact, TokensOk, JobLogs, LogShape, PermitFollows;
    RecordsNext(d.jobs, m, d.clock, d.sequence);
    PermitNext(d, d', m, past.tokens);
  }

  // ---- a start --------------------------------------------------------------------

  lemma BegunOk(m: Job, clock: Time, token: Token)
    requires RecordOk(m, clock) && m.state == Queued && m.attempts < m.t.maxAttempts && m.deadlineAt > clock
    ensures var m' := Begun(clock, m, token);
            RecordOk(m', clock) && Evolves(m, m') && FreshJob(m', clock) && m'.t == m.t
  {
  }

  lemma BeginCaps(db: Db, m: Job, token: Token)
    requires CapsOk(db.counts) && m.t.id in db.jobs && db.jobs[m.t.id] == m && m.state == Queued
    requires Counter(db.counts, m.t.lane, RunningNow) < Workers(m.t.lane)
    requires CountsFollow(db, Begin(db.clock, Cursor(db, m), token).db.counts, Begun(db.clock, m, token))
    ensures CapsOk(Begin(db.clock, Cursor(db, m), token).db.counts)
  {
    var m', n := Begun(db.clock, m, token), Begin(db.clock, Cursor(db, m), token).db.counts;
    forall l: Lane
      ensures Counter(n, l, Nonterminal) <= JobCap(l) && Counter(n, l, RunningNow) <= Workers(l)
        && Counter(n, l, PayloadBytes) <= BYTE_CAP
    {
      assert Shift(m, m', l, Nonterminal) == 0 && Shift(m, m', l, PayloadBytes) == 0;
      assert Shift(m, m', l, RunningNow) == if l == m.t.lane then 1 else 0;
      hide Counter, Shift, Begin;
    }
  }

  lemma ClaimedLog(log: Log, a: Job, e: Event)
    requires JobLog(log, a) && !e.Admitted? && e.job != a.t.sequence
    requires e.Settled? ==> a.owner != Some(e.token)
    ensures JobLog(Snoc(log, e), a)
  {
  }

  lemma BegunLog(log: Log, m: Job, token: Token, clock: Time, tokens: set<Token>, sequence: nat)
    requires JobLog(log, m) && m.state == Queued && LogShape(log, tokens, sequence) && token !in tokens
    ensures JobLog(Snoc(log, Claimed(m.t.sequence, token, m.t.effectful)), Begun(clock, m, token))
  {
  }

  lemma BegunShape(log: Log, m: Job, token: Token, tokens: set<Token>, sequence: nat)
    requires JobLog(log, m) && m.state == Queued && LogShape(log, tokens, sequence) && token !in tokens
    requires m.attempts < 3 && m.t.sequence <= sequence
    ensures LogShape(Snoc(log, Claimed(m.t.sequence, token, m.t.effectful)), tokens + {token}, sequence)
  {
    var log' := Snoc(log, Claimed(m.t.sequence, token, m.t.effectful));
    forall q: nat ensures Claims(log', q) <= 3 { assert Claims(log, q) <= 3; }
    forall t: Token | SettledBy(log', t) ensures t in tokens + {token} { assert SettledBy(log, t); }
  }

  lemma BeginRecorded(db: Db, d': Db, m: Job, token: Token, past: Past)
    requires Recorded(db, past) && RecordsOk(db.jobs, db.clock, db.sequence)
    requires m.t.id in db.jobs && db.jobs[m.t.id] == m && m.state == Queued && m.attempts < 3 && token !in past.tokens
    requires d'.jobs == db.jobs[m.t.id := Begun(db.clock, m, token)] && d'.sequence == db.sequence
    ensures Recorded(d', Past(Snoc(past.log, Claimed(m.t.sequence, token, m.t.effectful)),
                              past.tokens + {token}, past.leaked))
  {
    hide JobLog, LogShape, RecordOk;
    var e, m' := Claimed(m.t.sequence, token, m.t.effectful), Begun(db.clock, m, token);
    var log' := Snoc(past.log, e);
    assert JobLog(past.log, m);
    BegunLog(past.log, m, token, db.clock, past.tokens, db.sequence);
    BegunShape(past.log, m, token, past.tokens, db.sequence);
    forall id | id in d'.jobs ensures JobLog(log', d'.jobs[id]) {
      if id != m.t.id {
        assert d'.jobs[id] == db.jobs[id] && JobLog(past.log, db.jobs[id]);
        ClaimedLog(past.log, db.jobs[id], e);
      }
    }
  }

  /** A claim under its fences keeps the invariant and is written to the history. */
  lemma BeginInv(db: Db, m: Job, token: Token, past: Past)
    requires Inv(db, past) && m.t.id in db.jobs && db.jobs[m.t.id] == m && m.state == Queued
    requires m.attempts < m.t.maxAttempts && token !in past.tokens && m.deadlineAt > db.clock
    requires Counter(db.counts, m.t.lane, RunningNow) < Workers(m.t.lane)
    requires m.t.imageWork ==> db.permit == None
    ensures Inv(Save(Begin(db.clock, Cursor(db, m), token)),
                Past(Snoc(past.log, Claimed(m.t.sequence, token, m.t.effectful)), past.tokens + {token}, past.leaked))
  {
    var c' := Begin(db.clock, Cursor(db, m), token);
    var past' := Past(Snoc(past.log, Claimed(m.t.sequence, token, m.t.effectful)), past.tokens + {token}, past.leaked);
    hide Indexed, PayloadsExact, ConflictsExact, CountsExact, CapsOk, Recorded, RecordsOk, LanesOk, PermitExact,
      LeaksOk;
    assert Indexed(db) && CountsExact(db.counts, past.leaked, db.jobs, db.owners) && CapsOk(db.counts)
      && Recorded(db, past) && RecordsOk(db.jobs, db.clock, db.sequence);
    hide Inv;
    Known(db, m.t.id, past);
    BegunOk(m, db.clock, token);
    assert m.accounted && m.attempts < 3;
    hide RecordOk, Evolves, FreshJob, Follows, CountsFollow;
    BeginFollows(db.clock, db, m, token);
    BeginCountsFollow(db.clock, db, m, token);
    Edited(db, Save(c'), c'.m, past.leaked);
    BeginCaps(db, m, token);
    BeginRecorded(db, Save(c'), m, token, past);
    FrameInv(db, Save(c'), c'.m, past, past');
  }

  // ---- a settlement -----------------------------------------------------------------

  function Stamped(m: Job, token: Token): Job { m.(finishToken := Some(token)) }

  /** The keyspace after `finish` has written the outcome and then the finish token. */
  function Finished(c: Cursor, token: Token): Db { Save(Cursor(Save(c), Stamped(c.m, token))) }

  lemma StampFollows(d: Db, m: Job, token: Token)
    requires m.t.id in d.jobs && d.jobs[m.t.id] == m && PayloadsExact(d.payloads, d.jobs)
    requires !Active(m.state) ==> m.metadataExpiresAt.Some?
    ensures var m' := Stamped(m, token); Follows(d, Save(Cursor(d, m')), m') && CountsFollow(d, d.counts, m')
  {
  }

  lemma StampIndexes(d: Db, m: Job, token: Token, leaked: Counts)
    requires m.t.id in d.jobs && d.jobs[m.t.id] == m && (!Active(m.state) ==> m.metadataExpiresAt.Some?)
    requires Indexed(d) && CountsExact(d.counts, leaked, d.jobs, d.owners)
    ensures var d' := Save(Cursor(d, Stamped(m, token)));
      Indexed(d') && CountsExact(d'.counts, leaked, d'.jobs, d'.owners)
  {
    assert PayloadsExact(d.payloads, d.jobs);
    hide Indexed, PayloadsExact, CountsExact, Follows, CountsFollow;
    StampFollows(d, m, token);
    Edited(d, Save(Cursor(d, Stamped(m, token))), Stamped(m, token), leaked);
  }

  /** What a settlement may leave behind. */
  ghost predicate Disposed(m: Job, m': Job, outcome: Outcome) {
    && m'.t == m.t && m'.attempts == m.attempts && m'.retryGrants == m.retryGrants && m'.owner == None
      && !Held(m'.state)
    && (Waiting(m'.state) ==> outcome == RetryableFailure)
  }

  lemma SettledLog(log: Log, m: Job, m': Job, token: Token, outcome: Outcome)
    requires JobLog(log, m) && Held(m.state) && m.owner == Some(token) && m.attempts >= 1 && Disposed(m, m', outcome)
    ensures JobLog(Snoc(log, Settled(m.t.sequence, token, outcome)), m')
  {
  }

  lemma SettledShape(log: Log, m: Job, token: Token, outcome: Outcome, tokens: set<Token>, sequence: nat)
    requires JobLog(log, m) && LogShape(log, tokens, sequence)
    requires Held(m.state) && m.owner == Some(token) && token in tokens && m.t.sequence <= sequence
    ensures LogShape(Snoc(log, Settled(m.t.sequence, token, outcome)), tokens, sequence)
  {
    var log' := Snoc(log, Settled(m.t.sequence, token, outcome));
    assert Latest(log, m.t.sequence) == Some(Claimed(m.t.sequence, token, m.t.effectful));
    forall q: nat ensures Claims(log', q) <= 3 { assert Claims(log, q) <= 3; }
    forall t: Token | SettledBy(log', t) ensures t in tokens { assert t == token || SettledBy(log, t); }
  }

  lemma SettledRecorded(db: Db, d': Db, m: Job, m': Job, token: Token, outcome: Outcome, past: Past)
    requires Recorded(db, past) && RecordsOk(db.jobs, db.clock, db.sequence)
    requires m.t.id in db.jobs && db.jobs[m.t.id] == m && Held(m.state) && m.owner == Some(token) && m.attempts >= 1
    requires Disposed(m, m', outcome) && m'.finishToken == Some(token)
    requires d'.jobs == db.jobs[m.t.id := m'] && d'.sequence == db.sequence
    ensures Recorded(d', past.(log := Snoc(past.log, Settled(m.t.sequence, token, outcome))))
  {
    var e := Settled(m.t.sequence, token, outcome);
    var log' := Snoc(past.log, e);
    assert JobLog(past.log, m);
    SettledLog(past.log, m, m', token, outcome);
    SettledShape(past.log, m, token, outcome, past.tokens, db.sequence);
    forall id | id in d'.jobs ensures JobLog(log', d'.jobs[id]) {
      if id != m.t.id {
        assert d'.jobs[id] == db.jobs[id] && JobLog(past.log, db.jobs[id]);
        ClaimedLog(past.log, db.jobs[id], e);
      }
      hide JobLog, LogShape;
    }
    hide JobLog, LogShape, RecordOk;
  }

  lemma FinishedJobs(db: Db, c: Cursor, token: Token)
    requires c.db.jobs == db.jobs && Alike(db, c.db)
    ensures var d' := Finished(c, token);
            d'.jobs == db.jobs[c.m.t.id := Stamped(c.m, token)] && Alike(db, d') && d'.permit == c.db.permit
              && d'.counts == c.db.counts
  {
    assert db.jobs[c.m.t.id := c.m][c.m.t.id := Stamped(c.m, token)] == db.jobs[c.m.t.id := Stamped(c.m, token)];
  }

  /** A settlement that followed its indexes and counters keeps the invariant. */
  lemma FinishInv(db: Db, m: Job, c: Cursor, token: Token, outcome: Outcome, past: Past)
    requires Inv(db, past) && m.t.id in db.jobs && db.jobs[m.t.id] == m && Held(m.state) && m.owner == Some(token)
    requires c.m.t == m.t && c.db.jobs == db.jobs && Alike(db, c.db)
    requires Follows(db, Save(c), c.m) && CountsFollow(db, c.db.counts, c.m) && Shrinks(m, c.m)
    requires Disposed(m, c.m, outcome) && RecordOk(Stamped(c.m, token), db.clock) && PermitFollows(db, c.db, c.m)
    ensures Inv(Finished(c, token), past.(log := Snoc(past.log, Settled(m.t.sequence, token, outcome))))
  {
    var past' := past.(log := Snoc(past.log, Settled(m.t.sequence, token, outcome)));
    var d', m' := Finished(c, token), Stamped(c.m, token);
    hide Indexed, CountsExact, CapsOk, Recorded, RecordsOk, PayloadsExact, ConflictsExact, LanesOk, PermitExact,
      LeaksOk, Follows, CountsFollow, Shrinks;
    assert Indexed(db) && CountsExact(db.counts, past.leaked, db.jobs, db.owners) && CapsOk(db.counts)
      && Recorded(db, past) && RecordsOk(db.jobs, db.clock, db.sequence);
    assert !Active(c.m.state) ==> c.m.metadataExpiresAt.Some?;
    hide Inv;
    Known(db, m.t.id, past);
    assert m.attempts >= 1;
    assert PermitFollows(db, d', m') && Disposed(m, m', outcome);
    hide RecordOk, Follows, CountsFollow, Shrinks, Disposed, PermitFollows;
    Edited(db, Save(c), c.m, past.leaked);
    CapsShrink(db, c.db.counts, c.m);
    StampIndexes(Save(c), c.m, token, past.leaked);
    FinishedJobs(db, c, token);
    hide Finished;
    SettledRecorded(db, d', m, m', token, outcome, past);
    FrameInv(db, d', m', past, past');
  }

  lemma EndedDisposed(m: Job, clock: Time, to: JobState, why: Reason, keep: bool, token: Token, outcome: Outcome)
    requires RecordOk(m, clock) && Held(m.state) && !Active(to) && (keep ==> (to == Failed || to == Expired))
    ensures var m' := Ended(clock, m, to, why, keep);
            Disposed(m, m', outcome) && RecordOk(Stamped(m', token), clock) && Shrinks(m, m')
              && Evolves(m, Stamped(m', token))
  {
  }

  lemma FinishTerminalInv(db: Db, m: Job, token: Token, to: JobState, why: Reason, safe: bool, outcome: Outcome,
      past: Past)
    requires Inv(db, past) && m.t.id in db.jobs && db.jobs[m.t.id] == m && Held(m.state) && m.owner == Some(token)
    requires !Active(to) && (safe ==> (to == Failed || to == Expired))
    ensures var c := Terminal(db.clock, Cursor(db, m), to, why, safe);
            && Inv(Finished(c, token), past.(log := Snoc(past.log, Settled(m.t.sequence, token, outcome))))
            && Evolves(m, Stamped(c.m, token))
  {
    var c := Terminal(db.clock, Cursor(db, m), to, why, safe);
    var keep := Keeps(db.payloads, m, safe);
    hide Inv, PayloadsExact, ConflictsExact;
    Known(db, m.t.id, past);
    EndedDisposed(m, db.clock, to, why, keep, token, outcome);
    hide RecordOk, Disposed, Shrinks, Evolves, Follows, CountsFollow;
    TerminalFollows(db.clock, db, m, to, why, safe);
    TerminalCountsFollow(db.clock, db, m, to, why, safe);
    hide EndCounts, FreeConflicts, RefreshIdem, RefreshSet, Retime, Members;
    assert PermitFollows(db, c.db, c.m);
    hide PermitFollows;
    FinishInv(db, m, c, token, outcome, past);
  }

  lemma PostponedDisposed(m: Job, clock: Time, delay: Time, why: Reason, token: Token)
    requires RecordOk(m, clock) && Held(m.state) && clock + delay < m.t.queueDeadlineAt && m.attempts < m.t.maxAttempts
    ensures var m' := Postponed(clock, m, delay, why);
            && Disposed(m, m', RetryableFailure) && RecordOk(Stamped(m', token), clock) && Shrinks(m, m')
              && Evolves(m, Stamped(m', token))
            && m.accounted
  {
  }

  lemma FinishPostponeInv(db: Db, m: Job, token: Token, delay: Time, why: Reason, past: Past)
    requires Inv(db, past) && m.t.id in db.jobs && db.jobs[m.t.id] == m && Held(m.state) && m.owner == Some(token)
    requires db.clock + delay < m.t.queueDeadlineAt && m.attempts < m.t.maxAttempts
    ensures var c := Postpone(db.clock, Cursor(db, m), delay, why);
            && Inv(Finished(c, token), past.(log := Snoc(past.log, Settled(m.t.sequence, token, RetryableFailure))))
            && Evolves(m, Stamped(c.m, token))
  {
    var c := Postpone(db.clock, Cursor(db, m), delay, why);
    hide Inv, PayloadsExact, ConflictsExact;
    Known(db, m.t.id, past);
    PostponedDisposed(m, db.clock, delay, why, token);
    hide RecordOk, Disposed, Shrinks, Evolves, Follows, CountsFollow;
    PostponeFollows(db.clock, db, m, delay, why);
    PostponeCountsFollow(db.clock, db, m, delay, why);
    hide StateCounts, RunCounts, Retime;
    assert PermitFollows(db, c.db, c.m);
    hide PermitFollows;
    FinishInv(db, m, c, token, RetryableFailure, past);
  }

  // ---- an admission ------------------------------------------------------------------

  function AddConflicts(conflicts: map<(Lane, Key), Id>, t: Ticket): map<(Lane, Key), Id> {
    conflicts + (map k | k in t.conflictKeys :: (t.lane, k) := t.id)
  }

  function AddIdentity(identities: map<Id, IdemSet>, id: Id, key: Key): map<Id, IdemSet> {
    if id in identities then identities[id := identities[id].(members := identities[id].members + {key})]
    else identities[id := IdemSet({key}, None)]
  }

  function AdmitCounts(n: Counts, m: Job): Counts {
    var n1 := Bump(n, m.t.lane, Nonterminal, 1);
    var n2 := Bump(n1, m.t.lane, PayloadBytes, m.t.payloadBytes);
    Bump(n2, m.t.lane, InState(m.state), 1)
  }

  /** The keys an accepted submission writes. */
  function Insert(d: Db, m: Job, text: string, lane: LaneState): Db {
    var t, id := m.t, m.t.id;
    d.(jobs := d.jobs[id := m],
       payloads := d.payloads[id := Payload(text, m.payloadExpiresAt)],
       idem := d.idem[t.identity := Idem(id, t.fingerprint, d.clock + DAY)],
       identities := AddIdentity(d.identities, id, t.identity),
       conflicts := AddConflicts(d.conflicts, t),
       users := d.users + {(t.user, id)},
       owners := d.owners[id := OwnerOf(m)],
       deadline := d.deadline[id := m.deadlineAt],
       payloadExpiry := d.payloadExpiry[id := m.payloadExpiresAt],
       counts := AdmitCounts(d.counts, m),
       lanes := d.lanes[t.lane := lane],
       delayed := if m.state == Delayed then d.delayed[(t.lane, id) := m.notBefore] else d.delayed,
       ready := if m.state == Delayed then d.ready else d.ready[(t.lane, id) := Score(m)],
       sequence := d.sequence + 1)
  }

  ghost predicate NewRecord(db: Db, m: Job, text: string) {
    && m.t.id !in db.owners && m.t.id !in db.jobs && Waiting(m.state) && RecordOk(m, db.clock)
    && m.t.sequence == db.sequence + 1 && m.attempts == 0 && m.owner == None && m.finishToken == None
    && |text| == m.t.payloadBytes && (forall k :: k in m.t.conflictKeys ==> (m.t.lane, k) !in db.conflicts)
  }

  lemma AddConflictsAdds(conflicts: map<(Lane, Key), Id>, m: Job)
    requires forall k :: k in m.t.conflictKeys ==> (m.t.lane, k) !in conflicts
    ensures ConflictsAdded(conflicts, AddConflicts(conflicts, m.t), m)
  {
  }

  lemma InsertFollows(db: Db, m: Job, text: string, lane: LaneState)
    requires NewRecord(db, m, text)
    ensures Follows(db, Insert(db, m, text, lane), m)
  {
    hide NewRecord, ConflictsAdded, AddConflicts, AddIdentity, AdmitCounts;
    InsertFacts(db, m, text);
  }

  lemma AdmitCountsAt(db: Db, m: Job, l: Lane, f: Field)
    requires m.t.id !in db.owners && m.t.id !in db.jobs && Waiting(m.state) && m.accounted
    ensures Counter(AdmitCounts(db.counts, m), l, f) == Counter(db.counts, l, f) + Delta(db, m, l, f)
  {
    var n1 := Bump(db.counts, m.t.lane, Nonterminal, 1);
    var n2 := Bump(n1, m.t.lane, PayloadBytes, m.t.payloadBytes);
    BumpAt(db.counts, m.t.lane, Nonterminal, 1, l, f);
    BumpAt(n1, m.t.lane, PayloadBytes, m.t.payloadBytes, l, f);
    BumpAt(n2, m.t.lane, InState(m.state), 1, l, f);
    hide Counter, Bump;
  }

  lemma InsertCounts(db: Db, m: Job, leaked: Counts)
    requires m.t.id !in db.owners && m.t.id !in db.jobs && Waiting(m.state) && m.accounted
    requires CountsExact(db.counts, leaked, db.jobs, db.owners)
    ensures CountsExact(AdmitCounts(db.counts, m), leaked, db.jobs[m.t.id := m], db.owners[m.t.id := OwnerOf(m)])
  {
    var n := AdmitCounts(db.counts, m);
    forall l: Lane, f: Field ensures Counter(n, l, f) == Counter(db.counts, l, f) + Delta(db, m, l, f) {
      AdmitCountsAt(db, m, l, f);
      hide Counter, Delta, AdmitCounts;
    }
    hide Counter, Delta, CountsExact, AdmitCounts;
    CountsNext(db, m, n, leaked);
  }

  lemma InsertCaps(db: Db, m: Job)
    requires CapsOk(db.counts) && m.t.id !in db.owners && m.t.id !in db.jobs && Waiting(m.state) && m.accounted
    requires Counter(db.counts, m.t.lane, Nonterminal) < JobCap(m.t.lane)
    requires Counter(db.counts, m.t.lane, PayloadBytes) + m.t.payloadBytes <= BYTE_CAP
    ensures CapsOk(AdmitCounts(db.counts, m))
  {
    var n := AdmitCounts(db.counts, m);
    forall l: Lane
      ensures Counter(n, l, Nonterminal) <= JobCap(l) && Counter(n, l, RunningNow) <= Workers(l)
        && Counter(n, l, PayloadBytes) <= BYTE_CAP
    {
      AdmitCountsAt(db, m, l, Nonterminal);
      AdmitCountsAt(db, m, l, RunningNow);
      AdmitCountsAt(db, m, l, PayloadBytes);
      hide Counter, AdmitCounts;
    }
  }

  lemma InsertRecords(db: Db, m: Job, text: string)
    requires RecordsOk(db.jobs, db.clock, db.sequence) && NewRecord(db, m, text)
    ensures RecordsOk(db.jobs[m.t.id := m], db.clock, db.sequence + 1)
  {
    hide RecordOk;
  }

  lemma {:induction false} NewLog(log: Log, q: nat)
    requires !Mentions(log, q)
    ensures Claims(log, q) == 0 && Latest(log, q) == None && !HasChild(log, q) && !IsChild(log, q)
  {
    if log.Snoc? { NewLog(log.prev, q); }
  }

  lemma InsertRecorded(db: Db, d': Db, m: Job, text: string, past: Past)
    requires Recorded(db, past) && NewRecord(db, m, text)
    requires d'.jobs == db.jobs[m.t.id := m] && d'.sequence == db.sequence + 1
    ensures Recorded(d', past)
  {
    NewLog(past.log, m.t.sequence);
    assert JobLog(past.log, m);
    hide JobLog, RecordOk;
    forall id | id in d'.jobs ensures JobLog(past.log, d'.jobs[id]) {
      if id != m.t.id { assert d'.jobs[id] == db.jobs[id]; }
    }
  }

  /** An accepted submission keeps the invariant. */
  lemma InsertInv(db: Db, m: Job, text: string, lane: LaneState, past: Past)
    requires Inv(db, past) && NewRecord(db, m, text) && Positive(lane.policy)
    requires Counter(db.counts, m.t.lane, Nonterminal) < JobCap(m.t.lane)
    requires Counter(db.counts, m.t.lane, PayloadBytes) + m.t.payloadBytes <= BYTE_CAP
    ensures Inv(Insert(db, m, text, lane), past)
  {
    var d' := Insert(db, m, text, lane);
    hide Indexed, CountsExact, CapsOk, Recorded, RecordsOk, LanesOk, PermitExact, NewRecord, Follows, AdmitCounts,
      AddConflicts, AddIdentity, LeaksOk;
    InsertFacts(db, m, text);
    InsertFollows(db, m, text, lane);
    IndexesFollow(db, d', m);
    InsertCounts(db, m, past.leaked);
    InsertCaps(db, m);
    InsertRecords(db, m, text);
    InsertRecorded(db, d', m, text, past);
    InsertPermit(db.permit, db.jobs, m, db.clock);
    InsertLane(db.lanes, m.t.lane, lane);
  }

  lemma InsertPermit(permit: Option<Permit>, jobs: map<Id, Job>, m: Job, clock: Time)
    requires PermitExact(permit, jobs, clock) && !Held(m.state) && m.t.id !in jobs
    ensures PermitExact(permit, jobs[m.t.id := m], clock)
  {
    if permit.Some? {
      var id :| id in jobs && Backs(permit.value, jobs[id]);
      assert id in jobs[m.t.id := m] && Backs(permit.value, jobs[m.t.id := m][id]);
    }
  }

  lemma InsertLane(lanes: map<Lane, LaneState>, l: Lane, lane: LaneState)
    requires LanesOk(lanes) && Positive(lane.policy)
    ensures LanesOk(lanes[l := lane])
  {
  }

  lemma InsertFacts(db: Db, m: Job, text: string)
    requires NewRecord(db, m, text)
    ensures m.t.id !in db.owners && m.t.id !in db.jobs && Waiting(m.state) && m.accounted
    ensures |text| == m.t.payloadBytes && ConflictsAdded(db.conflicts, AddConflicts(db.conflicts, m.t), m)
  {
    AddConflictsAdds(db.conflicts, m);
  }

  /** Writing an admission into the history. A parent must have spent its retry grant. */
  lemma AdmittedRecorded(db: Db, past: Past, q: nat, parent: Option<nat>)
    requires Recorded(db, past) && q <= db.sequence && !Mentions(past.log, q)
    requires parent.Some? ==> parent.value != q && parent.value <= db.sequence
                              && !HasChild(past.log, parent.value) && !IsChild(past.log, parent.value)
    requires parent.Some? ==> forall id :: id in db.jobs && db.jobs[id].t.sequence == parent.value ==>
      db.jobs[id].retryGrants <= 0
    requires parent.Some? ==> forall id :: id in db.jobs && db.jobs[id].t.sequence == q ==> db.jobs[id].retryGrants <= 0
    ensures Recorded(db, past.(log := Snoc(past.log, Admitted(q, parent))))
  {
    var log' := Snoc(past.log, Admitted(q, parent));
    forall id | id in db.jobs ensures JobLog(log', db.jobs[id]) {
      assert JobLog(past.log, db.jobs[id]);
    }
    forall k: nat ensures Claims(log', k) <= 3 { assert Claims(past.log, k) <= 3; }
    forall k: nat | Mentions(log', k) ensures k <= db.sequence
      { assert k == q || parent == Some(k) || Mentions(past.log, k); }
    forall t: Token | SettledBy(log', t) ensures t in past.tokens { assert SettledBy(past.log, t); }
    hide JobLog, TokensOk;
  }
}
