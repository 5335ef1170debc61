/** Records that leave: Redis expiry of keys, the metadata sweep and user erasure. */
module QueueGone {
  import opened Wrappers
  import opened QueueTypes
  import opened Totals
  import opened QueueInvariant
  import opened QueueOps
  import opened QueueSteps

  // ---- expiry of keys ---------------------------------------------------------------

  predicate Gone(m: Job, now: Time) { m.metadataExpiresAt.Some? && m.metadataExpiresAt.value <= now }

  function Alive(jobs: map<Id, Job>, now: Time): map<Id, Job> {
    map id | id in jobs && !Gone(jobs[id], now) :: jobs[id]
  }

  function Departed(jobs: map<Id, Job>, now: Time): map<Id, Job> {
    map id | id in jobs && Gone(jobs[id], now) :: jobs[id]
  }

  /** What a command at time `now` still finds: Redis has dropped every key whose time to live is over. */
  function ExpireKeys(d: Db, now: Time): Db {
    d.(clock := now,
       jobs := Alive(d.jobs, now),
       payloads := map id | id in d.payloads && d.payloads[id].expiresAt > now :: d.payloads[id],
       permit := if d.permit.Some? && d.permit.value.expiresAt <= now then None else d.permit,
       idem := map k | k in d.idem && d.idem[k].expiresAt > now :: d.idem[k],
       identities := map id | id in d.identities
         && !(d.identities[id].expiresAt.Some? && d.identities[id].expiresAt.value <= now) :: d.identities[id],
       operations := map k | k in d.operations && d.operations[k].expiresAt > now :: d.operations[k])
  }

  /** Payload bytes of records that expired before the payload sweep gave them back. */
  ghost function LostBytes(jobs: map<Id, Job>, now: Time, l: Lane): int {
    Total(JobWeights(Departed(jobs, now), l, PayloadBytes))
  }

  ghost function LeakBytes(leaked: Counts, jobs: map<Id, Job>, now: Time): Counts {
    var n1 := Bump(leaked, Deferred, PayloadBytes, LostBytes(jobs, now, Deferred));
    var n2 := Bump(n1, Maintenance, PayloadBytes, LostBytes(jobs, now, Maintenance));
    var n3 := Bump(n2, Daily, PayloadBytes, LostBytes(jobs, now, Daily));
    Bump(n3, Broadcast, PayloadBytes, LostBytes(jobs, now, Broadcast))
  }

  lemma LeakBytesAt(leaked: Counts, jobs: map<Id, Job>, now: Time, l: Lane, f: Field)
    ensures Counter(LeakBytes(leaked, jobs, now), l, f)
            == Counter(leaked, l, f) + if f == PayloadBytes then LostBytes(jobs, now, l) else 0
  {
    var n1 := Bump(leaked, Deferred, PayloadBytes, LostBytes(jobs, now, Deferred));
    var n2 := Bump(n1, Maintenance, PayloadBytes, LostBytes(jobs, now, Maintenance));
    var n3 := Bump(n2, Daily, PayloadBytes, LostBytes(jobs, now, Daily));
    BumpAt(leaked, Deferred, PayloadBytes, LostBytes(jobs, now, Deferred), l, f);
    BumpAt(n1, Maintenance, PayloadBytes, LostBytes(jobs, now, Maintenance), l, f);
    BumpAt(n2, Daily, PayloadBytes, LostBytes(jobs, now, Daily), l, f);
    BumpAt(n3, Broadcast, PayloadBytes, LostBytes(jobs, now, Broadcast), l, f);
    hide Bump, Counter, LostBytes;
  }

  lemma {:induction false} TotalZero<K>(m: map<K, int>)
    requires forall k :: k in m ==> m[k] == 0
    ensures Total(m) == 0
    decreases |m|
  {
    if m != map[] {
      var k :| k in m;
      TotalRemove(m, k);
      TotalZero(m - {k});
    }
  }

  lemma DepartedWeights(jobs: map<Id, Job>, now: Time, l: Lane, f: Field)
    ensures Total(JobWeights(jobs, l, f)) == Total(JobWeights(Alive(jobs, now), l,
      f)) + Total(JobWeights(Departed(jobs, now), l, f))
  {
    var w, gone, alive := JobWeights(jobs, l, f), JobWeights(Departed(jobs, now), l, f),
      JobWeights(Alive(jobs, now), l, f);
    assert Splits(w, gone, alive);
    TotalSplit(w, gone, alive);
  }

  lemma DepartedIdle(jobs: map<Id, Job>, now: Time, l: Lane, f: Field)
    requires f == Nonterminal || f == RunningNow
    requires forall id :: id in jobs && Active(jobs[id].state) ==> jobs[id].metadataExpiresAt == None
    ensures Total(JobWeights(Departed(jobs, now), l, f)) == 0
  {
    var w := JobWeights(Departed(jobs, now), l, f);
    forall id | id in w ensures w[id] == 0 { assert id in jobs && Gone(jobs[id], now); }
    TotalZero(w);
  }

  lemma ExpiredCount(jobs: map<Id, Job>, owners: map<Id, Owner>, leaked: Counts, now: Time, l: Lane, f: Field)
    requires forall id :: id in jobs && Active(jobs[id].state) ==> jobs[id].metadataExpiresAt == None
    ensures Measure(jobs, owners, l, f) + Counter(leaked, l, f)
            == Measure(Alive(jobs, now), owners, l, f) + Counter(LeakBytes(leaked, jobs, now), l, f)
  {
    LeakBytesAt(leaked, jobs, now, l, f);
    match f
    case InState(s) =>
    case PayloadBytes => DepartedWeights(jobs, now, l, f);
    case _ => DepartedWeights(jobs, now, l, f); DepartedIdle(jobs, now, l, f);
  }

  lemma LostBytesNonneg(jobs: map<Id, Job>, now: Time, l: Lane)
    requires forall id :: id in jobs ==> jobs[id].t.payloadBytes >= 0
    ensures LostBytes(jobs, now, l) >= 0
  {
    TotalNonneg(JobWeights(Departed(jobs, now), l, PayloadBytes));
  }

  lemma ExpiredAccounts(d: Db, past: Past, now: Time)
    requires Accounted(d, past) && RecordsOk(d.jobs, d.clock, d.sequence)
    ensures CountsExact(d.counts, LeakBytes(past.leaked, d.jobs, now), Alive(d.jobs, now), d.owners)
    ensures LeaksOk(LeakBytes(past.leaked, d.jobs, now)) && CapsOk(d.counts)
  {
    hide CapsOk, RecordsOk, Measure, LeakBytes, Alive, LostBytes, Counter;
    ActiveStays(d);
    forall l: Lane, f: Field
      ensures Counter(d.counts, l, f) == Measure(Alive(d.jobs, now), d.owners, l,
        f) + Counter(LeakBytes(past.leaked, d.jobs, now), l, f)
      ensures Counter(LeakBytes(past.leaked, d.jobs, now), l, f) >= 0
        && (!Leaky(f) ==> Counter(LeakBytes(past.leaked, d.jobs, now), l, f) == 0)
    {
      ExpiredCount(d.jobs, d.owners, past.leaked, now, l, f);
      LeakBytesAt(past.leaked, d.jobs, now, l, f);
      LostBytesNonneg(d.jobs, now, l);
      assert Counter(past.leaked, l, f) >= 0;
    }
  }

  lemma ActiveStays(d: Db)
    requires RecordsOk(d.jobs, d.clock, d.sequence)
    ensures forall id :: id in d.jobs && Active(d.jobs[id].state) ==> d.jobs[id].metadataExpiresAt == None
    ensures forall id :: id in d.jobs ==> d.jobs[id].t.payloadBytes >= 0
  {
  }

  /** Records are removed, none of them active. */
  ghost predicate Thinned(jobs: map<Id, Job>, jobs': map<Id, Job>) {
    && (forall id :: id in jobs' ==> id in jobs && jobs'[id] == jobs[id])
    && (forall id :: id in jobs && Active(jobs[id].state) ==> id in jobs')
  }

  lemma AliveThins(d: Db, now: Time)
    requires RecordsOk(d.jobs, d.clock, d.sequence)
    ensures Thinned(d.jobs, Alive(d.jobs, now))
  {
  }

  lemma ThinLanes(z: map<(Lane, Id), int>, y: map<(Lane, Id), int>, jobs: map<Id, Job>, jobs': map<Id, Job>)
    requires ReadyExact(z, jobs) && DelayedExact(y, jobs) && Thinned(jobs, jobs')
    ensures ReadyExact(z, jobs') && DelayedExact(y, jobs')
  {
  }

  lemma ThinZsets(z: map<Id, int>, y: map<Id, int>, jobs: map<Id, Job>, jobs': map<Id, Job>)
    requires RunningExact(z, jobs) && DeadlineExact(y, jobs) && Thinned(jobs, jobs')
    ensures RunningExact(z, jobs') && DeadlineExact(y, jobs')
  {
  }

  lemma ThinPayloads(z: map<Id, int>, p: map<Id, Payload>, p': map<Id, Payload>, jobs: map<Id, Job>, jobs': map<Id,
      Job>)
    requires PayloadExpiryExact(z, jobs) && PayloadsExact(p, jobs) && Thinned(jobs, jobs')
    requires forall id :: id in p' ==> id in p && p'[id] == p[id]
    ensures PayloadExpiryExact(z, jobs') && PayloadsExact(p', jobs')
  {
  }

  lemma ThinOwners(owners: map<Id, Owner>, z: map<Id, int>, jobs: map<Id, Job>, jobs': map<Id, Job>)
    requires OwnersExact(owners, jobs) && MetaExact(z, owners, jobs) && Thinned(jobs, jobs')
    ensures OwnersExact(owners, jobs') && MetaExact(z, owners, jobs')
  {
  }

  lemma ThinConflicts(conflicts: map<(Lane, Key), Id>, jobs: map<Id, Job>, jobs': map<Id, Job>)
    requires ConflictsExact(conflicts, jobs) && Thinned(jobs, jobs')
    ensures ConflictsExact(conflicts, jobs')
  {
  }

  lemma AliveRecords(d: Db, now: Time)
    requires RecordsOk(d.jobs, d.clock, d.sequence) && d.clock <= now
    ensures RecordsOk(Alive(d.jobs, now), now, d.sequence)
  {
  }

  lemma AlivePermit(d: Db, now: Time)
    requires PermitExact(d.permit, d.jobs, d.clock) && RecordsOk(d.jobs, d.clock, d.sequence) && d.clock <= now
    ensures PermitExact(ExpireKeys(d, now).permit, Alive(d.jobs, now), now)
  {
    forall id | id in Alive(d.jobs, now) && HoldsImage(d.jobs[id], now)
      ensures ExpireKeys(d, now).permit == Some(Permit(d.jobs[id].owner.value, d.jobs[id].heartbeatAt + LEASE))
    {
      assert HoldsImage(d.jobs[id], d.clock);
    }
    if ExpireKeys(d, now).permit.Some? {
      var id :| id in d.jobs && Backs(d.permit.value, d.jobs[id]);
      assert RecordOk(d.jobs[id], d.clock);
      assert id in Alive(d.jobs, now) && Backs(d.permit.value, Alive(d.jobs, now)[id]);
    }
  }

  lemma AliveRecorded(d: Db, past: Past, now: Time, leaked: Counts)
    requires Recorded(d, past)
    ensures Recorded(ExpireKeys(d, now), past.(leaked := leaked))
  {
    hide JobLog, LogShape;
  }

  /** The expiry of keys keeps the invariant; the ledger of lost bytes says what the counters no longer cover. */
  lemma ExpireInv(d: Db, past: Past, now: Time)
    requires Inv(d, past) && d.clock <= now
    ensures Inv(ExpireKeys(d, now), past.(leaked := LeakBytes(past.leaked, d.jobs, now)))
  {
    hide ReadyExact, DelayedExact, RunningExact, DeadlineExact, PayloadExpiryExact, PayloadsExact;
    hide OwnersExact, MetaExact, UsersExact, ConflictsExact, RecordsOk, PermitExact, Recorded, LanesOk;
    hide CountsExact, LeaksOk, CapsOk, Alive, LeakBytes;
    ExpiredAccounts(d, past, now);
    AliveThins(d, now);
    hide Thinned;
    var d' := ExpireKeys(d, now);
    ThinLanes(d.ready, d.delayed, d.jobs, d'.jobs);
    ThinZsets(d.running, d.deadline, d.jobs, d'.jobs);
    ThinPayloads(d.payloadExpiry, d.payloads, d'.payloads, d.jobs, d'.jobs);
    ThinOwners(d.owners, d.metaExpiry, d.jobs, d'.jobs);
    ThinConflicts(d.conflicts, d.jobs, d'.jobs);
    AliveRecords(d, now);
    AlivePermit(d, now);
    AliveRecorded(d, past, now, LeakBytes(past.leaked, d.jobs, now));
  }

  // ---- a record without owner entry ----------------------------------------------------

  function DeleteKeys(idem: map<Key, Idem>, keys: set<Key>): map<Key, Idem> {
    map k | k in idem && k !in keys :: idem[k]
  }

  function CommandsOf(commands: map<Id, set<Key>>, id: Id): set<Key> { if id in commands then commands[id] else {} }

  function DropOperations(operations: map<Key, Operation>, keys: set<Key>): map<Key, Operation> {
    map k | k in operations && k !in keys :: operations[k]
  }

  /** One step of the metadata sweep. */
  function Retire(d: Db, id: Id): Db
    requires id in d.owners
  {
    var o := d.owners[id];
    d.(users := d.users - {(o.user, id)},
       counts := Bump(d.counts, o.lane, InState(o.state), -1),
       owners := d.owners - {id},
       metaExpiry := d.metaExpiry - {id},
       commands := d.commands - {id},
       idem := DeleteKeys(d.idem, Members(d.identities, id)),
       identities := d.identities - {id})
  }

  lemma OwnerWeightGone(owners: map<Id, Owner>, id: Id, l: Lane, s: JobState)
    requires id in owners
    ensures Total(OwnerWeights(owners - {id}, l, s))
      == Total(OwnerWeights(owners, l, s)) - OwnerWeight(l, s, owners[id])
  {
    TotalRemove(OwnerWeights(owners, l, s), id);
    assert OwnerWeights(owners, l, s) - {id} == OwnerWeights(owners - {id}, l, s);
  }

  lemma JobWeightGone(jobs: map<Id, Job>, id: Id, l: Lane, f: Field)
    requires id in jobs
    ensures Total(JobWeights(jobs - {id}, l, f)) == Total(JobWeights(jobs, l, f)) - Weight(l, f, jobs[id])
  {
    TotalRemove(JobWeights(jobs, l, f), id);
    assert JobWeights(jobs, l, f) - {id} == JobWeights(jobs - {id}, l, f);
  }

  lemma OwnerIndexes(d: Db, d': Db, id: Id)
    requires OwnersExact(d.owners, d.jobs) && MetaExact(d.metaExpiry, d.owners, d.jobs) && UsersExact(d.users, d.owners)
    requires id in d.owners && id !in d.jobs && d'.jobs == d.jobs
    requires d'.owners == d.owners - {id} && d'.metaExpiry == d.metaExpiry - {id}
      && d'.users == d.users - {(d.owners[id].user, id)}
    ensures OwnersExact(d'.owners, d'.jobs) && MetaExact(d'.metaExpiry, d'.owners, d'.jobs)
      && UsersExact(d'.users, d'.owners)
    ensures !Active(d.owners[id].state)
  {
  }

  lemma RetireCounts(d: Db, id: Id, leaked: Counts)
    requires id in d.owners && CountsExact(d.counts, leaked, d.jobs, d.owners)
    ensures CountsExact(Retire(d, id).counts, leaked, d.jobs, d.owners - {id})
  {
    var o, n := d.owners[id], Retire(d, id).counts;
    forall l: Lane, f: Field
      ensures Counter(n, l, f) == Measure(d.jobs, d.owners - {id}, l, f) + Counter(leaked, l, f)
    {
      BumpAt(d.counts, o.lane, InState(o.state), -1, l, f);
      if f.InState? { OwnerWeightGone(d.owners, id, l, f.state); }
      hide Bump, Counter, Total, JobWeights, OwnerWeights;
    }
  }

  lemma RetireCaps(d: Db, id: Id)
    requires id in d.owners && CapsOk(d.counts)
    ensures CapsOk(Retire(d, id).counts)
  {
  }

  lemma RetireInv(d: Db, id: Id, past: Past)
    requires Inv(d, past) && id in d.owners && id !in d.jobs
    ensures Inv(Retire(d, id), past)
  {
    hide ReadyExact, DelayedExact, RunningExact, DeadlineExact, PayloadExpiryExact, PayloadsExact;
    hide OwnersExact, MetaExact, UsersExact, ConflictsExact, RecordsOk, PermitExact, LogShape, JobLogs, TokensOk,
      LanesOk;
    hide CountsExact, LeaksOk, CapsOk, DeleteKeys;
    OwnerIndexes(d, Retire(d, id), id);
    RetireCounts(d, id, past.leaked);
    RetireCaps(d, id);
  }

  // ---- erasure --------------------------------------------------------------------------

  /** Erasure of an id whose record Redis has already removed: the state counter keeps it. */
  function EraseVanished(d: Db, id: Id, user: int): Db {
    d.(owners := d.owners - {id}, metaExpiry := d.metaExpiry - {id}, users := d.users - {(user, id)},
       deadline := d.deadline - {id},
       operations := DropOperations(d.operations, CommandsOf(d.commands, id)), commands := d.commands - {id},
       idem := DeleteKeys(d.idem, Members(d.identities, id)), identities := d.identities - {id})
  }

  ghost function LeakState(leaked: Counts, o: Owner): Counts { Bump(leaked, o.lane, InState(o.state), 1) }

  lemma LeakStateCounts(d: Db, id: Id, leaked: Counts)
    requires id in d.owners && !Active(d.owners[id].state) && CountsExact(d.counts, leaked, d.jobs, d.owners)
      && LeaksOk(leaked)
    ensures CountsExact(d.counts, LeakState(leaked, d.owners[id]), d.jobs, d.owners - {id})
    ensures LeaksOk(LeakState(leaked, d.owners[id]))
  {
    var o := d.owners[id];
    forall l: Lane, f: Field
      ensures Counter(d.counts, l, f) == Measure(d.jobs, d.owners - {id}, l, f) + Counter(LeakState(leaked, o), l, f)
      ensures Counter(LeakState(leaked, o), l, f) >= 0 && (!Leaky(f) ==> Counter(LeakState(leaked, o), l, f) == 0)
    {
      BumpAt(leaked, o.lane, InState(o.state), 1, l, f);
      if f.InState? { OwnerWeightGone(d.owners, id, l, f.state); }
      assert Counter(leaked, l, f) >= 0;
      hide Bump, Counter, Total, JobWeights, OwnerWeights;
    }
  }

  lemma DeadlineAbsent(d: Db, id: Id)
    requires DeadlineExact(d.deadline, d.jobs) && id !in d.jobs
    ensures DeadlineExact(d.deadline - {id}, d.jobs)
  {
  }

  lemma EraseVanishedInv(d: Db, id: Id, past: Past)
    requires Inv(d, past) && id in d.owners && id !in d.jobs
    ensures Inv(EraseVanished(d, id, d.owners[id].user), past.(leaked := LeakState(past.leaked, d.owners[id])))
  {
    hide ReadyExact, DelayedExact, RunningExact, DeadlineExact, PayloadExpiryExact, PayloadsExact;
    hide OwnersExact, MetaExact, UsersExact, ConflictsExact, RecordsOk, PermitExact, LogShape, JobLogs, TokensOk,
      LanesOk;
    hide CountsExact, LeaksOk, CapsOk, DeleteKeys, LeakState;
    OwnerIndexes(d, EraseVanished(d, id, d.owners[id].user), id);
    DeadlineAbsent(d, id);
    LeakStateCounts(d, id, past.leaked);
  }

  function EraseCounts(n: Counts, m: Job): Counts {
    var n1 := if Active(m.state) then Bump(n, m.t.lane, Nonterminal, -1) else n;
    var n2 := Bump(n1, m.t.lane, InState(m.state), -1);
    ByteCounts(RunCounts(n2, m), m)
  }

  /** Erasure of one live record. */
  function EraseRecord(d: Db, m: Job, user: int): Db {
    var id := m.t.id;
    d.(counts := EraseCounts(d.counts, m),
       running := d.running - {id}, permit := ReleasePermit(d.permit, m),
       conflicts := FreeConflicts(d.conflicts, m),
       payloads := d.payloads - {id}, payloadExpiry := d.payloadExpiry - {id},
       ready := d.ready - {(m.t.lane, id)}, delayed := d.delayed - {(m.t.lane, id)},
       idem := DeleteKeys(d.idem, Members(d.identities, id) + {m.t.identity}),
       jobs := d.jobs - {id},
       operations := DropOperations(d.operations, CommandsOf(d.commands, id)), commands := d.commands - {id},
       identities := d.identities - {id},
       deadline := d.deadline - {id}, metaExpiry := d.metaExpiry - {id},
       owners := d.owners - {id}, users := d.users - {(user, id)})
  }

  lemma EraseCountsAt(d: Db, m: Job, l: Lane, f: Field)
    requires OwnersExact(d.owners, d.jobs) && m.t.id in d.jobs && d.jobs[m.t.id] == m
    ensures Counter(EraseCounts(d.counts, m), l, f) == Counter(d.counts, l, f)
              - (match f case InState(s) => OwnerWeight(l, s, d.owners[m.t.id]) case _ => Weight(l, f, m))
  {
    assert d.owners[m.t.id] == OwnerOf(m);
    var n1 := if Active(m.state) then Bump(d.counts, m.t.lane, Nonterminal, -1) else d.counts;
    var n2 := Bump(n1, m.t.lane, InState(m.state), -1);
    BumpAt(d.counts, m.t.lane, Nonterminal, -1, l, f);
    BumpAt(n1, m.t.lane, InState(m.state), -1, l, f);
    RunCountsAt(n2, m, l, f);
    ByteCountsAt(RunCounts(n2, m), m, l, f);
    hide Bump, Counter, RunCounts, ByteCounts, OwnersExact;
  }

  lemma EraseAccounts(d: Db, m: Job, leaked: Counts)
    requires OwnersExact(d.owners, d.jobs) && m.t.id in d.jobs && d.jobs[m.t.id] == m && m.t.payloadBytes >= 0
    requires CountsExact(d.counts, leaked, d.jobs, d.owners) && CapsOk(d.counts)
    ensures CountsExact(EraseCounts(d.counts, m), leaked, d.jobs - {m.t.id}, d.owners - {m.t.id})
    ensures CapsOk(EraseCounts(d.counts, m))
  {
    var n, id := EraseCounts(d.counts, m), m.t.id;
    assert id in d.owners;
    forall l: Lane, f: Field
      ensures Counter(n, l, f) == Measure(d.jobs - {id}, d.owners - {id}, l, f) + Counter(leaked, l, f)
    {
      EraseCountsAt(d, m, l, f);
      if f.InState? { OwnerWeightGone(d.owners, id, l, f.state); } else { JobWeightGone(d.jobs, id, l, f); }
      hide Counter, Total, JobWeights, OwnerWeights, EraseCounts, OwnersExact;
    }
    forall l: Lane
      ensures Counter(n, l, Nonterminal) <= JobCap(l) && Counter(n, l, RunningNow) <= Workers(l)
        && Counter(n, l, PayloadBytes) <= BYTE_CAP
    {
      EraseCountsAt(d, m, l, Nonterminal);
      EraseCountsAt(d, m, l, RunningNow);
      EraseCountsAt(d, m, l, PayloadBytes);
      hide Counter, EraseCounts, OwnersExact, CountsExact;
    }
  }

  lemma EraseZsets(d: Db, m: Job)
    requires m.t.id in d.jobs && d.jobs[m.t.id] == m
    requires ReadyExact(d.ready, d.jobs) && DelayedExact(d.delayed, d.jobs) && RunningExact(d.running, d.jobs)
      && DeadlineExact(d.deadline, d.jobs)
    ensures var id := m.t.id;
            && ReadyExact(d.ready - {(m.t.lane, id)}, d.jobs - {id})
              && DelayedExact(d.delayed - {(m.t.lane, id)}, d.jobs - {id})
            && RunningExact(d.running - {id}, d.jobs - {id}) && DeadlineExact(d.deadline - {id}, d.jobs - {id})
  {
  }

  lemma EraseOthers(d: Db, m: Job)
    requires m.t.id in d.jobs && d.jobs[m.t.id] == m
    requires PayloadExpiryExact(d.payloadExpiry, d.jobs) && PayloadsExact(d.payloads, d.jobs)
      && OwnersExact(d.owners, d.jobs)
    requires MetaExact(d.metaExpiry, d.owners, d.jobs) && UsersExact(d.users, d.owners)
    ensures var id, jobs := m.t.id, d.jobs - {m.t.id};
            && PayloadExpiryExact(d.payloadExpiry - {id}, jobs) && PayloadsExact(d.payloads - {id}, jobs)
            && OwnersExact(d.owners - {id}, jobs) && MetaExact(d.metaExpiry - {id}, d.owners - {id}, jobs)
            && UsersExact(d.users - {(m.t.user, id)}, d.owners - {id})
  {
  }

  lemma EraseConflicts(conflicts: map<(Lane, Key), Id>, jobs: map<Id, Job>, m: Job)
    requires ConflictsExact(conflicts, jobs) && m.t.id in jobs && jobs[m.t.id] == m
    ensures ConflictsExact(FreeConflicts(conflicts, m), jobs - {m.t.id})
  {
    var after := FreeConflicts(conflicts, m);
    forall l: Lane, k: Key | (l, k) in after ensures after[(l, k)] != m.t.id { }
  }

  lemma ErasePermit(d: Db, m: Job, tokens: set<Token>)
    requires PermitExact(d.permit, d.jobs, d.clock) && TokensOk(tokens, d.jobs) && m.t.id in d.jobs
      && d.jobs[m.t.id] == m
    ensures PermitExact(ReleasePermit(d.permit, m), d.jobs - {m.t.id}, d.clock)
  {
    forall id | id in d.jobs && id != m.t.id && HoldsImage(d.jobs[id], d.clock)
      ensures ReleasePermit(d.permit, m) == Some(Permit(d.jobs[id].owner.value, d.jobs[id].heartbeatAt + LEASE))
    {
      assert d.jobs[id].owner != m.owner;
    }
    var permit := ReleasePermit(d.permit, m);
    if permit.Some? {
      var id :| id in d.jobs && Backs(permit.value, d.jobs[id]);
      assert id in d.jobs - {m.t.id} && Backs(permit.value, (d.jobs - {m.t.id})[id]);
    }
  }

  lemma EraseRecorded(d: Db, d': Db, id: Id, past: Past)
    requires Recorded(d, past) && RecordsOk(d.jobs, d.clock, d.sequence) && LanesOk(d.lanes)
    requires d'.jobs == d.jobs - {id} && d'.clock == d.clock && d'.sequence == d.sequence
    ensures Recorded(d', past) && RecordsOk(d'.jobs, d'.clock, d'.sequence)
  {
    hide JobLog, LogShape, RecordOk;
  }

  lemma PayloadSize(d: Db, id: Id, past: Past)
    requires id in d.jobs
    requires Inv(d, past)
    ensures d.jobs[id].t.payloadBytes >= 0
  {
    hide Inv, ConflictsExact, PayloadsExact;
    Known(d, id, past);
  }

  lemma EraseInv(d: Db, m: Job, past: Past)
    requires Inv(d, past) && m.t.id in d.jobs && d.jobs[m.t.id] == m
    ensures Inv(EraseRecord(d, m, m.t.user), past)
  {
    hide Members, CommandsOf, DropOperations;
    hide ReadyExact, DelayedExact, RunningExact, DeadlineExact, PayloadExpiryExact, PayloadsExact;
    hide OwnersExact, MetaExact, UsersExact, ConflictsExact, RecordsOk, PermitExact, LogShape, JobLogs, TokensOk,
      LanesOk;
    hide CountsExact, LeaksOk, CapsOk, DeleteKeys, FreeConflicts, EraseCounts, ReleasePermit;
    PayloadSize(d, m.t.id, past);
    EraseAccounts(d, m, past.leaked);
    EraseZsets(d, m);
    EraseOthers(d, m);
    EraseConflicts(d.conflicts, d.jobs, m);
    ErasePermit(d, m, past.tokens);
    EraseRecorded(d, EraseRecord(d, m, m.t.user), m.t.id, past);
  }
}
