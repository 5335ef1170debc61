/** Idempotency: every stored record is the one its identity key leads to. */
module QueueIdentity {
  import opened Wrappers
  import opened QueueTypes
  import opened QueueInvariant
  import opened QueueOps
  import opened QueueSteps
  import opened QueueEvents
  import opened QueueGone

  /** The longest silence between two calls under which idempotency records outlive their job. */
  const LONGEST_GAP: Time := DAY - 3610 * SECOND

  ghost predicate LinkedJobs(jobs: map<Id, Job>, identities: map<Id, IdemSet>, clock: Time) {
    forall id :: id in jobs ==>
      && id in identities && identities[id].expiresAt == jobs[id].metadataExpiresAt
      && jobs[id].t.identity in identities[id].members && jobs[id].t.submittedAt <= clock
  }

  ghost predicate LinkedSets(identities: map<Id, IdemSet>, owners: map<Id, Owner>, jobs: map<Id, Job>) {
    forall id :: id in identities ==> id in owners && (identities[id].expiresAt == None ==> id in jobs)
  }

  ghost predicate LinkedKey(e: Idem, id: Id, set': IdemSet, jobs: map<Id, Job>) {
    && e.task == id
    && (set'.expiresAt.Some? ==> e.expiresAt == set'.expiresAt.value)
    && (set'.expiresAt == None && id in jobs ==> e.expiresAt >= jobs[id].t.submittedAt + DAY)
  }

  ghost predicate LinkedKeys(idem: map<Key, Idem>, identities: map<Id, IdemSet>, jobs: map<Id, Job>) {
    forall id, k :: id in identities && k in identities[id].members ==>
      k in idem && LinkedKey(idem[k], id, identities[id], jobs)
  }

  /** Each record's identity set holds its identity and lives exactly as long as the record;
      each member of the set is an idempotency key that leads back to the record. */
  ghost predicate Linked(d: Db) {
    LinkedJobs(d.jobs, d.identities, d.clock) && LinkedSets(d.identities, d.owners, d.jobs)
      && LinkedKeys(d.idem, d.identities, d.jobs)
  }

  /** No two stored records, active or not, share an identity, and the identity answers with its record. */
  lemma OneIdentity(d: Db, a: Id, b: Id)
    requires Linked(d) && a in d.jobs && b in d.jobs
    ensures d.jobs[a].t.identity in d.idem && d.idem[d.jobs[a].t.identity].task == a
    ensures d.jobs[a].t.identity == d.jobs[b].t.identity ==> a == b
  {
    assert LinkedKey(d.idem[d.jobs[a].t.identity], a, d.identities[a], d.jobs);
    assert LinkedKey(d.idem[d.jobs[b].t.identity], b, d.identities[b], d.jobs);
  }

  /** An edit of one record that leaves identity keys and time to live alone. */
  lemma LinkedEdit(d: Db, d': Db, m: Job)
    requires Linked(d) && m.t.id in d.jobs && d.jobs[m.t.id].t == m.t
      && d.jobs[m.t.id].metadataExpiresAt == m.metadataExpiresAt
    requires d'.jobs == d.jobs[m.t.id := m] && d'.idem == d.idem && d'.identities == d.identities && d'.clock == d.clock
    requires forall id :: id in d.owners ==> id in d'.owners
    ensures Linked(d')
  {
  }

  /** The end of a job renews its identity keys for as long as its record will stay. */
  lemma LinkedEnd(d: Db, d': Db, m: Job)
    requires Linked(d) && m.t.id in d.jobs && d.jobs[m.t.id].t == m.t && m.metadataExpiresAt == Some(d.clock + DAY)
    requires d'.jobs == d.jobs[m.t.id := m] && d'.clock == d.clock
    requires d'.idem == RefreshIdem(d.idem, Members(d.identities, m.t.id), d.clock)
      && d'.identities == RefreshSet(d.identities, m.t.id, d.clock)
    requires forall id :: id in d.owners ==> id in d'.owners
    ensures Linked(d')
  {
    forall id, k | id in d'.identities && k in d'.identities[id].members
      ensures k in d'.idem && LinkedKey(d'.idem[k], id, d'.identities[id], d'.jobs)
    {
      assert k in d.identities[id].members && LinkedKey(d.idem[k], id, d.identities[id], d.jobs);
    }
  }

  lemma LinkedTerminal(d: Db, m: Job, to: JobState, why: Reason, safe: bool)
    requires Linked(d) && m.t.id in d.jobs && d.jobs[m.t.id] == m
    ensures Linked(Save(Terminal(d.clock, Cursor(d, m), to, why, safe)))
  {
    hide Linked, EndCounts, FreeConflicts, RefreshIdem, RefreshSet, Members, Retime;
    var c := Terminal(d.clock, Cursor(d, m), to, why, safe);
    LinkedEnd(d, Save(c), c.m);
  }

  lemma LinkedEvict(d: Db, m: Job, to: JobState, why: Reason)
    requires Linked(d) && m.t.id in d.jobs && d.jobs[m.t.id] == m
    ensures Linked(Evict(d.clock, d, m, to, why))
  {
    hide Linked, Terminal, ByteCounts;
    var s := Save(DropPayload(Cursor(d, m)));
    LinkedEdit(d, s, Dropped(m));
    LinkedTerminal(s, Dropped(m), to, why, false);
  }

  lemma LinkedRequeue(d: Db, m: Job)
    requires Linked(d) && m.t.id in d.jobs && d.jobs[m.t.id] == m
    ensures Linked(Save(Requeue(Cursor(d, m)))) && Linked(Save(Promote(Cursor(d, m))))
      && Linked(Save(AskCancel(Cursor(d, m))))
    ensures Linked(Save(DropPayload(Cursor(d, m))))
  {
    hide Linked, StateCounts, RunCounts, ReleasePermit, ByteCounts;
    LinkedEdit(d, Save(Requeue(Cursor(d, m))), Requeued(m));
    LinkedEdit(d, Save(Promote(Cursor(d, m))), Promoted(m));
    LinkedEdit(d, Save(AskCancel(Cursor(d, m))), Asked(m));
    LinkedEdit(d, Save(DropPayload(Cursor(d, m))), Dropped(m));
  }

  lemma LinkedBegin(d: Db, m: Job, token: Token)
    requires Linked(d) && m.t.id in d.jobs && d.jobs[m.t.id] == m
    ensures Linked(Save(Begin(d.clock, Cursor(d, m), token))) && Linked(Save(Beat(d.clock, Cursor(d, m), token)))
  {
    hide Linked, StateCounts, Bump, Budget, BudgetEnd, Retime;
    LinkedEdit(d, Save(Begin(d.clock, Cursor(d, m), token)), Begun(d.clock, m, token));
    LinkedEdit(d, Save(Beat(d.clock, Cursor(d, m), token)), Beaten(d.clock, m));
  }

  lemma LinkedFinished(c: Cursor, token: Token)
    requires Linked(Save(c))
    ensures Linked(Finished(c, token))
  {
    hide Linked;
    LinkedEdit(Save(c), Finished(c, token), Stamped(c.m, token));
  }

  lemma LinkedPostpone(d: Db, m: Job, delay: Time, why: Reason)
    requires Linked(d) && m.t.id in d.jobs && d.jobs[m.t.id] == m
    ensures Linked(Save(Postpone(d.clock, Cursor(d, m), delay, why)))
  {
    hide Linked, StateCounts, RunCounts, ReleasePermit, Retime;
    LinkedEdit(d, Save(Postpone(d.clock, Cursor(d, m), delay, why)), Postponed(d.clock, m, delay, why));
  }

  /** Keys that leave with one identity set belong to no other record. */
  lemma LinkedForget(d: Db, d': Db, id: Id)
    requires Linked(d) && d'.jobs == d.jobs - {id} && d'.owners == d.owners - {id}
      && d'.identities == d.identities - {id} && d'.clock == d.clock
    requires d'.idem == DeleteKeys(d.idem, Members(d.identities, id))
    ensures Linked(d')
  {
    forall o, k | o in d'.identities && k in d'.identities[o].members
      ensures k in d'.idem && LinkedKey(d'.idem[k], o, d'.identities[o], d'.jobs)
    {
      assert LinkedKey(d.idem[k], o, d.identities[o], d.jobs);
    }
  }

  lemma LinkedRetire(d: Db, id: Id)
    requires Linked(d) && id in d.owners && id !in d.jobs
    ensures Linked(Retire(d, id)) && Linked(EraseVanished(d, id, d.owners[id].user))
  {
    hide Linked, DeleteKeys, Members;
    assert d.jobs - {id} == d.jobs;
    LinkedForget(d, Retire(d, id), id);
    LinkedForget(d, EraseVanished(d, id, d.owners[id].user), id);
  }

  lemma LinkedErase(d: Db, m: Job, user: int)
    requires Linked(d) && m.t.id in d.jobs && d.jobs[m.t.id] == m
    ensures Linked(EraseRecord(d, m, user))
  {
    assert Members(d.identities, m.t.id) + {m.t.identity} == Members(d.identities, m.t.id);
    hide Linked, DeleteKeys, Members, EraseCounts, FreeConflicts, ReleasePermit;
    LinkedForget(d, EraseRecord(d, m, user), m.t.id);
  }

  lemma LinkedNew(d: Db, d': Db, m: Job)
    requires Linked(d) && m.t.id !in d.owners && m.t.id !in d.jobs && m.t.identity !in d.idem
    requires m.metadataExpiresAt == None && m.t.submittedAt == d.clock
    requires d'.jobs == d.jobs[m.t.id := m] && d'.owners == d.owners[m.t.id := OwnerOf(m)] && d'.clock == d.clock
    requires d'.idem == d.idem[m.t.identity := Idem(m.t.id, m.t.fingerprint, d.clock + DAY)]
      && d'.identities == AddIdentity(d.identities, m.t.id, m.t.identity)
    ensures Linked(d')
  {
    forall o, k | o in d'.identities && k in d'.identities[o].members
      ensures k in d'.idem && LinkedKey(d'.idem[k], o, d'.identities[o], d'.jobs)
    {
      if o != m.t.id { assert LinkedKey(d.idem[k], o, d.identities[o], d.jobs); }
    }
  }

  lemma LinkedInsert(d: Db, m: Job, text: string, lane: LaneState)
    requires Linked(d) && m.t.id !in d.owners && m.t.id !in d.jobs && m.t.identity !in d.idem
    requires m.metadataExpiresAt == None && m.t.submittedAt == d.clock
    ensures Linked(Insert(d, m, text, lane))
  {
    hide Linked, AddConflicts, AdmitCounts, AddIdentity;
    LinkedNew(d, Insert(d, m, text, lane), m);
  }

  lemma LinkedAlias(d: Db, d': Db, task: Id, identity: Key, fingerprint: Key)
    requires Linked(d) && identity !in d.idem && task in d.jobs && Active(d.jobs[task].state)
      && d.jobs[task].metadataExpiresAt == None
    requires d'.jobs == d.jobs && d'.owners == d.owners && d'.clock == d.clock
    requires d'.idem == d.idem[identity := Idem(task, fingerprint, d.clock + DAY)]
      && d'.identities == AddIdentity(d.identities, task, identity)
    ensures Linked(d')
  {
    forall o, k | o in d'.identities && k in d'.identities[o].members
      ensures k in d'.idem && LinkedKey(d'.idem[k], o, d'.identities[o], d'.jobs)
    {
      if k != identity { assert LinkedKey(d.idem[k], o, d.identities[o], d.jobs); }
    }
  }

  /** With no silence longer than the gap, the expiry of keys takes record, set and keys together. */
  lemma LinkedExpire(d: Db, past: Past, now: Time)
    requires Linked(d) && d.clock <= now <= d.clock + LONGEST_GAP
    requires Settledown(d, past)
    ensures Linked(ExpireKeys(d, now))
  {
    hide Inv, Fresh, LinkedJobs, LinkedSets, LinkedKeys, ExpireKeys;
    ExpireSets(d, now);
    forall id | id in d.jobs && d.jobs[id].metadataExpiresAt == None ensures now < d.jobs[id].t.submittedAt + DAY {
      YoungEnough(d, past, id);
    }
    ExpireLinks(d, now);
  }

  lemma ExpireSets(d: Db, now: Time)
    requires LinkedJobs(d.jobs, d.identities, d.clock) && LinkedSets(d.identities, d.owners, d.jobs) && d.clock <= now
    ensures var d' := ExpireKeys(d, now);
            LinkedJobs(d'.jobs, d'.identities, d'.clock) && LinkedSets(d'.identities, d'.owners, d'.jobs)
  {
  }

  lemma ExpireLinks(d: Db, now: Time)
    requires LinkedJobs(d.jobs, d.identities, d.clock) && LinkedSets(d.identities, d.owners, d.jobs)
    requires LinkedKeys(d.idem, d.identities, d.jobs)
    requires forall id :: id in d.jobs && d.jobs[id].metadataExpiresAt == None ==> now < d.jobs[id].t.submittedAt + DAY
    ensures var d' := ExpireKeys(d, now); LinkedKeys(d'.idem, d'.identities, d'.jobs)
  {
    var d' := ExpireKeys(d, now);
    forall o, k | o in d'.identities && k in d'.identities[o].members
      ensures k in d'.idem && LinkedKey(d'.idem[k], o, d'.identities[o], d'.jobs)
    {
      assert LinkedKey(d.idem[k], o, d.identities[o], d.jobs);
    }
  }

  lemma YoungEnough(d: Db, past: Past, id: Id)
    requires id in d.jobs && d.jobs[id].metadataExpiresAt == None
    requires Settledown(d, past)
    ensures d.clock < d.jobs[id].t.submittedAt + 3610 * SECOND
  {
    hide Inv, PayloadsExact, ConflictsExact;
    Known(d, id, past);
  }
}
