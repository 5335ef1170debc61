/** Payload keys: an active or retained job has its payload for exactly as long as its record says. */
module QueueStock {
  import opened QueueTypes
  import opened QueueInvariant
  import opened QueueOps
  import opened QueueSteps
  import opened QueueEvents
  import opened QueueGone
  import opened QueueIdentity
  import opened QueueAnswers

  /** Until when the payload of an active job is kept. */
  ghost predicate PaidOk(m: Job) {
    && (m.t.user > 0 ==> m.payloadExpiresAt == Min(m.t.queueDeadlineAt, m.t.submittedAt + 900 * SECOND))
    && (m.t.user <= 0 && !Rebudgeted(m.t) ==> m.payloadExpiresAt == m.t.queueDeadlineAt)
    && (Rebudgeted(m.t) && Held(m.state) ==> m.payloadExpiresAt == m.deadlineAt)
  }

  /** The payload key is there until the record's own time for it is over. */
  ghost predicate InStock(m: Job, payloads: map<Id, Payload>, clock: Time) {
    m.payloadExpiresAt > clock ==> m.t.id in payloads && payloads[m.t.id].expiresAt >= m.payloadExpiresAt
  }

  /** No payload outlives the record's own time for it, but for the millisecond a settlement grants. */
  ghost predicate InTime(m: Job, payloads: map<Id, Payload>, clock: Time) {
    m.t.id in payloads ==> payloads[m.t.id].expiresAt <= Max(m.payloadExpiresAt, clock + MILLISECOND)
  }

  ghost predicate StockedJob(m: Job, payloads: map<Id, Payload>, clock: Time) {
    && (Active(m.state) ==> PaidOk(m)) && (Active(m.state) || m.accounted ==> InStock(m, payloads, clock))
    && InTime(m, payloads, clock)
  }

  ghost predicate Stocked(d: Db) {
    forall id :: id in d.jobs ==> d.jobs[id].t.id == id && StockedJob(d.jobs[id], d.payloads, d.clock)
  }

  /** What every call but an erasure keeps about identities, idempotency keys and payload keys. */
  ghost predicate Upholds(d: Db, d': Db) {
    (Linked(d) ==> Linked(d')) && (Answered(d) ==> Answered(d')) && (Stocked(d) ==> Stocked(d'))
  }

  /** An edit of one record and at most its own payload key. */
  lemma StockedEdit(d: Db, d': Db, m: Job)
    requires Stocked(d) && d'.jobs == d.jobs[m.t.id := m] && d'.clock == d.clock
    requires forall o :: o != m.t.id ==> (o in d.payloads <==> o in d'.payloads)
    requires forall o :: o != m.t.id && o in d.payloads ==> d'.payloads[o] == d.payloads[o]
    requires StockedJob(m, d'.payloads, d.clock)
    ensures Stocked(d')
  {
    hide PaidOk;
  }

  lemma StockedTerminal(d: Db, m: Job, to: JobState, why: Reason, safe: bool)
    requires Stocked(d) && !Active(to)
    ensures Stocked(Save(Terminal(d.clock, Cursor(d, m), to, why, safe)))
  {
    hide Stocked, EndCounts, FreeConflicts, RefreshIdem, RefreshSet, Members, PaidOk;
    var c := Terminal(d.clock, Cursor(d, m), to, why, safe);
    StockedEdit(d, Save(c), c.m);
  }

  lemma StockedEvict(d: Db, m: Job, to: JobState, why: Reason)
    requires Stocked(d) && !Active(to) && m.t.id in d.jobs && d.jobs[m.t.id] == m
    ensures Stocked(Evict(d.clock, d, m, to, why))
  {
    hide EndCounts, FreeConflicts, RefreshIdem, RefreshSet, Members, PaidOk, ByteCounts;
    EvictedTwice(d, m, to, why);
    StockedEdit(d, Evict(d.clock, d, m, to, why), Ended(d.clock, m, to, why, false));
  }

  /** An edit that leaves the payload and its time alone. */
  lemma StockedSame(d: Db, d': Db, m: Job, m': Job)
    requires Stocked(d) && m.t.id in d.jobs && d.jobs[m.t.id] == m && d'.jobs == d.jobs[m.t.id := m']
    requires d'.clock == d.clock && d'.payloads == d.payloads && m'.t == m.t
      && m'.payloadExpiresAt == m.payloadExpiresAt
    requires (Active(m'.state) ==> Active(m.state)) && (m'.accounted ==> m.accounted)
      && (Held(m'.state) ==> Held(m.state) && m'.deadlineAt == m.deadlineAt)
    ensures Stocked(d')
  {
  }

  lemma StockedRequeue(d: Db, m: Job)
    requires Stocked(d) && m.t.id in d.jobs && d.jobs[m.t.id] == m && Held(m.state)
    ensures Stocked(Save(Requeue(Cursor(d, m)))) && Stocked(Save(AskCancel(Cursor(d, m))))
  {
    hide Stocked, StateCounts, RunCounts, ReleasePermit;
    StockedSame(d, Save(Requeue(Cursor(d, m))), m, Requeued(m));
    StockedSame(d, Save(AskCancel(Cursor(d, m))), m, Asked(m));
  }

  lemma StockedPromote(d: Db, m: Job)
    requires Stocked(d) && m.t.id in d.jobs && d.jobs[m.t.id] == m && m.state == Delayed
    ensures Stocked(Save(Promote(Cursor(d, m))))
  {
    hide Stocked, StateCounts;
    StockedSame(d, Save(Promote(Cursor(d, m))), m, Promoted(m));
  }

  lemma StockedDrop(d: Db, m: Job)
    requires Stocked(d) && !Active(m.state)
    ensures Stocked(Save(DropPayload(Cursor(d, m))))
  {
    hide Stocked, ByteCounts;
    StockedEdit(d, Save(DropPayload(Cursor(d, m))), Dropped(m));
  }

  lemma StockedBegin(d: Db, m: Job, token: Token)
    requires Stocked(d) && m.t.id in d.jobs && d.jobs[m.t.id] == m && Active(m.state) && m.t.id in d.payloads
    ensures Stocked(Save(Begin(d.clock, Cursor(d, m), token)))
  {
    hide StateCounts, Bump, Budget;
    StockedEdit(d, Save(Begin(d.clock, Cursor(d, m), token)), Begun(d.clock, m, token));
  }

  lemma StockedBeat(d: Db, m: Job, token: Token)
    requires Stocked(d) && m.t.id in d.jobs && d.jobs[m.t.id] == m && Active(m.state)
    ensures Stocked(Save(Beat(d.clock, Cursor(d, m), token)))
  {
    hide Stocked;
    StockedSame(d, Save(Beat(d.clock, Cursor(d, m), token)), m, Beaten(d.clock, m));
  }

  /** A postponed attempt has its payload again until the job's own deadline, unless the payload had gone. */
  lemma StockedPostpone(d: Db, m: Job, delay: Time, why: Reason)
    requires Stocked(d) && m.t.id in d.jobs && d.jobs[m.t.id] == m && Held(m.state)
    requires m.deadlineAt > d.clock && delay >= 0 && d.clock + delay < m.t.queueDeadlineAt
    ensures Stocked(Save(Postpone(d.clock, Cursor(d, m), delay, why)))
  {
    hide StateCounts, RunCounts, ReleasePermit;
    StockedEdit(d, Save(Postpone(d.clock, Cursor(d, m), delay, why)), Postponed(d.clock, m, delay, why));
  }

  lemma StockedFinished(c: Cursor, token: Token)
    requires Stocked(Save(c))
    ensures Stocked(Finished(c, token))
  {
    hide Stocked;
    StockedSame(Save(c), Finished(c, token), c.m, Stamped(c.m, token));
  }

  lemma StockedExpire(d: Db, now: Time)
    requires Stocked(d) && d.clock <= now
    ensures Stocked(ExpireKeys(d, now))
  {
    hide PaidOk;
  }

  lemma StockedInsert(d: Db, m: Job, text: string, lane: LaneState)
    requires Stocked(d) && PaidOk(m)
    ensures Stocked(Insert(d, m, text, lane))
  {
    hide AddConflicts, AdmitCounts, AddIdentity, PaidOk;
    StockedEdit(d, Insert(d, m, text, lane), m);
  }

  /** Only records leave, or keys that no payload depends on change. */
  lemma StockedFrame(d: Db, d': Db)
    requires Stocked(d) && d'.clock == d.clock
      && (forall id :: id in d'.jobs ==> id in d.jobs && d'.jobs[id] == d.jobs[id])
    requires forall id :: id in d'.jobs ==> (id in d.payloads <==> id in d'.payloads)
    requires forall id :: id in d'.jobs && id in d.payloads ==> d'.payloads[id] == d.payloads[id]
    ensures Stocked(d')
  {
    hide PaidOk;
  }

  /** In a stocked state every active or retained job whose payload time is not over has its payload, and
      has it no longer than that. */
  lemma PayloadThere(d: Db, id: Id)
    requires Stocked(d) && id in d.jobs && (Active(d.jobs[id].state) || d.jobs[id].accounted)
      && d.jobs[id].payloadExpiresAt > d.clock
    ensures id in d.payloads && d.jobs[id].payloadExpiresAt <= d.payloads[id].expiresAt
    ensures d.payloads[id].expiresAt <= Max(d.jobs[id].payloadExpiresAt, d.clock + 1000)
  {
    hide PaidOk;
  }
}
