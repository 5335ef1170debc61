/** Idempotency without any assumption on timing: the identity of an active job leads to it. */
module QueueAnswers {
  import opened Wrappers
  import opened QueueTypes
  import opened QueueInvariant
  import opened QueueOps
  import opened QueueSteps
  import opened QueueEvents
  import opened QueueGone
  import opened QueueIdentity

  predicate Answers(idem: map<Key, Idem>, m: Job) {
    m.t.identity in idem && idem[m.t.identity].task == m.t.id && idem[m.t.identity].expiresAt >= m.t.submittedAt + DAY
  }

  /** An active job whose idempotency record must still be there. */
  predicate Young(m: Job, clock: Time) { Active(m.state) && clock < m.t.submittedAt + DAY }

  ghost predicate AllAnswer(jobs: map<Id, Job>, idem: map<Key, Idem>, clock: Time) {
    forall id :: id in jobs && Young(jobs[id], clock) ==> Answers(idem, jobs[id])
  }

  ghost predicate Fading(idem: map<Key, Idem>, clock: Time)
      { forall k :: k in idem ==> idem[k].expiresAt <= clock + DAY }

  /** The identity set of a finished job is gone when its metadata is swept. */
  ghost predicate SetsTimed(identities: map<Id, IdemSet>, metaExpiry: map<Id, int>, clock: Time) {
    && (forall id :: id in identities && identities[id].expiresAt.Some? ==> identities[id].expiresAt.value > clock)
    && (forall id :: id in identities && id in metaExpiry ==>
          identities[id].expiresAt.Some? && identities[id].expiresAt.value <= metaExpiry[id])
  }

  /** The metadata of a removed record is due. */
  ghost predicate Aged(metaExpiry: map<Id, int>, jobs: map<Id, Job>, clock: Time) {
    forall id :: id in metaExpiry && id !in jobs ==> metaExpiry[id] <= clock
  }

  ghost predicate Answered(d: Db) {
    && AllAnswer(d.jobs, d.idem, d.clock) && Fading(d.idem, d.clock)
    && SetsTimed(d.identities, d.metaExpiry, d.clock) && Aged(d.metaExpiry, d.jobs, d.clock)
  }

  /** No two active jobs share an identity, and a resubmission is answered with the job it started. */
  lemma ActiveIdentity(d: Db, past: Past, a: Id, b: Id)
    requires Answered(d) && a in d.jobs && b in d.jobs && Active(d.jobs[a].state) && Active(d.jobs[b].state)
    requires Settledown(d, past)
    ensures d.jobs[a].t.identity in d.idem && d.idem[d.jobs[a].t.identity].task == a
    ensures d.jobs[a].t.identity == d.jobs[b].t.identity ==> a == b
  {
    hide Inv, Fresh, RecordOk, PayloadsExact, ConflictsExact;
    Known(d, a, past);
    Known(d, b, past);
    Unended(d, a, past);
    Unended(d, b, past);
    assert Young(d.jobs[a], d.clock) && Young(d.jobs[b], d.clock);
  }

  lemma Unended(d: Db, id: Id, past: Past)
    requires id in d.jobs && Active(d.jobs[id].state)
    requires Settledown(d, past)
    ensures d.clock < d.jobs[id].t.submittedAt + DAY
  {
    hide Inv, PayloadsExact, ConflictsExact;
    Known(d, id, past);
    YoungEnough(d, past, id);
  }

  // ---- edits of one record -----------------------------------------------------------------

  lemma AnsweredEdit(d: Db, d': Db, m: Job)
    requires Answered(d) && m.t.id in d.jobs && d.jobs[m.t.id].t == m.t
      && (Active(m.state) ==> Active(d.jobs[m.t.id].state))
    requires d'.jobs == d.jobs[m.t.id := m] && d'.idem == d.idem && d'.identities == d.identities
      && d'.clock == d.clock && d'.metaExpiry == d.metaExpiry
    ensures Answered(d')
  {
    hide Answers;
    forall id | id in d'.jobs && Young(d'.jobs[id], d.clock) ensures Answers(d.idem, d'.jobs[id]) {
      assert Young(d.jobs[id], d.clock) && Answers(d.idem, d.jobs[id]);
      if id == m.t.id { SameAnswer(d.idem, d.jobs[id], m); }
    }
  }

  lemma SameAnswer(idem: map<Key, Idem>, a: Job, b: Job)
    requires Answers(idem, a) && a.t == b.t
    ensures Answers(idem, b)
  {
  }

  lemma AnsweredEnd(d: Db, d': Db, m: Job)
    requires Answered(d) && m.t.id in d.jobs && d.jobs[m.t.id].t == m.t && !Active(m.state)
    requires d'.jobs == d.jobs[m.t.id := m] && d'.clock == d.clock
      && d'.metaExpiry == d.metaExpiry[m.t.id := d.clock + DAY]
    requires d'.idem == RefreshIdem(d.idem, Members(d.identities, m.t.id), d.clock)
      && d'.identities == RefreshSet(d.identities, m.t.id, d.clock)
    ensures Answered(d')
  {
    forall id | id in d'.jobs && Young(d'.jobs[id], d.clock) ensures Answers(d'.idem, d'.jobs[id]) {
      assert Answers(d.idem, d.jobs[id]);
    }
  }

  lemma AnsweredTerminal(d: Db, m: Job, to: JobState, why: Reason, safe: bool)
    requires Answered(d) && m.t.id in d.jobs && d.jobs[m.t.id] == m && !Active(to)
    ensures Answered(Save(Terminal(d.clock, Cursor(d, m), to, why, safe)))
  {
    hide Answered, EndCounts, FreeConflicts, RefreshIdem, RefreshSet, Members, Retime;
    var c := Terminal(d.clock, Cursor(d, m), to, why, safe);
    AnsweredEnd(d, Save(c), c.m);
  }

  lemma AnsweredEvict(d: Db, m: Job, to: JobState, why: Reason)
    requires Answered(d) && m.t.id in d.jobs && d.jobs[m.t.id] == m && !Active(to)
    ensures Answered(Evict(d.clock, d, m, to, why))
  {
    hide Answered, Terminal, ByteCounts;
    var s := Save(DropPayload(Cursor(d, m)));
    AnsweredEdit(d, s, Dropped(m));
    AnsweredTerminal(s, Dropped(m), to, why, false);
  }

  lemma AnsweredMove(d: Db, m: Job)
    requires Answered(d) && m.t.id in d.jobs && d.jobs[m.t.id] == m
    ensures Active(m.state) ==>
      Answered(Save(Requeue(Cursor(d, m)))) && Answered(Save(Promote(Cursor(d, m))))
        && Answered(Save(AskCancel(Cursor(d, m))))
    ensures Answered(Save(DropPayload(Cursor(d, m))))
  {
    hide Answered, StateCounts, RunCounts, ReleasePermit, ByteCounts;
    AnsweredEdit(d, Save(DropPayload(Cursor(d, m))), Dropped(m));
    if Active(m.state) {
      AnsweredEdit(d, Save(Requeue(Cursor(d, m))), Requeued(m));
      AnsweredEdit(d, Save(Promote(Cursor(d, m))), Promoted(m));
      AnsweredEdit(d, Save(AskCancel(Cursor(d, m))), Asked(m));
    }
  }

  lemma AnsweredBegin(d: Db, m: Job, token: Token)
    requires Answered(d) && m.t.id in d.jobs && d.jobs[m.t.id] == m && Active(m.state)
    ensures Answered(Save(Begin(d.clock, Cursor(d, m), token))) && Answered(Save(Beat(d.clock, Cursor(d, m), token)))
  {
    hide Answered, StateCounts, Bump, Budget, BudgetEnd, Retime;
    AnsweredEdit(d, Save(Begin(d.clock, Cursor(d, m), token)), Begun(d.clock, m, token));
    AnsweredEdit(d, Save(Beat(d.clock, Cursor(d, m), token)), Beaten(d.clock, m));
  }

  lemma AnsweredFinished(c: Cursor, token: Token)
    requires Answered(Save(c))
    ensures Answered(Finished(c, token))
  {
    hide Answered;
    AnsweredEdit(Save(c), Finished(c, token), Stamped(c.m, token));
  }

  lemma AnsweredPostpone(d: Db, m: Job, delay: Time, why: Reason)
    requires Answered(d) && m.t.id in d.jobs && d.jobs[m.t.id] == m && Active(m.state)
    ensures Answered(Save(Postpone(d.clock, Cursor(d, m), delay, why)))
  {
    hide Answered, StateCounts, RunCounts, ReleasePermit, Retime;
    AnsweredEdit(d, Save(Postpone(d.clock, Cursor(d, m), delay, why)), Postponed(d.clock, m, delay, why));
  }

  // ---- time, newcomers and leavers -------------------------------------------------------------

  lemma AnsweredExpire(d: Db, past: Past, now: Time)
    requires Answered(d) && d.clock <= now
    requires Inv(d, past)
    ensures Answered(ExpireKeys(d, now))
  {
    hide Inv;
    MetaKnown(d, past);
  }

  lemma MetaKnown(d: Db, past: Past)
    requires Inv(d, past)
    ensures forall id :: id in d.metaExpiry && id in d.jobs ==> d.jobs[id].metadataExpiresAt == Some(d.metaExpiry[id])
    ensures forall id :: id in d.owners && id !in d.jobs ==> id in d.metaExpiry
  {
    hide ReadyExact, DelayedExact, RunningExact, DeadlineExact, PayloadExpiryExact, PayloadsExact;
    hide UsersExact, ConflictsExact, RecordsOk, Accounted, PermitExact, Recorded;
  }

  /** The metadata sweep deletes no idempotency key: the identity set went with the record. */
  lemma AnsweredRetire(d: Db, id: Id)
    requires Answered(d) && id in d.owners && id !in d.jobs && id in d.metaExpiry && d.metaExpiry[id] <= d.clock
    ensures Answered(Retire(d, id)) && Retire(d, id).idem == d.idem
  {
    assert Members(d.identities, id) == {};
    assert DeleteKeys(d.idem, {}) == d.idem;
  }

  lemma AnsweredNew(d: Db, d': Db, m: Job)
    requires Answered(d) && m.t.identity !in d.idem && m.t.id !in d.metaExpiry && m.t.submittedAt == d.clock
    requires d'.jobs == d.jobs[m.t.id := m] && d'.clock == d.clock && d'.metaExpiry == d.metaExpiry
    requires d'.idem == d.idem[m.t.identity := Idem(m.t.id, m.t.fingerprint, d.clock + DAY)]
      && d'.identities == AddIdentity(d.identities, m.t.id, m.t.identity)
    ensures Answered(d')
  {
    forall id | id in d'.jobs && Young(d'.jobs[id], d.clock) ensures Answers(d'.idem, d'.jobs[id]) {
      if id != m.t.id { assert Answers(d.idem, d.jobs[id]); }
    }
  }

  lemma AnsweredInsert(d: Db, m: Job, text: string, lane: LaneState)
    requires Answered(d) && m.t.identity !in d.idem && m.t.id !in d.metaExpiry && m.t.submittedAt == d.clock
    ensures Answered(Insert(d, m, text, lane))
  {
    hide Answered, AddConflicts, AdmitCounts, AddIdentity;
    AnsweredNew(d, Insert(d, m, text, lane), m);
  }

  lemma AnsweredAlias(d: Db, d': Db, task: Id, identity: Key, fingerprint: Key)
    requires Answered(d) && identity !in d.idem && task !in d.metaExpiry
    requires d'.jobs == d.jobs && d'.clock == d.clock && d'.metaExpiry == d.metaExpiry
    requires d'.idem == d.idem[identity := Idem(task, fingerprint, d.clock + DAY)]
      && d'.identities == AddIdentity(d.identities, task, identity)
    ensures Answered(d')
  {
    forall id | id in d'.jobs && Young(d'.jobs[id], d.clock) ensures Answers(d'.idem, d'.jobs[id]) {
      assert Answers(d.idem, d.jobs[id]);
    }
  }

  lemma Unswept(d: Db, id: Id, past: Past)
    requires Inv(d, past)
    ensures id in d.jobs ==> id in d.owners
    ensures id !in d.owners ==> id !in d.metaExpiry
    ensures id in d.jobs && Active(d.jobs[id].state) ==> id !in d.metaExpiry
  {
    hide ReadyExact, DelayedExact, RunningExact, DeadlineExact, PayloadExpiryExact, PayloadsExact;
    hide UsersExact, ConflictsExact, RecordsOk, Accounted, PermitExact, Recorded;
  }

  // ---- what the edits of a sweep leave alone ------------------------------------------------------

  /** No payload is new or has another text. */
  ghost predicate SameTexts(p: map<Id, Payload>, p': map<Id, Payload>) {
    forall id :: id in p' ==> id in p && p'[id].text == p[id].text
  }

  /** No idempotency key is new or answers otherwise. */
  ghost predicate SameNames(names: map<Key, Idem>, names': map<Key, Idem>) {
    forall k :: k in names' ==>
      k in names && names'[k].task == names[k].task && names'[k].fingerprint == names[k].fingerprint
  }

  /** Lanes, owners, idempotency and operation keys, identity sets and due metadata are the same, and so is
      the text of every payload that is left. */
  ghost predicate Undisturbed(d: Db, d': Db) {
    && d'.clock == d.clock && d'.owners.Keys == d.owners.Keys && d'.idem.Keys == d.idem.Keys
    && (forall id :: Members(d'.identities, id) == Members(d.identities, id))
    && Due(d'.metaExpiry, d.clock) == Due(d.metaExpiry, d.clock) && d'.operations == d.operations
    && d'.lanes == d.lanes && d'.commands == d.commands && SameTexts(d.payloads, d'.payloads)
    && SameNames(d.idem, d'.idem)
  }

  lemma UndisturbedEnd(d: Db, m: Job, to: JobState, why: Reason, safe: bool)
    requires m.t.id in d.owners && m.t.id !in d.metaExpiry
    ensures Undisturbed(d, Save(Terminal(d.clock, Cursor(d, m), to, why, safe)))
  {
    hide EndCounts, FreeConflicts;
  }

  lemma UndisturbedEvict(d: Db, m: Job, to: JobState, why: Reason)
    requires m.t.id in d.owners && m.t.id !in d.metaExpiry
    ensures Undisturbed(d, Evict(d.clock, d, m, to, why))
  {
    hide Terminal, ByteCounts;
    var s := Save(DropPayload(Cursor(d, m)));
    UndisturbedEnd(s, Dropped(m), to, why, false);
  }

  lemma UndisturbedMove(d: Db, m: Job)
    requires m.t.id in d.owners
    ensures Undisturbed(d, Save(Requeue(Cursor(d, m)))) && Undisturbed(d, Save(Promote(Cursor(d, m))))
    ensures Undisturbed(d, Save(DropPayload(Cursor(d, m))))
  {
    hide StateCounts, RunCounts, ReleasePermit, ByteCounts;
  }

  lemma UndisturbedBegin(d: Db, m: Job, token: Token)
    requires m.t.id in d.owners
    ensures Undisturbed(d, Save(Begin(d.clock, Cursor(d, m), token)))
  {
    hide StateCounts, Bump, Budget, BudgetEnd;
  }

  lemma UndisturbedPostpone(d: Db, m: Job, delay: Time, why: Reason)
    requires m.t.id in d.owners
    ensures Undisturbed(d, Save(Postpone(d.clock, Cursor(d, m), delay, why)))
  {
    hide StateCounts, RunCounts, ReleasePermit;
  }

  lemma UndisturbedFinished(d: Db, c: Cursor, token: Token)
    requires Undisturbed(d, Save(c))
    ensures Undisturbed(d, Finished(c, token))
  {
    hide Members, Due;
  }

  lemma UndisturbedThrough(a: Db, b: Db, c: Db)
    requires Undisturbed(a, b) && Undisturbed(b, c)
    ensures Undisturbed(a, c)
  {
    hide Members, Due;
  }

  // ---- erasure ------------------------------------------------------------------------------------

  /** The idempotency keys that leave with an erased id. */
  function KeysOf(d: Db, id: Id): set<Key> {
    Members(d.identities, id) + if id in d.jobs then {d.jobs[id].t.identity} else {}
  }

  ghost function AllKeys(d: Db, gone: set<Id>): set<Key> { set id, k | id in gone && k in KeysOf(d, id) :: k }

  /** No key that leaves belongs to an active job that stays. */
  ghost predicate Tidy(d: Db, gone: set<Id>) {
    forall o :: o in d.jobs && o !in gone && Young(d.jobs[o], d.clock) ==> d.jobs[o].t.identity !in AllKeys(d, gone)
  }

  /** What erasing the ids of `gone` does to records and idempotency keys. */
  ghost predicate Forgotten(d: Db, d': Db, gone: set<Id>) {
    && d'.jobs == d.jobs - gone && d'.identities == d.identities - gone && d'.metaExpiry == d.metaExpiry - gone
      && d'.clock == d.clock
    && d'.idem == DeleteKeys(d.idem, AllKeys(d, gone))
    && d'.commands == d.commands - gone && d'.operations == DropOperations(d.operations, AllCommands(d, gone))
  }

  /** The operation keys that leave with erased ids. */
  ghost function AllCommands(d: Db, gone: set<Id>): set<Key> {
    set id, k | id in gone && k in CommandsOf(d.commands, id) :: k
  }

  /** Erasure keeps every active job answered exactly when it is tidy. */
  lemma ErasureExact(d: Db, d': Db, gone: set<Id>)
    requires Answered(d) && Forgotten(d, d', gone)
    ensures Answered(d') <==> Tidy(d, gone)
  {
    hide AllKeys;
    forall o | o in d'.jobs && Young(d'.jobs[o], d.clock)
      ensures Answers(d'.idem, d'.jobs[o]) <==> d.jobs[o].t.identity !in AllKeys(d, gone)
    {
      assert d'.jobs[o] == d.jobs[o] && Answers(d.idem, d.jobs[o]);
    }
  }

  /** Between calls that are never a day apart, every erasure is tidy. */
  lemma LinkedTidy(d: Db, gone: set<Id>)
    requires Linked(d)
    ensures Tidy(d, gone)
  {
    forall o, id, k | o in d.jobs && o !in gone && id in gone && k in KeysOf(d, id) ensures d.jobs[o].t.identity != k {
      assert LinkedKey(d.idem[d.jobs[o].t.identity], o, d.identities[o], d.jobs);
      assert k in Members(d.identities, id);
      assert LinkedKey(d.idem[k], id, d.identities[id], d.jobs);
    }
  }

  lemma ForgottenFirst(d: Db)
    ensures Forgotten(d, d, {})
  {
    assert d.jobs - {} == d.jobs && d.identities - {} == d.identities && d.metaExpiry - {} == d.metaExpiry;
    assert AllKeys(d, {}) == {};
    assert DeleteKeys(d.idem, {}) == d.idem;
    assert AllCommands(d, {}) == {} && d.commands - {} == d.commands
      && DropOperations(d.operations, {}) == d.operations;
  }

  lemma ForgottenNext(d0: Db, d: Db, d': Db, gone: set<Id>, id: Id)
    requires Forgotten(d0, d, gone) && id !in gone
    requires d'.jobs == d.jobs - {id} && d'.identities == d.identities - {id} && d'.metaExpiry == d.metaExpiry - {id}
      && d'.clock == d.clock
    requires d'.idem == DeleteKeys(d.idem, KeysOf(d, id)) && d'.commands == d.commands - {id}
    requires d'.operations == DropOperations(d.operations, CommandsOf(d.commands, id))
    ensures Forgotten(d0, d', gone + {id})
  {
    CommandsDropped(d0, d, d', gone, id);
    assert KeysOf(d, id) == KeysOf(d0, id);
    hide KeysOf;
    assert AllKeys(d0, gone + {id}) == AllKeys(d0, gone) + KeysOf(d0, id);
    hide AllKeys;
    DeleteMore(d0.idem, AllKeys(d0, gone), KeysOf(d0, id));
    assert d0.jobs - gone - {id} == d0.jobs - (gone + {id});
    assert d0.identities - gone - {id} == d0.identities - (gone + {id});
    assert d0.metaExpiry - gone - {id} == d0.metaExpiry - (gone + {id});
  }

  lemma CommandsDropped(d0: Db, d: Db, d': Db, gone: set<Id>, id: Id)
    requires id !in gone && d.commands == d0.commands - gone && d'.commands == d.commands - {id}
    requires d.operations == DropOperations(d0.operations, AllCommands(d0, gone))
    requires d'.operations == DropOperations(d.operations, CommandsOf(d.commands, id))
    ensures d'.commands == d0.commands - (gone + {id})
    ensures d'.operations == DropOperations(d0.operations, AllCommands(d0, gone + {id}))
  {
    assert CommandsOf(d.commands, id) == CommandsOf(d0.commands, id);
    assert AllCommands(d0, gone + {id}) == AllCommands(d0, gone) + CommandsOf(d0.commands, id);
    assert d0.commands - gone - {id} == d0.commands - (gone + {id});
  }

  lemma DeleteMore(idem: map<Key, Idem>, a: set<Key>, b: set<Key>)
    ensures DeleteKeys(DeleteKeys(idem, a), b) == DeleteKeys(idem, a + b)
  {
  }
}
