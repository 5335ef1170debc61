/** The loops of the sweep, each proved against what it means for a single record. */
module QueueLoops {
  import opened Wrappers
  import opened QueueTypes
  import opened QueueInvariant
  import opened QueueOps
  import opened QueueSteps
  import opened QueueGone
  import opened QueueSweep
  import opened SortedSets
  import opened QueueIdentity
  import opened QueueAnswers
  import opened QueueStock

  lemma TerminalOthers(now: Time, db: Db, m: Job, to: JobState, why: Reason, safe: bool)
    requires m.t.id in db.jobs && db.jobs[m.t.id] == m
    ensures var d' := Save(Terminal(now, Cursor(db, m), to, why, safe));
            && d'.jobs == db.jobs[m.t.id := Ended(now, m, to, why, Keeps(db.payloads, m, safe))]
            && d'.clock == db.clock && d'.sequence == db.sequence && d'.lanes == db.lanes
              && d'.operations == db.operations
            && (forall id :: id != m.t.id ==> (id in d'.payloads <==> id in db.payloads))
            && (m.owner == None ==> d'.permit == db.permit)
  {
    hide EndCounts, FreeConflicts, RefreshIdem, RefreshSet, Members;
  }

  lemma EvictOthers(db: Db, m: Job, to: JobState, why: Reason)
    requires m.t.id in db.jobs && db.jobs[m.t.id] == m
    ensures var d' := Evict(db.clock, db, m, to, why);
            && d'.jobs == db.jobs[m.t.id := Ended(db.clock, m, to, why, false)] && Alike(db, d')
            && (forall id :: id != m.t.id ==> (id in d'.payloads <==> id in db.payloads))
  {
    EvictedTwice(db, m, to, why);
    hide EndCounts, FreeConflicts, RefreshIdem, RefreshSet, Members, ByteCounts;
  }

  lemma ForgetInv(db: Db, id: Id, past: Past)
    requires Inv(db, past) && id !in db.jobs
    ensures Inv(db.(payloadExpiry := db.payloadExpiry - {id}), past)
  {
    assert PayloadExpiryExact(db.payloadExpiry - {id}, db.jobs) by {
      hide RecordsOk, Accounted, PermitExact, Recorded;
      hide ReadyExact, DelayedExact, RunningExact, DeadlineExact, PayloadsExact;
      hide OwnersExact, MetaExact, UsersExact, ConflictsExact;
    }
    hide ReadyExact, DelayedExact, RunningExact, DeadlineExact, PayloadExpiryExact, PayloadsExact;
    hide OwnersExact, MetaExact, UsersExact, ConflictsExact, RecordsOk, CountsExact, CapsOk, LeaksOk, PermitExact;
    hide LogShape, JobLogs, TokensOk, LanesOk;
  }

  // ---- one iteration of each sweep loop -------------------------------------------------

  /** Only the record under `id` changed, to `m`; payload keys of other jobs stay. */
  ghost predicate Rewrote(d: Db, d': Db, id: Id, m: Job) {
    && d'.jobs == d.jobs[id := m] && d'.clock == d.clock && d'.sequence == d.sequence && d'.lanes == d.lanes
    && (forall o :: o != id ==> (o in d'.payloads <==> o in d.payloads))
  }

  function UnpaidOne(d: Db, id: Id): Db
    requires id in d.jobs
  {
    var m := d.jobs[id];
    if Active(m.state) then Evict(d.clock, d, m, LossState(m), PayloadExpired)
    else Save(DropPayload(Cursor(d, m)))
  }

  lemma UnpaidStep(d: Db, id: Id, past: Past)
    requires Inv(d, past) && id in d.jobs
    ensures Inv(UnpaidOne(d, id), past) && Rewrote(d, UnpaidOne(d, id), id, Unpaid(d.clock, true, d.jobs[id]))
  {
    hide Inv, ConflictsExact, PayloadsExact, RecordOk, Evict, ByteCounts;
    var m := d.jobs[id];
    Known(d, id, past);
    if Active(m.state) {
      EvictInv(d, m, LossState(m), PayloadExpired, past);
      EvictOthers(d, m, LossState(m), PayloadExpired);
    } else {
      DropInv(d, m, past);
    }
  }

  function OverdueOne(d: Db, id: Id): Db
    requires id in d.jobs
  {
    var m := d.jobs[id];
    Save(Terminal(d.clock, Cursor(d, m), LossState(m), OverdueReason(m), false))
  }

  lemma OverdueStep(d: Db, id: Id, past: Past)
    requires Inv(d, past) && id in d.jobs && IsOverdue(d.clock, d.jobs[id])
    ensures Inv(OverdueOne(d, id), past) && Rewrote(d, OverdueOne(d, id), id, Overdue(d.clock, d.jobs[id]))
  {
    hide Inv, ConflictsExact, PayloadsExact, RecordOk, Terminal;
    var m := d.jobs[id];
    Known(d, id, past);
    TerminalInv(d, m, LossState(m), OverdueReason(m), false, past);
    TerminalOthers(d.clock, d, m, LossState(m), OverdueReason(m), false);
  }

  lemma TerminalRewrote(d: Db, m: Job, to: JobState, why: Reason, safe: bool)
    requires m.t.id in d.jobs && d.jobs[m.t.id] == m
    ensures Rewrote(d, Save(Terminal(d.clock, Cursor(d, m), to, why, safe)), m.t.id,
      Ended(d.clock, m, to, why, Keeps(d.payloads, m, safe)))
  {
    hide Terminal;
    TerminalOthers(d.clock, d, m, to, why, safe);
  }

  lemma RequeueRewrote(d: Db, m: Job)
    requires m.t.id in d.jobs && d.jobs[m.t.id] == m
    ensures Rewrote(d, Save(Requeue(Cursor(d, m))), m.t.id, Requeued(m))
  {
    hide StateCounts, RunCounts, ReleasePermit;
  }

  datatype Verdict = Verdict(to: JobState, why: Reason, safe: bool) | Again

  /** The branches for a lapsed lease, in the script's order. */
  function LapseVerdict(now: Time, m: Job): Verdict {
    if m.t.effectful then Verdict(UnknownDelivery, UncertainReason(m), false)
    else if m.state == CancelRequested then Verdict(Cancelled, CancelAsked, false)
    else if m.attempts >= m.t.maxAttempts then Verdict(Failed, AttemptsExhausted, true)
    else if now >= m.t.queueDeadlineAt then Verdict(Expired, DeadlineExceeded, true)
    else Again
  }

  function LapseOne(d: Db, id: Id): Db
    requires id in d.jobs
  {
    var m := d.jobs[id];
    match LapseVerdict(d.clock, m)
    case Verdict(to, why, safe) => Save(Terminal(d.clock, Cursor(d, m), to, why, safe))
    case Again => Save(Requeue(Cursor(d, m)))
  }

  lemma LapseStep(d: Db, id: Id, past: Past)
    requires Inv(d, past) && id in d.jobs && IsLapsed(d.clock, d.jobs[id])
    ensures Inv(LapseOne(d, id), past) && Rewrote(d, LapseOne(d, id), id, Lapsed(d.clock, id in d.payloads, d.jobs[id]))
  {
    hide Inv, ConflictsExact, PayloadsExact, RecordOk, Terminal, Requeue, Rewrote, Evolves, Save;
    var m := d.jobs[id];
    Known(d, id, past);
    match LapseVerdict(d.clock, m)
    case Verdict(to, why, safe) =>
      TerminalInv(d, m, to, why, safe, past);
      TerminalRewrote(d, m, to, why, safe);
    case Again =>
      RequeueInv(d, m, past);
      RequeueRewrote(d, m);
  }

  function RipeOne(d: Db, id: Id): Db
    requires id in d.jobs
  {
    Save(Promote(Cursor(d, d.jobs[id])))
  }

  lemma RipeStep(d: Db, id: Id, past: Past)
    requires Inv(d, past) && id in d.jobs && d.jobs[id].state == Delayed
    ensures Inv(RipeOne(d, id), past) && Rewrote(d, RipeOne(d, id), id, Promoted(d.jobs[id]))
  {
    hide Inv, ConflictsExact, PayloadsExact, RecordOk, StateCounts;
    Known(d, id, past);
    PromoteInv(d, d.jobs[id], past);
  }

  // ---- identities ----------------------------------------------------------------------------

  lemma UnpaidNames(d: Db, id: Id, past: Past)
    requires id in d.jobs && Inv(d, past)
    ensures Upholds(d, UnpaidOne(d, id)) && Undisturbed(d, UnpaidOne(d, id))
  {
    hide Linked, Answered, Stocked, Undisturbed, Inv, Evict, RecordOk, PayloadsExact, ConflictsExact, DropPayload;
    Known(d, id, past);
    Unswept(d, id, past);
    var m := d.jobs[id];
    if Active(m.state) {
      UndisturbedEvict(d, m, LossState(m), PayloadExpired);
      if Linked(d) { LinkedEvict(d, m, LossState(m), PayloadExpired); }
      if Answered(d) { AnsweredEvict(d, m, LossState(m), PayloadExpired); }
      if Stocked(d) { StockedEvict(d, m, LossState(m), PayloadExpired); }
    } else {
      UndisturbedMove(d, m);
      if Linked(d) { LinkedRequeue(d, m); }
      if Answered(d) { AnsweredMove(d, m); }
      if Stocked(d) { StockedDrop(d, m); }
    }
  }

  lemma ForgetNames(d: Db, id: Id)
    ensures Upholds(d, d.(payloadExpiry := d.payloadExpiry - {id}))
      && Undisturbed(d, d.(payloadExpiry := d.payloadExpiry - {id}))
  {
    hide LinkedJobs, LinkedSets, LinkedKeys, AllAnswer, Fading, SetsTimed, Aged, PaidOk, InStock;
  }

  lemma OverdueNames(d: Db, id: Id, past: Past)
    requires id in d.jobs && IsOverdue(d.clock, d.jobs[id]) && Inv(d, past)
    ensures Upholds(d, OverdueOne(d, id)) && Undisturbed(d, OverdueOne(d, id))
  {
    hide Linked, Answered, Stocked, Undisturbed, Inv, Terminal, RecordOk, PayloadsExact, ConflictsExact;
    Known(d, id, past);
    Unswept(d, id, past);
    var m := d.jobs[id];
    UndisturbedEnd(d, m, LossState(m), OverdueReason(m), false);
    if Linked(d) { LinkedTerminal(d, m, LossState(m), OverdueReason(m), false); }
    if Answered(d) { AnsweredTerminal(d, m, LossState(m), OverdueReason(m), false); }
    if Stocked(d) { StockedTerminal(d, m, LossState(m), OverdueReason(m), false); }
  }

  lemma LapseNames(d: Db, id: Id, past: Past)
    requires id in d.jobs && IsLapsed(d.clock, d.jobs[id]) && Inv(d, past)
    ensures Upholds(d, LapseOne(d, id)) && Undisturbed(d, LapseOne(d, id))
  {
    hide Linked, Answered, Stocked, Undisturbed, Inv, Terminal, Requeue, RecordOk, PayloadsExact, ConflictsExact;
    Known(d, id, past);
    Unswept(d, id, past);
    var m := d.jobs[id];
    match LapseVerdict(d.clock, m)
    case Verdict(to, why, safe) =>
      UndisturbedEnd(d, m, to, why, safe);
      if Linked(d) { LinkedTerminal(d, m, to, why, safe); }
      if Answered(d) { AnsweredTerminal(d, m, to, why, safe); }
      if Stocked(d) { StockedTerminal(d, m, to, why, safe); }
    case Again =>
      UndisturbedMove(d, m);
      if Linked(d) { LinkedRequeue(d, m); }
      if Answered(d) { AnsweredMove(d, m); }
      if Stocked(d) { StockedRequeue(d, m); }
  }

  lemma RipeNames(d: Db, id: Id, past: Past)
    requires id in d.jobs && d.jobs[id].state == Delayed && Inv(d, past)
    ensures Upholds(d, RipeOne(d, id)) && Undisturbed(d, RipeOne(d, id))
  {
    hide Linked, Answered, Stocked, Undisturbed, Inv, Promote, RecordOk, PayloadsExact, ConflictsExact;
    Known(d, id, past);
    Unswept(d, id, past);
    UndisturbedMove(d, d.jobs[id]);
    if Linked(d) { LinkedRequeue(d, d.jobs[id]); }
    if Answered(d) { AnsweredMove(d, d.jobs[id]); }
    if Stocked(d) { StockedPromote(d, d.jobs[id]); }
  }

  lemma RetireStock(d: Db, id: Id)
    requires Stocked(d) && id in d.owners
    ensures Stocked(Retire(d, id))
  {
    hide Stocked, DeleteKeys, Members;
    StockedFrame(d, Retire(d, id));
  }

  lemma RetireNames(d: Db, id: Id)
    requires id in d.owners && id !in d.jobs && id in d.metaExpiry && d.metaExpiry[id] <= d.clock
    ensures Upholds(d, Retire(d, id))
  {
    hide Linked, Answered, Stocked, Retire;
    if Linked(d) { LinkedRetire(d, id); }
    if Answered(d) { AnsweredRetire(d, id); }
    if Stocked(d) { RetireStock(d, id); }
  }

  // ---- the sweep's loops ---------------------------------------------------------------------

  lemma PhaseFacts(now: Time, m: Job)
    ensures !Active(Unpaid(now, true, m).state) && Unpaid(now, false, m) == m
    ensures if IsOverdue(now, m) then !Active(Overdue(now, m).state) else Overdue(now, m) == m
    ensures !IsLapsed(now, m) ==> Lapsed(now, true, m) == m == Lapsed(now, false, m)
    ensures Ripened(now, m) == if IsRipe(now, m) then Promoted(m) else m
  {
  }

  ghost predicate Kept(d: Db, d': Db) {
    d'.jobs.Keys == d.jobs.Keys && d'.clock == d.clock && d'.sequence == d.sequence && d'.lanes == d.lanes
  }

  /** The ids met by the first `i` iterations of a loop. */
  ghost function Taken(ids: seq<Id>, i: nat): set<Id>
    requires i <= |ids|
  {
    set j | 0 <= j < i :: ids[j]
  }

  ghost predicate Distinct(ids: seq<Id>) { forall i, j :: 0 <= i < j < |ids| ==> ids[i] != ids[j] }

  /** The state of a loop that has met the ids in `done`: their records are as in `after`,
      every other record and its payload key are untouched. */
  ghost predicate Rewritten(d0: Db, d: Db, done: set<Id>, after: map<Id, Job>) {
    && Kept(d0, d) && Undisturbed(d0, d) && after.Keys == d0.jobs.Keys
    && (forall id :: id in d.jobs ==> d.jobs[id] == if id in done then after[id] else d0.jobs[id])
    && (forall id :: id in d.jobs && id !in done ==> (id in d.payloads <==> id in d0.payloads))
  }

  lemma RewrittenFirst(d0: Db, ids: seq<Id>, after: map<Id, Job>)
    requires after.Keys == d0.jobs.Keys
    ensures Rewritten(d0, d0, Taken(ids, 0), after)
  {
  }

  /** The next id of a loop still has its record as the loop found it. */
  lemma Untouched(d0: Db, d: Db, ids: seq<Id>, i: nat, after: map<Id, Job>)
    requires i < |ids| && Distinct(ids) && Rewritten(d0, d, Taken(ids, i), after)
    ensures ids[i] in d.jobs <==> ids[i] in d0.jobs
    ensures ids[i] in d.jobs ==> d.jobs[ids[i]] == d0.jobs[ids[i]] && (ids[i] in d.payloads <==> ids[i] in d0.payloads)
    ensures d.clock == d0.clock
  {
    assert ids[i] !in Taken(ids, i);
  }

  lemma RewrittenNext(d0: Db, d: Db, d': Db, ids: seq<Id>, i: nat, after: map<Id, Job>)
    requires i < |ids| && Rewritten(d0, d, Taken(ids, i), after) && Undisturbed(d, d')
    requires if ids[i] in d0.jobs then Rewrote(d, d', ids[i], after[ids[i]])
      else d' == d.(payloadExpiry := d'.payloadExpiry)
    ensures Rewritten(d0, d', Taken(ids, i + 1), after)
  {
    assert Taken(ids, i + 1) == Taken(ids, i) + {ids[i]};
  }

  /** First loop: expired payloads, at most 256 of them. */
  method SweepPayloads(d0: Db, ghost past: Past) returns (d: Db, ghost batch: set<Id>)
    requires Inv(d0, past)
    ensures Inv(d, past) && Kept(d0, d) && Upholds(d0, d) && Undisturbed(d0, d)
    ensures forall id :: id in d.jobs ==> d.jobs[id] == Unpaid(d.clock, id in batch, d0.jobs[id])
    ensures forall id :: id in d.jobs && Active(d.jobs[id].state) ==> (id in d.payloads <==> id in d0.payloads)
    ensures FirstOf(Due(d0.payloadExpiry, d0.clock), batch, 256)
    ensures |Due(d0.payloadExpiry, d0.clock)| <= 256 ==>
              forall id :: id in d.jobs && d0.jobs[id].accounted && d0.jobs[id].payloadExpiresAt <= d.clock ==>
                id in batch
  {
    hide Linked, Answered, Stocked, Undisturbed, Inv, UnpaidOne, Unpaid, Due, Rewritten, Taken, Rewrote;
    d := d0;
    var ids := Front(Due(d0.payloadExpiry, d0.clock), 256);
    ghost var after := map id | id in d0.jobs :: Unpaid(d0.clock, true, d0.jobs[id]);
    RewrittenFirst(d0, ids, after);
    for i := 0 to |ids|
      invariant Inv(d, past) && Upholds(d0, d) && Rewritten(d0, d, Taken(ids, i), after)
    {
      Untouched(d0, d, ids, i, after);
      ghost var before := d;
      if ids[i] in d.jobs {
        UnpaidStep(d, ids[i], past);
        UnpaidNames(d, ids[i], past);
        d := UnpaidOne(d, ids[i]);
      } else {
        ForgetInv(d, ids[i], past);
        ForgetNames(d, ids[i]);
        d := d.(payloadExpiry := d.payloadExpiry - {ids[i]});
      }
      RewrittenNext(d0, before, d, ids, i, after);
    }
    batch := Taken(ids, |ids|);
    PayloadsDone(d0, d, ids, after);
    TakenFirst(Due(d0.payloadExpiry, d0.clock), ids, 256);
    BatchFacts(d0, past, ids, batch);
  }

  lemma PayloadsDone(d0: Db, d: Db, ids: seq<Id>, after: map<Id, Job>)
    requires after == map id | id in d0.jobs :: Unpaid(d0.clock, true, d0.jobs[id])
    requires Rewritten(d0, d, Taken(ids, |ids|), after)
    ensures Kept(d0, d) && Undisturbed(d0, d) && forall id :: id in Taken(ids, |ids|) <==> id in ids
    ensures forall id :: id in d.jobs ==> d.jobs[id] == Unpaid(d.clock, id in Taken(ids, |ids|), d0.jobs[id])
    ensures forall id :: id in d.jobs && Active(d.jobs[id].state) ==> (id in d.payloads <==> id in d0.payloads)
  {
    hide Unpaid;
    forall id | id in d.jobs
      ensures d.jobs[id] == Unpaid(d.clock, id in Taken(ids, |ids|), d0.jobs[id])
      ensures id in Taken(ids, |ids|) ==> !Active(d.jobs[id].state)
    {
      PhaseFacts(d0.clock, d0.jobs[id]);
    }
  }

  lemma BatchFacts(d0: Db, past: Past, ids: seq<Id>, batch: set<Id>)
    requires FirstOf(Due(d0.payloadExpiry, d0.clock), batch, 256)
    requires Inv(d0, past)
    ensures |Due(d0.payloadExpiry, d0.clock)| <= 256 ==>
              forall id :: id in d0.jobs && d0.jobs[id].accounted && d0.jobs[id].payloadExpiresAt <= d0.clock ==>
                id in batch
  {
    hide Inv;
    PayloadView(d0, past);
    if |Due(d0.payloadExpiry, d0.clock)| <= 256 {
      FirstOfAll(Due(d0.payloadExpiry, d0.clock), batch, 256);
      forall id | id in d0.jobs && d0.jobs[id].accounted
        && d0.jobs[id].payloadExpiresAt <= d0.clock ensures id in batch {
        assert id in Due(d0.payloadExpiry, d0.clock);
      }
    }
  }

  /** The ids of an ordered scan are the first members of its set. */
  lemma TakenFirst(z: map<Id, int>, ids: seq<Id>, limit: nat)
    requires |ids| == Min(limit, |z|) && Distinct(ids) && (forall i :: 0 <= i < |ids| ==> ids[i] in z)
    requires forall o, i :: o in z && o !in ids && 0 <= i < |ids| ==> Before(z, ids[i], o)
    ensures FirstOf(z, Taken(ids, |ids|), limit)
  {
    hide Before;
    SetOfSize(ids, Taken(ids, |ids|));
  }

  /** Second loop: deadlines. The scan limit of 256 cuts nothing off. */
  method SweepDeadlines(d0: Db, ghost past: Past) returns (d: Db)
    requires Inv(d0, past)
    ensures Inv(d, past) && Kept(d0, d) && Upholds(d0, d) && Undisturbed(d0, d)
    ensures forall id :: id in d.jobs ==> d.jobs[id] == Overdue(d.clock, d0.jobs[id])
    ensures forall id :: id in d.jobs && Active(d.jobs[id].state) ==> (id in d.payloads <==> id in d0.payloads)
  {
    hide Linked, Answered, Stocked, Undisturbed, Inv, OverdueOne, Overdue, Rewritten, Taken, Rewrote, IsOverdue, Due,
      DeadlineExact;
    d := d0;
    DeadlineView(d0, past);
    var ids := Front(Due(d0.deadline, d0.clock), 256);
    DeadlineList(d0, ids);
    ghost var after := map id | id in d0.jobs :: Overdue(d0.clock, d0.jobs[id]);
    RewrittenFirst(d0, ids, after);
    for i := 0 to |ids|
      invariant Inv(d, past) && Upholds(d0, d) && Rewritten(d0, d, Taken(ids, i), after)
    {
      Untouched(d0, d, ids, i, after);
      OverdueStep(d, ids[i], past);
      OverdueNames(d, ids[i], past);
      RewrittenNext(d0, d, OverdueOne(d, ids[i]), ids, i, after);
      d := OverdueOne(d, ids[i]);
    }
    DeadlinesDone(d0, d, ids, after);
  }

  lemma DeadlineList(d: Db, ids: seq<Id>)
    requires DeadlineExact(d.deadline, d.jobs) && forall id :: id in ids <==> id in Due(d.deadline, d.clock)
    ensures forall id :: id in ids <==> id in d.jobs && IsOverdue(d.clock, d.jobs[id])
  {
  }

  lemma DeadlinesDone(d0: Db, d: Db, ids: seq<Id>, after: map<Id, Job>)
    requires after == map id | id in d0.jobs :: Overdue(d0.clock, d0.jobs[id])
    requires forall id :: id in ids <==> id in d0.jobs && IsOverdue(d0.clock, d0.jobs[id])
    requires Rewritten(d0, d, Taken(ids, |ids|), after)
    ensures Kept(d0, d) && Undisturbed(d0, d)
    ensures forall id :: id in d.jobs ==> d.jobs[id] == Overdue(d.clock, d0.jobs[id])
    ensures forall id :: id in d.jobs && Active(d.jobs[id].state) ==> (id in d.payloads <==> id in d0.payloads)
  {
    hide Overdue, IsOverdue;
    forall id | id in d.jobs
      ensures d.jobs[id] == Overdue(d.clock, d0.jobs[id])
      ensures id in Taken(ids, |ids|) ==> !Active(d.jobs[id].state)
    {
      assert id in Taken(ids, |ids|) <==> id in ids;
      PhaseFacts(d0.clock, d0.jobs[id]);
    }
  }

  /** Third loop: leases. */
  method SweepLeases(d0: Db, ghost past: Past) returns (d: Db)
    requires Inv(d0, past)
    ensures Inv(d, past) && Kept(d0, d) && Upholds(d0, d) && Undisturbed(d0, d)
    ensures forall id :: id in d.jobs ==> d.jobs[id] == Lapsed(d.clock, id in d0.payloads, d0.jobs[id])
  {
    hide Linked, Answered, Stocked, Undisturbed, Inv, LapseOne, Lapsed, Rewritten, Taken, Rewrote, IsLapsed, Due,
      RunningExact;
    d := d0;
    RunningView(d0, past);
    var ids := Front(Due(d0.running, d0.clock), 256);
    RunningList(d0, ids);
    ghost var after := map id | id in d0.jobs :: Lapsed(d0.clock, id in d0.payloads, d0.jobs[id]);
    RewrittenFirst(d0, ids, after);
    for i := 0 to |ids|
      invariant Inv(d, past) && Upholds(d0, d) && Rewritten(d0, d, Taken(ids, i), after)
    {
      Untouched(d0, d, ids, i, after);
      LapseStep(d, ids[i], past);
      LapseNames(d, ids[i], past);
      RewrittenNext(d0, d, LapseOne(d, ids[i]), ids, i, after);
      d := LapseOne(d, ids[i]);
    }
    LeasesDone(d0, d, ids, after);
  }

  lemma RunningList(d: Db, ids: seq<Id>)
    requires RunningExact(d.running, d.jobs) && forall id :: id in ids <==> id in Due(d.running, d.clock)
    ensures forall id :: id in ids <==> id in d.jobs && IsLapsed(d.clock, d.jobs[id])
  {
  }

  lemma LeasesDone(d0: Db, d: Db, ids: seq<Id>, after: map<Id, Job>)
    requires after == map id | id in d0.jobs :: Lapsed(d0.clock, id in d0.payloads, d0.jobs[id])
    requires forall id :: id in ids <==> id in d0.jobs && IsLapsed(d0.clock, d0.jobs[id])
    requires Rewritten(d0, d, Taken(ids, |ids|), after)
    ensures Kept(d0, d) && Undisturbed(d0, d)
    ensures forall id :: id in d.jobs ==> d.jobs[id] == Lapsed(d.clock, id in d0.payloads, d0.jobs[id])
  {
    hide Lapsed, IsLapsed;
    forall id | id in d.jobs ensures d.jobs[id] == Lapsed(d.clock, id in d0.payloads, d0.jobs[id]) {
      assert id in Taken(ids, |ids|) <==> id in ids;
      PhaseFacts(d0.clock, d0.jobs[id]);
    }
  }

  /** Fourth loop: jobs of one lane whose delay is over. */
  method SweepDelayed(d0: Db, l: Lane, ghost past: Past) returns (d: Db)
    requires Inv(d0, past)
    ensures Inv(d, past) && Kept(d0, d) && Upholds(d0, d) && Undisturbed(d0, d)
    ensures forall id :: id in d.jobs ==> d.jobs[id] == if d0.jobs[id].t.lane == l then Ripened(d.clock, d0.jobs[id])
      else d0.jobs[id]
  {
    hide Linked, Answered, Stocked, Undisturbed, Inv, RipeOne, LaneView, Promoted, Ripened, Rewritten, Taken, Rewrote,
      IsRipe,
      Due, LaneLists;
    d := d0;
    DelayedView(d0, past, l);
    var ids := Front(Due(LaneView(d0.delayed, l), d0.clock), 128);
    DelayedList(d0, ids, l);
    ghost var after := map id | id in d0.jobs :: Promoted(d0.jobs[id]);
    RewrittenFirst(d0, ids, after);
    for i := 0 to |ids|
      invariant Inv(d, past) && Upholds(d0, d) && Rewritten(d0, d, Taken(ids, i), after)
    {
      Untouched(d0, d, ids, i, after);
      RipeStep(d, ids[i], past);
      RipeNames(d, ids[i], past);
      RewrittenNext(d0, d, RipeOne(d, ids[i]), ids, i, after);
      d := RipeOne(d, ids[i]);
    }
    DelayedDone(d0, d, ids, l, after);
  }

  lemma DelayedList(d: Db, ids: seq<Id>, l: Lane)
    requires LaneLists(d, l)
    requires (forall i :: 0 <= i < |ids| ==> ids[i] in Due(LaneView(d.delayed, l), d.clock))
    requires |Due(LaneView(d.delayed, l), d.clock)| <= 128 ==>
      forall id :: id in Due(LaneView(d.delayed, l), d.clock) ==>
      id in ids
    ensures forall id :: id in ids <==>
      id in d.jobs && d.jobs[id].t.lane == l && d.jobs[id].state == Delayed && IsRipe(d.clock, d.jobs[id])
  {
    hide LaneView;
  }

  lemma DelayedDone(d0: Db, d: Db, ids: seq<Id>, l: Lane, after: map<Id, Job>)
    requires after == map id | id in d0.jobs :: Promoted(d0.jobs[id])
    requires forall id :: id in ids <==>
      id in d0.jobs && d0.jobs[id].t.lane == l && d0.jobs[id].state == Delayed && IsRipe(d0.clock, d0.jobs[id])
    requires Rewritten(d0, d, Taken(ids, |ids|), after)
    ensures Kept(d0, d) && Undisturbed(d0, d)
    ensures forall id :: id in d.jobs ==> d.jobs[id] == if d0.jobs[id].t.lane == l then Ripened(d.clock, d0.jobs[id])
      else d0.jobs[id]
  {
    hide Promoted, Ripened;
    forall id | id in d.jobs
      ensures d.jobs[id] == if d0.jobs[id].t.lane == l then Ripened(d.clock, d0.jobs[id]) else d0.jobs[id]
    {
      assert id in Taken(ids, |ids|) <==> id in ids;
      PhaseFacts(d0.clock, d0.jobs[id]);
    }
  }

  /** The entries of `gone` have left, and exactly their idempotency keys with them. */
  ghost predicate Retired(d0: Db, d: Db, gone: set<Id>) {
    && d.jobs == d0.jobs && d.clock == d0.clock && d.sequence == d0.sequence && d.lanes == d0.lanes
    && d.owners == d0.owners - gone && d.metaExpiry == d0.metaExpiry - gone
    && KeysLeft(d0, d, gone) && d.operations == d0.operations && d.payloads == d0.payloads
    && SameNames(d0.idem, d.idem) && (forall id :: id !in gone ==>
      Members(d.identities, id) == Members(d0.identities, id))
  }

  ghost predicate KeysLeft(d0: Db, d: Db, gone: set<Id>) {
    forall k :: k in d.idem <==> k in d0.idem && forall id :: id in gone ==> k !in Members(d0.identities, id)
  }

  lemma RetiredFirst(d: Db, ids: seq<Id>)
    ensures Retired(d, d, Taken(ids, 0))
  {
    assert d.owners - {} == d.owners && d.metaExpiry - {} == d.metaExpiry;
    assert Taken(ids, 0) == {};
  }

  lemma RetiredNext(d0: Db, d: Db, ids: seq<Id>, i: nat)
    requires i < |ids| && Retired(d0, d, Taken(ids, i)) && ids[i] in d.owners
    ensures Retired(d0, Retire(d, ids[i]), Taken(ids, i + 1))
  {
    hide KeysLeft, SameNames, Members, DeleteKeys;
    var gone, id := Taken(ids, i), ids[i];
    assert Taken(ids, i + 1) == gone + {id};
    KeysLeftNext(d0, d, gone, id);
    assert d0.owners - gone - {id} == d0.owners - (gone + {id});
    assert d0.metaExpiry - gone - {id} == d0.metaExpiry - (gone + {id});
  }

  lemma KeysLeftNext(d0: Db, d: Db, gone: set<Id>, id: Id)
    requires id in d.owners && id !in gone && KeysLeft(d0, d, gone) && SameNames(d0.idem, d.idem)
    requires forall o :: o !in gone ==> Members(d.identities, o) == Members(d0.identities, o)
    ensures var d' := Retire(d, id);
      && KeysLeft(d0, d', gone + {id}) && SameNames(d0.idem, d'.idem)
      && forall o :: o !in gone + {id} ==> Members(d'.identities, o) == Members(d0.identities, o)
  {
    hide Bump;
  }

  /** The entries still to be met are untouched. */
  lemma RetiredRest(d0: Db, d: Db, ids: seq<Id>, i: nat)
    requires i < |ids| && Distinct(ids) && Retired(d0, d, Taken(ids, i))
    requires ids[i] in d0.owners && ids[i] !in d0.jobs && ids[i] in Due(d0.metaExpiry, d0.clock)
    ensures ids[i] in d.owners && ids[i] !in d.jobs && ids[i] in d.metaExpiry && d.metaExpiry[ids[i]] <= d.clock
  {
    assert ids[i] !in Taken(ids, i);
  }

  /** Last loop: metadata of records that are gone, the first 256 of them. */
  method SweepMetadata(d0: Db, ghost past: Past) returns (d: Db, ghost retired: set<Id>)
    requires Inv(d0, past)
    ensures Inv(d, past) && Upholds(d0, d) && Retired(d0, d, retired)
    ensures FirstOf(Due(d0.metaExpiry, d0.clock), retired, 256) && forall id :: id in retired ==> id !in d0.jobs
  {
    hide Linked, Answered, Stocked, Inv, Retire, Retired, Taken, Due;
    d := d0;
    var ids := Front(Due(d0.metaExpiry, d0.clock), 256);
    MetaGone(d0, past, ids);
    RetiredFirst(d0, ids);
    for i := 0 to |ids|
      invariant Inv(d, past) && Upholds(d0, d) && Retired(d0, d, Taken(ids, i))
    {
      RetiredRest(d0, d, ids, i);
      RetireInv(d, ids[i], past);
      RetireNames(d, ids[i]);
      RetiredNext(d0, d, ids, i);
      d := Retire(d, ids[i]);
    }
    retired := Taken(ids, |ids|);
    TakenFirst(Due(d0.metaExpiry, d0.clock), ids, 256);
    TakenIn(ids);
  }

  lemma TakenIn(ids: seq<Id>)
    ensures forall id :: id in Taken(ids, |ids|) <==> id in ids
  {
  }

  /** The phases of one sweep, composed record by record. */
  lemma Composed(now: Time, hit: bool, present: bool, present2: bool, m: Job, m1: Job, m2: Job, m3: Job, m4: Job)
    requires m1 == Unpaid(now, hit, m) && m2 == Overdue(now, m1) && m3 == Lapsed(now, present2, m2)
      && m4 == Ripened(now, m3)
    requires Active(m2.state) ==> present == present2
    ensures m4 == Swept(now, hit, present, m) && (Active(m2.state) ==> Active(m1.state))
  {
    hide Unpaid, Ripened, Ended, Requeued;
  }

  method SweepAllDelayed(d0: Db, ghost past: Past) returns (d: Db)
    requires Inv(d0, past)
    ensures Inv(d, past) && Kept(d0, d) && Upholds(d0, d) && Undisturbed(d0, d)
    ensures forall id :: id in d.jobs ==> d.jobs[id] == Ripened(d.clock, d0.jobs[id])
  {
    hide Inv, Linked, Answered, Stocked, Undisturbed;
    d := SweepDelayed(d0, Deferred, past);
    ghost var d1 := d;
    d := SweepDelayed(d, Maintenance, past);
    ghost var d2 := d;
    d := SweepDelayed(d, Daily, past);
    ghost var d3 := d;
    d := SweepDelayed(d, Broadcast, past);
    UndisturbedThrough(d0, d1, d2);
    UndisturbedThrough(d0, d2, d3);
    UndisturbedThrough(d0, d3, d);
    forall id | id in d.jobs ensures d.jobs[id] == Ripened(d.clock, d0.jobs[id]) {
      assert id in d1.jobs && id in d2.jobs && id in d3.jobs;
    }
  }

  /** All loops of the sweep on a keyspace whose expired keys are gone. */
  method SweepLoops(d0: Db, ghost past: Past) returns (d: Db, ghost batch: set<Id>, ghost retired: set<Id>)
    requires Inv(d0, past)
    ensures Inv(d, past) && Kept(d0, d) && Upholds(d0, d)
    ensures forall id :: id in d.jobs ==> d.jobs[id] == Swept(d.clock, id in batch, id in d0.payloads, d0.jobs[id])
    ensures FirstOf(Due(d0.payloadExpiry, d0.clock), batch, 256)
    ensures |Due(d0.payloadExpiry, d0.clock)| <= 256 ==>
              forall id :: id in d.jobs && d0.jobs[id].accounted && d0.jobs[id].payloadExpiresAt <= d.clock ==>
                id in batch
    ensures FirstOf(Due(d0.metaExpiry, d0.clock), retired, 256) && Cleaned(d0, d, retired)
  {
    hide Linked, Answered, Stocked, Inv, Unpaid, Overdue, Lapsed, Ripened, Swept, Due, Undisturbed, Retired, FirstOf,
      Cleaned;
    d, batch := SweepPayloads(d0, past);
    ghost var d1 := d;
    d := SweepDeadlines(d, past);
    ghost var d2 := d;
    d := SweepLeases(d, past);
    ghost var d3 := d;
    d := SweepAllDelayed(d, past);
    ghost var d4 := d;
    UndisturbedThrough(d0, d1, d2);
    UndisturbedThrough(d0, d2, d3);
    UndisturbedThrough(d0, d3, d4);
    d, retired := SweepMetadata(d, past);
    Retirement(d0, d4, d, retired);
    forall id | id in d.jobs
      ensures d.jobs[id] == Swept(d.clock, id in batch, id in d0.payloads, d0.jobs[id])
    {
      assert id in d1.jobs && id in d2.jobs && id in d3.jobs && id in d4.jobs;
      OverdueActive(d.clock, d1.jobs[id]);
      Composed(d.clock, id in batch, id in d0.payloads, id in d2.payloads, d0.jobs[id], d1.jobs[id], d2.jobs[id],
        d3.jobs[id], d4.jobs[id]);
    }
  }

  /** What a sweep does to owners and idempotency keys: the retired entries leave, all others stay. */
  ghost predicate Cleaned(d0: Db, d: Db, retired: set<Id>) {
    && d.owners.Keys == d0.owners.Keys - retired && KeysLeft(d0, d, retired) && d.operations == d0.operations
    && Due(d.metaExpiry, d0.clock) == Due(d0.metaExpiry, d0.clock) - retired
    && (forall id :: id !in retired ==> Members(d.identities, id) == Members(d0.identities, id))
    && (forall id :: id in retired ==> id !in d.jobs)
    && SameTexts(d0.payloads, d.payloads) && SameNames(d0.idem, d.idem)
  }

  lemma Retirement(d0: Db, d4: Db, d: Db, retired: set<Id>)
    requires Undisturbed(d0, d4) && Retired(d4, d, retired) && FirstOf(Due(d4.metaExpiry, d4.clock), retired, 256)
    requires forall id :: id in retired ==> id !in d4.jobs
    ensures FirstOf(Due(d0.metaExpiry, d0.clock), retired, 256) && Cleaned(d0, d, retired)
    ensures d.jobs == d4.jobs && d.clock == d4.clock && d.sequence == d4.sequence && d.lanes == d4.lanes
  {
    hide FirstOf, Members;
    assert Due(d4.metaExpiry - retired, d4.clock) == Due(d4.metaExpiry, d4.clock) - retired;
  }

  lemma OverdueActive(now: Time, m: Job)
    ensures Active(Overdue(now, m).state) ==> Active(m.state)
  {
  }

  // ---- what the scanned indexes hold ---------------------------------------------------------

  lemma PayloadView(d: Db, past: Past)
    requires Inv(d, past)
    ensures PayloadExpiryExact(d.payloadExpiry, d.jobs)
  {
    hide ReadyExact, DelayedExact, RunningExact, DeadlineExact, PayloadExpiryExact, PayloadsExact;
    hide OwnersExact, MetaExact, UsersExact, ConflictsExact, RecordsOk, Accounted, PermitExact, Recorded;
  }

  lemma DeadlineView(d: Db, past: Past)
    requires Inv(d, past)
    ensures DeadlineExact(d.deadline, d.jobs) && |Due(d.deadline, d.clock)| <= 256
  {
    ScansComplete(d, past, d.clock, Deferred);
    hide ReadyExact, DelayedExact, RunningExact, DeadlineExact, PayloadExpiryExact, PayloadsExact;
    hide OwnersExact, MetaExact, UsersExact, ConflictsExact, RecordsOk, Accounted, PermitExact, Recorded;
  }

  lemma RunningView(d: Db, past: Past)
    requires Inv(d, past)
    ensures RunningExact(d.running, d.jobs) && |Due(d.running, d.clock)| <= 256
  {
    ScansComplete(d, past, d.clock, Deferred);
    hide ReadyExact, DelayedExact, RunningExact, DeadlineExact, PayloadExpiryExact, PayloadsExact;
    hide OwnersExact, MetaExact, UsersExact, ConflictsExact, RecordsOk, Accounted, PermitExact, Recorded;
  }

  /** The scans of one lane see all of it. */
  ghost predicate LaneLists(d: Db, l: Lane) {
    && |Due(LaneView(d.delayed, l), d.clock)| <= 128 && |LaneView(d.ready, l)| <= 128
    && (forall id :: id in LaneView(d.delayed, l) <==>
      id in d.jobs && d.jobs[id].t.lane == l && d.jobs[id].state == Delayed)
    && (forall id :: id in LaneView(d.delayed, l) ==> LaneView(d.delayed, l)[id] == d.jobs[id].notBefore)
    && (forall id :: id in LaneView(d.ready, l) <==>
      id in d.jobs && d.jobs[id].t.lane == l && d.jobs[id].state == Queued)
    && (forall id :: id in LaneView(d.ready, l) ==> LaneView(d.ready, l)[id] == Score(d.jobs[id]))
  }

  lemma DelayedView(d: Db, past: Past, l: Lane)
    requires Inv(d, past)
    ensures LaneLists(d, l)
  {
    hide Inv, ReadyExact, DelayedExact, LaneView, Due, Score;
    ScansComplete(d, past, d.clock, l);
    LaneIndexes(d, past);
    LaneMembers(d.delayed, d.ready, d.jobs, l);
  }

  lemma LaneIndexes(d: Db, past: Past)
    requires Inv(d, past)
    ensures DelayedExact(d.delayed, d.jobs) && ReadyExact(d.ready, d.jobs)
  {
    hide ReadyExact, DelayedExact, RunningExact, DeadlineExact, PayloadExpiryExact, PayloadsExact;
    hide OwnersExact, MetaExact, UsersExact, ConflictsExact, RecordsOk, Accounted, PermitExact, Recorded;
  }

  lemma MetaGone(db: Db, past: Past, ids: seq<Id>)
    requires Inv(db, past) && forall i :: 0 <= i < |ids| ==> ids[i] in Due(db.metaExpiry, db.clock)
    ensures forall i :: 0 <= i < |ids| ==> ids[i] in db.owners && ids[i] !in db.jobs
  {
    forall i | 0 <= i < |ids| ensures ids[i] in db.owners && ids[i] !in db.jobs {
      var id := ids[i];
      MetaOwned(db, past, id);
    }
  }

  lemma MetaOwned(db: Db, past: Past, id: Id)
    requires Inv(db, past) && id in db.metaExpiry && db.metaExpiry[id] <= db.clock
    ensures id in db.owners && id !in db.jobs
  {
    hide ReadyExact, DelayedExact, RunningExact, DeadlineExact, PayloadExpiryExact, PayloadsExact;
    hide UsersExact, ConflictsExact, Accounted, PermitExact, Recorded;
  }

  // ---- progress ---------------------------------------------------------------------------------

  /** What any call may do to the records: each one evolves or leaves, and newcomers carry
      sequence numbers never used before. */
  ghost predicate Progress(d: Db, d': Db) {
    && d.clock <= d'.clock && d.sequence <= d'.sequence
    && (forall id :: id in d.jobs && id in d'.jobs && d'.jobs[id].t.sequence <= d.sequence ==>
      Evolves(d.jobs[id], d'.jobs[id]))
    && (forall id :: id in d'.jobs && id !in d.jobs ==> d'.jobs[id].t.sequence > d.sequence)
  }

  lemma SweepProgress(d: Db, d': Db, now: Time, batch: set<Id>)
    requires d.clock <= now == d'.clock && d'.sequence == d.sequence && d'.jobs.Keys == Alive(d.jobs, now).Keys
    requires forall id :: id in d'.jobs ==>
      d'.jobs[id] == Swept(now, id in batch, id in ExpireKeys(d, now).payloads, d.jobs[id])
    ensures Progress(d, d') && Fresh(d')
  {
    hide Swept, Evolves, FreshJob;
    forall id | id in d'.jobs ensures id in d.jobs && Evolves(d.jobs[id], d'.jobs[id]) && FreshJob(d'.jobs[id], now) {
      SweptEvolves(now, id in batch, id in ExpireKeys(d, now).payloads, d.jobs[id]);
    }
  }
}
