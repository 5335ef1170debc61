/** Every edit of one record keeps the whole invariant, and what it may do to the record. */
module QueueSteps {
  import opened Wrappers
  import opened QueueTypes
  import opened QueueInvariant
  import opened QueueLog
  import opened QueueOps

  /** What any number of commands may do to one job: nothing but its progress changes, a
      terminal state is final, and every change of state raises the revision. */
  ghost predicate Evolves(a: Job, b: Job) {
    && b.t == a.t && a.attempts <= b.attempts && a.revision <= b.revision && b.retryGrants <= a.retryGrants
    && (b.state != a.state ==> a.revision < b.revision)
    && (!Active(a.state) ==>
          b.state == a.state && b.attempts == a.attempts && b.revision == a.revision
            && (b.retryEligible ==> a.retryEligible))
  }

  /** An edit that starts nothing and settles nothing. */
  ghost predicate Quiet(a: Job, b: Job) {
    && b.t == a.t && b.attempts == a.attempts && b.retryGrants <= a.retryGrants && b.finishToken == a.finishToken
    && (b.owner == None || b.owner == a.owner)
    && (Held(b.state) ==> Held(a.state) && b.owner == a.owner)
    && (Waiting(b.state) && b.t.effectful && b.attempts > 0 ==> Waiting(a.state))
  }

  ghost predicate Shrinks(a: Job, b: Job) {
    b.t == a.t && a.t.payloadBytes >= 0 && (Active(b.state) ==> Active(a.state)) && (Held(b.state) ==> Held(a.state))
      && (b.accounted ==> a.accounted)
  }

  ghost predicate PermitFollows(d: Db, d': Db, m: Job)
    requires m.t.id in d.jobs
  {
    && (d'.permit == d.permit || d.permit == None || d.jobs[m.t.id].owner == Some(d.permit.value.token))
    && (HoldsImage(m, d.clock) ==> d'.permit == Some(Permit(m.owner.value, m.heartbeatAt + LEASE)))
    && (d'.permit.Some? ==>
          || (Backs(d'.permit.value, m) && (d'.permit == d.permit || d'.permit.value.expiresAt > d.clock))
          || (d'.permit == d.permit && !Backs(d'.permit.value, d.jobs[m.t.id])))
  }

  lemma CapsShrink(d: Db, counts: Counts, m: Job)
    requires CapsOk(d.counts) && m.t.id in d.jobs && CountsFollow(d, counts, m) && Shrinks(d.jobs[m.t.id], m)
    ensures CapsOk(counts)
  {
    forall l: Lane
      ensures Counter(counts, l, Nonterminal) <= JobCap(l)
      ensures Counter(counts, l, RunningNow) <= Workers(l)
      ensures Counter(counts, l, PayloadBytes) <= BYTE_CAP
    {
      var a := d.jobs[m.t.id];
      assert Shift(a, m, l, Nonterminal) <= 0 && Shift(a, m, l, RunningNow) <= 0 && Shift(a, m, l, PayloadBytes) <= 0;
      hide Counter, Shift;
    }
  }

  lemma PermitNext(d: Db, d': Db, m: Job, tokens: set<Token>)
    requires PermitExact(d.permit, d.jobs, d.clock) && TokensOk(tokens, d.jobs) && m.t.id in d.jobs
    requires PermitFollows(d, d', m)
    ensures PermitExact(d'.permit, d.jobs[m.t.id := m], d.clock)
  {
    var jobs := d.jobs[m.t.id := m];
    forall id | id in jobs && HoldsImage(jobs[id], d.clock)
      ensures d'.permit == Some(Permit(jobs[id].owner.value, jobs[id].heartbeatAt + LEASE))
    {
      if id != m.t.id {
        assert d.jobs[id] == jobs[id];
        assert d.jobs[m.t.id].owner != d.jobs[id].owner;
      }
    }
    if d'.permit.Some? {
      if Backs(d'.permit.value, m) {
        assert m.t.id in jobs && Backs(d'.permit.value, jobs[m.t.id]);
      } else {
        var id :| id in d.jobs && Backs(d'.permit.value, d.jobs[id]);
        assert id in jobs && Backs(d'.permit.value, jobs[id]);
      }
    }
  }

  lemma QuietLog(log: Log, a: Job, b: Job)
    requires JobLog(log, a) && Quiet(a, b)
    ensures JobLog(log, b)
  {
  }

  lemma QuietRecorded(log: Log, tokens: set<Token>, jobs: map<Id, Job>, m: Job)
    requires JobLogs(log, jobs) && TokensOk(tokens, jobs) && m.t.id in jobs && Quiet(jobs[m.t.id], m)
    ensures JobLogs(log, jobs[m.t.id := m]) && TokensOk(tokens, jobs[m.t.id := m])
  {
    QuietLog(log, jobs[m.t.id], m);
    hide JobLog, Quiet;
    var jobs' := jobs[m.t.id := m];
    assert m.owner == None || m.owner == jobs[m.t.id].owner;
    forall id | id in jobs' ensures JobLog(log, jobs'[id]) {
      if id != m.t.id { assert jobs'[id] == jobs[id]; }
    }
  }

  lemma RecordsNext(jobs: map<Id, Job>, m: Job, clock: Time, sequence: nat)
    requires RecordsOk(jobs, clock, sequence) && m.t.id in jobs && jobs[m.t.id].t == m.t && RecordOk(m, clock)
    ensures RecordsOk(jobs[m.t.id := m], clock, sequence)
  {
    hide RecordOk;
  }

  ghost predicate Alike(d: Db, d': Db) {
    d'.clock == d.clock && d'.sequence == d.sequence && d'.lanes == d.lanes
  }

  /** The frame of a quiet edit: what remains to be shown once indexes and counters agree. */
  lemma InvNext(d: Db, d': Db, m: Job, past: Past)
    requires Inv(d, past) && m.t.id in d.jobs && d'.jobs == d.jobs[m.t.id := m] && Alike(d, d')
    requires Indexed(d') && CountsExact(d'.counts, past.leaked, d'.jobs, d'.owners) && CapsOk(d'.counts)
    requires RecordOk(m, d.clock) && Quiet(d.jobs[m.t.id], m) && d.jobs[m.t.id].t == m.t && PermitFollows(d, d', m)
    ensures Inv(d', past)
  {
    hide Indexed, CountsExact, CapsOk, RecordOk, RecordsOk, PermitExact, TokensOk, JobLogs, LogShape, Quiet,
      PermitFollows;
    RecordsNext(d.jobs, m, d.clock, d.sequence);
    PermitNext(d, d', m, past.tokens);
    QuietRecorded(past.log, past.tokens, d.jobs, m);
  }

  /** A quiet edit that re-places its indexes and moves its counters keeps the invariant. */
  lemma QuietEdit(d: Db, d': Db, m: Job, past: Past)
    requires Inv(d, past) && m.t.id in d.jobs && Follows(d, d', m) && CountsFollow(d, d'.counts, m) && Alike(d, d')
    requires RecordOk(m, d.clock) && Quiet(d.jobs[m.t.id], m) && Shrinks(d.jobs[m.t.id], m) && PermitFollows(d, d', m)
    ensures Inv(d', past)
  {
    hide RecordOk, RecordsOk, PermitExact, TokensOk, JobLogs, LogShape, Quiet, PermitFollows, CapsOk, CountsFollow,
      CountsExact, Shrinks;
    hide ReadyExact, DelayedExact, RunningExact, DeadlineExact, PayloadExpiryExact, PayloadsExact;
    hide OwnersExact, MetaExact, UsersExact, ConflictsExact;
    hide ReadyFollows, DelayedFollows, RunningFollows, DeadlineFollows, PayloadExpiryFollows, PayloadsFollow;
    hide OwnersFollow, MetaFollows, UsersFollow, ConflictsFollow;
    Edited(d, d', m, past.leaked);
    CapsShrink(d, d'.counts, m);
    InvNext(d, d', m, past);
  }

  // ---- records -------------------------------------------------------------------

  lemma EndedOk(m: Job, clock: Time, to: JobState, why: Reason, keep: bool)
    requires RecordOk(m, clock) && Active(m.state) && !Active(to)
    requires keep ==> (to == Failed || to == Expired)
    ensures var m' := Ended(clock, m, to, why, keep);
            RecordOk(m', clock) && Quiet(m, m') && Shrinks(m, m') && Evolves(m, m') && !HoldsImage(m', clock)
  {
  }

  lemma MovedOk(m: Job, clock: Time)
    requires RecordOk(m, clock)
    ensures Held(m.state) && !m.t.effectful && m.attempts < m.t.maxAttempts ==>
              var m' := Requeued(m); RecordOk(m', clock) && Quiet(m, m') && Shrinks(m, m') && Evolves(m, m')
    ensures m.state == Delayed ==>
              var m' := Promoted(m); RecordOk(m', clock) && Quiet(m, m') && Shrinks(m, m') && Evolves(m, m')
    ensures Held(m.state) ==>
              var m' := Asked(m); RecordOk(m', clock) && Quiet(m, m') && Shrinks(m, m') && Evolves(m, m')
    ensures Held(m.state) ==>
              var m' := Beaten(clock, m); RecordOk(m', clock) && Quiet(m, m') && Shrinks(m, m') && Evolves(m, m')
    ensures !Active(m.state) ==>
              var m' := Dropped(m); RecordOk(m', clock) && Quiet(m, m') && Shrinks(m, m') && Evolves(m, m')
  {
  }

  /** What the invariant says about one stored record. */
  lemma Known(db: Db, id: Id, past: Past)
    requires Inv(db, past) && id in db.jobs
    ensures db.jobs[id].t.id == id && RecordOk(db.jobs[id], db.clock)
    ensures PayloadsExact(db.payloads, db.jobs) && ConflictsExact(db.conflicts, db.jobs)
    ensures id in db.payloads ==> db.jobs[id].accounted && |db.payloads[id].text| == db.jobs[id].t.payloadBytes
    ensures HoldsImage(db.jobs[id], db.clock) ==>
              db.permit == Some(Permit(db.jobs[id].owner.value, db.jobs[id].heartbeatAt + LEASE))
  {
    hide RecordOk, ConflictsExact, LanesOk, Accounted, Recorded;
    hide ReadyExact, DelayedExact, RunningExact, DeadlineExact, PayloadExpiryExact, OwnersExact, MetaExact, UsersExact;
  }

  // ---- keyspaces -----------------------------------------------------------------

  lemma TerminalInv(db: Db, m: Job, to: JobState, why: Reason, safe: bool, past: Past)
    requires Inv(db, past) && m.t.id in db.jobs && db.jobs[m.t.id] == m && Active(m.state) && !Active(to)
    requires safe ==> (to == Failed || to == Expired)
    ensures Inv(Save(Terminal(db.clock, Cursor(db, m), to, why, safe)), past)
    ensures Evolves(m, Terminal(db.clock, Cursor(db, m), to, why, safe).m)
  {
    var c' := Terminal(db.clock, Cursor(db, m), to, why, safe);
    var keep := Keeps(db.payloads, m, safe);
    hide Inv, PayloadsExact, ConflictsExact, RecordOk, Quiet, Shrinks, Evolves;
    Known(db, m.t.id, past);
    EndedOk(m, db.clock, to, why, keep);
    TerminalFollows(db.clock, db, m, to, why, safe);
    TerminalCountsFollow(db.clock, db, m, to, why, safe);
    hide Follows, CountsFollow, Inv, RecordOk, Quiet, Shrinks, Evolves, EndCounts, FreeConflicts, RefreshIdem,
      RefreshSet, Retime, Members;
    assert PermitFollows(db, Save(c'), c'.m);
    hide PermitFollows;
    QuietEdit(db, Save(c'), c'.m, past);
  }

  lemma RequeueInv(db: Db, m: Job, past: Past)
    requires Inv(db, past) && m.t.id in db.jobs && db.jobs[m.t.id] == m && Held(m.state) && !m.t.effectful
    requires m.attempts < m.t.maxAttempts
    ensures Inv(Save(Requeue(Cursor(db, m))), past)
  {
    var c' := Requeue(Cursor(db, m));
    hide Inv, PayloadsExact, ConflictsExact, RecordOk, Quiet, Shrinks, Evolves;
    Known(db, m.t.id, past);
    MovedOk(m, db.clock);
    RequeueFollows(db, m);
    hide Follows, CountsFollow, Inv, RecordOk, Quiet, Shrinks, Evolves, StateCounts, RunCounts;
    QuietEdit(db, Save(c'), c'.m, past);
  }

  lemma PromoteInv(db: Db, m: Job, past: Past)
    requires Inv(db, past) && m.t.id in db.jobs && db.jobs[m.t.id] == m && m.state == Delayed
    ensures Inv(Save(Promote(Cursor(db, m))), past)
  {
    var c' := Promote(Cursor(db, m));
    hide Inv, PayloadsExact, ConflictsExact, RecordOk, Quiet, Shrinks, Evolves;
    Known(db, m.t.id, past);
    MovedOk(m, db.clock);
    PromoteFollows(db, m);
    hide Follows, CountsFollow, Inv, RecordOk, Quiet, Shrinks, Evolves, StateCounts;
    QuietEdit(db, Save(c'), c'.m, past);
  }

  lemma AskCancelInv(db: Db, m: Job, past: Past)
    requires Inv(db, past) && m.t.id in db.jobs && db.jobs[m.t.id] == m && Held(m.state)
    ensures Inv(Save(AskCancel(Cursor(db, m))), past)
  {
    var c' := AskCancel(Cursor(db, m));
    hide Inv, PayloadsExact, ConflictsExact, RecordOk, Quiet, Shrinks, Evolves;
    Known(db, m.t.id, past);
    MovedOk(m, db.clock);
    AskCancelFollows(db, m);
    hide Follows, CountsFollow, Inv, RecordOk, Quiet, Shrinks, Evolves, StateCounts;
    assert PermitFollows(db, Save(c'), c'.m);
    hide PermitFollows;
    QuietEdit(db, Save(c'), c'.m, past);
  }

  /** A heartbeat from the owner of a lease that has not run out. */
  lemma BeatInv(db: Db, m: Job, token: Token, past: Past)
    requires Inv(db, past) && m.t.id in db.jobs && db.jobs[m.t.id] == m && Held(m.state)
    requires m.owner == Some(token) && m.heartbeatAt + LEASE > db.clock
    ensures Inv(Save(Beat(db.clock, Cursor(db, m), token)), past)
  {
    var c' := Beat(db.clock, Cursor(db, m), token);
    hide Inv, PayloadsExact, ConflictsExact, RecordOk, Quiet, Shrinks, Evolves;
    Known(db, m.t.id, past);
    MovedOk(m, db.clock);
    BeatFollows(db.clock, db, m, token);
    hide Follows, CountsFollow, Inv, RecordOk, Quiet, Shrinks, Evolves;
    assert PermitFollows(db, Save(c'), c'.m);
    hide PermitFollows;
    QuietEdit(db, Save(c'), c'.m, past);
  }

  lemma DropInv(db: Db, m: Job, past: Past)
    requires Inv(db, past) && m.t.id in db.jobs && db.jobs[m.t.id] == m && !Active(m.state)
    ensures Inv(Save(DropPayload(Cursor(db, m))), past)
  {
    var c' := DropPayload(Cursor(db, m));
    hide Inv, PayloadsExact, ConflictsExact, RecordOk, Quiet, Shrinks, Evolves;
    Known(db, m.t.id, past);
    MovedOk(m, db.clock);
    DropPayloadFollows(db, m);
    hide Follows, CountsFollow, Inv, RecordOk, Quiet, Shrinks, Evolves, ByteCounts;
    QuietEdit(db, Save(c'), c'.m, past);
  }

  /** The payload sweep ends an active job with its payload already dropped. */
  function Evict(now: Time, db: Db, m: Job, to: JobState, why: Reason): Db {
    var d := Save(DropPayload(Cursor(db, m)));
    Save(Terminal(now, Cursor(d, Dropped(m)), to, why, false))
  }

  lemma EvictedTwice(db: Db, m: Job, to: JobState, why: Reason)
    requires m.t.id in db.jobs && db.jobs[m.t.id] == m
    ensures Evict(db.clock, db, m, to, why).jobs == db.jobs[m.t.id := Ended(db.clock, m, to, why, false)]
    ensures Alike(db, Evict(db.clock, db, m, to, why))
    ensures Evict(db.clock, db, m, to, why).permit == ReleasePermit(db.permit, m)
  {
    var d := Save(DropPayload(Cursor(db, m)));
    var m' := Ended(db.clock, m, to, why, false);
    assert Ended(db.clock, Dropped(m), to, why, false) == m';
    assert d.jobs[m.t.id := m'] == db.jobs[m.t.id := m'];
    hide ByteCounts, EndCounts, FreeConflicts, RefreshIdem, RefreshSet, Retime;
  }

  lemma EvictIndexes(db: Db, m: Job, to: JobState, why: Reason, leaked: Counts)
    requires Indexed(db) && CountsExact(db.counts, leaked, db.jobs, db.owners) && CapsOk(db.counts)
    requires m.t.id in db.jobs && db.jobs[m.t.id] == m && Active(m.state) && !Active(to) && m.t.payloadBytes >= 0
    ensures var d' := Evict(db.clock, db, m, to, why);
            Indexed(d') && CountsExact(d'.counts, leaked, d'.jobs, d'.owners) && CapsOk(d'.counts)
  {
    var c := DropPayload(Cursor(db, m));
    var d := Save(c);
    assert c.m == Dropped(m) && d.jobs[m.t.id] == c.m;
    assert Shrinks(m, c.m);
    DropPayloadFollows(db, m);
    hide ReadyExact, DelayedExact, RunningExact, DeadlineExact, PayloadExpiryExact, PayloadsExact;
    hide OwnersExact, MetaExact, UsersExact, ConflictsExact, CountsExact, CapsOk, Follows, CountsFollow, Shrinks,
      DropPayload;
    Edited(db, d, c.m, leaked);
    CapsShrink(db, d.counts, c.m);
    EndIndexes(d, c.m, db.clock, to, why, leaked);
  }

  lemma EndIndexes(d: Db, m: Job, now: Time, to: JobState, why: Reason, leaked: Counts)
    requires Indexed(d) && CountsExact(d.counts, leaked, d.jobs, d.owners) && CapsOk(d.counts)
    requires m.t.id in d.jobs && d.jobs[m.t.id] == m && Active(m.state) && !Active(to) && m.t.payloadBytes >= 0
    ensures var d' := Save(Terminal(now, Cursor(d, m), to, why, false));
            Indexed(d') && CountsExact(d'.counts, leaked, d'.jobs, d'.owners) && CapsOk(d'.counts)
  {
    var c' := Terminal(now, Cursor(d, m), to, why, false);
    assert c'.m == Ended(now, m, to, why, false) && Shrinks(m, c'.m);
    TerminalFollows(now, d, m, to, why, false);
    TerminalCountsFollow(now, d, m, to, why, false);
    hide Indexed, CountsExact, CapsOk, Follows, CountsFollow, Shrinks, Terminal;
    Edited(d, Save(c'), c'.m, leaked);
    CapsShrink(d, c'.db.counts, c'.m);
  }

  lemma EvictInv(db: Db, m: Job, to: JobState, why: Reason, past: Past)
    requires Inv(db, past) && m.t.id in db.jobs && db.jobs[m.t.id] == m && Active(m.state) && !Active(to)
    ensures Inv(Evict(db.clock, db, m, to, why), past)
  {
    var d' := Evict(db.clock, db, m, to, why);
    var m' := Ended(db.clock, m, to, why, false);
    assert Indexed(db) && CountsExact(db.counts, past.leaked, db.jobs, db.owners) && CapsOk(db.counts);
    hide Inv, Indexed, PayloadsExact, ConflictsExact, Quiet, Shrinks, Evolves, CountsExact, CapsOk;
    Known(db, m.t.id, past);
    EndedOk(m, db.clock, to, why, false);
    assert m.t.payloadBytes >= 0;
    EvictIndexes(db, m, to, why, past.leaked);
    EvictedTwice(db, m, to, why);
    hide Indexed, CountsExact, CapsOk, Inv, RecordOk, Quiet, Shrinks, Evolves, Evict;
    hide PermitFollows;
    ReleaseFollows(db, d', m, m');
    InvNext(db, d', m', past);
  }

  lemma ReleaseFollows(d: Db, d': Db, m: Job, m': Job)
    requires m'.t == m.t && m.t.id in d.jobs && d.jobs[m.t.id] == m && !Held(m'.state)
    requires d'.permit == ReleasePermit(d.permit, m)
    ensures PermitFollows(d, d', m')
  {
  }
}
