/** Frames of one call, and the two moves every command is made of: ending a job and starting it. */
module QueueCommands {
  import opened Wrappers
  import opened QueueTypes
  import opened QueueInvariant
  import opened QueueLog
  import opened QueueOps
  import opened QueueSteps
  import opened QueueEvents
  import opened QueueLoops
  import opened QueueIdentity
  import opened QueueAnswers
  import opened QueueStock

  // ---- frames ------------------------------------------------------------------------------

  lemma FreshNext(d: Db, d': Db, id: Id, m: Job)
    requires Fresh(d) && Rewrote(d, d', id, m) && FreshJob(m, d.clock)
    ensures Fresh(d')
  {
    hide FreshJob;
  }

  lemma ProgressNext(d: Db, d': Db, id: Id, m: Job)
    requires Rewrote(d, d', id, m) && id in d.jobs && Evolves(d.jobs[id], m)
    ensures Progress(d, d')
  {
    forall o | o in d.jobs && o in d'.jobs ensures Evolves(d.jobs[o], d'.jobs[o]) {
      if o != id { assert d'.jobs[o] == d.jobs[o]; }
    }
    hide Evolves;
  }

  lemma PromptNext(d: Db, d': Db, id: Id, m: Job)
    requires Rewrote(d, d', id, m) && PromptJob(m, d.clock)
    ensures Prompt(d) ==> Prompt(d')
  {
    hide PromptJob;
  }

  lemma ProgressSelf(d: Db, d': Db)
    requires d'.jobs == d.jobs && d'.clock == d.clock && d'.sequence == d.sequence
    ensures Progress(d, d')
  {
  }

  /** Progress composes: it holds from any state of a run to any later one. */
  lemma ProgressTransitive(a: Db, b: Db, c: Db)
    requires Progress(a, b) && Progress(b, c)
    ensures Progress(a, c)
  {
    forall id | id in a.jobs && id in c.jobs && c.jobs[id].t.sequence <= a.sequence ensures Evolves(a.jobs[id],
      c.jobs[id]) {
      assert id in b.jobs;
      assert Evolves(b.jobs[id], c.jobs[id]);
      assert b.jobs[id].t == c.jobs[id].t;
      assert Evolves(a.jobs[id], b.jobs[id]);
    }
    forall id | id in c.jobs && id !in a.jobs ensures c.jobs[id].t.sequence > a.sequence {
      if id in b.jobs && c.jobs[id].t.sequence <= b.sequence { assert Evolves(b.jobs[id], c.jobs[id]); }
    }
  }

  /** Only idempotency, operation and command keys differ. */
  ghost predicate Aside(d: Db, d': Db) {
    d' == d.(idem := d'.idem, identities := d'.identities, operations := d'.operations, commands := d'.commands)
  }

  /** Idempotency and operation keys are no part of the invariant. */
  lemma SideInv(d: Db, d': Db, past: Past)
    requires Settledown(d, past) && Aside(d, d')
    ensures Settledown(d', past) && Progress(d, d')
  {
    hide Indexed, RecordsOk, LanesOk, CountsExact, LeaksOk, CapsOk, PermitExact, LogShape, JobLogs, TokensOk, FreshJob,
      Progress;
    hide ReadyExact, DelayedExact, RunningExact, DeadlineExact, PayloadExpiryExact, PayloadsExact;
    hide OwnersExact, MetaExact, UsersExact, ConflictsExact;
    ProgressSelf(d, d');
    SideIndexed(d, d');
  }

  lemma SideIndexed(d: Db, d': Db)
    requires Indexed(d) && Aside(d, d')
    ensures Indexed(d')
  {
    hide ReadyExact, DelayedExact, RunningExact, DeadlineExact, PayloadExpiryExact, PayloadsExact;
    hide OwnersExact, MetaExact, UsersExact, ConflictsExact;
  }

  // ---- ending and moving a job by command ---------------------------------------------------

  function EndOne(d: Db, id: Id, to: JobState, why: Reason, safe: bool): Db
    requires id in d.jobs
  {
    Save(Terminal(d.clock, Cursor(d, d.jobs[id]), to, why, safe))
  }

  lemma EndedFresh(now: Time, m: Job, to: JobState, why: Reason, keep: bool)
    requires !Active(to)
    ensures FreshJob(Ended(now, m, to, why, keep), now)
  {
  }

  lemma EndStep(d: Db, id: Id, to: JobState, why: Reason, safe: bool, past: Past)
    requires Settledown(d, past) && id in d.jobs && Active(d.jobs[id].state) && !Active(to)
    requires safe ==> (to == Failed || to == Expired)
    ensures var d' := EndOne(d, id, to, why, safe);
            && Settledown(d', past) && Progress(d, d')
            && Rewrote(d, d', id, Ended(d.clock, d.jobs[id], to, why, Keeps(d.payloads, d.jobs[id], safe)))
            && (d.jobs[id].owner == None ==> d'.permit == d.permit)
            && d'.operations == d.operations
  {
    hide Inv, Fresh, Terminal, Ended, Evolves, Rewrote, FreshJob, RecordOk, PayloadsExact, ConflictsExact, Progress,
      Keeps;
    var m := d.jobs[id];
    Known(d, id, past);
    TerminalInv(d, m, to, why, safe, past);
    TerminalOthers(d.clock, d, m, to, why, safe);
    TerminalRewrote(d, m, to, why, safe);
    EndedFresh(d.clock, m, to, why, Keeps(d.payloads, m, safe));
    TerminalMark(d.clock, Cursor(d, m), to, why, safe);
    FreshNext(d, EndOne(d, id, to, why, safe), id, Ended(d.clock, m, to, why, Keeps(d.payloads, m, safe)));
    ProgressNext(d, EndOne(d, id, to, why, safe), id, Ended(d.clock, m, to, why, Keeps(d.payloads, m, safe)));
  }

  lemma TerminalMark(now: Time, c: Cursor, to: JobState, why: Reason, safe: bool)
    ensures Terminal(now, c, to, why, safe).m == Ended(now, c.m, to, why, Keeps(c.db.payloads, c.m, safe))
  {
    hide EndCounts, FreeConflicts, RefreshIdem, RefreshSet, Members, Retime, Place;
  }

  /** Ending a job that is not running leaves the worker count alone. */
  lemma EndKeepsRunning(d: Db, id: Id, to: JobState, why: Reason, safe: bool, l: Lane)
    requires id in d.jobs && Waiting(d.jobs[id].state) && !Active(to)
      && (Keeps(d.payloads, d.jobs[id], safe) ==> d.jobs[id].accounted)
    ensures Counter(EndOne(d, id, to, why, safe).counts, l, RunningNow) == Counter(d.counts, l, RunningNow)
  {
    EndCountsAt(d.counts, d.clock, d.jobs[id], to, why, Keeps(d.payloads, d.jobs[id], safe), l, RunningNow);
    hide EndCounts, Counter;
  }

  // ---- claim -----------------------------------------------------------------------------------

  function BeginOne(d: Db, id: Id, token: Token): Db
    requires id in d.jobs
  {
    Save(Begin(d.clock, Cursor(d, d.jobs[id]), token))
  }

  ghost function ClaimPast(past: Past, m: Job, token: Token): Past {
    Past(Snoc(past.log, Claimed(m.t.sequence, token, m.t.effectful)), past.tokens + {token}, past.leaked)
  }

  lemma BeginRewrote(d: Db, m: Job, token: Token)
    requires m.t.id in d.jobs && d.jobs[m.t.id] == m
    ensures Rewrote(d, Save(Begin(d.clock, Cursor(d, m), token)), m.t.id, Begun(d.clock, m, token))
  {
    hide StateCounts, Bump, Budget, BudgetEnd, Rebudgeted;
  }

  lemma BeginStep(d: Db, id: Id, token: Token, past: Past)
    requires Settledown(d, past) && id in d.jobs && d.jobs[id].state == Queued
    requires d.jobs[id].attempts < d.jobs[id].t.maxAttempts && token !in past.tokens
    requires Counter(d.counts, d.jobs[id].t.lane, RunningNow) < Workers(d.jobs[id].t.lane)
    requires d.jobs[id].t.imageWork ==> d.permit == None
    ensures var d' := BeginOne(d, id, token);
            && Settledown(d', ClaimPast(past, d.jobs[id], token)) && Progress(d, d')
            && Rewrote(d, d', id, Begun(d.clock, d.jobs[id], token))
  {
    hide Inv, Fresh, Begin, Begun, Evolves, Rewrote, FreshJob, RecordOk, PayloadsExact, ConflictsExact, Progress;
    var m := d.jobs[id];
    Known(d, id, past);
    FreshDeadline(d, id);
    BeginInv(d, m, token, past);
    BegunOk(m, d.clock, token);
    BeginRewrote(d, m, token);
    FreshNext(d, BeginOne(d, id, token), id, Begun(d.clock, m, token));
    ProgressNext(d, BeginOne(d, id, token), id, Begun(d.clock, m, token));
  }

  lemma FreshDeadline(d: Db, id: Id)
    requires Fresh(d) && id in d.jobs
    ensures Active(d.jobs[id].state) ==> d.jobs[id].deadlineAt > d.clock
    ensures Held(d.jobs[id].state) ==> d.jobs[id].heartbeatAt + LEASE > d.clock
  {
  }

  lemma EndNames(d: Db, id: Id, to: JobState, why: Reason, safe: bool, past: Past)
    requires id in d.jobs && Active(d.jobs[id].state) && !Active(to) && Settledown(d, past)
    ensures Upholds(d, EndOne(d, id, to, why, safe)) && Undisturbed(d, EndOne(d, id, to, why, safe))
  {
    hide Linked, Answered, Stocked, Undisturbed, Inv, Fresh, Terminal, RecordOk, PayloadsExact, ConflictsExact;
    Known(d, id, past);
    Unswept(d, id, past);
    UndisturbedEnd(d, d.jobs[id], to, why, safe);
    if Linked(d) { LinkedTerminal(d, d.jobs[id], to, why, safe); }
    if Answered(d) { AnsweredTerminal(d, d.jobs[id], to, why, safe); }
    if Stocked(d) { StockedTerminal(d, d.jobs[id], to, why, safe); }
  }

  lemma BeginNames(d: Db, id: Id, token: Token, past: Past)
    requires id in d.jobs && Active(d.jobs[id].state) && id in d.payloads && Settledown(d, past)
    ensures Upholds(d, BeginOne(d, id, token)) && Undisturbed(d, BeginOne(d, id, token))
  {
    hide Linked, Answered, Stocked, Undisturbed, Inv, Fresh, Begin, Beat, RecordOk, PayloadsExact, ConflictsExact;
    Known(d, id, past);
    Unswept(d, id, past);
    UndisturbedBegin(d, d.jobs[id], token);
    if Linked(d) { LinkedBegin(d, d.jobs[id], token); }
    if Answered(d) { AnsweredBegin(d, d.jobs[id], token); }
    if Stocked(d) { StockedBegin(d, d.jobs[id], token); }
  }
}
