/** Commands fenced by an owner token or a revision: heartbeat, finish and cancel. */
module QueueOwner {
  import opened Wrappers
  import opened QueueTypes
  import opened QueueInvariant
  import opened QueueLog
  import opened QueueOps
  import opened QueueSteps
  import opened QueueEvents
  import opened QueueLoops
  import opened QueueIdentity
  import opened QueueAnswers
  import opened QueueStock
  import opened QueueCommands

  /** The fence of heartbeat and finish. */
  predicate Owns(d: Db, id: Id, token: Token, revision: int) {
    id in d.jobs && Held(d.jobs[id].state) && d.jobs[id].owner == Some(token) && d.jobs[id].revision == revision
  }

  function BeatOne(d: Db, id: Id, token: Token): Db
    requires id in d.jobs
  {
    Save(Beat(d.clock, Cursor(d, d.jobs[id]), token))
  }

  lemma BeatenOk(m: Job, clock: Time)
    requires FreshJob(m, clock) && Held(m.state)
    ensures FreshJob(Beaten(clock, m), clock) && Evolves(m, Beaten(clock, m))
  {
  }

  lemma BeatStep(d: Db, id: Id, token: Token, revision: int, past: Past)
    requires Owns(d, id, token, revision)
    requires Settledown(d, past)
    ensures var d' := BeatOne(d, id, token);
            Settledown(d', past) && Progress(d, d') && Rewrote(d, d', id, Beaten(d.clock, d.jobs[id]))
  {
    hide Inv, Fresh, Evolves, Progress, RecordOk, PayloadsExact, ConflictsExact;
    var m := d.jobs[id];
    Known(d, id, past);
    FreshDeadline(d, id);
    FreshOf(d, id);
    BeatInv(d, m, token, past);
    BeatenOk(m, d.clock);
    hide FreshJob;
    assert Rewrote(d, BeatOne(d, id, token), id, Beaten(d.clock, m));
    FreshNext(d, BeatOne(d, id, token), id, Beaten(d.clock, m));
    ProgressNext(d, BeatOne(d, id, token), id, Beaten(d.clock, m));
  }

  lemma FreshOf(d: Db, id: Id)
    requires Fresh(d) && id in d.jobs
    ensures FreshJob(d.jobs[id], d.clock)
  {
  }

  // ---- finish ------------------------------------------------------------------------------

  datatype Plan = End(to: JobState, why: Reason, safe: bool) | Later(why: Reason)

  function Code(reason: Option<string>): Reason { if reason.Some? then Reported(reason.value) else NoReason }

  /** The branches of `finish`, in the script's order. */
  function FinishPlan(now: Time, m: Job, outcome: Outcome, reason: Option<string>, delay: Time): Plan {
    if outcome == Ambiguous then End(UnknownDelivery, Code(reason), false)
    else if m.state == CancelRequested then End(Cancelled, CancelAsked, false)
    else if outcome == RetryableFailure then
      if m.attempts >= m.t.maxAttempts then End(Failed, if reason.Some? then Reported(reason.value)
        else AttemptsExhausted, true)
      else if now + delay >= m.t.queueDeadlineAt then End(Expired, RetryAfterDeadline, true)
      else Later(Code(reason))
    else End(if outcome == Success then Succeeded else Failed, Code(reason), false)
  }

  /** The record `finish` leaves behind. */
  function FinishedJob(d: Db, m: Job, token: Token, outcome: Outcome, reason: Option<string>, delay: Time): Job {
    match FinishPlan(d.clock, m, outcome, reason, delay)
    case End(to, why, safe) => Stamped(Ended(d.clock, m, to, why, Keeps(d.payloads, m, safe)), token)
    case Later(why) => Stamped(Postponed(d.clock, m, delay, why), token)
  }

  function FinishOne(d: Db, id: Id, token: Token, outcome: Outcome, reason: Option<string>, delay: Time): Db
    requires id in d.jobs
  {
    var m := d.jobs[id];
    match FinishPlan(d.clock, m, outcome, reason, delay)
    case End(to, why, safe) => Finished(Terminal(d.clock, Cursor(d, m), to, why, safe), token)
    case Later(why) => Finished(Postpone(d.clock, Cursor(d, m), delay, why), token)
  }

  ghost function FinishPast(past: Past, m: Job, token: Token, outcome: Outcome): Past {
    past.(log := Snoc(past.log, Settled(m.t.sequence, token, outcome)))
  }

  lemma FinishRewrote(d: Db, m: Job, c: Cursor, token: Token)
    requires c.db.jobs == d.jobs && Alike(d, c.db) && c.m.t == m.t && m.t.id in d.jobs
    requires forall o :: o != m.t.id ==> (o in c.db.payloads <==> o in d.payloads)
    ensures Rewrote(d, Finished(c, token), m.t.id, Stamped(c.m, token))
  {
    assert d.jobs[m.t.id := c.m][m.t.id := Stamped(c.m, token)] == d.jobs[m.t.id := Stamped(c.m, token)];
  }

  lemma TerminalFrame(d: Db, m: Job, to: JobState, why: Reason, safe: bool)
    ensures var c := Terminal(d.clock, Cursor(d, m), to, why, safe);
            && c.db.jobs == d.jobs && Alike(d, c.db) && c.m == Ended(d.clock, m, to, why, Keeps(d.payloads, m, safe))
              && c.m.t == m.t
            && (forall o :: o != m.t.id ==> (o in c.db.payloads <==> o in d.payloads))
  {
    hide EndCounts, FreeConflicts, RefreshIdem, RefreshSet, Members;
  }

  lemma PostponeFrame(d: Db, m: Job, delay: Time, why: Reason)
    ensures var c := Postpone(d.clock, Cursor(d, m), delay, why);
            && c.db.jobs == d.jobs && Alike(d, c.db) && c.m == Postponed(d.clock, m, delay, why) && c.m.t == m.t
            && (forall o :: o != m.t.id ==> (o in c.db.payloads <==> o in d.payloads))
  {
    hide StateCounts, RunCounts, ReleasePermit;
  }

  lemma FinishedFresh(d: Db, m: Job, token: Token, outcome: Outcome, reason: Option<string>, delay: Time)
    requires Held(m.state)
    ensures FreshJob(FinishedJob(d, m, token, outcome, reason, delay), d.clock) ||
            (FinishPlan(d.clock, m, outcome, reason, delay).Later? && delay < 0)
    ensures FinishPlan(d.clock, m, outcome, reason, delay).End? ==>
              !Active(FinishPlan(d.clock, m, outcome, reason, delay).to)
              && (FinishPlan(d.clock, m, outcome, reason, delay).safe ==>
                    (FinishPlan(d.clock, m, outcome, reason, delay).to == Failed
                      || FinishPlan(d.clock, m, outcome, reason, delay).to == Expired))
    ensures FinishPlan(d.clock, m, outcome, reason, delay).Later? ==>
      outcome == RetryableFailure && d.clock + delay < m.t.queueDeadlineAt && m.attempts < m.t.maxAttempts
  {
  }

  /** A fenced finish settles exactly this start, once, and writes it to the history. */
  lemma FinishStep(d: Db, id: Id, token: Token, revision: int, outcome: Outcome, reason: Option<string>, delay: Time,
      past: Past)
    requires Owns(d, id, token, revision) && delay >= 0
    requires Settledown(d, past)
    ensures var d' := FinishOne(d, id, token, outcome, reason, delay);
            && Settledown(d', FinishPast(past, d.jobs[id], token, outcome)) && Progress(d, d')
            && Rewrote(d, d', id, FinishedJob(d, d.jobs[id], token, outcome, reason, delay))
  {
    hide Inv, Fresh, Evolves, Progress, RecordOk, PayloadsExact, ConflictsExact, Terminal, Postpone, Finished,
      FreshJob, FinishPlan, Ended, Postponed, Rewrote, Keeps;
    var m := d.jobs[id];
    var d' := FinishOne(d, id, token, outcome, reason, delay);
    Known(d, id, past);
    FinishedFresh(d, m, token, outcome, reason, delay);
    match FinishPlan(d.clock, m, outcome, reason, delay)
    case End(to, why, safe) =>
      FinishTerminalInv(d, m, token, to, why, safe, outcome, past);
      TerminalFrame(d, m, to, why, safe);
      FinishRewrote(d, m, Terminal(d.clock, Cursor(d, m), to, why, safe), token);
      FreshNext(d, d', id, FinishedJob(d, m, token, outcome, reason, delay));
      ProgressNext(d, d', id, FinishedJob(d, m, token, outcome, reason, delay));
    case Later(why) =>
      FinishPostponeInv(d, m, token, delay, why, past);
      PostponeFrame(d, m, delay, why);
      FinishRewrote(d, m, Postpone(d.clock, Cursor(d, m), delay, why), token);
      FreshNext(d, d', id, FinishedJob(d, m, token, outcome, reason, delay));
      ProgressNext(d, d', id, FinishedJob(d, m, token, outcome, reason, delay));
  }

  // ---- cancel --------------------------------------------------------------------------------

  function AskOne(d: Db, id: Id): Db
    requires id in d.jobs
  {
    Save(AskCancel(Cursor(d, d.jobs[id])))
  }

  lemma AskedOk(m: Job, clock: Time)
    requires FreshJob(m, clock) && Held(m.state)
    ensures FreshJob(Asked(m), clock) && Evolves(m, Asked(m))
  {
  }

  lemma AskStep(d: Db, id: Id, past: Past)
    requires id in d.jobs && Held(d.jobs[id].state)
    requires Settledown(d, past)
    ensures var d' := AskOne(d, id); Settledown(d', past) && Progress(d, d') && Rewrote(d, d', id, Asked(d.jobs[id]))
  {
    hide Inv, Fresh, Evolves, Progress, RecordOk, PayloadsExact, ConflictsExact, StateCounts, FreshJob;
    var m := d.jobs[id];
    Known(d, id, past);
    FreshOf(d, id);
    AskCancelInv(d, m, past);
    AskedOk(m, d.clock);
    assert Rewrote(d, AskOne(d, id), id, Asked(m));
    FreshNext(d, AskOne(d, id), id, Asked(m));
    ProgressNext(d, AskOne(d, id), id, Asked(m));
  }

  /** Heartbeat, finish and cancel leave the identities in order. */
  lemma OwnerNames(d: Db, id: Id, token: Token, outcome: Outcome, reason: Option<string>, delay: Time, past: Past)
    requires id in d.jobs && Held(d.jobs[id].state) && delay >= 0 && Settledown(d, past)
    ensures Upholds(d, BeatOne(d, id, token)) && Upholds(d, AskOne(d, id))
      && Upholds(d, FinishOne(d, id, token, outcome, reason, delay))
    ensures Undisturbed(d, FinishOne(d, id, token, outcome, reason, delay))
  {
    hide Linked, Answered, Stocked, Undisturbed, Inv, Fresh, Beat, Begin, AskCancel, Requeue, Promote, DropPayload,
      Terminal, Postpone,
      FinishPlan, Finished, RecordOk, PayloadsExact, ConflictsExact;
    var m := d.jobs[id];
    Known(d, id, past);
    if Linked(d) { LinkedBegin(d, m, token); LinkedRequeue(d, m); }
    if Answered(d) { AnsweredBegin(d, m, token); AnsweredMove(d, m); }
    if Stocked(d) { StockedBeat(d, m, token); StockedRequeue(d, m); }
    FreshDeadline(d, id);
    Unswept(d, id, past);
    FinishNames(d, m, token, outcome, reason, delay);
  }

  lemma FinishNames(d: Db, m: Job, token: Token, outcome: Outcome, reason: Option<string>, delay: Time)
    requires m.t.id in d.jobs && d.jobs[m.t.id] == m && Held(m.state) && m.deadlineAt > d.clock && delay >= 0
    requires m.t.id in d.owners && m.t.id !in d.metaExpiry
    ensures Upholds(d, FinishOne(d, m.t.id, token, outcome, reason, delay))
    ensures Undisturbed(d, FinishOne(d, m.t.id, token, outcome, reason, delay))
  {
    hide Linked, Answered, Stocked, Undisturbed, Terminal, Postpone, FinishPlan, Finished;
    FinishedFresh(d, m, token, outcome, reason, delay);
    match FinishPlan(d.clock, m, outcome, reason, delay)
    case End(to, why, safe) =>
      var c := Terminal(d.clock, Cursor(d, m), to, why, safe);
      UndisturbedEnd(d, m, to, why, safe);
      UndisturbedFinished(d, c, token);
      if Linked(d) { LinkedTerminal(d, m, to, why, safe); LinkedFinished(c, token); }
      if Answered(d) { AnsweredTerminal(d, m, to, why, safe); AnsweredFinished(c, token); }
      if Stocked(d) { StockedTerminal(d, m, to, why, safe); StockedFinished(c, token); }
    case Later(why) =>
      var c := Postpone(d.clock, Cursor(d, m), delay, why);
      UndisturbedPostpone(d, m, delay, why);
      UndisturbedFinished(d, c, token);
      if Linked(d) { LinkedPostpone(d, m, delay, why); LinkedFinished(c, token); }
      if Answered(d) { AnsweredPostpone(d, m, delay, why); AnsweredFinished(c, token); }
      if Stocked(d) { StockedPostpone(d, m, delay, why); StockedFinished(c, token); }
  }
}
