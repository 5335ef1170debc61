/** The local functions of the queue script, on the keyspace as a value. A `Cursor` is
    the script's Lua table `m` beside the keyspace it is about to be saved to. */
module QueueOps {
  import opened Wrappers
  import opened QueueTypes
  import opened QueueInvariant

  // ---- the script's helpers, key by key -----------------------------------------

  /** Counters of `transition`. */
  function StateCounts(n: Counts, m: Job, to: JobState): Counts {
    Bump(Bump(n, m.t.lane, InState(m.state), -1), m.t.lane, InState(to), 1)
  }

  /** Counters of `release_running`. */
  function RunCounts(n: Counts, m: Job): Counts {
    if Held(m.state) then Bump(n, m.t.lane, RunningNow, -1) else n
  }

  /** Counters of `drop_payload`. */
  function ByteCounts(n: Counts, m: Job): Counts {
    if m.accounted then Bump(n, m.t.lane, PayloadBytes, -m.t.payloadBytes) else n
  }

  function ReleasePermit(permit: Option<Permit>, m: Job): Option<Permit> {
    if m.owner.Some? && permit.Some? && permit.value.token == m.owner.value then None else permit
  }

  function FreeConflicts(conflicts: map<(Lane, Key), Id>, m: Job): map<(Lane, Key), Id> {
    map k | k in conflicts && !(k.0 == m.t.lane && k.1 in m.t.conflictKeys && conflicts[k] == m.t.id) :: conflicts[k]
  }

  function RefreshIdem(idem: map<Key, Idem>, members: set<Key>, now: Time): map<Key, Idem> {
    map k | k in idem :: if k in members then idem[k].(expiresAt := now + DAY) else idem[k]
  }

  function Members(identities: map<Id, IdemSet>, id: Id): set<Key> {
    if id in identities then identities[id].members else {}
  }

  function RefreshSet(identities: map<Id, IdemSet>, id: Id, now: Time): map<Id, IdemSet> {
    if id in identities then identities[id := identities[id].(expiresAt := Some(now + DAY))] else identities
  }

  function Retime(payloads: map<Id, Payload>, id: Id, expiresAt: Time): map<Id, Payload> {
    if id in payloads then payloads[id := payloads[id].(expiresAt := expiresAt)] else payloads
  }

  function DropPayload(c: Cursor): Cursor {
    var m, d := c.m, c.db;
    Cursor(
      d.(payloads := d.payloads - {m.t.id}, payloadExpiry := d.payloadExpiry - {m.t.id},
         counts := ByteCounts(d.counts, m)),
      Dropped(m))
  }

  function Dropped(m: Job): Job { m.(accounted := false, retryEligible := false) }

  /** The terminal record; `keep` says that its payload stays for an operator retry. */
  function Ended(now: Time, m: Job, to: JobState, why: Reason, keep: bool): Job {
    m.(state := to, reason := why, owner := None, revision := m.revision + 1,
       metadataExpiresAt := Some(now + DAY), retryEligible := keep, accounted := keep && m.accounted,
       payloadExpiresAt := if keep then now + RETRY_KEEP else m.payloadExpiresAt)
  }

  predicate Keeps(payloads: map<Id, Payload>, m: Job, safe: bool) {
    safe && m.retryGrants > 0 && m.t.id in payloads
  }

  function EndCounts(n: Counts, m: Job, to: JobState, keep: bool): Counts {
    var n1 := if Active(m.state) then Bump(n, m.t.lane, Nonterminal, -1) else n;
    var n2 := StateCounts(RunCounts(n1, m), m, to);
    if keep then n2 else ByteCounts(n2, m)
  }

  function Terminal(now: Time, c: Cursor, to: JobState, why: Reason, safe: bool): Cursor {
    var m, d, id := c.m, c.db, c.m.t.id;
    var keep := Keeps(d.payloads, m, safe);
    Cursor(
      d.(counts := EndCounts(d.counts, m, to, keep),
         running := d.running - {id},
         permit := ReleasePermit(d.permit, m),
         conflicts := FreeConflicts(d.conflicts, m),
         ready := d.ready - {(m.t.lane, id)},
         delayed := d.delayed - {(m.t.lane, id)},
         deadline := d.deadline - {id},
         owners := d.owners[id := Owner(m.t.user, m.t.lane, to)],
         payloads := if keep then Retime(d.payloads, id, now + RETRY_KEEP) else d.payloads - {id},
         payloadExpiry := Place(d.payloadExpiry, id, keep, now + RETRY_KEEP),
         idem := RefreshIdem(d.idem, Members(d.identities, id), now),
         identities := RefreshSet(d.identities, id, now),
         metaExpiry := d.metaExpiry[id := now + DAY]),
      Ended(now, m, to, why, keep))
  }

  // ---- counters ------------------------------------------------------------------

  lemma BumpAt(n: Counts, l: Lane, f: Field, by': int, l': Lane, f': Field)
    ensures Counter(Bump(n, l, f, by'), l', f') == Counter(n, l', f') + if l == l' && f == f' then by' else 0
  {
  }

  lemma StateCountsAt(n: Counts, m: Job, to: JobState, l: Lane, f: Field)
    ensures Counter(StateCounts(n, m, to), l, f) == Counter(n, l, f)
              + (if l == m.t.lane && f == InState(to) then 1 else 0)
              - (if l == m.t.lane && f == InState(m.state) then 1 else 0)
  {
    BumpAt(n, m.t.lane, InState(m.state), -1, l, f);
    BumpAt(Bump(n, m.t.lane, InState(m.state), -1), m.t.lane, InState(to), 1, l, f);
    hide Bump, Counter;
  }

  lemma RunCountsAt(n: Counts, m: Job, l: Lane, f: Field)
    ensures Counter(RunCounts(n, m), l, f) == Counter(n, l, f)
              - (if l == m.t.lane && f == RunningNow && Held(m.state) then 1 else 0)
  {
    BumpAt(n, m.t.lane, RunningNow, -1, l, f);
    hide Bump, Counter;
  }

  lemma ByteCountsAt(n: Counts, m: Job, l: Lane, f: Field)
    ensures Counter(ByteCounts(n, m), l, f) == Counter(n, l, f)
              - (if l == m.t.lane && f == PayloadBytes && m.accounted then m.t.payloadBytes else 0)
  {
    BumpAt(n, m.t.lane, PayloadBytes, -m.t.payloadBytes, l, f);
    hide Bump, Counter;
  }

  lemma EndCountsAt(n: Counts, now: Time, m: Job, to: JobState, why: Reason, keep: bool, l: Lane, f: Field)
    requires !Active(to) && (keep ==> m.accounted)
    ensures Counter(EndCounts(n, m, to, keep), l, f) == Counter(n, l, f) + Shift(m, Ended(now, m, to, why, keep), l, f)
  {
    BumpAt(n, m.t.lane, Nonterminal, -1, l, f);
    var n1 := if Active(m.state) then Bump(n, m.t.lane, Nonterminal, -1) else n;
    RunCountsAt(n1, m, l, f);
    StateCountsAt(RunCounts(n1, m), m, to, l, f);
    ByteCountsAt(StateCounts(RunCounts(n1, m), m, to), m, l, f);
    hide Bump, Counter, RunCounts, StateCounts, ByteCounts;
  }

  // ---- edits -----------------------------------------------------------------------

  /** Counters agree with a record that replaces another when they move by their difference. */
  ghost predicate CountsFollow(d: Db, counts: Counts, m: Job)
    requires m.t.id in d.jobs
  {
    forall l: Lane, f: Field :: Counter(counts, l, f) == Counter(d.counts, l, f) + Shift(d.jobs[m.t.id], m, l, f)
  }

  lemma CountsShifted(d: Db, m: Job, counts: Counts, leaked: Counts)
    requires CountsExact(d.counts, leaked, d.jobs, d.owners) && OwnersExact(d.owners, d.jobs)
    requires m.t.id in d.jobs && CountsFollow(d, counts, m)
    ensures CountsExact(counts, leaked, d.jobs[m.t.id := m], d.owners[m.t.id := OwnerOf(m)])
  {
    forall l: Lane, f: Field
      ensures Counter(counts, l, f) == Counter(d.counts, l, f) + Delta(d, m, l, f)
    {
      DeltaIsShift(d, m, l, f);
      hide Counter, Delta, Shift, CountsExact;
    }
    hide OwnersExact, Counter, Delta, Shift, CountsExact;
    CountsNext(d, m, counts, leaked);
  }

  /** The one proof obligation of every record edit. */
  lemma Edited(d: Db, d': Db, m: Job, leaked: Counts)
    requires Indexed(d) && CountsExact(d.counts, leaked, d.jobs, d.owners)
    requires m.t.id in d.jobs && Follows(d, d', m) && CountsFollow(d, d'.counts, m)
    ensures Indexed(d') && CountsExact(d'.counts, leaked, d'.jobs, d'.owners)
  {
    hide ReadyExact, DelayedExact, RunningExact, DeadlineExact, PayloadExpiryExact, PayloadsExact;
    hide OwnersExact, MetaExact, UsersExact, ConflictsExact, CountsExact, CountsFollow;
    IndexesFollow(d, d', m);
    CountsShifted(d, m, d'.counts, leaked);
    hide ReadyFollows, DelayedFollows, RunningFollows, DeadlineFollows, PayloadExpiryFollows, PayloadsFollow;
    hide OwnersFollow, MetaFollows, UsersFollow, ConflictsFollow;
  }

  lemma DropPayloadFollows(db: Db, m: Job)
    requires m.t.id in db.jobs && db.jobs[m.t.id] == m && (!Active(m.state) ==> m.metadataExpiresAt.Some?)
    ensures var c' := DropPayload(Cursor(db, m)); Follows(db, Save(c'), c'.m) && CountsFollow(db, c'.db.counts, c'.m)
  {
    var c' := DropPayload(Cursor(db, m));
    forall l: Lane, f: Field
      ensures Counter(c'.db.counts, l, f) == Counter(db.counts, l, f) + Shift(m, c'.m, l, f)
    {
      ByteCountsAt(db.counts, m, l, f);
      hide Counter, ByteCounts;
    }
    hide Counter, ByteCounts, Shift;
  }

  lemma ConflictsFreedBy(conflicts: map<(Lane, Key), Id>, jobs: map<Id, Job>, m: Job, m': Job)
    requires ConflictsExact(conflicts, jobs) && m.t.id in jobs && jobs[m.t.id].t == m.t == m'.t
      && Active(jobs[m.t.id].state)
    ensures ConflictsFreed(conflicts, FreeConflicts(conflicts, m), m')
  {
  }

  lemma TerminalPayloads(now: Time, payloads: map<Id, Payload>, jobs: map<Id, Job>, m: Job, to: JobState, why: Reason,
      safe: bool)
    requires PayloadsExact(payloads, jobs) && m.t.id in jobs && jobs[m.t.id] == m
    ensures var keep, id := Keeps(payloads, m, safe), m.t.id;
            && (keep ==> m.accounted)
            && PayloadsFollow(payloads, if keep then Retime(payloads, id, now + RETRY_KEEP)
              else payloads - {id}, Ended(now, m, to, why, keep))
  {
  }

  lemma TerminalFollows(now: Time, db: Db, m: Job, to: JobState, why: Reason, safe: bool)
    requires m.t.id in db.jobs && db.jobs[m.t.id] == m && Active(m.state) && !Active(to)
    requires ConflictsExact(db.conflicts, db.jobs) && PayloadsExact(db.payloads, db.jobs)
    ensures var c' := Terminal(now, Cursor(db, m), to, why, safe); Follows(db, Save(c'), c'.m)
  {
    var c' := Terminal(now, Cursor(db, m), to, why, safe);
    ConflictsFreedBy(db.conflicts, db.jobs, m, c'.m);
    TerminalPayloads(now, db.payloads, db.jobs, m, to, why, safe);
    hide ConflictsExact, PayloadsExact, ConflictsFreed, ConflictsAdded, PayloadsFollow, EndCounts, FreeConflicts,
      Retime;
    hide RefreshIdem, Members, RefreshSet, ReleasePermit, Keeps;
  }

  lemma TerminalCountsFollow(now: Time, db: Db, m: Job, to: JobState, why: Reason, safe: bool)
    requires m.t.id in db.jobs && db.jobs[m.t.id] == m && Active(m.state) && !Active(to)
    requires Keeps(db.payloads, m, safe) ==> m.accounted
    ensures var c' := Terminal(now, Cursor(db, m), to, why, safe); CountsFollow(db, c'.db.counts, c'.m)
  {
    var c' := Terminal(now, Cursor(db, m), to, why, safe);
    var keep := Keeps(db.payloads, m, safe);
    forall l: Lane, f: Field
      ensures Counter(c'.db.counts, l, f) == Counter(db.counts, l, f) + Shift(m, c'.m, l, f)
    {
      EndCountsAt(db.counts, now, m, to, why, keep, l, f);
      hide Counter, EndCounts, Shift;
    }
    hide Counter, EndCounts, Shift;
  }

  // ---- the other record edits ----------------------------------------------------------

  /** A lapsed attempt without external effects goes back to its lane. */
  function Requeued(m: Job): Job {
    m.(state := Queued, owner := None, revision := m.revision + 1, deadlineAt := m.t.queueDeadlineAt)
  }

  function Requeue(c: Cursor): Cursor {
    var m, d, id := c.m, c.db, c.m.t.id;
    var m' := Requeued(m);
    Cursor(
      d.(counts := StateCounts(RunCounts(d.counts, m), m, Queued),
         running := d.running - {id}, permit := ReleasePermit(d.permit, m),
         owners := d.owners[id := OwnerOf(m')],
         deadline := d.deadline[id := m'.deadlineAt], ready := d.ready[(m.t.lane, id) := Score(m')]),
      m')
  }

  function Promoted(m: Job): Job { m.(state := Queued, revision := m.revision + 1) }

  function Promote(c: Cursor): Cursor {
    var m, d, id := c.m, c.db, c.m.t.id;
    var m' := Promoted(m);
    Cursor(
      d.(counts := StateCounts(d.counts, m, Queued), delayed := d.delayed - {(m.t.lane, id)},
         owners := d.owners[id := OwnerOf(m')], ready := d.ready[(m.t.lane, id) := Score(m')]),
      m')
  }

  function Budget(t: Ticket): int {
    if t.timeout.Some? then t.timeout.value else if t.kind == Tarot then 1800 else 600
  }

  predicate Rebudgeted(t: Ticket) { t.lane == Daily && t.user == 0 }

  function BudgetEnd(now: Time, t: Ticket): Time { now + (Min(1800, Budget(t)) + 10) * SECOND }

  /** The record of a job a worker has just claimed. */
  function Begun(now: Time, m: Job, token: Token): Job {
    m.(state := Running, owner := Some(token), heartbeatAt := now, attempts := m.attempts + 1,
       revision := m.revision + 1, finishToken := None,
       deadlineAt := if Rebudgeted(m.t) then BudgetEnd(now, m.t) else m.deadlineAt,
       payloadExpiresAt := if Rebudgeted(m.t) then BudgetEnd(now, m.t) else m.payloadExpiresAt)
  }

  function Begin(now: Time, c: Cursor, token: Token): Cursor {
    var m, d, id := c.m, c.db, c.m.t.id;
    var m' := Begun(now, m, token);
    Cursor(
      d.(counts := Bump(StateCounts(d.counts, m, Running), m.t.lane, RunningNow, 1),
         ready := d.ready - {(m.t.lane, id)},
         owners := d.owners[id := OwnerOf(m')],
         deadline := if Rebudgeted(m.t) then d.deadline[id := m'.deadlineAt] else d.deadline,
         payloadExpiry := if Rebudgeted(m.t) then d.payloadExpiry[id := m'.payloadExpiresAt] else d.payloadExpiry,
         payloads := if Rebudgeted(m.t) then Retime(d.payloads, id, m'.payloadExpiresAt) else d.payloads,
         running := d.running[id := now + LEASE],
         permit := if m.t.imageWork then Some(Permit(token, now + LEASE)) else d.permit),
      m')
  }

  function Beaten(now: Time, m: Job): Job { m.(heartbeatAt := now) }

  function Beat(now: Time, c: Cursor, token: Token): Cursor {
    var m, d := c.m, c.db;
    Cursor(
      d.(running := d.running[m.t.id := now + LEASE],
         permit := if m.t.imageWork && d.permit.Some? && d.permit.value.token == token
                   then Some(Permit(token, now + LEASE)) else d.permit),
      Beaten(now, m))
  }

  /** The record of an attempt whose owner reported a retryable failure in time. */
  function Postponed(now: Time, m: Job, delay: Time, why: Reason): Job {
    m.(state := if delay > 0 then Delayed else Queued, owner := None, notBefore := now + delay,
       reason := why, revision := m.revision + 1, deadlineAt := m.t.queueDeadlineAt,
       payloadExpiresAt := if m.t.user > 0 then Min(m.t.queueDeadlineAt, m.t.submittedAt + 900 * SECOND)
         else m.t.queueDeadlineAt)
  }

  function Postpone(now: Time, c: Cursor, delay: Time, why: Reason): Cursor {
    var m, d, id := c.m, c.db, c.m.t.id;
    var m' := Postponed(now, m, delay, why);
    Cursor(
      d.(counts := StateCounts(RunCounts(d.counts, m), m, m'.state),
         running := d.running - {id}, permit := ReleasePermit(d.permit, m),
         owners := d.owners[id := OwnerOf(m')],
         deadline := d.deadline[id := m'.deadlineAt], payloadExpiry := d.payloadExpiry[id := m'.payloadExpiresAt],
         payloads := Retime(d.payloads, id, Max(now + MILLISECOND, m'.payloadExpiresAt)),
         delayed := if m'.state == Delayed then d.delayed[(m.t.lane, id) := m'.notBefore] else d.delayed,
         ready := if m'.state == Delayed then d.ready else d.ready[(m.t.lane, id) := Score(m')]),
      m')
  }

  function Asked(m: Job): Job { m.(state := CancelRequested, revision := m.revision + 1, reason := CancelAsked) }

  function AskCancel(c: Cursor): Cursor {
    var m, d := c.m, c.db;
    Cursor(d.(counts := StateCounts(d.counts, m, CancelRequested), owners := d.owners[m.t.id := OwnerOf(Asked(m))]),
      Asked(m))
  }

  lemma MoveCounts(n: Counts, a: Job, b: Job)
    requires a.t == b.t && Active(a.state) && Active(b.state) && a.accounted == b.accounted
    requires Held(b.state) ==> Held(a.state)
    ensures forall l: Lane, f: Field ::
              Counter(StateCounts(if Held(b.state) then n else RunCounts(n, a), a, b.state), l, f)
              == Counter(n, l, f) + Shift(a, b, l, f)
  {
    var n1 := if Held(b.state) then n else RunCounts(n, a);
    forall l: Lane, f: Field
      ensures Counter(StateCounts(n1, a, b.state), l, f) == Counter(n, l, f) + Shift(a, b, l, f)
    {
      RunCountsAt(n, a, l, f);
      StateCountsAt(n1, a, b.state, l, f);
      hide Counter, RunCounts, StateCounts;
    }
  }

  lemma BeginCounts(n: Counts, now: Time, m: Job, token: Token)
    requires m.state == Queued
    ensures forall l: Lane, f: Field ::
              Counter(Bump(StateCounts(n, m, Running), m.t.lane, RunningNow, 1), l, f)
              == Counter(n, l, f) + Shift(m, Begun(now, m, token), l, f)
  {
    forall l: Lane, f: Field
      ensures Counter(Bump(StateCounts(n, m, Running), m.t.lane, RunningNow, 1), l, f)
              == Counter(n, l, f) + Shift(m, Begun(now, m, token), l, f)
    {
      StateCountsAt(n, m, Running, l, f);
      BumpAt(StateCounts(n, m, Running), m.t.lane, RunningNow, 1, l, f);
      hide Counter, Bump, StateCounts;
    }
  }

  lemma RequeueCountsFollow(db: Db, m: Job)
    requires m.t.id in db.jobs && db.jobs[m.t.id] == m && Held(m.state)
    ensures var c' := Requeue(Cursor(db, m)); CountsFollow(db, c'.db.counts, c'.m)
  {
    MoveCounts(db.counts, m, Requeued(m));
    hide Counter, Shift, StateCounts, RunCounts, ReleasePermit;
  }

  lemma RequeueFollows(db: Db, m: Job)
    requires m.t.id in db.jobs && db.jobs[m.t.id] == m && Held(m.state) && PayloadsExact(db.payloads, db.jobs)
    ensures var c' := Requeue(Cursor(db, m)); Follows(db, Save(c'), c'.m) && CountsFollow(db, c'.db.counts, c'.m)
  {
    hide CountsFollow, StateCounts, RunCounts, ReleasePermit, ConflictsAdded, ConflictsFreed;
    RequeueCountsFollow(db, m);
  }

  lemma PromoteFollows(db: Db, m: Job)
    requires m.t.id in db.jobs && db.jobs[m.t.id] == m && m.state == Delayed && PayloadsExact(db.payloads, db.jobs)
    ensures var c' := Promote(Cursor(db, m)); Follows(db, Save(c'), c'.m) && CountsFollow(db, c'.db.counts, c'.m)
  {
    MoveCounts(db.counts, m, Promoted(m));
    assert RunCounts(db.counts, m) == db.counts;
    hide Counter, Shift, StateCounts, RunCounts;
  }

  lemma BeginFollows(now: Time, db: Db, m: Job, token: Token)
    requires m.t.id in db.jobs && db.jobs[m.t.id] == m && m.state == Queued && m.accounted
      && PayloadsExact(db.payloads, db.jobs)
    ensures var c' := Begin(now, Cursor(db, m), token); Follows(db, Save(c'), c'.m)
  {
    hide StateCounts, Bump, Budget, BudgetEnd, Rebudgeted;
  }

  lemma BeginCountsFollow(now: Time, db: Db, m: Job, token: Token)
    requires m.t.id in db.jobs && db.jobs[m.t.id] == m && m.state == Queued && m.accounted
      && PayloadsExact(db.payloads, db.jobs)
    ensures var c' := Begin(now, Cursor(db, m), token); CountsFollow(db, c'.db.counts, c'.m)
  {
    BeginCounts(db.counts, now, m, token);
    hide Counter, Shift, StateCounts, RunCounts, Bump;
  }

  lemma BeatFollows(now: Time, db: Db, m: Job, token: Token)
    requires m.t.id in db.jobs && db.jobs[m.t.id] == m && Held(m.state) && PayloadsExact(db.payloads, db.jobs)
    ensures var c' := Beat(now, Cursor(db, m), token);
      Follows(db, Save(c'), c'.m) && CountsFollow(db, c'.db.counts, c'.m)
  {
  }

  lemma PostponeFollows(now: Time, db: Db, m: Job, delay: Time, why: Reason)
    requires m.t.id in db.jobs && db.jobs[m.t.id] == m && Held(m.state) && PayloadsExact(db.payloads, db.jobs)
    requires m.accounted
    ensures var c' := Postpone(now, Cursor(db, m), delay, why); Follows(db, Save(c'), c'.m)
  {
    hide StateCounts, RunCounts, ReleasePermit;
  }

  lemma PostponeCountsFollow(now: Time, db: Db, m: Job, delay: Time, why: Reason)
    requires m.t.id in db.jobs && db.jobs[m.t.id] == m && Held(m.state) && PayloadsExact(db.payloads, db.jobs)
    requires m.accounted
    ensures var c' := Postpone(now, Cursor(db, m), delay, why); CountsFollow(db, c'.db.counts, c'.m)
  {
    MoveCounts(db.counts, m, Postponed(now, m, delay, why));
    hide Counter, Shift, StateCounts, RunCounts, Bump;
  }

  lemma AskCancelFollows(db: Db, m: Job)
    requires m.t.id in db.jobs && db.jobs[m.t.id] == m && Held(m.state) && PayloadsExact(db.payloads, db.jobs)
    ensures var c' := AskCancel(Cursor(db, m)); Follows(db, Save(c'), c'.m) && CountsFollow(db, c'.db.counts, c'.m)
  {
    MoveCounts(db.counts, m, Asked(m));
    hide Counter, Shift, StateCounts, RunCounts;
  }
}
