/** What the invariant means for callers, operators and users of the queue. Each theorem is
    about every state between calls (`Settledown`), hence about every state of every run. */
module QueueTheorems {
  import opened Wrappers
  import opened QueueTypes
  import opened Totals
  import opened QueueInvariant
  import opened QueueLog
  import opened QueueOps
  import opened QueueSteps
  import opened QueueLoops
  import opened QueueOwner
  import opened QueueAdmission
  import opened QueueClaim
  import opened QueueCalls
  import opened QueueServer

  // ---- counters --------------------------------------------------------------------------

  function ActiveIn(jobs: map<Id, Job>, l: Lane): set<Id>
      { set id | id in jobs && jobs[id].t.lane == l && Active(jobs[id].state) }
  function HeldIn(jobs: map<Id, Job>, l: Lane): set<Id>
      { set id | id in jobs && jobs[id].t.lane == l && Held(jobs[id].state) }

  lemma Counted(d: Db, past: Past, l: Lane, f: Field)
    requires Inv(d, past)
    ensures Counter(d.counts, l, f) == Measure(d.jobs, d.owners, l, f) + Counter(past.leaked, l, f)
    ensures Counter(past.leaked, l, f) >= 0 && (!Leaky(f) ==> Counter(past.leaked, l, f) == 0)
    ensures Counter(d.counts, l, Nonterminal) <= JobCap(l) && Counter(d.counts, l, RunningNow) <= Workers(l)
    ensures Counter(d.counts, l, PayloadBytes) <= BYTE_CAP
  {
    hide Indexed, RecordsOk, LanesOk, PermitExact, Recorded, Counter, Measure;
  }

  /** Counters of jobs that are active, running or in an active state are exact in every state.
      The others are exact precisely while their ledger of lost entries is empty, and never too small. */
  lemma CountersExact(d: Db, past: Past, l: Lane, f: Field)
    requires Inv(d, past)
    ensures !Leaky(f) ==> Counter(d.counts, l, f) == Measure(d.jobs, d.owners, l, f)
    ensures Counter(d.counts, l, f) == Measure(d.jobs, d.owners, l, f) <==> Counter(past.leaked, l, f) == 0
    ensures Counter(d.counts, l, f) >= Measure(d.jobs, d.owners, l, f)
  {
    hide Inv, Counter, Measure;
    Counted(d, past, l, f);
  }

  /** Capacity: no lane ever runs more jobs than it has workers or holds more than its cap, and
      the payload bytes of its jobs fit the byte budget. */
  lemma Capacity(d: Db, past: Past, l: Lane)
    requires Inv(d, past)
    ensures |ActiveIn(d.jobs, l)| == Counter(d.counts, l, Nonterminal) <= JobCap(l)
    ensures |HeldIn(d.jobs, l)| == Counter(d.counts, l, RunningNow) <= Workers(l)
    ensures |ActiveIn(d.jobs, l)| <= if l == Daily then 32 else if l == Broadcast then 10 else 100
    ensures |HeldIn(d.jobs, l)| <= if l == Deferred then 3 else if l == Daily then 2 else 1
    ensures Total(JobWeights(d.jobs, l, PayloadBytes)) <= 8388608
  {
    hide Inv, Counter, JobWeights, Total;
    Counted(d, past, l, Nonterminal);
    Counted(d, past, l, RunningNow);
    Counted(d, past, l, PayloadBytes);
    Weighs(d.jobs, l);
  }

  lemma Weighs(jobs: map<Id, Job>, l: Lane)
    ensures Total(JobWeights(jobs, l, Nonterminal)) == |ActiveIn(jobs, l)|
    ensures Total(JobWeights(jobs, l, RunningNow)) == |HeldIn(jobs, l)|
  {
    hide Total;
    TotalCounts(JobWeights(jobs, l, Nonterminal), ActiveIn(jobs, l));
    TotalCounts(JobWeights(jobs, l, RunningNow), HeldIn(jobs, l));
  }

  // ---- mutual exclusion -----------------------------------------------------------------

  /** At most one image job is running or being cancelled, in all lanes together. */
  lemma ImageExclusive(d: Db, past: Past, a: Id, b: Id)
    requires a in d.jobs && b in d.jobs && Held(d.jobs[a].state) && Held(d.jobs[b].state) && d.jobs[a].t.imageWork
      && d.jobs[b].t.imageWork
    requires Settledown(d, past)
    ensures a == b
  {
    hide Indexed, LanesOk, Accounted, LogShape, JobLogs;
    assert RecordOk(d.jobs[a], d.clock) && RecordOk(d.jobs[b], d.clock);
    assert FreshJob(d.jobs[a], d.clock) && FreshJob(d.jobs[b], d.clock);
    assert HoldsImage(d.jobs[a], d.clock) && HoldsImage(d.jobs[b], d.clock);
    assert d.jobs[a].owner == d.jobs[b].owner;
  }

  /** The image permit is held exactly while an image job is running or being cancelled. */
  lemma PermitHeld(d: Db, past: Past)
    requires Settledown(d, past)
    ensures d.permit.Some? <==>
      exists id :: id in d.jobs && d.jobs[id].t.imageWork && d.jobs[id].state in {Running, CancelRequested}
  {
    hide Indexed, LanesOk, Accounted, LogShape, JobLogs;
    if d.permit.Some? {
      var id :| id in d.jobs && Backs(d.permit.value, d.jobs[id]);
      assert d.jobs[id].t.imageWork;
    }
    if id :| id in d.jobs && d.jobs[id].t.imageWork && d.jobs[id].state in {Running, CancelRequested} {
      assert RecordOk(d.jobs[id], d.clock) && FreshJob(d.jobs[id], d.clock);
      assert HoldsImage(d.jobs[id], d.clock);
    }
  }

  // ---- deadlines ----------------------------------------------------------------------------

  /** An active job is younger than 3610 seconds, far less than the day its idempotency record lives. */
  lemma ActiveYoung(d: Db, past: Past, id: Id)
    requires id in d.jobs && Active(d.jobs[id].state)
    requires Settledown(d, past)
    ensures d.clock < d.jobs[id].deadlineAt < d.jobs[id].t.submittedAt + 3610 * SECOND < d.jobs[id].t.submittedAt + DAY
  {
    hide Inv, PayloadsExact, ConflictsExact;
    Known(d, id, past);
    assert FreshJob(d.jobs[id], d.clock);
  }

  // ---- order --------------------------------------------------------------------------------

  /** Higher priority first, then the earlier submission. */
  predicate Precedes(a: Job, b: Job) {
    a.t.priority > b.t.priority || (a.t.priority == b.t.priority && a.t.sequence < b.t.sequence)
  }

  /** The numeric score orders two jobs as intended whenever their submissions are less than 10^12 apart. */
  lemma ScoreOrder(a: Job, b: Job)
    requires -SCORE_STEP < a.t.sequence - b.t.sequence < SCORE_STEP
    ensures Score(a) < Score(b) <==> Precedes(a, b)
  {
    var p := b.t.priority - a.t.priority;
    assert Score(a) - Score(b) == p * SCORE_STEP + (a.t.sequence - b.t.sequence);
    if p <= -1 { assert p * SCORE_STEP <= -SCORE_STEP; }
    if p >= 1 { assert p * SCORE_STEP >= SCORE_STEP; }
  }

  /** Of two jobs the score puts the more urgent one first exactly while its submission is less than 10^12 per
      step of priority later; within one priority it is always right. */
  lemma ScoreOrderExact(a: Job, b: Job)
    requires a.t.priority >= b.t.priority
    ensures a.t.priority > b.t.priority ==>
      ((Score(a) < Score(b) <==> Precedes(a, b)) <==>
        a.t.sequence - b.t.sequence < (a.t.priority - b.t.priority) * SCORE_STEP)
    ensures a.t.priority == b.t.priority ==> (Score(a) < Score(b) <==> Precedes(a, b))
  {
    var p := a.t.priority - b.t.priority;
    assert Score(a) - Score(b) == (a.t.sequence - b.t.sequence) - p * SCORE_STEP;
  }

  /** Claim order: while fewer than 10^12 jobs were ever submitted, no eligible job of the lane has a higher
      priority than the claimed one, or the same priority and an earlier submission. */
  lemma ClaimOrder(d0: Db, d: Db, l: Lane, token: Token, id: Id, o: Id, past: Past)
    requires Chosen(d0, d, l, token, id) && Eligible(d0, l, o) && o != id && d0.sequence < SCORE_STEP
    requires Settledown(d0, past)
    ensures Precedes(d0.jobs[id], d0.jobs[o])
  {
    hide Indexed, LanesOk, Accounted, PermitExact, Recorded, Fresh, RecordOk, Begun;
    var a, b := d0.jobs[id], d0.jobs[o];
    assert a.t.sequence <= d0.sequence && b.t.sequence <= d0.sequence && a.t.sequence != b.t.sequence;
    assert Ahead(d0, id, o);
    ScoreOrder(a, b);
    ScoreOrder(b, a);
  }

  /** Work conservation: once every active job has its payload, a lane has no eligible job exactly if all its
      queued jobs are image work behind a held permit. */
  lemma NothingToClaim(d: Db, past: Past, l: Lane)
    requires AllPaid(d)
    requires Settledown(d, past)
    ensures NoneEligible(d, l) <==>
      forall id :: id in d.jobs && d.jobs[id].t.lane == l && d.jobs[id].state == Queued ==>
        d.jobs[id].t.imageWork && d.permit.Some?
  {
    hide Inv, Fresh, PayloadsExact, ConflictsExact;
    forall id | id in d.jobs && d.jobs[id].t.lane == l && d.jobs[id].state == Queued
      ensures Eligible(d, l, id) <==> !(d.jobs[id].t.imageWork && d.permit.Some?)
    {
      Known(d, id, past);
    }
  }

  // ---- reading the history --------------------------------------------------------------------

  /** No silent replay: whenever a run starts an effectful job, the job was never started before, or
      its last start was settled by its owner as a retryable failure. */
  lemma NoSilentReplay(d: Db, past: Past, before: Log, q: nat, t: Token)
    requires Extends(Snoc(before, Claimed(q, t, true)), past.log)
    requires Inv(d, past)
    ensures Latest(before, q) == None || RetryReported(Latest(before, q))
  {
    hide Indexed, RecordsOk, LanesOk, Accounted, PermitExact, JobLogs, TokensOk, NoReplay;
    ReadStart(past.log, before, q, t);
  }

  lemma {:induction false} ReadStart(log: Log, before: Log, q: nat, t: Token)
    requires NoReplay(log) && Extends(Snoc(before, Claimed(q, t, true)), log)
    ensures Latest(before, q) == None || RetryReported(Latest(before, q))
  {
    if log != Snoc(before, Claimed(q, t, true)) { ReadStart(log.prev, before, q, t); }
  }

  /** Disposition once: a settlement closes the latest start of its job under that start's own
      token, and the token settles nothing else in the whole run. */
  lemma DisposedOnce(d: Db, past: Past, before: Log, q: nat, t: Token, outcome: Outcome)
    requires Extends(Snoc(before, Settled(q, t, outcome)), past.log)
    requires Inv(d, past)
    ensures !SettledBy(before, t) && (exists eff :: Latest(before, q) == Some(Claimed(q, t, eff)))
    ensures Settlements(past.log, t) == 1
  {
    hide Indexed, RecordsOk, LanesOk, Accounted, PermitExact, JobLogs, TokensOk, SettledOnce, Fenced;
    ReadSettlement(past.log, before, q, t, outcome);
  }

  lemma {:induction false} ReadSettlement(log: Log, before: Log, q: nat, t: Token, outcome: Outcome)
    requires SettledOnce(log) && Fenced(log) && Extends(Snoc(before, Settled(q, t, outcome)), log)
    ensures !SettledBy(before, t) && (exists eff :: Latest(before, q) == Some(Claimed(q, t, eff)))
    ensures Settlements(log, t) == 1
  {
    if log == Snoc(before, Settled(q, t, outcome)) {
      NeverSettled(before, t);
    } else {
      ReadSettlement(log.prev, before, q, t, outcome);
      if log.last.Settled? && log.last.token == t { SettledStays(Snoc(before, Settled(q, t, outcome)), log.prev, t); }
    }
  }

  ghost function Settlements(log: Log, t: Token): nat {
    match log
    case Empty => 0
    case Snoc(prev, e) => Settlements(prev, t) + if e.Settled? && e.token == t then 1 else 0
  }

  lemma {:induction false} NeverSettled(log: Log, t: Token)
    requires !SettledBy(log, t)
    ensures Settlements(log, t) == 0
  {
    if log.Snoc? { NeverSettled(log.prev, t); }
  }

  lemma {:induction false} SettledStays(a: Log, b: Log, t: Token)
    requires Extends(a, b) && SettledBy(a, t)
    ensures SettledBy(b, t)
  {
    if a != b { SettledStays(a, b.prev, t); }
  }

  /** Starts of a submission: its own, and those of the child an operator retry gave it in `whole`. */
  ghost function FamilyClaims(log: Log, whole: Log, q: nat): nat {
    match log
    case Empty => 0
    case Snoc(prev, e) =>
      FamilyClaims(prev, whole, q) + if e.Claimed? && (e.job == q || IsAdmitted(whole, e.job, Some(q))) then 1 else 0
  }

  /** Bounded work: a submission causes at most six starts in any run, through at most one child. */
  lemma BoundedWork(d: Db, past: Past, q: nat)
    requires Inv(d, past)
    ensures FamilyClaims(past.log, past.log, q) <= 6
    ensures forall a, b :: IsAdmitted(past.log, a, Some(q)) && IsAdmitted(past.log, b, Some(q)) ==> a == b
    ensures forall c :: IsAdmitted(past.log, c, Some(q)) ==> !HasChild(past.log, c) && c != q
  {
    hide Indexed, RecordsOk, LanesOk, Accounted, PermitExact, JobLogs, TokensOk, IsAdmitted, Claims, FamilyClaims;
    var log := past.log;
    forall a, b | IsAdmitted(log, a, Some(q)) && IsAdmitted(log, b, Some(q)) ensures a == b { OnlyChild(log, q, a, b); }
    forall c | IsAdmitted(log, c, Some(q)) ensures !HasChild(log, c) && c != q { ChildIsLeaf(log, q, c); }
    assert Claims(log, q) <= 3;
    if c :| IsAdmitted(log, c, Some(q)) {
      assert Claims(log, c) <= 3;
      FamilyOfTwo(log, log, q, c);
    } else {
      FamilyOfOne(log, log, q);
    }
  }

  lemma {:induction false} OnlyChild(log: Log, q: nat, a: nat, b: nat)
    requires OneGeneration(log) && IsAdmitted(log, a, Some(q)) && IsAdmitted(log, b, Some(q))
    ensures a == b
  {
    var e := log.last;
    if e == Admitted(a, Some(q)) || e == Admitted(b, Some(q)) {
      if a != b { AdmittedParent(log.prev, if e.job == a then b else a, q); }
    } else {
      OnlyChild(log.prev, q, a, b);
    }
  }

  lemma {:induction false} AdmittedParent(log: Log, c: nat, q: nat)
    requires IsAdmitted(log, c, Some(q))
    ensures HasChild(log, q) && IsChild(log, c) && Mentions(log, c)
  {
    if log.last != Admitted(c, Some(q)) { AdmittedParent(log.prev, c, q); }
  }

  lemma {:induction false} ParentMentioned(log: Log, q: nat)
    requires HasChild(log, q)
    ensures Mentions(log, q)
  {
    if !(log.last.Admitted? && log.last.parent == Some(q)) { ParentMentioned(log.prev, q); }
  }

  lemma {:induction false} ChildIsLeaf(log: Log, q: nat, c: nat)
    requires OneGeneration(log) && IsAdmitted(log, c, Some(q))
    ensures !HasChild(log, c) && c != q
  {
    if log.last == Admitted(c, Some(q)) {
      if HasChild(log.prev, c) { ParentMentioned(log.prev, c); }
    } else {
      ChildIsLeaf(log.prev, q, c);
      AdmittedParent(log.prev, c, q);
    }
  }

  lemma {:induction false} FamilyOfOne(log: Log, whole: Log, q: nat)
    requires forall c :: !IsAdmitted(whole, c, Some(q))
    ensures FamilyClaims(log, whole, q) == Claims(log, q)
  {
    if log.Snoc? { FamilyOfOne(log.prev, whole, q); }
  }

  lemma {:induction false} FamilyOfTwo(log: Log, whole: Log, q: nat, c: nat)
    requires c != q && IsAdmitted(whole, c, Some(q)) && forall o :: IsAdmitted(whole, o, Some(q)) ==> o == c
    ensures FamilyClaims(log, whole, q) == Claims(log, q) + Claims(log, c)
  {
    if log.Snoc? { FamilyOfTwo(log.prev, whole, q, c); }
  }

  // ---- finality ---------------------------------------------------------------------------------

  /** Over any stretch of a run: a terminal state is final, every change of state raises the revision,
      and delivery that became unknown can never be retried. */
  lemma Finality(d: Db, d': Db, past': Past, id: Id, revision: int, epoch: Option<int>)
    requires Progress(d, d') && id in d.jobs && id in d'.jobs && d'.jobs[id].t.sequence <= d.sequence
    requires Settledown(d', past')
    ensures !Active(d.jobs[id].state) ==>
      d'.jobs[id].state == d.jobs[id].state && d'.jobs[id].attempts == d.jobs[id].attempts
    ensures d'.jobs[id].state != d.jobs[id].state ==> d'.jobs[id].revision > d.jobs[id].revision
    ensures d.jobs[id].state == UnknownDelivery ==> !Retryable(d', id, revision, epoch)
  {
    hide Settledown;
    assert Evolves(d.jobs[id], d'.jobs[id]);
  }

  /** A finish, heartbeat or repeat from an owner that has lost the job is refused in every later
      state, even after the job was requeued and claimed again. */
  lemma LateFinish(d: Db, past: Past, d': Db, id: Id, token: Token, revision: int)
    requires token in past.tokens && (id in d.jobs ==> d.jobs[id].owner != Some(token))
    requires Reowned(d, past.tokens, d')
    ensures !Owns(d', id, token, revision)
  {
  }
}
