/** What one sweep does to a record, and why its bounded scans miss nothing. */
module QueueSweep {
  import opened QueueTypes
  import opened Totals
  import opened QueueInvariant
  import opened QueueOps
  import opened QueueSteps

  predicate Uncertain(m: Job) { Held(m.state) && m.t.effectful }

  function UncertainReason(m: Job): Reason {
    if m.t.kind == Document then StorageUnconfirmed else InterruptedDelivery
  }

  function LossState(m: Job): JobState { if Uncertain(m) then UnknownDelivery else Expired }

  /** The payload expired and the sweep met it (`hit`). */
  function Unpaid(now: Time, hit: bool, m: Job): Job {
    if !hit then m
    else if Active(m.state) then Ended(now, m, LossState(m), PayloadExpired, false)
    else Dropped(m)
  }

  predicate IsOverdue(now: Time, m: Job) { Active(m.state) && m.deadlineAt <= now }

  function OverdueReason(m: Job): Reason { if Uncertain(m) then UncertainReason(m) else DeadlineExceeded }

  function Overdue(now: Time, m: Job): Job {
    if IsOverdue(now, m) then Ended(now, m, LossState(m), OverdueReason(m), false) else m
  }

  predicate IsLapsed(now: Time, m: Job) { Held(m.state) && m.heartbeatAt + LEASE <= now }

  /** The owner of the attempt stopped renewing its lease. */
  function Lapsed(now: Time, present: bool, m: Job): Job {
    if !IsLapsed(now, m) then m
    else if m.t.effectful then Ended(now, m, UnknownDelivery, UncertainReason(m), false)
    else if m.state == CancelRequested then Ended(now, m, Cancelled, CancelAsked, false)
    else if m.attempts >= m.t.maxAttempts then Ended(now, m, Failed, AttemptsExhausted, m.retryGrants > 0 && present)
    else if now >= m.t.queueDeadlineAt then Ended(now, m, Expired, DeadlineExceeded, m.retryGrants > 0 && present)
    else Requeued(m)
  }

  predicate IsRipe(now: Time, m: Job) { m.state == Delayed && m.notBefore <= now }

  function Ripened(now: Time, m: Job): Job { if IsRipe(now, m) then Promoted(m) else m }

  /** One whole sweep, seen from a single record. */
  function Swept(now: Time, hit: bool, present: bool, m: Job): Job {
    Ripened(now, Lapsed(now, present, Overdue(now, Unpaid(now, hit, m))))
  }

  lemma PhaseEvolves(now: Time, hit: bool, present: bool, m: Job)
    ensures Evolves(m, Unpaid(now, hit, m)) && Evolves(m, Overdue(now, m))
    ensures Evolves(m, Lapsed(now, present, m)) && Evolves(m, Ripened(now, m))
  {
  }

  /** A sweep only moves a job forward, and leaves nothing overdue. */
  lemma SweptEvolves(now: Time, hit: bool, present: bool, m: Job)
    ensures Evolves(m, Swept(now, hit, present, m)) && FreshJob(Swept(now, hit, present, m), now)
  {
    var a := Unpaid(now, hit, m);
    var b := Overdue(now, a);
    var c := Lapsed(now, present, b);
    PhaseEvolves(now, hit, present, m);
    PhaseEvolves(now, hit, present, a);
    PhaseEvolves(now, hit, present, b);
    PhaseEvolves(now, hit, present, c);
    SweptFresh(now, hit, present, m);
    hide Unpaid, Overdue, Lapsed, Ripened;
  }

  lemma SweptFresh(now: Time, hit: bool, present: bool, m: Job)
    ensures FreshJob(Swept(now, hit, present, m), now)
  {
    var b := Overdue(now, Unpaid(now, hit, m));
    assert Active(b.state) ==> b.deadlineAt > now;
    var c := Lapsed(now, present, b);
    hide Overdue, Unpaid;
    assert Active(c.state) ==> c.deadlineAt > now;
    assert Held(c.state) ==> c.heartbeatAt + LEASE > now;
    hide Lapsed;
  }

  /** What happens to an effectful job that loses its worker: it is never started again. */
  lemma LostEffect(now: Time, hit: bool, present: bool, m: Job)
    requires m.t.effectful && Held(m.state)
    ensures var m' := Swept(now, hit, present, m);
            m' == m || (m'.state == UnknownDelivery && !m'.retryEligible && m'.attempts == m.attempts)
  {
  }

  /** A sweep that reaches a due payload leaves no payload overdue, retained or in use. */
  lemma SweptPrompt(now: Time, hit: bool, present: bool, m: Job)
    requires m.accounted && m.payloadExpiresAt <= now ==> hit
    ensures var m' := Swept(now, hit, present, m);
            PromptJob(m', now) && (m'.accounted ==> m'.payloadExpiresAt > now)
  {
  }

  // ---- sizes ----------------------------------------------------------------------------

  function ActiveWeights(jobs: map<Id, Job>): map<Id, int> {
    map id | id in jobs :: if Active(jobs[id].state) then 1 else 0
  }

  function HeldWeights(jobs: map<Id, Job>): map<Id, int> {
    map id | id in jobs :: if Held(jobs[id].state) then 1 else 0
  }

  function Sum2(a: map<Id, int>, b: map<Id, int>): map<Id, int>
    requires a.Keys == b.Keys
  {
    map id | id in a :: a[id] + b[id]
  }

  lemma FourLanes(jobs: map<Id, Job>, f: Field, whole: map<Id, int>)
    requires f == Nonterminal || f == RunningNow
    requires whole == if f == Nonterminal then ActiveWeights(jobs) else HeldWeights(jobs)
    ensures Total(whole) == Total(JobWeights(jobs, Deferred, f)) + Total(JobWeights(jobs, Maintenance, f))
                            + Total(JobWeights(jobs, Daily, f)) + Total(JobWeights(jobs, Broadcast, f))
  {
    var a, b, c, d := JobWeights(jobs, Deferred, f), JobWeights(jobs, Maintenance, f), JobWeights(jobs, Daily, f),
      JobWeights(jobs, Broadcast, f);
    var ab, cd := Sum2(a, b), Sum2(c, d);
    forall id | id in jobs ensures whole[id] == ab[id] + cd[id] {
      WeightsAdd(jobs[id], f);
      hide Weight;
    }
    assert whole.Keys == ab.Keys == cd.Keys;
    hide JobWeights, Weight, ActiveWeights, HeldWeights, Total;
    TotalSum(a, b, ab);
    TotalSum(c, d, cd);
    TotalSum(ab, cd, whole);
  }

  lemma WeightsAdd(m: Job, f: Field)
    requires f == Nonterminal || f == RunningNow
    ensures Weight(Deferred, f, m) + Weight(Maintenance, f, m) + Weight(Daily, f, m) + Weight(Broadcast, f, m)
            == if (if f == Nonterminal then Active(m.state) else Held(m.state)) then 1 else 0
  {
  }

  lemma LaneTotal(db: Db, past: Past, l: Lane)
    requires Accounted(db, past)
    ensures Total(JobWeights(db.jobs, l, Nonterminal)) <= JobCap(l)
    ensures Total(JobWeights(db.jobs, l, RunningNow)) <= Workers(l)
  {
    assert Counter(db.counts, l, Nonterminal)
        == Measure(db.jobs, db.owners, l, Nonterminal) + Counter(past.leaked, l, Nonterminal);
    assert Counter(db.counts, l, RunningNow)
        == Measure(db.jobs, db.owners, l, RunningNow) + Counter(past.leaked, l, RunningNow);
    assert Counter(past.leaked, l, Nonterminal) >= 0 && Counter(past.leaked, l, RunningNow) >= 0;
    hide Counter;
  }

  lemma DueSmaller(z: map<Id, int>, now: Time)
    ensures |Due(z, now)| <= |z|
  {
    assert Due(z, now).Keys <= z.Keys;
    SubsetSize(Due(z, now).Keys, z.Keys);
  }

  lemma ActiveBound(db: Db, past: Past, s: set<Id>)
    requires Accounted(db, past) && forall id :: id in s ==> id in db.jobs && Active(db.jobs[id].state)
    ensures |s| <= 242
  {
    hide Accounted, JobWeights, Total;
    FourLanes(db.jobs, Nonterminal, ActiveWeights(db.jobs));
    LaneTotal(db, past, Deferred);
    LaneTotal(db, past, Maintenance);
    LaneTotal(db, past, Daily);
    LaneTotal(db, past, Broadcast);
    CountBound(s, ActiveWeights(db.jobs));
  }

  lemma HeldBound(db: Db, past: Past, s: set<Id>)
    requires Accounted(db, past) && forall id :: id in s ==> id in db.jobs && Held(db.jobs[id].state)
    ensures |s| <= 7
  {
    hide Accounted, JobWeights, Total;
    FourLanes(db.jobs, RunningNow, HeldWeights(db.jobs));
    LaneTotal(db, past, Deferred);
    LaneTotal(db, past, Maintenance);
    LaneTotal(db, past, Daily);
    LaneTotal(db, past, Broadcast);
    CountBound(s, HeldWeights(db.jobs));
  }

  lemma LaneBound(db: Db, past: Past, l: Lane, s: set<Id>)
    requires Accounted(db, past)
    requires forall id :: id in s ==> id in db.jobs && db.jobs[id].t.lane == l && Active(db.jobs[id].state)
    ensures |s| <= 100
  {
    LaneTotal(db, past, l);
    hide Accounted;
    CountBound(s, JobWeights(db.jobs, l, Nonterminal));
  }

  /** Admission caps keep every scanned index far below the scan limits of 256 and 128. */
  lemma ScansComplete(db: Db, past: Past, now: Time, l: Lane)
    requires Inv(db, past)
    ensures |Due(db.deadline, now)| <= 242 <= 256
    ensures |Due(db.running, now)| <= 7 <= 256
    ensures |Due(LaneView(db.delayed, l), now)| <= 100 <= 128
    ensures |LaneView(db.ready, l)| <= 100 <= 128
  {
    hide ReadyExact, DelayedExact, RunningExact, DeadlineExact, PayloadExpiryExact, PayloadsExact;
    hide OwnersExact, MetaExact, UsersExact, ConflictsExact, RecordsOk, PermitExact, Recorded, LanesOk, Accounted;
    hide LaneView, Due;
    HeldMembers(db.deadline, db.running, db.jobs);
    LaneMembers(db.delayed, db.ready, db.jobs, l);
    ActiveBound(db, past, db.deadline.Keys);
    HeldBound(db, past, db.running.Keys);
    LaneBound(db, past, l, LaneView(db.delayed, l).Keys);
    LaneBound(db, past, l, LaneView(db.ready, l).Keys);
    DueSmaller(db.deadline, now);
    DueSmaller(db.running, now);
    DueSmaller(LaneView(db.delayed, l), now);
  }

  lemma HeldMembers(deadline: map<Id, int>, running: map<Id, int>, jobs: map<Id, Job>)
    requires DeadlineExact(deadline, jobs) && RunningExact(running, jobs)
    ensures forall id :: id in deadline <==> id in jobs && Active(jobs[id].state)
    ensures forall id :: id in running <==> id in jobs && Held(jobs[id].state)
  {
  }

  lemma LaneMembers(delayed: map<(Lane, Id), int>, ready: map<(Lane, Id), int>, jobs: map<Id, Job>, l: Lane)
    requires DelayedExact(delayed, jobs) && ReadyExact(ready, jobs)
    ensures forall id :: id in LaneView(delayed, l) <==> id in jobs && jobs[id].t.lane == l && jobs[id].state == Delayed
    ensures forall id :: id in LaneView(delayed, l) ==> LaneView(delayed, l)[id] == jobs[id].notBefore
    ensures forall id :: id in LaneView(ready, l) <==> id in jobs && jobs[id].t.lane == l && jobs[id].state == Queued
    ensures forall id :: id in LaneView(ready, l) ==> LaneView(ready, l)[id] == Score(jobs[id])
  {
    forall id | id in jobs && jobs[id].t.lane == l && jobs[id].state == Delayed ensures id in LaneView(delayed, l) {
      assert (l, id) in delayed;
    }
    forall id | id in jobs && jobs[id].t.lane == l && jobs[id].state == Queued ensures id in LaneView(ready, l) {
      assert (l, id) in ready;
    }
  }
}
