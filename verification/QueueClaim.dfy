/** The claim: which queued job of a lane is started, and what happens to those passed over. */
module QueueClaim {
  import opened Wrappers
  import opened QueueTypes
  import opened QueueInvariant
  import opened QueueOps
  import opened QueueSteps
  import opened SortedSets
  import opened QueueLoops
  import opened QueueIdentity
  import opened QueueAnswers
  import opened QueueStock
  import opened QueueCommands

  /** A job the claim may start: queued in the lane, attempts and payload left, and no other
      image job in its way. */
  predicate Eligible(d: Db, l: Lane, id: Id) {
    && id in d.jobs && d.jobs[id].t.lane == l && d.jobs[id].state == Queued
    && d.jobs[id].attempts < d.jobs[id].t.maxAttempts && id in d.payloads
    && (d.jobs[id].t.imageWork ==> d.permit == None)
  }

  /** The record of a queued job the claim meets and does not start: it ends for its own cause, or
      waits behind the image permit. */
  function Considered(d: Db, id: Id): Job
    requires id in d.jobs
  {
    var m := d.jobs[id];
    if m.attempts >= m.t.maxAttempts then
      Ended(d.clock, m, Failed, AttemptsExhausted, Keeps(d.payloads, m, true))
    else if (!m.t.imageWork || d.permit == None) && id !in d.payloads then
      Ended(d.clock, m, Expired, PayloadExpired, false)
    else
      m
  }

  /** The order of the ready list. */
  predicate Ahead(d: Db, a: Id, b: Id)
    requires a in d.jobs && b in d.jobs
  {
    Score(d.jobs[a]) < Score(d.jobs[b]) || (Score(d.jobs[a]) == Score(d.jobs[b]) && a <= b)
  }

  predicate Met(d: Db, l: Lane, o: Id, r: Option<Id>)
    requires o in d.jobs
  {
    && d.jobs[o].t.lane == l && d.jobs[o].state == Queued
    && (r == None || (r.value in d.jobs && Ahead(d, o, r.value)))
  }

  /** What the claim does to every job but the one it starts: those ahead of it are considered, all
      others are untouched. */
  ghost predicate AllPassed(d0: Db, d: Db, l: Lane, r: Option<Id>) {
    && d.jobs.Keys == d0.jobs.Keys && Undisturbed(d0, d) && d.sequence == d0.sequence
    && forall o :: o in d0.jobs && r != Some(o) ==>
         d.jobs[o] == if Met(d0, l, o, r) then Considered(d0, o) else d0.jobs[o]
  }

  /** The claimed job was eligible before the call, and no eligible job is ahead of it. */
  ghost predicate Chosen(d0: Db, d: Db, l: Lane, token: Token, id: Id) {
    && Eligible(d0, l, id) && id in d.jobs && d.jobs[id] == Begun(d0.clock, d0.jobs[id], token) && id in d.payloads
    && forall o :: Eligible(d0, l, o) ==> Ahead(d0, id, o)
  }

  ghost predicate NoneEligible(d: Db, l: Lane) { forall o :: !Eligible(d, l, o) }

  // ---- one iteration -----------------------------------------------------------------------------

  /** What one iteration that starts nothing does. */
  ghost predicate PassedOver(d: Db, d': Db, id: Id) {
    && id in d.jobs && !Eligible(d, d.jobs[id].t.lane, id)
    && d'.jobs == d.jobs[id := Considered(d, id)]
    && Undisturbed(d, d') && d'.permit == d.permit && d'.sequence == d.sequence
    && (forall o :: o != id ==> (o in d'.payloads <==> o in d.payloads))
  }

  /** What the iteration that starts a job does. */
  ghost predicate Started(d: Db, d': Db, id: Id, token: Token) {
    && id in d.jobs && Eligible(d, d.jobs[id].t.lane, id) && id in d'.payloads
    && d'.jobs == d.jobs[id := Begun(d.clock, d.jobs[id], token)]
    && Undisturbed(d, d') && d'.sequence == d.sequence
  }

  /** One iteration of the claim loop. */
  method Consider(d: Db, id: Id, token: Token, ghost past: Past) returns (d': Db, began: bool)
    requires token !in past.tokens && id in d.jobs && d.jobs[id].state == Queued
    requires Counter(d.counts, d.jobs[id].t.lane, RunningNow) < Workers(d.jobs[id].t.lane)
    requires Settledown(d, past)
    ensures Progress(d, d') && Upholds(d, d')
    ensures began <==> Eligible(d, d.jobs[id].t.lane, id)
    ensures began ==> Started(d, d', id, token) && Settledown(d', ClaimPast(past, d.jobs[id], token))
    ensures !began ==>
      && Settledown(d', past) && PassedOver(d, d', id)
      && Counter(d'.counts, d.jobs[id].t.lane, RunningNow) == Counter(d.counts, d.jobs[id].t.lane, RunningNow)
  {
    hide Linked, Answered, Stocked, Undisturbed, Settledown, Progress, EndOne, BeginOne, Begun, Keeps, Ended, Counter,
      Workers;
    var m := d.jobs[id];
    WaitingFacts(d, id, past);
    began := false;
    if m.attempts >= m.t.maxAttempts {
      EndStep(d, id, Failed, AttemptsExhausted, true, past);
      EndNames(d, id, Failed, AttemptsExhausted, true, past);
      EndKeepsRunning(d, id, Failed, AttemptsExhausted, true, m.t.lane);
      d' := EndOne(d, id, Failed, AttemptsExhausted, true);
    } else if !m.t.imageWork || d.permit == None {
      if id !in d.payloads {
        EndStep(d, id, Expired, PayloadExpired, false, past);
        EndNames(d, id, Expired, PayloadExpired, false, past);
        EndKeepsRunning(d, id, Expired, PayloadExpired, false, m.t.lane);
        KeepsNothing(d.payloads, m);
        d' := EndOne(d, id, Expired, PayloadExpired, false);
      } else {
        BeginStep(d, id, token, past);
        BeginNames(d, id, token, past);
        BeginPayload(d, id, token);
        d' := BeginOne(d, id, token);
        began := true;
      }
    } else {
      ProgressSelf(d, d);
      UndisturbedSelf(d);
      assert d.jobs[id := m] == d.jobs;
      d' := d;
    }
  }

  lemma UndisturbedSelf(d: Db)
    ensures Undisturbed(d, d)
  {
  }

  lemma UndisturbedClock(d: Db, d': Db)
    requires Undisturbed(d, d')
    ensures d'.clock == d.clock
  {
    hide Members, Due;
  }

  lemma KeepsNothing(payloads: map<Id, Payload>, m: Job)
    ensures !Keeps(payloads, m, false)
  {
  }

  lemma BeginPayload(d: Db, id: Id, token: Token)
    requires id in d.jobs && id in d.payloads
    ensures id in BeginOne(d, id, token).payloads
  {
    hide StateCounts, Bump, Budget, BudgetEnd, Rebudgeted;
  }

  lemma WaitingFacts(d: Db, id: Id, past: Past)
    requires id in d.jobs && d.jobs[id].state == Queued
    requires Settledown(d, past)
    ensures d.jobs[id].owner == None && d.jobs[id].accounted
  {
    hide Inv, Fresh, PayloadsExact, ConflictsExact;
    Known(d, id, past);
  }

  // ---- the scan --------------------------------------------------------------------------------------

  /** `ids` is the whole ready list of the lane, in order. */
  ghost predicate ReadyList(d0: Db, l: Lane, ids: seq<Id>) {
    && Distinct(ids)
    && (forall id :: id in ids <==> id in d0.jobs && d0.jobs[id].t.lane == l && d0.jobs[id].state == Queued)
    && (forall j, k :: 0 <= j < k < |ids| ==> Ahead(d0, ids[j], ids[k]))
    && (forall id :: id in ids ==> d0.jobs[id].t.id == id)
  }

  /** The positions before `i` were considered and none of them was eligible; the others are untouched. */
  ghost predicate Scanned(d0: Db, d: Db, l: Lane, ids: seq<Id>, i: nat) {
    && i <= |ids| && d.jobs.Keys == d0.jobs.Keys && (forall j :: 0 <= j < |ids| ==> ids[j] in d0.jobs)
    && d.permit == d0.permit && Undisturbed(d0, d) && d.sequence == d0.sequence
    && (forall j :: 0 <= j < |ids| ==>
          d.jobs[ids[j]] == if j < i then Considered(d0, ids[j]) else d0.jobs[ids[j]])
    && (forall j :: i <= j < |ids| ==> (ids[j] in d.payloads <==> ids[j] in d0.payloads))
    && (forall o :: o in d0.jobs && o !in ids ==> d.jobs[o] == d0.jobs[o])
    && (forall j :: 0 <= j < i ==> !Eligible(d0, l, ids[j]))
  }

  /** Nothing a scan has done so far changes how the next job is judged. */
  lemma ScanNext(d0: Db, d: Db, l: Lane, ids: seq<Id>, i: nat)
    requires ReadyList(d0, l, ids) && i < |ids| && Scanned(d0, d, l, ids, i)
    ensures ids[i] in d0.jobs && ids[i] in d.jobs && d.jobs[ids[i]] == d0.jobs[ids[i]]
    ensures d.jobs[ids[i]].state == Queued && d.jobs[ids[i]].t.lane == l
    ensures Eligible(d, l, ids[i]) <==> Eligible(d0, l, ids[i])
    ensures Considered(d, ids[i]) == Considered(d0, ids[i])
  {
    hide Ended, Ahead, Distinct, Undisturbed;
    UndisturbedClock(d0, d);
    assert ids[i] in ids;
  }

  lemma ScanOn(d0: Db, d: Db, d': Db, l: Lane, ids: seq<Id>, i: nat)
    requires ReadyList(d0, l, ids) && i < |ids| && Scanned(d0, d, l, ids, i) && PassedOver(d, d', ids[i])
    ensures Scanned(d0, d', l, ids, i + 1)
  {
    hide Considered, Ahead, Undisturbed;
    ScanNext(d0, d, l, ids, i);
    UndisturbedThrough(d0, d, d');
    hide Eligible;
    forall j | 0 <= j < |ids| && j != i ensures ids[j] != ids[i] {
      if j < i { assert ids[j] != ids[i]; }
    }
  }

  lemma ScanStarted(d0: Db, d: Db, d': Db, l: Lane, ids: seq<Id>, i: nat, token: Token)
    requires ReadyList(d0, l, ids) && i < |ids| && Scanned(d0, d, l, ids, i) && Started(d, d', ids[i], token)
    ensures Chosen(d0, d', l, token, ids[i]) && AllPassed(d0, d', l, Some(ids[i]))
  {
    hide Considered, Ended, Begun, Score, Undisturbed;
    ScanNext(d0, d, l, ids, i);
    UndisturbedThrough(d0, d, d');
    UndisturbedClock(d0, d);
    forall o | Eligible(d0, l, o) ensures Ahead(d0, ids[i], o) {
      var k :| 0 <= k < |ids| && ids[k] == o;
      if k == i { } else { assert k > i; }
    }
    forall o | o in d0.jobs && o != ids[i]
      ensures d'.jobs[o] == if Met(d0, l, o, Some(ids[i])) then Considered(d0, o) else d0.jobs[o]
    {
      ScanMet(d0, d, l, ids, i, o);
    }
  }

  /** The jobs met so far are those ahead of position `i`. */
  lemma ScanMet(d0: Db, d: Db, l: Lane, ids: seq<Id>, i: nat, o: Id)
    requires ReadyList(d0, l, ids) && i < |ids| && Scanned(d0, d, l, ids, i)
    requires o in d0.jobs && o != ids[i] && ids[i] in d0.jobs
    ensures d.jobs[o] == if Met(d0, l, o, Some(ids[i])) then Considered(d0, o) else d0.jobs[o]
  {
    hide Considered, Ended, Eligible, Score, Undisturbed;
    if o in ids {
      var k :| 0 <= k < |ids| && ids[k] == o;
      if k < i {
        assert Ahead(d0, ids[k], ids[i]);
      } else {
        assert Ahead(d0, ids[i], ids[k]);
      }
    }
  }

  lemma ScanDone(d0: Db, d: Db, l: Lane, ids: seq<Id>)
    requires ReadyList(d0, l, ids) && Scanned(d0, d, l, ids, |ids|)
    ensures NoneEligible(d0, l) && AllPassed(d0, d, l, None)
  {
    hide Considered, Ended, Ahead, Undisturbed;
    forall o ensures !Eligible(d0, l, o) {
      if o in ids { var k :| 0 <= k < |ids| && ids[k] == o; }
    }
    forall o | o in d0.jobs ensures d.jobs[o] == if Met(d0, l, o, None) then Considered(d0, o) else d0.jobs[o] {
      if o in ids { var k :| 0 <= k < |ids| && ids[k] == o; }
    }
  }

  /** The claim loop over the first 128 ready jobs of a lane: it starts the first eligible one, and
      starts nothing exactly when there is none. */
  method ClaimLoop(d0: Db, l: Lane, token: Token, ghost past: Past) returns (d: Db, r: Option<Id>)
    requires token !in past.tokens && Counter(d0.counts, l, RunningNow) < Workers(l)
    requires Settledown(d0, past)
    ensures Progress(d0, d) && AllPassed(d0, d, l, r) && Upholds(d0, d)
    ensures r == None ==> Settledown(d, past) && NoneEligible(d0, l)
    ensures r.Some? ==>
      Chosen(d0, d, l, token, r.value) && Settledown(d, ClaimPast(past, d0.jobs[r.value], token))
  {
    hide Linked, Answered, Stocked, Settledown, Progress, Counter, Workers, LaneView;
    hide Scanned, ReadyList, Started, PassedOver, Chosen, AllPassed, NoneEligible, Eligible, Considered;
    d := d0;
    ProgressSelf(d0, d0);
    var ids := Front(LaneView(d0.ready, l), 128);
    ReadyView(d0, past, l, ids);
    for i := 0 to |ids|
      invariant Settledown(d, past) && Progress(d0, d) && Scanned(d0, d, l, ids, i) && Upholds(d0, d)
      invariant Counter(d.counts, l, RunningNow) == Counter(d0.counts, l, RunningNow)
    {
      ghost var before := d;
      ScanNext(d0, d, l, ids, i);
      var began: bool;
      d, began := Consider(d, ids[i], token, past);
      ProgressTransitive(d0, before, d);
      if began {
        r := Some(ids[i]);
        ScanStarted(d0, before, d, l, ids, i, token);
        ChosenStored(d0, d, l, token, ids[i]);
        return;
      }
      ScanOn(d0, before, d, l, ids, i);
    }
    r := None;
    ScanDone(d0, d, l, ids);
  }

  lemma ChosenStored(d0: Db, d: Db, l: Lane, token: Token, id: Id)
    requires Chosen(d0, d, l, token, id)
    ensures id in d0.jobs && id in d.jobs && d.jobs[id].owner == Some(token) && d.jobs[id].t == d0.jobs[id].t
  {
  }

  lemma ReadyView(d: Db, past: Past, l: Lane, ids: seq<Id>)
    requires forall i :: 0 <= i < |ids| ==> ids[i] in LaneView(d.ready, l)
    requires forall i, j :: 0 <= i < j < |ids| ==> ids[i] != ids[j] && Before(LaneView(d.ready, l), ids[i], ids[j])
    requires |LaneView(d.ready, l)| <= 128 ==> forall o :: o in LaneView(d.ready, l) ==> o in ids
    requires Settledown(d, past)
    ensures ReadyList(d, l, ids) && Scanned(d, d, l, ids, 0)
  {
    hide Inv, LaneView, Score, Fresh, PayloadsExact, ConflictsExact, RecordOk, Undisturbed;
    UndisturbedSelf(d);
    DelayedView(d, past, l);
    forall id | id in ids ensures id in d.jobs && d.jobs[id].t.id == id { Known(d, id, past); }
    forall i, j | 0 <= i < j < |ids| ensures Ahead(d, ids[i], ids[j]) {
      assert Before(LaneView(d.ready, l), ids[i], ids[j]);
    }
  }
}
