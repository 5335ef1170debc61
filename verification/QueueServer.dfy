/** The queue script as the server runs it: a sweep, then one command, each one atomic step. */
module QueueServer {
  import opened Wrappers
  import opened QueueTypes
  import opened QueueInvariant
  import opened QueueLog
  import opened QueueOps
  import opened QueueSteps
  import opened QueueGone
  import opened QueueSweep
  import opened SortedSets
  import opened QueueLoops
  import opened QueueCommands
  import opened QueueClaim
  import opened QueueOwner
  import opened QueueAdmission
  import opened QueueIdentity
  import opened QueueAnswers
  import opened QueueStock
  import opened QueueDuty
  import opened QueueCalls
  import opened QueueMeaning

  datatype FinishReply = OwnershipConflict | Replayed | Disposed
  datatype OperationReply =
    | OperationConflict | Repeated(target: Option<Id>) | RevisionConflict | NotAvailable
    | Rejected(why: Refusal) | Done(task: Option<Id>)

  predicate Paused(d: Db, l: Lane) { l in d.lanes && d.lanes[l].claimPaused }

  /** A decision on an operator retry at the state `d`. */
  function RetryDecision(d: Db, id: Id, child: Id, p: Policy, identity: Key, fingerprint: Key): Decision
    requires id in d.jobs && id in d.payloads
  {
    Decide(d, ChildRequest(d, id, child), p, identity, fingerprint, Credit(d.jobs[id]))
  }

  /** Every active job has its payload. */
  ghost predicate AllPaid(d: Db) { forall id :: id in d.jobs && Active(d.jobs[id].state) ==> id in d.payloads }

  ghost predicate PaidFor(d: Db) {
    forall id :: id in d.jobs && Active(d.jobs[id].state) ==> d.jobs[id].payloadExpiresAt > d.clock
  }

  lemma SweptWhole(d: Db, d': Db, now: Time, batch: set<Id>, past: Past)
    requires d'.jobs.Keys == Alive(d.jobs, now).Keys && d'.clock == now
    requires forall id :: id in d'.jobs ==>
      d'.jobs[id] == Swept(now, id in batch, id in ExpireKeys(d, now).payloads, d.jobs[id])
    requires forall id :: id in d'.jobs && d.jobs[id].accounted && d.jobs[id].payloadExpiresAt <= now ==> id in batch
    requires Inv(d', past)
    ensures Prompt(d') && PaidFor(d')
  {
    hide Swept, PromptJob, Inv, RecordOk, PayloadsExact, ConflictsExact;
    forall id | id in d'.jobs
      ensures PromptJob(d'.jobs[id], now) && (Active(d'.jobs[id].state) ==> d'.jobs[id].payloadExpiresAt > now)
    {
      Known(d', id, past);
      ActiveAccounted(d'.jobs[id], now);
      SweptPrompt(now, id in batch, id in ExpireKeys(d, now).payloads, d.jobs[id]);
    }
  }

  lemma ActiveAccounted(m: Job, clock: Time)
    requires RecordOk(m, clock)
    ensures Active(m.state) ==> m.accounted
  {
  }

  lemma SweptPaid(d: Db)
    requires Stocked(d) && PaidFor(d)
    ensures AllPaid(d)
  {
    hide Stocked;
    forall id | id in d.jobs && Active(d.jobs[id].state) ensures id in d.payloads { PayloadThere(d, id); }
  }

  /** A metadata scan that fits its limit leaves no removed record behind. */
  lemma NothingWaits(d0: Db, d: Db, retired: set<Id>, past: Past)
    requires Cleaned(d0, d, retired) && FirstOf(Due(d0.metaExpiry, d0.clock), retired, 256)
    requires |Due(d0.metaExpiry, d0.clock)| <= 256 && d.clock == d0.clock
    requires Inv(d, past)
    ensures forall id :: id in d.metaExpiry ==> d.metaExpiry[id] > d.clock
    ensures Answered(d) ==> forall id :: id in d.owners ==> id in d.jobs
  {
    hide Inv, Members, AllAnswer, Fading, SetsTimed;
    FirstOfAll(Due(d0.metaExpiry, d0.clock), retired, 256);
    MetaKnown(d, past);
    forall id | id in d.metaExpiry ensures d.metaExpiry[id] > d.clock {
      assert id !in Due(d.metaExpiry, d0.clock);
    }
  }

  lemma ExpireShape(d: Db, now: Time)
    ensures var d0 := ExpireKeys(d, now);
            && d0.jobs == Alive(d.jobs, now) && d0.clock == now && d0.sequence == d.sequence && d0.lanes == d.lanes
            && d0.payloadExpiry == d.payloadExpiry && d0.metaExpiry == d.metaExpiry
            && (forall id :: id in d0.jobs ==> id in d.jobs && d0.jobs[id] == d.jobs[id])
  {
  }

  /** What the expiry of keys keeps; links only while no silence was too long. */
  lemma ExpireUpholds(d: Db, past: Past, now: Time)
    requires d.clock <= now && Settledown(d, past)
    ensures Linked(d) && now <= d.clock + LONGEST_GAP ==> Linked(ExpireKeys(d, now))
    ensures Answered(d) ==> Answered(ExpireKeys(d, now))
    ensures Stocked(d) ==> Stocked(ExpireKeys(d, now))
  {
    hide Linked, Answered, Stocked, Inv, Fresh, ExpireKeys;
    if Linked(d) && now <= d.clock + LONGEST_GAP { LinkedExpire(d, past, now); }
    if Answered(d) { AnsweredExpire(d, past, now); }
    if Stocked(d) { StockedExpire(d, now); }
  }

  /** What the loops make of the state a sweep found. */
  lemma SweptState(d: Db, d': Db, now: Time, batch: set<Id>, retired: set<Id>, past: Past)
    requires d.clock <= now == d'.clock && d'.sequence == d.sequence && d'.jobs.Keys == Alive(d.jobs, now).Keys
    requires forall id :: id in d'.jobs ==>
      id in d.jobs && d'.jobs[id] == Swept(now, id in batch, id in ExpireKeys(d, now).payloads, d.jobs[id])
    requires |Due(d.payloadExpiry, now)| <= 256 ==>
      forall id :: id in d'.jobs && d.jobs[id].accounted && d.jobs[id].payloadExpiresAt <= now ==> id in batch
    requires FirstOf(Due(d.metaExpiry, now), retired, 256) && Cleaned(ExpireKeys(d, now), d', retired)
    requires Inv(d', past)
    ensures Progress(d, d') && Fresh(d') && Reowned(d, past.tokens, d')
    ensures |Due(d.payloadExpiry, now)| <= 256 ==> Prompt(d') && (Stocked(d') ==> AllPaid(d'))
    ensures |Due(d.metaExpiry, now)| <= 256 ==>
      && (forall id :: id in d'.metaExpiry ==> d'.metaExpiry[id] > now)
      && (Answered(d') ==> forall id :: id in d'.owners ==> id in d'.jobs)
  {
    hide Answered, Stocked, Inv, Swept, Fresh, Progress, Reowned, Prompt, FirstOf, Cleaned, Due, PaidFor, AllPaid,
      Alive;
    hide ExpireKeys;
    ExpireShape(d, now);
    SweepProgress(d, d', now, batch);
    ReownedSwept(d, d', now, batch, past.tokens);
    if |Due(d.payloadExpiry, now)| <= 256 {
      SweptWhole(d, d', now, batch, past);
      if Stocked(d') { SweptPaid(d'); }
    }
    if |Due(d.metaExpiry, now)| <= 256 { NothingWaits(ExpireKeys(d, now), d', retired, past); }
  }

  class Store {
    var db: Db
    ghost var past: Past

    /** The namespace before its first call. */
    constructor (now: Time)
      ensures db == Vacant(now) && past == START
      ensures Settledown(db, past) && Linked(db) && Answered(db) && Prompt(db) && Stocked(db)
    {
      StartInv(now);
      db := Vacant(now);
      past := START;
    }

    /** The sweep that precedes every command. On each record it is `Swept`, however the bounded scans
        were ordered, and nothing overdue is left; the payload scan takes the first 256 due entries and
        the metadata scan retires the first 256 due ones. */
    method Sweep(now: Time) returns (ghost batch: set<Id>, ghost retired: set<Id>)
      requires db.clock <= now && Settledown(db, past)
      modifies this
      ensures Settledown(db, past) && db.clock == now && Progress(old(db), db)
      ensures Reowned(old(db), old(past).tokens, db) && db.sequence == old(db).sequence && db.lanes == old(db).lanes
      ensures Linked(old(db)) && now <= old(db).clock + LONGEST_GAP ==> Linked(db)
      ensures Answered(old(db)) ==> Answered(db)
      ensures Stocked(old(db)) ==> Stocked(db)
      ensures past == old(past).(leaked := LeakBytes(old(past).leaked, old(db.jobs), now))
      ensures db.jobs.Keys == Alive(old(db.jobs), now).Keys
      ensures forall id :: id in db.jobs ==>
        db.jobs[id] == Swept(now, id in batch, id in ExpireKeys(old(db), now).payloads, old(db).jobs[id])
      ensures SweepsRecords(old(db), db, now, batch) && SweepsKeys(old(db), db, now, retired)
      ensures FirstOf(Due(old(db).payloadExpiry, now), batch, 256)
      ensures |Due(old(db).payloadExpiry, now)| <= 256 ==> Prompt(db)
      ensures |Due(old(db).payloadExpiry, now)| <= 256 && Stocked(old(db)) ==> AllPaid(db)
      ensures FirstOf(Due(old(db).metaExpiry, now), retired, 256) && Cleaned(ExpireKeys(old(db), now), db, retired)
      ensures |Due(old(db).metaExpiry, now)| <= 256 ==> forall id :: id in db.metaExpiry ==> db.metaExpiry[id] > now
      ensures |Due(old(db).metaExpiry, now)| <= 256 && Answered(old(db)) ==> forall id :: id in db.owners ==>
        id in db.jobs
    {
      hide Linked, Answered, Stocked, Inv, LeakBytes, Swept, Fresh, Progress, Reowned, Prompt, FirstOf, Cleaned, Due;
      hide AllPaid, Alive, ExpireKeys, SweepsRecords, SweepsKeys;
      ghost var d, before := db, past;
      ExpireInv(d, past, now);
      ExpireUpholds(d, past, now);
      past := past.(leaked := LeakBytes(past.leaked, d.jobs, now));
      var d' := ExpireKeys(db, now);
      ExpireShape(d, now);
      d', batch, retired := SweepLoops(d', past);
      SweptState(d, d', now, batch, retired, past);
      SweepMeans(d, d', now, batch, before);
      CleanedMeans(d, d', now, retired);
      db := d';
    }

    /** `claim`: the first eligible job of the lane is started; nothing is started exactly when the lane
        is paused, at its worker cap, or has no eligible job. Jobs ahead of it end only for their own cause. */
    method Claim(l: Lane, token: Token) returns (r: Option<Id>)
      requires token !in past.tokens && Settledown(db, past)
      modifies this
      ensures Answered(old(db)) ==> Answered(db)
      ensures Sound(old(db), old(past), db, past) && db.sequence == old(db).sequence
      ensures r == None <==>
        Paused(old(db), l) || Counter(old(db).counts, l, RunningNow) >= Workers(l) || NoneEligible(old(db), l)
      ensures Paused(old(db), l) || Counter(old(db).counts, l, RunningNow) >= Workers(l) ==> db == old(db)
      ensures r.Some? ==> Chosen(old(db), db, l, token, r.value)
      ensures ClaimsAs(old(db), db, l, token, r)
      ensures r.Some? ==> past == ClaimPast(old(past), old(db).jobs[r.value], token)
      ensures r == None ==> past == old(past)
      ensures !(Paused(old(db), l) || Counter(old(db).counts, l, RunningNow) >= Workers(l)) ==>
        AllPassed(old(db), db, l, r)
    {
      hide Linked, Answered, Stocked, Settledown, Progress, Reowned, Prompt, Chosen, AllPassed, NoneEligible, Counter,
        Workers,
        Paused;
      hide ClaimsAs, LaneStopped;
      SoundSelf(db, past);
      StoppedMeans(db, l);
      if Paused(db, l) || Counter(db.counts, l, RunningNow) >= Workers(l) {
        StoppedClaim(db, l, token);
        return None;
      }
      var d: Db;
      ghost var d0 := db;
      d, r := ClaimLoop(db, l, token, past);
      AllPassedFrame(d0, d, l, r);
      if r.Some? {
        ChosenEligible(d0, d, l, token, r.value);
        ChosenStored(d0, d, l, token, r.value);
        ReownedPassed(d0, d, l, r, token, past.tokens);
        PromptPassed(d0, d, l, r);
        ClaimStarts(d0, d, l, token, r.value, past);
        past := ClaimPast(past, d0.jobs[r.value], token);
      } else {
        ClaimPasses(d0, d, l, token, past);
        ReownedPassed(d0, d, l, r, token, past.tokens);
        PromptPassed(d0, d, l, r);
      }
      db := d;
    }

    /** `heartbeat`: the owner, and nobody else, renews the lease and the image permit. */
    method Heartbeat(id: Id, token: Token, revision: int) returns (ok: bool)
      requires Settledown(db, past)
      modifies this
      ensures Answered(old(db)) ==> Answered(db)
      ensures Sound(old(db), old(past), db, past) && past == old(past)
      ensures ok <==> Owns(old(db), id, token, revision)
      ensures ok <==> InCharge(old(db), id, token, revision)
      ensures ok ==>
        && db.jobs == old(db).jobs[id := old(db).jobs[id].(heartbeatAt := db.clock)]
        && db == old(db).(jobs := db.jobs, running := db.running, permit := db.permit)
      ensures ok ==> Rewrote(old(db), db, id, Beaten(old(db).clock, old(db).jobs[id]))
      ensures !ok ==> db == old(db)
    {
      hide Linked, Answered, Stocked, Settledown, Progress, Reowned, Prompt, BeatOne;
      SoundSelf(db, past);
      ok := Owns(db, id, token, revision);
      if ok {
        var m := db.jobs[id];
        RetryKnown(db, id, past);
        BeatStep(db, id, token, revision, past);
        OwnerNames(db, id, token, Success, None, 0, past);
        ReownedRewrote(db, BeatOne(db, id, token), id, Beaten(db.clock, m), past.tokens);
        PromptNext(db, BeatOne(db, id, token), id, Beaten(db.clock, m));
        BeatShape(db, id, token);
        db := BeatOne(db, id, token);
      }
    }

    /** `finish`: settles the start its token owns, once; a repeat returns what is stored, and
        any other caller changes nothing. */
    method Finish(id: Id, token: Token, revision: int, outcome: Outcome, reason: Option<string>, delay: Time)
      returns (r: FinishReply)
      requires delay >= 0 && Settledown(db, past)
      modifies this
      ensures r.Replayed? <==> id in old(db).jobs && old(db).jobs[id].finishToken == Some(token)
      ensures r.Disposed? <==> !r.Replayed? && Owns(old(db), id, token, revision)
      ensures r.Disposed? <==> !r.Replayed? && InCharge(old(db), id, token, revision)
      ensures !r.Disposed? ==> db == old(db) && past == old(past)
      ensures r.Disposed? ==>
        && Rewrote(old(db), db, id, FinishedJob(old(db), old(db).jobs[id], token, outcome, reason, delay))
        && past == FinishPast(old(past), old(db).jobs[id], token, outcome)
        && db.jobs[id].finishToken == Some(token) && Undisturbed(old(db), db)
        && (id in db.payloads <==> db.jobs[id].accounted && id in old(db).payloads)
      ensures r.Disposed? ==> Settles(old(db), db, id, token, outcome, reason, delay)
      ensures Answered(old(db)) ==> Answered(db)
      ensures Sound(old(db), old(past), db, past)
    {
      hide Linked, Answered, Stocked, Undisturbed, Settledown, Progress, Reowned, Prompt, FinishOne, FinishedJob,
        Settles, Sound, Rewrote, Inv, Fresh;
      SoundSelf(db, past);
      if id in db.jobs && db.jobs[id].finishToken == Some(token) { return Replayed; }
      if !Owns(db, id, token, revision) { return OwnershipConflict; }
      FinishWhole(db, id, token, revision, outcome, reason, delay, past);
      SettledInv(db, past);
      SettleMeans(db, FinishOne(db, id, token, outcome, reason, delay), id, token, outcome, reason, delay, past);
      past := FinishPast(past, db.jobs[id], token, outcome);
      db := FinishOne(db, id, token, outcome, reason, delay);
      r := Disposed;
    }

    /** `cancel`: at once for a waiting job, by request for a running one; a repeated operation
        and a stale revision change nothing. */
    method Cancel(op: Key, fingerprint: Key, id: Id, revision: int) returns (r: OperationReply)
      requires Settledown(db, past)
      modifies this
      ensures Answered(old(db)) ==> Answered(db)
      ensures Sound(old(db), old(past), db, past) && past == old(past)
      ensures !r.Done? ==> db == old(db)
      ensures r.Done? <==> op !in old(db).operations && id in old(db).jobs && old(db).jobs[id].revision == revision
      ensures r.OperationConflict? <==> OtherOperation(old(db), op, fingerprint)
      ensures r.Repeated? <==> KnownOperation(old(db), op, fingerprint)
      ensures r.Repeated? ==> r.target == old(db).operations[op].target
      ensures r.RevisionConflict? <==>
        op !in old(db).operations && !(id in old(db).jobs && old(db).jobs[id].revision == revision)
      ensures r.Done? ==>
        && r.task == Some(id) && Cancels(old(db), db, id)
        && Files(old(db), db, op, fingerprint, Some(id), Some(id))
      ensures r.Done? ==> db.operations == old(db).operations[op := Operation(fingerprint, Some(id), db.clock + DAY)]
      ensures r.Done? ==> Rewrote(old(db), db, id, CalledOff(old(db).clock, old(db).jobs[id]))
      ensures db.owners.Keys == old(db).owners.Keys && db.idem.Keys == old(db).idem.Keys
    {
      hide Linked, Answered, Stocked, Settledown, Progress, Reowned, Prompt, CancelOne, CalledOff, Cancels, Files;
      SoundSelf(db, past);
      if op in db.operations {
        return if db.operations[op].fingerprint != fingerprint then OperationConflict
          else Repeated(db.operations[op].target);
      }
      if id !in db.jobs || db.jobs[id].revision != revision { return RevisionConflict; }
      var d' := Noted(CancelOne(db, id), op, fingerprint, Some(id), Some(id));
      CancelStep(db, id, past);
      CancelFrame(db, d', id, past.tokens);
      CancelMeans(db, d', id, past);
      CancelFiles(db, id, op, fingerprint);
      NotedInv(CancelOne(db, id), op, fingerprint, Some(id), Some(id), past);
      ProgressTransitive(db, CancelOne(db, id), d');
      db := d';
      r := Done(Some(id));
    }

    /** `set_lane`: compare-and-set of the pause switches; the admission policy stays. */
    method SetLane(op: Key, fingerprint: Key, l: Lane, p: Policy, revision: int, admissionPaused: bool,
        claimPaused: bool)
      returns (r: OperationReply)
      requires Positive(p) && Settledown(db, past)
      modifies this
      ensures Answered(old(db)) ==> Answered(db)
      ensures Sound(old(db), old(past), db, past) && past == old(past) && db.jobs == old(db).jobs
      ensures !r.Done? ==> db == old(db)
      ensures r.Done? <==> op !in old(db).operations && LaneOf(old(db), l, p).revision == revision
      ensures r.OperationConflict? <==> OtherOperation(old(db), op, fingerprint)
      ensures r.Repeated? <==> KnownOperation(old(db), op, fingerprint)
      ensures r.Repeated? ==> r.target == old(db).operations[op].target
      ensures r.RevisionConflict? <==> op !in old(db).operations && !AtRevision(old(db), l, revision)
      ensures r.Done? <==> op !in old(db).operations && AtRevision(old(db), l, revision)
      ensures r.Done? ==>
        && r.task == None && Files(old(db), db, op, fingerprint, None, None)
        && db == old(db).(lanes := db.lanes, operations := db.operations)
        && db.lanes == old(db).lanes[l := LaneState(revision + 1, admissionPaused, claimPaused,
          if l in old(db).lanes then old(db).lanes[l].policy else p)]
      ensures r.Done? ==>
        && db.sequence == old(db).sequence
        && db.operations == old(db).operations[op := Operation(fingerprint, None, db.clock + DAY)]
        && db.lanes == old(db).lanes[l := LaneState(revision + 1, admissionPaused, claimPaused,
          LaneOf(old(db), l, p).policy)]
    {
      hide Linked, Answered, Stocked, Settledown, Progress, Reowned, Prompt;
      SoundSelf(db, past);
      if op in db.operations {
        return if db.operations[op].fingerprint != fingerprint then OperationConflict
          else Repeated(db.operations[op].target);
      }
      var lane := LaneOf(db, l, p);
      if lane.revision != revision { return RevisionConflict; }
      LaneKnown(db, l, p, past);
      lane := LaneState(revision + 1, admissionPaused, claimPaused, lane.policy);
      LaneInv(db, l, lane, past);
      var d := db.(lanes := db.lanes[l := lane]);
      NotedInv(d, op, fingerprint, None, None, past);
      ReownedJobs(db, Noted(d, op, fingerprint, None, None), past.tokens);
      PromptJobs(db, Noted(d, op, fingerprint, None, None));
      ProgressTransitive(db, d, Noted(d, op, fingerprint, None, None));
      db := Noted(d, op, fingerprint, None, None);
      r := Done(None);
    }

    /** `admit`: the answer is `Decide`. An accepted submission writes its record whether or not its id is
        new; the keyspace stays consistent exactly when no index knew the id. */
    method Admit(q: Request, p: Policy, identity: Key, fingerprint: Key) returns (a: Decision)
      requires Positive(p) && Fits(q, None) && Settledown(db, past)
      modifies this
      ensures AnswersTo(old(db), q.lane, |q.text|, q.conflictKeys, p, identity, fingerprint, 0, a)
      ensures a.Accept? ==>
        && q.id in db.jobs && db.jobs == old(db).jobs[q.id := db.jobs[q.id]]
        && EntersAs(old(db), q, a.policy.maxAge, a.policy.maxAttempts, identity, fingerprint, None, db.jobs[q.id])
        && Stores(old(db), db, q.id, q.text, identity, fingerprint) && db.lanes == old(db).lanes[q.lane := a.lane]
      ensures a.Alias? ==> Aliases(old(db), db, a.task, identity, fingerprint)
      ensures a == Decide(old(db), q, p, identity, fingerprint, 0)
      ensures !(a.Accept? && q.id in old(db).owners) ==> Sound(old(db), old(past), db, past)
      ensures !(a.Accept? && q.id in old(db).owners) && Answered(old(db)) ==> Answered(db)
      ensures a.Accept? ==> (Consistent(db) <==> q.id !in old(db).owners)
      ensures a.Accept? ==>
        && db == InsertOne(old(db), q, a, identity, fingerprint, None)
        && db.jobs == old(db).jobs[q.id := NewJob(old(db), q, a.policy, identity, fingerprint, None)]
        && past == AdmitPast(old(past), db.sequence, None)
      ensures !a.Accept? ==> db.jobs == old(db).jobs && past == old(past) && db.sequence == old(db).sequence
      ensures a.Existing? || a.Refuse? ==> db == old(db)
      ensures a.Alias? ==>
        db == AliasTo(old(db), a.task, identity, fingerprint) && a.task in db.jobs && Active(db.jobs[a.task].state)
    {
      hide Linked, Answered, Stocked, Settledown, Progress, Reowned, Prompt, Consistent, Decide, NewJob, InsertOne,
        Positive,
        Fits, AnswersTo, EntersAs, Stores, Aliases;
      SoundSelf(db, past);
      a := Decide(db, q, p, identity, fingerprint, 0);
      DecideMeans(db, q, p, identity, fingerprint, 0);
      match a
      case Existing(_, _) =>
      case Refuse(_) =>
      case Alias(task) =>
        var d' := AliasTo(db, task, identity, fingerprint);
        AliasStep(db, q, p, identity, fingerprint, 0, past);
        AliasMeans(db, task, identity, fingerprint);
        ReownedJobs(db, d', past.tokens);
        PromptJobs(db, d');
        db := d';
      case Accept(_, _) =>
        var d' := InsertOne(db, q, a, identity, fingerprint, None);
        AcceptedExactly(db, q, p, identity, fingerprint, past);
        InsertShape(db, q, a, identity, fingerprint, None);
        NewJobMeans(db, q, a.policy, identity, fingerprint, None);
        StoresMeans(db, q, a, identity, fingerprint, None);
        if q.id !in db.owners {
          AcceptFresh(db, q, p, identity, fingerprint, 0);
          AdmitStep(db, q, p, identity, fingerprint, past);
          InsertNames(db, q, a, identity, fingerprint, None, past);
          NewUnowned(db, q, a.policy, identity, fingerprint, None);
          ReownedJobs(db, d', past.tokens);
          PromptJobs(db, d');
        }
        db := d';
        past := AdmitPast(past, db.sequence, None);
    }

    /** `retry` by an operator: done exactly for an unused operation on a retryable parent whose child's
        admission is granted; then the child, if one was created, has taken over the parent's grant. */
    method Retry(op: Key, fingerprint: Key, id: Id, revision: int, epoch: Option<int>, child: Id, p: Policy,
        identity: Key)
      returns (r: OperationReply)
      requires Positive(p) && Settledown(db, past)
      modifies this
      ensures r.OperationConflict? <==> op in old(db).operations && old(db).operations[op].fingerprint != fingerprint
      ensures r.Repeated? <==> op in old(db).operations && old(db).operations[op].fingerprint == fingerprint
      ensures r.Repeated? ==> r.target == old(db).operations[op].target
      ensures Retryable(old(db), id, revision, epoch) <==> MayRetry(old(db), id, revision, epoch)
      ensures op !in old(db).operations && MayRetry(old(db), id, revision, epoch) ==>
        var m, a := old(db).jobs[id], RetryDecision(old(db), id, child, p, identity, fingerprint);
        && AnswersTo(old(db), m.t.lane, m.t.payloadBytes, m.t.conflictKeys, p, identity, fingerprint,
                     m.t.payloadBytes, a)
        && (r.Done? <==> a.Accept? || a.Alias? || (a.Existing? && a.same))
        && (r.Done? ==> r.task == Some(if a.Accept? then child else a.task))
        && (r.Done? ==> Files(old(db), db, op, fingerprint, r.task, Some(id)))
      ensures r.RevisionConflict? <==>
        op !in old(db).operations && !(id in old(db).jobs && old(db).jobs[id].revision == revision)
      ensures r.NotAvailable? <==>
        && op !in old(db).operations && id in old(db).jobs && old(db).jobs[id].revision == revision
        && !Retryable(old(db), id, revision, epoch)
      ensures r.Done? <==>
        && op !in old(db).operations && Retryable(old(db), id, revision, epoch)
        && Granted(RetryDecision(old(db), id, child, p, identity, fingerprint))
      ensures r.Rejected? ==>
        var a := RetryDecision(old(db), id, child, p, identity, fingerprint);
        if a.Refuse? then r.why == a.why else a.Existing? && !a.same && r.why == IdempotencyConflict
      ensures !r.Done? ==> db == old(db) && past == old(past) && Sound(old(db), old(past), db, past)
      ensures r.Done? ==>
        var a := RetryDecision(old(db), id, child, p, identity, fingerprint);
        && r.task == Some(TaskOf(a, child))
        && db == Noted(Retried(old(db), id, child, a, identity, fingerprint), op, fingerprint, r.task, Some(id))
        && past == RetryPast(old(past), old(db), id, a)
        && (a.Accept? ==> (Consistent(db) <==> child !in old(db).owners))
        && ((a.Accept? && child in old(db).owners) || Regular(old(db), old(past), db, past, id, child, a, identity))
    {
      hide Linked, Answered, Stocked, Settledown, Progress, Reowned, Prompt, Retryable, Positive, Consistent, Regular,
        RetryDecision, Retried, AnswersTo, MayRetry;
      SoundSelf(db, past);
      RetryableMeans(db, id, revision, epoch);
      if op in db.operations {
        return if db.operations[op].fingerprint != fingerprint then OperationConflict
          else Repeated(db.operations[op].target);
      }
      RetryGuard(db, id, revision, epoch);
      if id !in db.jobs || db.jobs[id].revision != revision { return RevisionConflict; }
      if !Retryable(db, id, revision, epoch) { return NotAvailable; }
      var a := RetryDecision(db, id, child, p, identity, fingerprint);
      RetryAnswers(db, id, revision, epoch, child, p, identity, fingerprint, past);
      RetriedSide(db, id, child, a, identity, fingerprint);
      if !Granted(a) { return Rejected(if a.Refuse? then a.why else IdempotencyConflict); }
      var task := TaskOf(a, child);
      var d' := Noted(Retried(db, id, child, a, identity, fingerprint), op, fingerprint, Some(task), Some(id));
      RetryWhole(db, id, revision, epoch, child, p, identity, fingerprint, op, past);
      past := RetryPast(past, db, id, a);
      db := d';
      r := Done(Some(task));
    }

    /** `erase`: the picked jobs of the user leave every index, whatever their state. The ledger of the
        state counters grows by exactly the picked ids whose record was already gone. */
    method Erase(user: int, pick: seq<Id>)
      requires Distinct(pick) && (forall i :: 0 <= i < |pick| ==> (user, pick[i]) in db.users)
      requires Settledown(db, past)
      modifies this
      ensures Sound(old(db), old(past), db, past)
      ensures Erased(old(db), db, user, Taken(pick, |pick|))
      ensures Forgotten(old(db), db, Taken(pick, |pick|))
      ensures Answered(old(db)) ==> (Answered(db) <==> Tidy(old(db), Taken(pick, |pick|)))
      ensures past == old(past).(leaked := past.leaked)
      ensures Charged(old(db), old(past).leaked, past.leaked, Taken(pick, |pick|))
    {
      hide Linked, Answered, Stocked, Tidy, Forgotten, Inv, Fresh, Progress, Reowned, Prompt, Taken;
      hide EraseRecord, EraseVanished, LeakState, Erased, Charged, SameBytes, Distinct;
      var d := db;
      ghost var p := past;
      ErasedFirst(d, user, pick);
      ChargedFirst(d, p.leaked);
      TakenNone(pick);
      for i := 0 to |pick|
        invariant db == old(db) && past == old(past) && p == past.(leaked := p.leaked)
        invariant Inv(d, p) && (Linked(db) ==> Linked(d)) && (Stocked(db) ==> Stocked(d))
        invariant Erased(db, d, user, Taken(pick, i)) && Forgotten(db, d, Taken(pick, i))
        invariant Charged(db, past.leaked, p.leaked, Taken(pick, i))
      {
        var id := pick[i];
        ErasedRest(db, d, user, pick, i);
        OwnedUser(d, user, id, p);
        EraseStep(d, user, id, p);
        EraseShape(d, user, id);
        TakenNext(pick, i);
        ForgottenStep(db, d, user, pick, i);
        if id in d.jobs {
          ErasedNext(db, d, EraseRecord(d, d.jobs[id], user), user, Taken(pick, i), id);
          ChargedStored(db, past.leaked, p.leaked, Taken(pick, i), id);
          d := EraseRecord(d, d.jobs[id], user);
        } else {
          ErasedNext(db, d, EraseVanished(d, id, user), user, Taken(pick, i), id);
          ChargedVanished(db, past.leaked, p.leaked, Taken(pick, i), id);
          p := p.(leaked := LeakState(p.leaked, d.owners[id]));
          d := EraseVanished(d, id, user);
        }
      }
      ErasedFresh(db, d, user, Taken(pick, |pick|));
      ChargedBytes(db, past.leaked, p.leaked, Taken(pick, |pick|));
      if Answered(db) { ErasureExact(db, d, Taken(pick, |pick|)); }
      past := p;
      db := d;
    }
  }

  lemma FinishWhole(d: Db, id: Id, token: Token, revision: int, outcome: Outcome, reason: Option<string>, delay: Time,
      past: Past)
    requires Owns(d, id, token, revision) && delay >= 0
    requires Settledown(d, past)
    ensures var d' := FinishOne(d, id, token, outcome, reason, delay);
      && Sound(d, past, d', FinishPast(past, d.jobs[id], token, outcome)) && (Answered(d) ==> Answered(d'))
      && Rewrote(d, d', id, FinishedJob(d, d.jobs[id], token, outcome, reason, delay))
      && id in d'.jobs && d'.jobs[id].finishToken == Some(token) && Undisturbed(d, d')
      && (id in d'.payloads <==> d'.jobs[id].accounted && id in d.payloads)
  {
    hide Linked, Answered, Stocked, Undisturbed, Settledown, Progress, Reowned, Prompt, FinishOne, FinishedJob, Rewrote;
    var d' := FinishOne(d, id, token, outcome, reason, delay);
    var m' := FinishedJob(d, d.jobs[id], token, outcome, reason, delay);
    FinishStep(d, id, token, revision, outcome, reason, delay, past);
    OwnerNames(d, id, token, outcome, reason, delay, past);
    FinishFrees(d, d.jobs[id], token, outcome, reason, delay);
    FinishPayload(d, id, token, outcome, reason, delay, past);
    ReownedRewrote(d, d', id, m', past.tokens);
    PromptNext(d, d', id, m');
    RewroteAt(d, d', id, m');
    assert Extends(past.log, FinishPast(past, d.jobs[id], token, outcome).log);
  }

  lemma RewroteAt(d: Db, d': Db, id: Id, m: Job)
    requires Rewrote(d, d', id, m)
    ensures id in d'.jobs && d'.jobs[id] == m && d'.clock == d.clock
  {
  }

  lemma BeatShape(d: Db, id: Id, token: Token)
    requires id in d.jobs && d.jobs[id].t.id == id
    ensures var d' := BeatOne(d, id, token);
      && d'.jobs == d.jobs[id := d.jobs[id].(heartbeatAt := d.clock)]
      && d' == d.(jobs := d'.jobs, running := d'.running, permit := d'.permit)
  {
  }

  lemma StoppedMeans(d: Db, l: Lane)
    ensures Paused(d, l) || Counter(d.counts, l, RunningNow) >= Workers(l) <==> LaneStopped(d, l)
  {
    hide Counter;
  }

  lemma StoppedClaim(d: Db, l: Lane, token: Token)
    requires LaneStopped(d, l)
    ensures ClaimsAs(d, d, l, token, None)
  {
    hide LaneStopped;
  }

  lemma ClaimPasses(d: Db, d': Db, l: Lane, token: Token, past: Past)
    requires AllPassed(d, d', l, None) && NoneEligible(d, l) && !LaneStopped(d, l)
    requires Settledown(d, past)
    ensures ClaimsAs(d, d', l, token, None)
  {
    hide Inv, Fresh, AllPassed, Eligible, Startable, LeavesAs, LaneStopped, RecordOk, PayloadsExact, ConflictsExact;
    PassedKeys(d, d', l, None);
    forall id ensures !Startable(d, l, id) {
      assert !Eligible(d, l, id);
      if id in d.jobs { Known(d, id, past); }
      StartableMeans(d, l, id, d.clock);
    }
    forall id | id in d.jobs ensures LeavesAs(d, d', l, None, id) {
      Known(d, id, past);
      PassedMeans(d, d', l, None, id, d.clock);
    }
  }

  lemma PassedKeys(d: Db, d': Db, l: Lane, r: Option<Id>)
    requires AllPassed(d, d', l, r)
    ensures d'.jobs.Keys == d.jobs.Keys
  {
    hide Met, Considered, Undisturbed;
  }

  lemma ClaimStarts(d: Db, d': Db, l: Lane, token: Token, id: Id, past: Past)
    requires AllPassed(d, d', l, Some(id)) && Chosen(d, d', l, token, id) && !LaneStopped(d, l)
    requires Settledown(d, past)
    ensures ClaimsAs(d, d', l, token, Some(id))
  {
    hide Inv, Fresh, AllPassed, Eligible, Startable, LeavesAs, LaneStopped, RecordOk, PayloadsExact, ConflictsExact;
    hide Begun, StartsAs, Ahead, RanksBefore;
    PassedKeys(d, d', l, Some(id));
    EligibleStored(d, l, id);
    Known(d, id, past);
    RecordRange(d.jobs[id], d.clock);
    StartableMeans(d, l, id, d.clock);
    BegunMeans(d.clock, d.jobs[id], token);
    forall o | Startable(d, l, o) ensures o in d.jobs && RanksBefore(d, id, o) {
      if o in d.jobs { Known(d, o, past); }
      StartableMeans(d, l, o, d.clock);
      EligibleStored(d, l, o);
      RanksMeans(d, id, o);
    }
    forall o | o in d.jobs && o != id ensures LeavesAs(d, d', l, Some(id), o) {
      Known(d, o, past);
      PassedMeans(d, d', l, Some(id), o, d.clock);
    }
  }

  lemma EligibleStored(d: Db, l: Lane, id: Id)
    ensures Eligible(d, l, id) ==> id in d.jobs
  {
  }

  /** A granted retry that did not overwrite anything. */
  ghost predicate Regular(d: Db, p: Past, d': Db, p': Past, id: Id, child: Id, a: Decision, identity: Key) {
    Sound(d, p, d', p') && (Answered(d) ==> Answered(d')) && Begot(d, d', id, child, a, identity)
  }

  lemma RetryAnswers(d: Db, id: Id, revision: int, epoch: Option<int>, child: Id, p: Policy, identity: Key,
      fingerprint: Key, past: Past)
    requires Retryable(d, id, revision, epoch)
    requires Settledown(d, past)
    ensures id in d.jobs && id in d.payloads
    ensures AnswersTo(d, d.jobs[id].t.lane, d.jobs[id].t.payloadBytes, d.jobs[id].t.conflictKeys, p, identity,
              fingerprint, d.jobs[id].t.payloadBytes, RetryDecision(d, id, child, p, identity, fingerprint))
  {
    hide Settledown, AnswersTo, Fits, Decide;
    RetryFacts(d, id, revision, epoch, past);
    DecideMeans(d, ChildRequest(d, id, child), p, identity, fingerprint, Credit(d.jobs[id]));
  }

  lemma RetriedSide(d: Db, id: Id, child: Id, a: Decision, identity: Key, fingerprint: Key)
    requires id in d.jobs && id in d.payloads
    ensures SameSide(d, Retried(d, id, child, a, identity, fingerprint))
  {
    hide RetryOne, SpendOne, SameSide;
    SpendSide(d, id);
    match a
    case Refuse(_) => SideSelf(d);
    case Existing(_, _) => SideSelf(d);
    case Alias(task) =>
      AliasSide(d, task, identity, fingerprint);
      SpendSide(AliasTo(d, task, identity, fingerprint), id);
      SideThrough(d, AliasTo(d, task, identity, fingerprint), SpendOne(AliasTo(d, task, identity, fingerprint), id));
    case Accept(_, _) => RetrySide(d, id, child, a, identity, fingerprint);
  }

  ghost predicate SameSide(d: Db, d': Db) {
    d'.operations == d.operations && d'.commands == d.commands && d'.clock == d.clock
  }

  lemma SideSelf(d: Db)
    ensures SameSide(d, d)
  {
  }

  lemma SideThrough(a: Db, b: Db, c: Db)
    requires SameSide(a, b) && SameSide(b, c)
    ensures SameSide(a, c)
  {
  }

  lemma SpendSide(d: Db, id: Id)
    requires id in d.jobs
    ensures SameSide(d, SpendOne(d, id))
  {
    hide ByteCounts;
  }

  lemma AliasSide(d: Db, task: Id, identity: Key, fingerprint: Key)
    ensures SameSide(d, AliasTo(d, task, identity, fingerprint))
      && AliasTo(d, task, identity, fingerprint).jobs == d.jobs
  {
  }

  lemma RetrySide(d: Db, id: Id, child: Id, a: Decision, identity: Key, fingerprint: Key)
    requires id in d.jobs && id in d.payloads && a.Accept?
    ensures SameSide(d, RetryOne(d, id, child, a, identity, fingerprint))
  {
    hide ByteCounts, NewJob, Spent;
  }

  lemma RetryWhole(d: Db, id: Id, revision: int, epoch: Option<int>, child: Id, p: Policy, identity: Key,
      fingerprint: Key, op: Key, past: Past)
    requires Retryable(d, id, revision, epoch) && Positive(p)
    requires Granted(RetryDecision(d, id, child, p, identity, fingerprint))
    requires Settledown(d, past)
    ensures var a := RetryDecision(d, id, child, p, identity, fingerprint);
            var d' := Noted(Retried(d, id, child, a, identity, fingerprint), op, fingerprint, Some(TaskOf(a, child)),
              Some(id));
            && (a.Accept? ==> (Consistent(d') <==> child !in d.owners))
            && ((a.Accept? && child in d.owners)
              || Regular(d, past, d', RetryPast(past, d, id, a), id, child, a, identity))
  {
    hide Linked, Answered, Stocked, Settledown, Progress, Reowned, Prompt, Retryable, Positive, Consistent, Decide,
      ChildRequest, Credit;
    hide RetryOne, SpendOne, AliasTo, Begot;
    RetryParent(d, id, revision, epoch);
    var a := RetryDecision(d, id, child, p, identity, fingerprint);
    var d1 := Retried(d, id, child, a, identity, fingerprint);
    var d' := Noted(d1, op, fingerprint, Some(TaskOf(a, child)), Some(id));
    ConsistentNoted(d1, d');
    if a.Accept? { RetriedExactly(d, id, revision, epoch, child, p, identity, fingerprint, past); }
    if !(a.Accept? && child in d.owners) {
      RetriedSound(d, id, revision, epoch, child, p, identity, fingerprint, past);
      NotedInv(d1, op, fingerprint, Some(TaskOf(a, child)), Some(id), RetryPast(past, d, id, a));
      ProgressTransitive(d, d1, d');
      BegotSide(d, d1, d', id, child, a, identity, past.tokens);
      BegotClock(d, d', id, child, a, identity);
      assert Extends(past.log, RetryPast(past, d, id, a).log);
      assert Sound(d, past, d', RetryPast(past, d, id, a));
    }
  }

  lemma BegotClock(d: Db, d': Db, id: Id, child: Id, a: Decision, identity: Key)
    requires Begot(d, d', id, child, a, identity)
    ensures d'.clock == d.clock
  {
  }

  /** Idempotency, operation and command keys are no part of the invariant. */
  lemma ConsistentNoted(d: Db, d': Db)
    requires Aside(d, d')
    ensures Consistent(d) <==> Consistent(d')
  {
    hide Inv;
    forall p: Past ensures Inv(d, p) <==> Inv(d', p) { InvSide(d, d', p); }
  }

  lemma InvSide(d: Db, d': Db, p: Past)
    requires Aside(d, d')
    ensures Inv(d, p) <==> Inv(d', p)
  {
    hide ReadyExact, DelayedExact, RunningExact, DeadlineExact, PayloadExpiryExact, PayloadsExact;
    hide OwnersExact, MetaExact, UsersExact, ConflictsExact, RecordsOk, LanesOk, PermitExact;
    hide CountsExact, LeaksOk, CapsOk, LogShape, JobLogs, TokensOk;
  }

  lemma RetryGuard(d: Db, id: Id, revision: int, epoch: Option<int>)
    ensures Retryable(d, id, revision, epoch) ==> id in d.jobs && id in d.payloads && d.jobs[id].revision == revision
  {
  }

  lemma InsertShape(d: Db, r: Request, a: Decision, identity: Key, fingerprint: Key, parent: Option<Id>)
    requires a.Accept?
    ensures InsertOne(d, r, a, identity, fingerprint, parent).jobs
              == d.jobs[r.id := NewJob(d, r, a.policy, identity, fingerprint, parent)]
  {
  }

  lemma NewUnowned(d: Db, q: Request, p: Policy, identity: Key, fingerprint: Key, parent: Option<Id>)
    ensures NewJob(d, q, p, identity, fingerprint, parent).owner == None
    ensures Active(NewJob(d, q, p, identity, fingerprint, parent).state)
  {
  }

  lemma AcceptFresh(d: Db, q: Request, p: Policy, identity: Key, fingerprint: Key, credit: int)
    requires Decide(d, q, p, identity, fingerprint, credit).Accept?
    ensures identity !in d.idem
  {
  }

  lemma LaneKnown(d: Db, l: Lane, p: Policy, past: Past)
    requires Positive(p) && Settledown(d, past)
    ensures Positive(LaneOf(d, l, p).policy)
  {
    hide Indexed, RecordsOk, Accounted, PermitExact, Recorded, Fresh;
  }

  lemma AllPassedFrame(d0: Db, d: Db, l: Lane, r: Option<Id>)
    requires AllPassed(d0, d, l, r)
    ensures d.clock == d0.clock && d.sequence == d0.sequence
  {
    hide Met, Considered, Members, Due;
  }

  lemma ChosenEligible(d0: Db, d: Db, l: Lane, token: Token, id: Id)
    requires Chosen(d0, d, l, token, id)
    ensures !NoneEligible(d0, l) && id in d.jobs && Active(d.jobs[id].state)
  {
    hide Ahead;
    assert Eligible(d0, l, id);
  }

  /** The record a cancel command leaves. */
  function CalledOff(now: Time, m: Job): Job {
    if Held(m.state) then Asked(m)
    else if Active(m.state) then Ended(now, m, Cancelled, CancelAsked, false)
    else m
  }

  function CancelOne(d: Db, id: Id): Db
    requires id in d.jobs
  {
    if Held(d.jobs[id].state) then AskOne(d, id)
    else if Active(d.jobs[id].state) then EndOne(d, id, Cancelled, CancelAsked, false)
    else d
  }

  lemma CancelStep(d: Db, id: Id, past: Past)
    requires id in d.jobs && Settledown(d, past)
    ensures var d' := CancelOne(d, id);
            && Settledown(d', past) && Progress(d, d') && Upholds(d, d') && d'.operations == d.operations
            && Rewrote(d, d', id, CalledOff(d.clock, d.jobs[id]))
            && d'.owners.Keys == d.owners.Keys && d'.idem.Keys == d.idem.Keys
  {
    hide Linked, Answered, Stocked, Settledown, Progress, AskOne, EndOne, Ended, Asked;
    var m := d.jobs[id];
    CancelKeys(d, id, past);
    if Held(m.state) {
      AskStep(d, id, past);
      OwnerNames(d, id, 0, Success, None, 0, past);
      AskShape(d, id);
    } else if Active(m.state) {
      EndStep(d, id, Cancelled, CancelAsked, false, past);
      EndNames(d, id, Cancelled, CancelAsked, false, past);
      KeepsNothing(d.payloads, m);
    } else {
      ProgressSelf(d, d);
      assert d.jobs[id := m] == d.jobs;
    }
  }

  lemma CancelMeans(d: Db, d': Db, id: Id, past: Past)
    requires id in d.jobs && Rewrote(d, d', id, CalledOff(d.clock, d.jobs[id]))
    requires Settledown(d, past)
    ensures Cancels(d, d', id)
  {
    hide Inv, Fresh, RecordOk, PayloadsExact, ConflictsExact, CalledOff, CancelsAs;
    Known(d, id, past);
    RecordRange(d.jobs[id], d.clock);
    CalledOffMeans(d.clock, d.jobs[id]);
  }

  lemma CalledOffMeans(now: Time, m: Job)
    requires Active(m.state) ==> m.accounted
    ensures CancelsAs(now, m, CalledOff(now, m))
  {
  }

  lemma CancelFiles(d: Db, id: Id, op: Key, fingerprint: Key)
    requires id in d.jobs
    ensures Files(d, Noted(CancelOne(d, id), op, fingerprint, Some(id), Some(id)), op, fingerprint, Some(id), Some(id))
  {
    hide EndOne, AskOne;
    EndSide(d, id);
    AskShape(d, id);
  }

  lemma EndSide(d: Db, id: Id)
    requires id in d.jobs
    ensures var d' := EndOne(d, id, Cancelled, CancelAsked, false);
      d'.operations == d.operations && d'.commands == d.commands && d'.clock == d.clock
  {
    hide EndCounts, FreeConflicts, RefreshIdem, RefreshSet, Retime, ReleasePermit, Keeps, Ended, Members;
  }

  lemma CancelFrame(d: Db, d': Db, id: Id, tokens: set<Token>)
    requires id in d.jobs && Rewrote(d, d', id, CalledOff(d.clock, d.jobs[id]))
    ensures Reowned(d, tokens, d') && (Prompt(d) ==> Prompt(d'))
  {
    var m := CalledOff(d.clock, d.jobs[id]);
    assert m.owner == None || m.owner == d.jobs[id].owner;
    if Prompt(d) {
      assert PromptJob(d.jobs[id], d.clock);
      PromptNext(d, d', id, m);
    }
    ReownedRewrote(d, d', id, m, tokens);
  }

  lemma CancelKeys(d: Db, id: Id, past: Past)
    requires id in d.jobs && Settledown(d, past)
    ensures CancelOne(d, id).owners.Keys == d.owners.Keys && CancelOne(d, id).idem.Keys == d.idem.Keys
  {
    hide Inv, Fresh, EndOne, AskOne, RecordOk, PayloadsExact, ConflictsExact;
    Known(d, id, past);
    Unswept(d, id, past);
    AskKeys(d, id);
    if Active(d.jobs[id].state) { EndKeys(d, id); }
  }

  lemma AskKeys(d: Db, id: Id)
    requires id in d.jobs && id in d.owners && d.jobs[id].t.id == id
    ensures AskOne(d, id).owners.Keys == d.owners.Keys && AskOne(d, id).idem == d.idem
  {
    hide StateCounts;
  }

  lemma EndKeys(d: Db, id: Id)
    requires id in d.jobs && id in d.owners && d.jobs[id].t.id == id && id !in d.metaExpiry
    ensures var d' := EndOne(d, id, Cancelled, CancelAsked, false);
            d'.owners.Keys == d.owners.Keys && d'.idem.Keys == d.idem.Keys
  {
    hide Terminal, Members, Due;
    UndisturbedEnd(d, d.jobs[id], Cancelled, CancelAsked, false);
  }

  lemma AskShape(d: Db, id: Id)
    requires id in d.jobs
    ensures AskOne(d, id).operations == d.operations && AskOne(d, id).commands == d.commands
    ensures AskOne(d, id).clock == d.clock
  {
    hide StateCounts;
  }

  lemma FinishFrees(d: Db, m: Job, token: Token, outcome: Outcome, reason: Option<string>, delay: Time)
    ensures var m' := FinishedJob(d, m, token, outcome, reason, delay);
            m'.owner == None && m'.finishToken == Some(token) && PromptJob(m', d.clock)
  {
  }

  /** A settled job has its payload exactly while it is accounted for. */
  lemma FinishPayload(d: Db, id: Id, token: Token, outcome: Outcome, reason: Option<string>, delay: Time, past: Past)
    requires id in d.jobs && Held(d.jobs[id].state) && Settledown(d, past)
    ensures id in FinishOne(d, id, token, outcome, reason, delay).payloads <==>
      FinishedJob(d, d.jobs[id], token, outcome, reason, delay).accounted && id in d.payloads
  {
    hide Inv, Fresh, PayloadsExact, ConflictsExact, FinishPlan, RecordOk, Terminal, Postpone, Ended, Postponed;
    var m := d.jobs[id];
    Known(d, id, past);
    ActiveAccounted(m, d.clock);
    match FinishPlan(d.clock, m, outcome, reason, delay)
    case End(to, why, safe) => EndPayload(d, m, to, why, safe);
    case Later(why) => LaterPayload(d, m, delay, why);
  }

  lemma EndPayload(d: Db, m: Job, to: JobState, why: Reason, safe: bool)
    requires m.accounted
    ensures m.t.id in Terminal(d.clock, Cursor(d, m), to, why, safe).db.payloads <==>
      Ended(d.clock, m, to, why, Keeps(d.payloads, m, safe)).accounted && m.t.id in d.payloads
  {
    hide EndCounts, FreeConflicts, RefreshIdem, RefreshSet, Members;
  }

  lemma LaterPayload(d: Db, m: Job, delay: Time, why: Reason)
    requires m.accounted
    ensures m.t.id in Postpone(d.clock, Cursor(d, m), delay, why).db.payloads <==>
      Postponed(d.clock, m, delay, why).accounted && m.t.id in d.payloads
  {
    hide StateCounts, RunCounts, ReleasePermit;
  }

  lemma TakenNone(pick: seq<Id>)
    ensures Taken(pick, 0) == {}
  {
  }
}
