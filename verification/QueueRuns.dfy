/** Whole runs of the queue: any sequence of calls at any times. */
module QueueRuns {
  import opened Wrappers
  import opened QueueTypes
  import opened QueueInvariant
  import opened QueueLog
  import opened QueueLoops
  import opened QueueCommands
  import opened QueueAdmission
  import opened QueueIdentity
  import opened QueueAnswers
  import opened QueueStock
  import opened QueueDuty
  import opened QueueCalls
  import opened QueueMeaning
  import opened QueueServer
  import opened QueueLedger
  import opened QueueNaming

  datatype Call = Call(at: Time, command: Command)

  /** What the callers of the script owe it: fresh owner tokens, positive policies and delays, and ids that
      belong to the user. A call that breaks this is never made; in a run it counts as a bare sweep. */
  predicate Legal(d: Db, issued: set<Token>, c: Command) {
    match c
    case DoClaim(_, token) => token !in issued
    case DoFinish(_, _, _, _, _, delay) => delay >= 0
    case DoSetLane(_, _, _, p, _, _, _) => Positive(p)
    case DoAdmit(q, p, _, _) => Positive(p) && Fits(q, None)
    case DoRetry(_, _, _, _, _, _, p, _) => Positive(p)
    case DoErase(user, pick) =>
      && (forall i, j :: 0 <= i < j < |pick| ==> pick[i] != pick[j])
      && (forall i :: 0 <= i < |pick| ==> (user, pick[i]) in d.users)
    case _ => true
  }

  /** No silence in the run is longer than the gap. */
  predicate Calm(clock: Time, calls: seq<Call>, gap: Time)
    decreases |calls|
  {
    calls == [] || (calls[0].at <= clock + gap && Calm(Max(clock, calls[0].at), calls[1..], gap))
  }

  predicate NoErasure(calls: seq<Call>) { forall i :: 0 <= i < |calls| ==> !calls[i].command.DoErase? }

  /** One call of a run: the state it found and the state its sweep made of it. */
  datatype Step = Step(found: Db, at: Time, swept: Db)

  ghost predicate FewPayloads(s: Step) { |Due(s.found.payloadExpiry, s.at)| <= 256 }
  ghost predicate FewRemoved(s: Step) { |Due(s.found.metaExpiry, s.at)| <= 256 }

  /** Records are named as they should be, and keys live long enough to lead to them. */
  ghost predicate Named(n: Names, d: Db) { AllNamed(n, d) && Linked(d) && Answered(d) }

  /** Every operation so far, and this one, is used for one parent. */
  ghost predicate Adopting(n: Names, d: Db, c: Command) {
    Proper(n, d, c) && AllNamed(n, d) && AllAdopted(n, d) && Adopts(n, c)
  }

  lemma RetryParts(d: Db, c: Command)
    requires c.DoRetry?
    ensures Retryable(d, c.id, c.revision, c.epoch) ==>
      c.id in d.jobs && c.id in d.payloads && d.jobs[c.id].retryGrants >= 1
  {
  }

  lemma SettledConsistent(d: Db, p: Past)
    requires Settledown(d, p)
    ensures Consistent(d)
  {
    hide Inv, Fresh;
  }

  /** One call of the script after its sweep: it keeps everything, or it overwrites a record, and then no
      history makes the keyspace consistent again. */
  method Dispatch(s: Store, c: Command, issued: set<Token>, ghost n: Names) returns (issued': set<Token>)
    requires s.past.tokens <= issued && Legal(s.db, issued, c)
    requires Settledown(s.db, s.past)
    modifies s
    ensures Consistent(s.db) <==> !Overwrites(old(s.db), c)
    ensures !Overwrites(old(s.db), c) ==> Sound(old(s.db), old(s.past), s.db, s.past) && s.past.tokens <= issued'
    ensures !Overwrites(old(s.db), c) && !c.DoErase? && Answered(old(s.db)) ==> Answered(s.db)
    ensures !Overwrites(old(s.db), c) && Linked(old(s.db)) && Answered(old(s.db)) ==> Answered(s.db)
    ensures !Overwrites(old(s.db), c) && Proper(n, old(s.db), c) && AllNamed(n, old(s.db)) ==> AllNamed(n, s.db)
    ensures !Overwrites(old(s.db), c) && Adopting(n, old(s.db), c) ==> AllAdopted(n, s.db)
  {
    hide ClaimsAs, InCharge, Settles, Cancels, Files;
    hide Linked, Answered, Stocked, Settledown, Progress, Positive, Fits, Reowned, Prompt, SameBytes, Begot, Decide;
    hide NewJob, Retried, Noted, RetryDecision, Consistent, Granted, Retryable, AllNamed, AllAdopted, Proper, Adopts;
    hide SameTickets, InsertOne, Tidy, Forgotten, Charged, Erased;
    issued' := issued;
    SoundSelf(s.db, s.past);
    ghost var d, p := s.db, s.past;
    match c {
      case SweepOnly =>
        TicketsKept(d, s.db, s.past);
        NamesStay(n, d, s.db);
        SettledConsistent(s.db, s.past);
      case DoClaim(l, token) =>
        var _ := s.Claim(l, token);
        issued' := issued + {token};
        TicketsKept(d, s.db, s.past);
        NamesStay(n, d, s.db);
        SettledConsistent(s.db, s.past);
      case DoHeartbeat(id, token, revision) =>
        var _ := s.Heartbeat(id, token, revision);
        TicketsKept(d, s.db, s.past);
        NamesStay(n, d, s.db);
        SettledConsistent(s.db, s.past);
      case DoFinish(id, token, revision, outcome, reason, delay) =>
        var _ := s.Finish(id, token, revision, outcome, reason, delay);
        TicketsKept(d, s.db, s.past);
        NamesStay(n, d, s.db);
        SettledConsistent(s.db, s.past);
      case DoCancel(op, fp, id, revision) =>
        var _ := s.Cancel(op, fp, id, revision);
        TicketsKept(d, s.db, s.past);
        NamesStay(n, d, s.db);
        SettledConsistent(s.db, s.past);
      case DoSetLane(op, fp, l, q, revision, a, b) =>
        var _ := s.SetLane(op, fp, l, q, revision, a, b);
        TicketsKept(d, s.db, s.past);
        NamesStay(n, d, s.db);
        SettledConsistent(s.db, s.past);
      case DoErase(user, pick) =>
        s.Erase(user, pick);
        ErasedSequence(d, s.db, user, Taken(pick, |pick|));
        TicketsKept(d, s.db, s.past);
        NamesStay(n, d, s.db);
        SettledConsistent(s.db, s.past);
        if Linked(d) { LinkedTidy(d, Taken(pick, |pick|)); }
      case DoAdmit(q, pol, identity, fp) => DispatchAdmit(s, c, n);
      case DoRetry(op, fp, id, revision, epoch, child, pol, identity) => DispatchRetry(s, c, n);
    }
  }

  method DispatchAdmit(s: Store, c: Command, ghost n: Names)
    requires c.DoAdmit? && Positive(c.policy) && Fits(c.request, None)
    requires Settledown(s.db, s.past)
    modifies s
    ensures Consistent(s.db) <==> !Overwrites(old(s.db), c)
    ensures !Overwrites(old(s.db), c) ==>
      Sound(old(s.db), old(s.past), s.db, s.past) && s.past.tokens == old(s.past).tokens
    ensures !Overwrites(old(s.db), c) && Answered(old(s.db)) ==> Answered(s.db)
    ensures !Overwrites(old(s.db), c) && Proper(n, old(s.db), c) ==>
      (AllNamed(n, old(s.db)) ==> AllNamed(n, s.db)) && (AllAdopted(n, old(s.db)) ==> AllAdopted(n, s.db))
  {
    hide AnswersTo, EntersAs, Stores;
    hide Linked, Answered, Stocked, Settledown, Progress, Positive, Fits, Reowned, Prompt, SameBytes, Decide,
      Consistent;
    hide NewJob, AllNamed, AllAdopted, Proper, SameTickets, InsertOne, AliasTo;
    ghost var d, p := s.db, s.past;
    var a := s.Admit(c.request, c.policy, c.identity, c.fingerprint);
    if a.Accept? {
      if Proper(n, d, c) { NamesAdmitted(n, d, s.db, c, a.policy); }
    } else {
      TicketsKept(d, s.db, s.past);
      NamesStay(n, d, s.db);
      SettledConsistent(s.db, s.past);
    }
  }

  method DispatchRetry(s: Store, c: Command, ghost n: Names)
    requires c.DoRetry? && Positive(c.policy)
    requires Settledown(s.db, s.past)
    modifies s
    ensures Consistent(s.db) <==> !Overwrites(old(s.db), c)
    ensures !Overwrites(old(s.db), c) ==>
      Sound(old(s.db), old(s.past), s.db, s.past) && s.past.tokens == old(s.past).tokens
    ensures !Overwrites(old(s.db), c) && Answered(old(s.db)) ==> Answered(s.db)
    ensures !Overwrites(old(s.db), c) && Proper(n, old(s.db), c) && AllNamed(n, old(s.db)) ==> AllNamed(n, s.db)
    ensures !Overwrites(old(s.db), c) && Adopting(n, old(s.db), c) ==> AllAdopted(n, s.db)
  {
    hide AnswersTo, MayRetry, Files;
    hide Linked, Answered, Stocked, Settledown, Sound, Regular, Positive, Consistent, Overwrites, Adopting;
    hide Retried, Noted, RetryDecision, Granted, Retryable, AllNamed, AllAdopted, Proper;
    ghost var d, p := s.db, s.past;
    RetryRefused(d, c);
    var r := s.Retry(c.op, c.fingerprint, c.id, c.revision, c.epoch, c.child, c.policy, c.identity);
    if r.Done? {
      RetryKept(n, d, p, s.db, s.past, c);
    } else {
      SameKept(n, d, c);
      SettledConsistent(d, p);
    }
  }

  lemma {:induction false} SameKept(n: Names, d: Db, c: Command)
    ensures Adopting(n, d, c) ==> AllAdopted(n, d)
  {
  }

  /** A granted retry that overwrites nothing keeps names and adoptions. */
  lemma {:induction false} RetryKept(n: Names, d: Db, p: Past, d': Db, p': Past, c: Command)
    requires c.DoRetry? && Retryable(d, c.id, c.revision, c.epoch)
    requires var a := RetryDecision(d, c.id, c.child, c.policy, c.identity, c.fingerprint);
             (a.Accept? && c.child in d.owners) || Regular(d, p, d', p', c.id, c.child, a, c.identity)
    requires Overwrites(d, c) <==>
      RetryDecision(d, c.id, c.child, c.policy, c.identity, c.fingerprint).Accept? && c.child in d.owners
    requires Settledown(d, p)
    ensures !Overwrites(d, c) ==> Sound(d, p, d', p') && (Answered(d) ==> Answered(d')) && Consistent(d')
    ensures !Overwrites(d, c) && Proper(n, d, c) && AllNamed(n, d) ==> AllNamed(n, d')
    ensures !Overwrites(d, c) && Adopting(n, d, c) ==> AllAdopted(n, d')
  {
    hide Linked, Answered, Stocked, Settledown, Progress, Reowned, Prompt, SameBytes, Begot, Consistent, Overwrites;
    hide RetryDecision, Retryable, AllNamed, AllAdopted, Proper, Adopts, Extends;
    RetryParts(d, c);
    SettledInv(d, p);
    var a := RetryDecision(d, c.id, c.child, c.policy, c.identity, c.fingerprint);
    if !Overwrites(d, c) {
      SettledConsistent(d', p');
      if Proper(n, d, c) { NamesBegot(n, d, d', c, a, p); }
    }
  }

  lemma RetryRefused(d: Db, c: Command)
    requires c.DoRetry?
    ensures Creates(d, c) ==>
      && c.op !in d.operations && Retryable(d, c.id, c.revision, c.epoch)
      && Granted(RetryDecision(d, c.id, c.child, c.policy, c.identity, c.fingerprint))
    ensures Overwrites(d, c) ==> Creates(d, c)
    ensures c.op !in d.operations && Retryable(d, c.id, c.revision, c.epoch) ==>
      && c.id in d.jobs && c.id in d.payloads
      && (Overwrites(d, c) <==>
            RetryDecision(d, c.id, c.child, c.policy, c.identity, c.fingerprint).Accept? && c.child in d.owners)
  {
    hide Decide, ChildRequest;
  }

  lemma ErasedSequence(d: Db, d': Db, user: int, gone: set<Id>)
    requires Erased(d, d', user, gone)
    ensures d'.sequence == d.sequence
  {
  }

  /** While at most 256 removed records wait, a call overwrites exactly if its operation was used before for
      another user's job. */
  ghost predicate Explained(step: Step, c: Command) {
    FewRemoved(step) ==> (Overwrites(step.swept, c) <==> Creates(step.swept, c) && Foreign(step.swept, c))
  }

  lemma {:induction false} SweptNames(n: Names, d: Db, step: Step, c: Command, p: Past)
    requires Progress(d, step.swept) && step.swept.sequence == d.sequence
    requires Linked(step.swept) && (Answered(d) ==> Answered(step.swept))
    requires FewRemoved(step) && Answered(d) ==> forall id :: id in step.swept.owners ==> id in step.swept.jobs
    requires Distinguishes(n) && Named(n, d) && Proper(n, step.swept, c)
    requires Settledown(step.swept, p)
    ensures Named(n, step.swept) && Explained(step, c)
    ensures AllAdopted(n, d) ==> AllAdopted(n, step.swept)
    ensures AllAdopted(n, d) && Adopts(n, c) && FewRemoved(step) ==> !Overwrites(step.swept, c)
  {
    hide Linked, Answered, Settledown, Progress, Overwrites, Creates, Foreign, AllNamed, AllAdopted, Proper, Adopts;
    hide Distinguishes, FewRemoved, SameTickets;
    TicketsKept(d, step.swept, p);
    NamesStay(n, d, step.swept);
    SettledInv(step.swept, p);
    if FewRemoved(step) { OverwriteForeign(n, step.swept, c, p); }
    if AllAdopted(n, d) && Adopts(n, c) { NoneForeign(n, step.swept, c, p); }
  }

  lemma SweepIsFew(step: Step)
    ensures FewPayloads(step) <==> |Due(step.found.payloadExpiry, step.at)| <= 256
    ensures FewRemoved(step) <==> |Due(step.found.metaExpiry, step.at)| <= 256
  {
  }

  /** The names of a call: what is assumed of them, and that no silence preceded it. */
  ghost predicate Introduced(n: Names, d: Db, step: Step, call: Call) {
    && Distinguishes(n) && Named(n, d) && call.at <= d.clock + LONGEST_GAP && Proper(n, step.swept, call.command)
  }

  lemma NamedParts(n: Names, d: Db)
    ensures Named(n, d) <==> AllNamed(n, d) && Linked(d) && Answered(d)
  {
  }

  /** One call: the sweep at its time, then its command. It keeps everything, or it overwrites a record. */
  method Advance(s: Store, call: Call, issued: set<Token>, ghost n: Names)
    returns (issued': set<Token>, broke: bool, ghost step: Step)
    requires s.past.tokens <= issued
    requires Settledown(s.db, s.past)
    modifies s
    ensures step.found == old(s.db) && step.at == Max(old(s.db).clock, call.at)
    ensures broke ==> Overwrites(step.swept, call.command) && !Consistent(s.db)
    ensures !broke ==> Settledown(s.db, s.past) && Progress(old(s.db), s.db) && Extends(old(s.past).log, s.past.log)
    ensures !broke ==> Reowned(old(s.db), old(s.past).tokens, s.db) && old(s.past).tokens <= s.past.tokens <= issued'
    ensures !broke ==> s.db.clock == step.at && (Stocked(old(s.db)) ==> Stocked(s.db))
    ensures !broke && Linked(old(s.db)) && call.at <= old(s.db).clock + LONGEST_GAP ==> Linked(s.db)
    ensures !broke && Answered(old(s.db)) && !call.command.DoErase? ==> Answered(s.db)
    ensures !broke && Tight(old(s.db), old(s.past)) && call.at <= old(s.db).clock + RETRY_GAP && FewPayloads(step) ==>
      Tight(s.db, s.past)
    ensures Introduced(n, old(s.db), step, call) ==> Explained(step, call.command) && (!broke ==> Named(n, s.db))
    ensures Introduced(n, old(s.db), step, call) && AllAdopted(n, old(s.db)) && Adopts(n, call.command) ==>
      (FewRemoved(step) ==> !broke) && (!broke ==> AllAdopted(n, s.db))
  {
    hide SweepsRecords, SweepsKeys;
    hide Linked, Answered, Stocked, Settledown, Progress, Legal, Overwrites, Reowned, Prompt, SameBytes, AllNamed,
      AllAdopted;
    hide Tight, Proper, Adopts, Extends, Consistent, Named, Distinguishes, Explained, FewRemoved, FewPayloads;
    hide Cleaned, AllPaid, Introduced;
    issued', broke := issued, false;
    ghost var d, p := s.db, s.past;
    var at := Max(s.db.clock, call.at);
    ghost var batch, retired := s.Sweep(at);
    ghost var d1, p1 := s.db, s.past;
    step := Step(d, at, d1);
    SweepIsFew(step);
    NamedParts(n, d);
    IntroducedParts(n, d, step, call);
    if Introduced(n, d, step, call) { SweptNames(n, d, step, call.command, p1); }
    TightSwept(d, p, d1, p1, at);
    ExtendsSelf(p.log);
    NamedParts(n, d1);
    if Legal(s.db, issued, call.command) {
      broke := Overwrites(s.db, call.command);
      issued' := Dispatch(s, call.command, issued, n);
      if !broke {
        ProgressTransitive(d, d1, s.db);
        ReownedTransitive(d, p.tokens, d1, p.tokens, s.db);
        TightCall(d1, p1, s.db, s.past);
        NamedParts(n, s.db);
      }
    }
  }

  lemma IntroducedParts(n: Names, d: Db, step: Step, call: Call)
    ensures Introduced(n, d, step, call) <==>
      Distinguishes(n) && Named(n, d) && call.at <= d.clock + LONGEST_GAP && Proper(n, step.swept, call.command)
  {
  }

  lemma ExtendsSelf(log: Log)
    ensures Extends(log, log)
  {
  }

  // ---- traces ---------------------------------------------------------------------------------------

  ghost predicate AllFewPayloads(trace: seq<Step>) { forall i :: 0 <= i < |trace| ==> FewPayloads(trace[i]) }
  ghost predicate AllFewRemoved(trace: seq<Step>) { forall i :: 0 <= i < |trace| ==> FewRemoved(trace[i]) }

  ghost predicate AllProper(n: Names, trace: seq<Step>, calls: seq<Call>) {
    |trace| <= |calls| && forall i :: 0 <= i < |trace| ==> Proper(n, trace[i].swept, calls[i].command)
  }

  ghost predicate AllExplained(trace: seq<Step>, calls: seq<Call>) {
    |trace| <= |calls| && forall i :: 0 <= i < |trace| ==> Explained(trace[i], calls[i].command)
  }

  ghost predicate AllAdopt(n: Names, calls: seq<Call>) { forall i :: 0 <= i < |calls| ==> Adopts(n, calls[i].command) }

  lemma {:induction false} TraceNext(n: Names, trace: seq<Step>, step: Step, calls: seq<Call>)
    requires |trace| < |calls|
    ensures AllFewPayloads(trace + [step]) ==> AllFewPayloads(trace) && FewPayloads(step)
    ensures AllFewRemoved(trace + [step]) ==> AllFewRemoved(trace) && FewRemoved(step)
    ensures AllProper(n, trace + [step], calls) ==>
      AllProper(n, trace, calls) && Proper(n, step.swept, calls[|trace|].command)
    ensures AllExplained(trace, calls) && Explained(step, calls[|trace|].command) ==>
      AllExplained(trace + [step], calls)
  {
    hide FewPayloads, FewRemoved, Proper, Explained;
    var longer := trace + [step];
    assert longer[|trace|] == step && forall i :: 0 <= i < |trace| ==> longer[i] == trace[i];
  }

  lemma CalmNext(clock: Time, calls: seq<Call>, gap: Time)
    requires calls != []
    ensures Calm(clock, calls, gap) ==> calls[0].at <= clock + gap && Calm(Max(clock, calls[0].at), calls[1..], gap)
  {
  }

  /** Every run: from a store in order, any calls at any times leave it in order, every record has only
      moved forward, and the history has only grown, unless a call overwrites a record: then the run stops
      there, and `broke` says so. Without long silences, and while at most 256 removed records wait, only an
      operation used for two users' jobs can overwrite. With shorter silences and at most 256 due payloads per
      sweep, no payload byte is lost track of. */
  method Serve(s: Store, calls: seq<Call>, known: set<Token>, ghost n: Names)
    returns (served: nat, broke: bool, ghost trace: seq<Step>)
    requires s.past.tokens <= known
    requires Settledown(s.db, s.past)
    modifies s
    ensures served <= |calls| && |trace| == served && (broke || served == |calls|)
    ensures broke ==> served > 0 && Overwrites(trace[served - 1].swept, calls[served - 1].command) && !Consistent(s.db)
    ensures !broke ==> Settledown(s.db, s.past) && Progress(old(s.db), s.db) && Extends(old(s.past).log, s.past.log)
    ensures !broke ==> Reowned(old(s.db), old(s.past).tokens, s.db) && (Stocked(old(s.db)) ==> Stocked(s.db))
    ensures !broke && Linked(old(s.db)) && Calm(old(s.db).clock, calls, LONGEST_GAP) ==> Linked(s.db)
    ensures !broke && Answered(old(s.db)) && NoErasure(calls) ==> Answered(s.db)
    ensures !broke && Calm(old(s.db).clock, calls, RETRY_GAP) && AllFewPayloads(trace) ==>
      (Tight(old(s.db), old(s.past)) ==> Tight(s.db, s.past))
    ensures Entitled(n, old(s.db), calls) && AllProper(n, trace, calls) ==>
      AllExplained(trace, calls) && (!broke ==> Named(n, s.db))
    ensures Orderly(n, old(s.db), calls, trace) ==> !broke
  {
    hide Linked, Answered, Stocked, Settledown, Progress, Reowned, Tight, Named, AllAdopted, Adopts, Overwrites,
      Consistent;
    hide AllFewPayloads, AllFewRemoved, AllProper, AllExplained, FewPayloads, FewRemoved, Proper, Explained,
      Distinguishes;
    hide Introduced, Extends;
    var issued := known;
    trace, served, broke := [], 0, false;
    ghost var d0, p0 := s.db, s.past;
    ProgressSelf(d0, d0);
    RunFirst(n, d0, p0, calls);
    ghost var calm, brisk := Calm(d0.clock, calls, LONGEST_GAP), Calm(d0.clock, calls, RETRY_GAP);
    while served < |calls| && !broke
      invariant d0 == old(s.db) && p0 == old(s.past) && served <= |calls| && |trace| == served
      invariant broke ==>
        served > 0 && Overwrites(trace[served - 1].swept, calls[served - 1].command) && !Consistent(s.db)
      invariant !broke ==> s.past.tokens <= issued && Settledown(s.db, s.past) && Progress(d0, s.db)
      invariant !broke ==> Extends(p0.log, s.past.log) && Reowned(d0, p0.tokens, s.db) && p0.tokens <= s.past.tokens
      invariant !broke ==> (Stocked(d0) ==> Stocked(s.db)) && (Answered(d0) && NoErasure(calls) ==> Answered(s.db))
      invariant !broke && calm ==> Calm(s.db.clock, calls[served..], LONGEST_GAP) && (Linked(d0) ==> Linked(s.db))
      invariant !broke && brisk ==> Calm(s.db.clock, calls[served..], RETRY_GAP)
      invariant !broke && Tight(d0, p0) && brisk && AllFewPayloads(trace) ==> Tight(s.db, s.past)
      invariant Entitled(n, d0, calls) && AllProper(n, trace, calls) ==>
        AllExplained(trace, calls) && (!broke ==> Named(n, s.db))
      invariant Orderly(n, d0, calls, trace) ==> !broke && AllAdopted(n, s.db)
      decreases |calls| - served, !broke
    {
      ghost var d, p := s.db, s.past;
      assert calls[served..][1..] == calls[served + 1..] && calls[served..][0] == calls[served];
      CalmNext(d.clock, calls[served..], LONGEST_GAP);
      CalmNext(d.clock, calls[served..], RETRY_GAP);
      ghost var step;
      issued, broke, step := Advance(s, calls[served], issued, n);
      TraceNext(n, trace, step, calls);
      IntroducedParts(n, d, step, calls[served]);
      trace := trace + [step];
      served := served + 1;
      if !broke {
        ProgressTransitive(d0, d, s.db);
        ReownedTransitive(d0, p0.tokens, d, p.tokens, s.db);
        ExtendsTransitive(p0.log, p.log, s.past.log);
      }
    }
  }

  /** Names are told apart, the run starts well named, and it has no long silence. */
  ghost predicate Entitled(n: Names, d: Db, calls: seq<Call>) {
    Distinguishes(n) && Named(n, d) && Calm(d.clock, calls, LONGEST_GAP)
  }

  /** Besides, calls name their jobs properly, every operation is for one parent, and no backlog builds up. */
  ghost predicate Orderly(n: Names, d: Db, calls: seq<Call>, trace: seq<Step>) {
    && Entitled(n, d, calls) && AllProper(n, trace, calls) && AllAdopted(n, d) && AllAdopt(n, calls)
    && AllFewRemoved(trace)
  }

  lemma {:induction false} RunFirst(n: Names, d: Db, p: Past, calls: seq<Call>)
    ensures Reowned(d, p.tokens, d) && Extends(p.log, p.log) && calls[0..] == calls
    ensures AllFewPayloads([]) && AllFewRemoved([]) && AllProper(n, [], calls) && AllExplained([], calls)
  {
  }

  /** Every run from the empty namespace, at any time of Redis TIME. */
  method Run(start: Time, calls: seq<Call>, ghost n: Names)
    returns (s: Store, served: nat, broke: bool, ghost trace: seq<Step>)
    ensures fresh(s) && served <= |calls| && |trace| == served && (broke || served == |calls|)
    ensures broke ==> served > 0 && Overwrites(trace[served - 1].swept, calls[served - 1].command) && !Consistent(s.db)
    ensures !broke ==> Settledown(s.db, s.past) && Progress(Vacant(start), s.db) && Stocked(s.db)
    ensures !broke && Calm(start, calls, LONGEST_GAP) ==> Linked(s.db)
    ensures !broke && NoErasure(calls) ==> Answered(s.db)
    ensures !broke && Calm(start, calls, RETRY_GAP) && AllFewPayloads(trace) ==>
      forall l: Lane :: Counter(s.db.counts, l, PayloadBytes) == Measure(s.db.jobs, s.db.owners, l, PayloadBytes)
    ensures Entitled(n, Vacant(start), calls) && AllProper(n, trace, calls) ==> AllExplained(trace, calls)
    ensures Named(n, Vacant(start)) && AllAdopted(n, Vacant(start))
    ensures Orderly(n, Vacant(start), calls, trace) ==> !broke
  {
    hide Linked, Answered, Stocked, Settledown, Progress, Prompt, Measure, Counter, AllFewPayloads, AllFewRemoved,
      AllProper;
    hide AllExplained, Distinguishes, Overwrites, Consistent, Tight, Reowned, Adopts, AllNamed, AllAdopted;
    s := new Store(start);
    NothingStored(n, start);
    served, broke, trace := Serve(s, calls, {}, n);
    if !broke && Tight(s.db, s.past) { TightExact(s.db, s.past); }
  }

  lemma {:induction false} NothingStored(n: Names, start: Time)
    ensures AllNamed(n, Vacant(start)) && AllAdopted(n, Vacant(start)) && Tight(Vacant(start), START)
  {
  }
}
