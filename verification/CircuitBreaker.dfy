/** The circuit breaker. Its critical sections never suspend, so each one is an atomic step;
    the protected calls run between `Enter` and `Exit`, interleaved in any order. */
module CircuitBreaker {
  import opened Wrappers
  import opened Totals

  datatype State = Closed | Open | HalfOpen

  /** How a protected call ended: it returned, it raised an exception that counts as a failure
      of the provider, or it was cancelled, ignored or raised something unexpected. */
  datatype Ending = Returned | Failed | Neutral

  /** What a call remembers from its admission until its end. */
  datatype Ticket = Ticket(generation: nat, stats: nat)

  ghost function OfGeneration(flight: map<nat, Ticket>, g: nat): set<nat>
      { set c | c in flight && flight[c].generation == g }
  ghost function OfStats(flight: map<nat, Ticket>, g: nat): set<nat> { set c | c in flight && flight[c].stats == g }

  /** No call in flight is from the future. */
  ghost predicate Bounded(flight: map<nat, Ticket>, generation: nat, stats: nat) {
    forall c :: c in flight ==> flight[c].generation <= generation && flight[c].stats <= stats
  }

  lemma Admitted(flight: map<nat, Ticket>, c: nat, t: Ticket)
    requires c !in flight
    ensures OfGeneration(flight[c := t], t.generation) == OfGeneration(flight, t.generation) + {c}
    ensures OfStats(flight[c := t], t.stats) == OfStats(flight, t.stats) + {c} && c !in OfStats(flight, t.stats)
    ensures Bounded(flight, t.generation, t.stats) ==> Bounded(flight[c := t], t.generation, t.stats)
  {
  }

  lemma Ended(flight: map<nat, Ticket>, c: nat, generation: nat, stats: nat)
    requires c in flight && Bounded(flight, generation, stats)
    ensures OfGeneration(flight - {c}, generation) == OfGeneration(flight, generation) - {c}
    ensures OfStats(flight - {c}, stats) == OfStats(flight, stats) - {c}
    ensures c in OfGeneration(flight, generation) <==> flight[c].generation == generation
    ensures c in OfStats(flight, stats) <==> flight[c].stats == stats
    ensures Bounded(flight - {c}, generation, stats)
  {
  }

  /** A new generation starts with no call of its own. */
  lemma Renewed(flight: map<nat, Ticket>, generation: nat, g: nat, stats: nat)
    requires Bounded(flight, generation, stats) && g > generation
    ensures OfGeneration(flight, g) == {} && Bounded(flight, g, stats)
  {
  }

  lemma Restarted(flight: map<nat, Ticket>, generation: nat, stats: nat)
    requires Bounded(flight, generation, stats)
    ensures OfStats(flight, stats + 1) == {} && Bounded(flight, generation, stats + 1)
  {
  }

  /** An open circuit has no call of its own in flight; a half-open one has its probe, exactly one when
      the cap on the failure count leaves room for the failure that reopens the circuit. */
  ghost predicate Flow(state: State, probeActive: bool, current: set<nat>, count: int, threshold: int,
      maxFailures: int) {
    && (state == Open ==> current == {})
    && (probeActive <==> state == HalfOpen && current != {})
    && (state == HalfOpen ==> |current| <= 1)
    && (state == HalfOpen && threshold <= maxFailures + 1 ==> |current| == 1)
    && (state != Closed ==> count >= if threshold <= maxFailures then threshold else maxFailures)
  }

  /** State and failure count after a call of the current generation ended. */
  function NextState(state: State, count: int, threshold: int, ending: Ending): State {
    match ending
    case Returned => if state == HalfOpen then Closed else state
    case Failed => if count + 1 >= threshold then Open else state
    case Neutral => if state == HalfOpen then Open else state
  }

  function NextCount(count: int, ending: Ending): int {
    match ending case Returned => 0 case Failed => count + 1 case Neutral => count
  }

  lemma FlowEnds(state: State, probeActive: bool, current: set<nat>, count: int, threshold: int, maxFailures: int,
      c: nat, ending: Ending)
    requires Flow(state, probeActive, current, count, threshold, maxFailures) && c in current
    ensures var to := NextState(state, count, threshold, ending);
            && Flow(to, false, if to == state then current - {c}
              else {}, NextCount(count, ending), threshold, maxFailures)
            && (state == HalfOpen ==> current == {c} && (threshold <= maxFailures + 1 ==> to != HalfOpen))
  {
    if state == HalfOpen { OnlyOne(current, c); }
  }

  class Breaker {
    const threshold: int
    const recovery: int
    const maxFailures: int

    var state: State
    var generation: nat
    var statsGeneration: nat
    var failureCount: int
    var lastFailure: int
    var lastSuccess: int
    var requests: nat
    var failures: nat
    var successes: nat
    var probeActive: bool

    /** Calls between admission and end, and calls of this statistics generation that ended neutrally. */
    ghost var flight: map<nat, Ticket>
    ghost var neutral: nat

    /** The monitor's cap on the failure count leaves room for the failure that reopens the circuit. */
    predicate Sturdy() { threshold <= maxFailures + 1 }

    ghost function Current(): set<nat>
      reads this
    {
      OfGeneration(flight, generation)
    }

    ghost function Live(): set<nat>
      reads this
    {
      OfStats(flight, statsGeneration)
    }

    ghost predicate Valid()
      reads this
    {
      && Bounded(flight, generation, statsGeneration)
      && Flow(state, probeActive, Current(), failureCount, threshold, maxFailures)
      && requests == successes + failures + neutral + |Live()|
    }

    constructor (threshold: int, recovery: int, maxFailures: int, now: int)
      ensures Valid() && state == Closed && flight == map[]
      ensures this.threshold == threshold && this.recovery == recovery && this.maxFailures == maxFailures
    {
      this.threshold, this.recovery, this.maxFailures := threshold, recovery, maxFailures;
      state, generation, statsGeneration, failureCount, lastFailure, lastSuccess := Closed, 0, 0, 0, 0, now;
      requests, failures, successes, probeActive, neutral := 0, 0, 0, false, 0;
      flight := map[];
      new;
      assert Live() == {} && Current() == {};
    }

    method SetState(to: State)
      modifies this`state, this`generation
      ensures state == to && generation == old(generation) + if old(state) == to then 0 else 1
    {
      if state != to { generation := generation + 1; }
      state := to;
    }

    /** The admission of a call. A half-open circuit admits nobody, an open one admits a single
        probe once its cooldown is over. */
    method Enter(now: int, ghost c: nat) returns (t: Option<Ticket>)
      requires Valid() && c !in flight
      modifies this
      ensures Valid()
      ensures t.Some? <==> old(state) == Closed || (old(state) == Open && now - old(lastFailure) >= recovery)
      ensures t == None ==>
        flight == old(flight) && state == old(state) && requests == old(requests) && generation == old(generation)
      ensures t.Some? ==> flight == old(flight)[c := t.value] && c in Current() && requests == old(requests) + 1
      ensures t.Some? && old(state) == Open ==> state == HalfOpen && Current() == {c} && generation > old(generation)
      ensures t.Some? && old(state) == Closed ==> state == Closed && generation == old(generation)
      ensures failureCount == old(failureCount) && lastFailure == old(lastFailure)
        && statsGeneration == old(statsGeneration)
    {
      hide OfGeneration, OfStats, Bounded;
      if state == HalfOpen { return None; }
      if state == Open {
        if now - lastFailure < recovery { return None; }
        if probeActive { return None; }
        probeActive := true;
        SetState(HalfOpen);
        Renewed(flight, old(generation), generation, statsGeneration);
      }
      requests := requests + 1;
      t := Some(Ticket(generation, statsGeneration));
      Admitted(flight, c, t.value);
      flight := flight[c := t.value];
    }

    /** The statistics of an ending call, counted in the generation that admitted it. */
    method Tally(t: Ticket, ending: Ending, now: int, ghost c: nat)
      requires Valid() && c in flight && flight[c] == t
      modifies this`flight, this`lastSuccess, this`successes, this`failures, this`neutral
      ensures flight == old(flight) - {c} && Current() == old(Current()) - {c}
      ensures requests == successes + failures + neutral + |Live()|
      ensures t.stats == statsGeneration ==>
        && successes == old(successes) + (if ending == Returned then 1 else 0)
        && failures == old(failures) + (if ending == Failed then 1 else 0)
      ensures t.stats != statsGeneration ==> successes == old(successes) && failures == old(failures)
      ensures lastSuccess == if t.stats == statsGeneration && ending == Returned then now else old(lastSuccess)
    {
      hide OfGeneration, OfStats, Bounded, Flow;
      Ended(flight, c, generation, statsGeneration);
      flight := flight - {c};
      if t.stats == statsGeneration {
        match ending
        case Returned => lastSuccess, successes := now, successes + 1;
        case Failed => failures := failures + 1;
        case Neutral => neutral := neutral + 1;
      }
    }

    method OnFailure(now: int)
      modifies this`state, this`generation, this`failureCount, this`lastFailure
      ensures state == NextState(old(state), old(failureCount), threshold, Failed)
        && failureCount == old(failureCount) + 1 && lastFailure == now
      ensures generation == old(generation) + if old(state) == state then 0 else 1
    {
      failureCount, lastFailure := failureCount + 1, now;
      if failureCount >= threshold && state != Open { SetState(Open); }
    }

    /** What the end of a call of the current generation means for the circuit. */
    method Settle(ending: Ending, now: int, ghost c: nat, ghost current: set<nat>)
      requires Flow(state, probeActive, current, failureCount, threshold, maxFailures) && c in current
      requires Current() == current - {c} && Bounded(flight, generation, statsGeneration)
      modifies this`state, this`generation, this`failureCount, this`lastFailure, this`probeActive
      ensures Flow(state, probeActive, Current(), failureCount, threshold, maxFailures)
        && Bounded(flight, generation, statsGeneration)
      ensures state == NextState(old(state), old(failureCount), threshold, ending) && !probeActive
      ensures generation == old(generation) + if old(state) == state then 0 else 1
      ensures failureCount == NextCount(old(failureCount), ending)
      ensures lastFailure == if ending == Failed then now else old(lastFailure)
      ensures old(state) == HalfOpen ==> Current() == {} && (Sturdy() ==> state != HalfOpen)
    {
      hide OfGeneration, OfStats, Bounded, Flow;
      FlowEnds(state, probeActive, current, failureCount, threshold, maxFailures, c, ending);
      probeActive := false;
      match ending {
        case Returned =>
          if state == HalfOpen { SetState(Closed); }
          failureCount := 0;
        case Failed =>
          OnFailure(now);
        case Neutral =>
          if state == HalfOpen { SetState(Open); }
      }
      if state == old(state) {
        assert old(state) == HalfOpen ==> Current() == {};
      } else {
        Renewed(flight, old(generation), generation, statsGeneration);
      }
    }

    /** The end of a call. A call of an older generation changes neither state nor failure count;
        the end of the probe always leaves the half-open state when the configuration is sturdy. */
    method Exit(t: Ticket, ending: Ending, now: int, ghost c: nat)
      requires Valid() && c in flight && flight[c] == t
      modifies this
      ensures Valid() && flight == old(flight) - {c} && statsGeneration == old(statsGeneration)
        && requests == old(requests)
      ensures t.generation != old(generation) ==>
        state == old(state) && generation == old(generation) && failureCount == old(failureCount)
        && lastFailure == old(lastFailure) && probeActive == old(probeActive)
      ensures t.generation == old(generation) ==>
        && state == NextState(old(state), old(failureCount), threshold, ending) && !probeActive
          && generation == old(generation) + (if old(state) == state then 0 else 1)
        && failureCount == NextCount(old(failureCount), ending)
        && lastFailure == if ending == Failed then now else old(lastFailure)
      ensures t.generation == old(generation) && old(state) == HalfOpen ==>
        Current() == {} && (Sturdy() ==> state != HalfOpen)
      ensures t.stats == old(statsGeneration) ==>
        && successes == old(successes) + (if ending == Returned then 1 else 0)
        && failures == old(failures) + (if ending == Failed then 1 else 0)
      ensures t.stats != old(statsGeneration) ==> successes == old(successes) && failures == old(failures)
    {
      hide OfGeneration, OfStats, Bounded, Flow, NextState, NextCount;
      Ended(flight, c, generation, statsGeneration);
      Tally(t, ending, now, c);
      assert t.generation != generation ==> Current() == old(Current());
      if t.generation == generation { Settle(ending, now, c, old(Current())); }
    }

    /** The periodic monitor caps the failure count. */
    method Monitor()
      requires Valid()
      modifies this`failureCount
      ensures Valid() && failureCount == if old(failureCount) > maxFailures then maxFailures else old(failureCount)
    {
      if failureCount > maxFailures { failureCount := maxFailures; }
    }

    method ForceOpen(now: int)
      requires Valid()
      modifies this
      ensures Valid() && state == Open && Current() == {} && flight == old(flight) && generation > old(generation)
      ensures failureCount == threshold && lastFailure == now && requests == old(requests)
        && statsGeneration == old(statsGeneration)
    {
      generation := generation + 1;
      probeActive := false;
      SetState(Open);
      failureCount, lastFailure := threshold, now;
      Renewed(flight, old(generation), generation, statsGeneration);
    }

    method ForceClose()
      requires Valid()
      modifies this
      ensures Valid() && state == Closed && Current() == {} && flight == old(flight) && generation > old(generation)
      ensures failureCount == 0 && requests == old(requests) && statsGeneration == old(statsGeneration)
    {
      generation := generation + 1;
      probeActive := false;
      SetState(Closed);
      failureCount := 0;
      Renewed(flight, old(generation), generation, statsGeneration);
    }

    /** A reset also starts new statistics; calls still in flight belong to the old ones. */
    method Reset()
      requires Valid()
      modifies this
      ensures Valid() && state == Closed && Current() == {} && Live() == {} && flight == old(flight)
        && generation > old(generation)
      ensures failureCount == 0 && requests == 0 && failures == 0 && successes == 0
        && statsGeneration == old(statsGeneration) + 1
    {
      generation := generation + 1;
      statsGeneration := statsGeneration + 1;
      probeActive := false;
      SetState(Closed);
      failureCount, lastFailure, requests, failures, successes, neutral := 0, 0, 0, 0, 0, 0;
      Restarted(flight, old(generation), old(statsGeneration));
      Renewed(flight, old(generation), generation, statsGeneration);
    }

    /** The probe protocol: half-open holds exactly when a single probe of the current generation is in
        flight, and the counted endings never exceed the requests. */
    lemma Protocol()
      requires Valid() && Sturdy()
      ensures state == HalfOpen <==> probeActive
      ensures probeActive ==> exists c :: Current() == {c}
      ensures successes + failures <= requests
    {
      if state == HalfOpen {
        var c :| c in Current();
        OnlyOne(Current(), c);
      }
    }
  }

  lemma OnlyOne(s: set<nat>, c: nat)
    requires |s| <= 1 && c in s
    ensures s == {c}
  {
    if x :| x in s && x != c {
      assert {c, x} <= s;
      SubsetSize({c, x}, s);
    }
  }

  /** Without a sturdy configuration the protocol fails: the probe's failure leaves the circuit half
      open with no probe in flight, and nobody is admitted any more, whatever the time. */
  method Stuck(threshold: int, recovery: int, maxFailures: int, later: int) returns (b: Breaker, t: Option<Ticket>)
    requires threshold > maxFailures + 1
    ensures fresh(b) && b.Valid() && b.state == HalfOpen && b.Current() == {} && t == None
  {
    b := new Breaker(threshold, recovery, maxFailures, 0);
    b.ForceOpen(0);
    b.Monitor();
    var probe := b.Enter(recovery, 0);
    b.Exit(probe.value, Failed, recovery, 0);
    t := b.Enter(later, 1);
  }
}
