/** The metrics collector: events are counted in memory per day and per user, flushed by
    snapshot, reset and write, and put back when a write fails. Code between two awaits is one
    atomic step; events and pruning may come between any two steps of a flush. */
module Metrics {
  import opened Wrappers

  type Day = int
  type User = int

  datatype Counter = Requests | Time | Errors | Searches | Hits | Misses | Api(name: string) | Model(name: string)

  /** Counters that differ from zero, and possibly some that do not. */
  type Tally = map<Counter, int>

  /** One number somebody may ask for: of a day, or of a user on a day. */
  datatype Key = Global(day: Day, counter: Counter) | Personal(day: Day, user: User, counter: Counter)

  datatype Event =
    | Request(day: Day, time: int, success: bool, user: Option<User>)
    | ModelResponse(day: Day, winner: User, model: string)
    | ApiCall(day: Day, api: string, model: string, user: Option<User>)
    | SearchQuery(day: Day)
    | CacheHit(day: Day)
    | CacheMiss(day: Day)
    | Incident(day: Day)

  function At(t: Tally, c: Counter): int { if c in t then t[c] else 0 }
  function Plus(t: Tally, u: Tally): Tally { map c | c in t.Keys + u.Keys :: At(t, c) + At(u, c) }
  predicate Zero(t: Tally) { forall c :: c in t ==> t[c] == 0 }

  lemma PlusAt(t: Tally, u: Tally, c: Counter)
    ensures At(Plus(t, u), c) == At(t, c) + At(u, c)
  {
  }

  function OfDay(daily: map<Day, Tally>, d: Day): Tally { if d in daily then daily[d] else map[] }
  function OfUsers(users: map<Day, map<User, Tally>>, d: Day): map<User, Tally>
      { if d in users then users[d] else map[] }
  function OfUser(users: map<User, Tally>, u: User): Tally { if u in users then users[u] else map[] }

  /** What an event adds to a number. A missing or zero user id is no user. */
  function Weight(e: Event, k: Key): int {
    match e
    case Request(d, time, success, user) =>
      (if k == Global(d, Requests) then 1 else 0) + (if k == Global(d, Time) then time else 0)
      + (if !success && k == Global(d, Errors) then 1 else 0)
      + (if user.Some? && user.value != 0 && k == Personal(d, user.value, Requests) then 1 else 0)
    case ModelResponse(d, who, model) => if k == Personal(d, who, Model(model)) then 1 else 0
    case ApiCall(d, api, model, user) =>
      (if k == Global(d, Api(api)) then 1 else 0)
      + (if model != "" && k == Global(d, Model(model)) then 1 else 0)
      + (if model != "" && user.Some? && user.value != 0 && k == Personal(d, user.value, Model(model)) then 1 else 0)
    case SearchQuery(d) => if k == Global(d, Searches) then 1 else 0
    case CacheHit(d) => if k == Global(d, Hits) then 1 else 0
    case CacheMiss(d) => if k == Global(d, Misses) then 1 else 0
    case Incident(_) => 0
  }

  /** The true value of a number: what all events together add to it. */
  ghost function Recorded(events: seq<Event>, k: Key): int {
    if events == [] then 0 else Recorded(events[..|events| - 1], k) + Weight(events[|events| - 1], k)
  }

  lemma RecordedNext(events: seq<Event>, e: Event, k: Key)
    ensures Recorded(events + [e], k) == Recorded(events, k) + Weight(e, k)
  {
    assert (events + [e])[..|events|] == events;
  }

  datatype Meanwhile = Arrive(event: Event) | Cleanup(today: Day)

  /** The events among what happened. */
  function Arrivals(acts: seq<Meanwhile>): seq<Event> {
    if acts == [] then []
    else Arrivals(acts[..|acts| - 1]) + if acts[|acts| - 1].Arrive? then [acts[|acts| - 1].event] else []
  }

  lemma ArrivalsNext(acts: seq<Meanwhile>, a: Meanwhile)
    ensures Arrivals(acts + [a]) == Arrivals(acts) + if a.Arrive? then [a.event] else []
  {
    assert (acts + [a])[..|acts|] == acts;
  }

  lemma {:induction false} ArrivalsJoin(a: seq<Meanwhile>, b: seq<Meanwhile>)
    ensures Arrivals(a + b) == Arrivals(a) + Arrivals(b)
    decreases |b|
  {
    if b == [] {
      assert a + b == a;
    } else {
      var init, last := b[..|b| - 1], b[|b| - 1];
      ArrivalsJoin(a, init);
      ArrivalsNext(a + init, last);
      ArrivalsNext(init, last);
      assert a + b == a + init + [last] && b == init + [last];
    }
  }

  /** A flush between its snapshot and its end. */
  datatype Flight = Flight(day: Day, global: Tally, users: map<User, Tally>, globalSaved: bool, usersSaved: bool)

  function InMemory(daily: map<Day, Tally>, users: map<Day, map<User, Tally>>, k: Key): int {
    match k
    case Global(d, c) => At(OfDay(daily, d), c)
    case Personal(d, u, c) => At(OfUser(OfUsers(users, d), u), c)
  }

  function InFlight(f: Option<Flight>, k: Key): int {
    if f == None then 0
    else match k
      case Global(d, c) => if d == f.value.day && !f.value.globalSaved then At(f.value.global, c) else 0
      case Personal(d, u, c) => if d == f.value.day && !f.value.usersSaved then At(OfUser(f.value.users, u), c) else 0
  }

  function BumpDay(daily: map<Day, Tally>, d: Day, c: Counter, n: int): map<Day, Tally> {
    daily[d := OfDay(daily, d)[c := At(OfDay(daily, d), c) + n]]
  }

  function BumpUser(users: map<Day, map<User, Tally>>, d: Day, u: User, c: Counter, n: int): map<Day, map<User,
      Tally>> {
    var t := OfUser(OfUsers(users, d), u);
    users[d := OfUsers(users, d)[u := t[c := At(t, c) + n]]]
  }

  lemma Bumps(daily: map<Day, Tally>, users: map<Day, map<User, Tally>>, d: Day, u: User, c: Counter, n: int, k: Key)
    ensures InMemory(BumpDay(daily, d, c, n), users, k) == InMemory(daily, users, k) + if k == Global(d, c) then n
      else 0
    ensures InMemory(daily, BumpUser(users, d, u, c, n), k) == InMemory(daily, users, k) + if k == Personal(d, u, c)
      then n else 0
  {
  }

  function Kept(stored: map<Key, int>, k: Key): int { if k in stored then stored[k] else 0 }

  /** The database has grown by the parts of the flush that were written. */
  ghost predicate Wrote(stored: map<Key, int>, stored': map<Key, int>, f: Flight, global: bool, users: bool) {
    forall k: Key :: Kept(stored', k) == Kept(stored, k)
      + if (k.Global? && global) || (k.Personal? && users)
        then InFlight(Some(f.(globalSaved := false, usersSaved := false)), k) else 0
  }

  /** What was counted for the day of the flush is stored or in the flush. */
  ghost predicate Covers(counted: seq<Event>, stored: map<Key, int>, f: Flight) {
    forall k: Key :: k.day == f.day ==> Recorded(counted, k) == Kept(stored, k) + InFlight(Some(f), k)
  }

  /** The parts of the day that were written hold exactly what had been counted; nothing else has changed. */
  ghost predicate Settled(counted: seq<Event>, stored: map<Key, int>, stored': map<Key, int>, d: Day, global: bool,
      users: bool) {
    forall k: Key :: Kept(stored', k) ==
      if k.day == d && ((k.Global? && global) || (k.Personal? && users)) then Recorded(counted, k) else Kept(stored, k)
  }

  /** The sums the database writes: what is stored plus the snapshot. */
  function PlusGlobal(stored: map<Key, int>, f: Flight): map<Key, int> {
    stored + map c | c in f.global :: Global(f.day, c) := Kept(stored, Global(f.day, c)) + f.global[c]
  }

  function PlusUsers(stored: map<Key, int>, f: Flight): map<Key, int> {
    stored + map u, c | u in f.users && c in f.users[u] :: Personal(f.day, u, c) := Kept(stored,
      Personal(f.day, u, c)) + f.users[u][c]
  }

  lemma WritesGlobal(stored: map<Key, int>, f: Flight)
    ensures Wrote(stored, PlusGlobal(stored, f), f, true, false)
  {
    var new' := map c | c in f.global :: Global(f.day, c) := Kept(stored, Global(f.day, c)) + f.global[c];
    forall k: Key ensures k in new' <==> k.Global? && k.day == f.day && k.counter in f.global { }
  }

  lemma WritesUsers(stored: map<Key, int>, f: Flight)
    ensures Wrote(stored, PlusUsers(stored, f), f, false, true)
  {
    var new' := map u, c | u in f.users && c in f.users[u] :: Personal(f.day, u, c) := Kept(stored,
      Personal(f.day, u, c)) + f.users[u][c];
    forall k: Key ensures k in new' <==>
      k.Personal? && k.day == f.day && k.user in f.users && k.counter in f.users[k.user] {
      if k.Personal? && k.day == f.day && k.user in f.users && k.counter in f.users[k.user] {
        assert k == Personal(f.day, k.user, k.counter);
      }
    }
  }

  /** A write moves its part from the flush to the database. */
  lemma WroteMoves(a: map<Key, int>, b: map<Key, int>, f: Flight, global: bool, users: bool)
    requires Wrote(a, b, f, global, users) && (global ==> !f.globalSaved) && (users ==> !f.usersSaved)
    ensures var f' := f.(globalSaved := f.globalSaved || global, usersSaved := f.usersSaved || users);
            forall k: Key :: Kept(b, k) + InFlight(Some(f'), k) == Kept(a, k) + InFlight(Some(f), k)
  {
    hide Kept;
  }

  lemma WroteNothing(a: map<Key, int>, f: Flight)
    ensures Wrote(a, a, f, false, false)
  {
  }

  /** What happens around the flush of one day. */
  datatype Plan = Plan(acts: seq<seq<Meanwhile>>, globalOk: bool, incidentsOk: bool, usersOk: bool)

  predicate Succeeds(p: Plan) { p.globalOk && p.incidentsOk && p.usersOk }

  /** The database holds what the first `mark` events add to the numbers of a day. */
  ghost predicate Holds(processed: seq<Event>, stored: map<Key, int>, d: Day, mark: nat) {
    mark <= |processed| && forall k: Key :: k.day == d ==> Kept(stored, k) == Recorded(processed[..mark], k)
  }

  lemma HeldOn(before: seq<Event>, after: seq<Event>, a: map<Key, int>, b: map<Key, int>, d: Day, mark: nat, d': Day,
      global: bool, users: bool)
    requires Holds(before, a, d, mark) && before <= after && d != d' && Settled(before, a, b, d', global, users)
    ensures Holds(after, b, d, mark)
  {
    hide Recorded, Kept;
    assert after[..mark] == before[..mark];
  }

  lemma HeldNow(before: seq<Event>, after: seq<Event>, b: map<Key, int>, d: Day)
    requires before <= after && Complete(before, b, d)
    ensures Holds(after, b, d, |before|)
  {
    hide Recorded, Kept;
    assert after[..|before|] == before;
  }

  /** Everything counted for the day is stored. */
  ghost predicate Complete(counted: seq<Event>, stored: map<Key, int>, d: Day) {
    forall k: Key :: k.day == d ==> Kept(stored, k) == Recorded(counted, k)
  }

  lemma WroteAll(counted: seq<Event>, a: map<Key, int>, b: map<Key, int>, f: Flight, global: bool, users: bool)
    requires Covers(counted, a, f) && !f.globalSaved && !f.usersSaved
    requires Wrote(a, b, f, global && !Zero(f.global), users && f.users != map[])
    requires (global || Zero(f.global)) && (users || f.users == map[])
    ensures Complete(counted, b, f.day)
  {
    hide Recorded;
  }

  lemma WroteBoth(a: map<Key, int>, b: map<Key, int>, c: map<Key, int>, f: Flight, f': Flight, global: bool,
      users: bool)
    requires Wrote(a, b, f, global, false) && Wrote(b, c, f', false, users)
    requires f'.(globalSaved := false, usersSaved := false) == f.(globalSaved := false, usersSaved := false)
    ensures Wrote(a, c, f, global, users)
  {
    hide InFlight, Kept;
  }

  lemma WroteSettles(counted: seq<Event>, a: map<Key, int>, b: map<Key, int>, f: Flight, global: bool, users: bool)
    requires Covers(counted, a, f) && !f.globalSaved && !f.usersSaved
    requires Wrote(a, b, f, global && !Zero(f.global), users && f.users != map[])
    ensures Settled(counted, a, b, f.day, global, users)
  {
    hide Recorded;
  }

  /** The users with something to write, and the users after the reset. */
  function Counting(all: map<User, Tally>): map<User, Tally> { map u | u in all && !Zero(all[u]) :: all[u] }
  function Cleared(all: map<User, Tally>): map<User, Tally>
      { map u | u in all :: if Zero(all[u]) then all[u] else map[] }

  lemma Snapped(daily: map<Day, Tally>, users: map<Day, map<User, Tally>>, daily': map<Day, Tally>, d: Day, k: Key)
    requires daily' == if d in daily then daily[d := map[]] else daily
    ensures var users' := users[d := Cleared(OfUsers(users, d))];
            var f := Flight(d, OfDay(daily, d), Counting(OfUsers(users, d)), false, false);
            && InMemory(daily', users', k) + InFlight(Some(f), k) == InMemory(daily, users, k)
            && (k.day == d ==> InMemory(daily', users', k) == 0) && InFlight(None, k) == 0
  {
    match k
    case Global(d, c) =>
    case Personal(d, u, c) =>
      var all := OfUsers(users, d);
      assert u in all && Zero(all[u]) ==> At(all[u], c) == 0;
  }

  class Collector {
    var daily: map<Day, Tally>
    var userDaily: map<Day, map<User, Tally>>
    var queue: seq<Event>

    /** Every event processed so far, the flush under way, and what the database has stored. */
    ghost var processed: seq<Event>
    ghost var flight: Option<Flight>
    ghost var stored: map<Key, int>

    ghost function Stored(k: Key): int
      reads this
    {
      Kept(stored, k)
    }

    /** Conservation: each number is in the database, in memory or in the flush under way, exactly once. */
    ghost predicate Valid()
      reads this
    {
      forall k: Key :: Recorded(processed, k) == Stored(k) + InMemory(daily, userDaily, k) + InFlight(flight, k)
    }

    constructor ()
      ensures Valid() && processed == [] && flight == None
    {
      daily, userDaily, queue := map[], map[], [];
      processed, flight, stored := [], None, map[];
    }

    method Day(d: Day, c: Counter, n: int)
      modifies this`daily
      ensures forall k :: InMemory(daily, userDaily, k) == old(InMemory(daily, userDaily, k)) + if k == Global(d, c)
        then n else 0
    {
      forall k ensures InMemory(BumpDay(daily, d, c, n), userDaily, k) == InMemory(daily, userDaily, k) + if k
        == Global(d, c) then n else 0 {
        Bumps(daily, userDaily, d, 0, c, n, k);
      }
      daily := BumpDay(daily, d, c, n);
    }

    method Person(d: Day, u: User, c: Counter, n: int)
      modifies this`userDaily
      ensures forall k :: InMemory(daily, userDaily, k) == old(InMemory(daily, userDaily, k)) + if k
        == Personal(d, u, c) then n else 0
    {
      forall k ensures InMemory(daily, BumpUser(userDaily, d, u, c, n), k) == InMemory(daily, userDaily, k) + if k
        == Personal(d, u, c) then n else 0 {
        Bumps(daily, userDaily, d, u, c, n, k);
      }
      userDaily := BumpUser(userDaily, d, u, c, n);
    }

    /** `_process_event` */
    method Process(e: Event)
      requires Valid()
      modifies this`daily, this`userDaily, this`processed
      ensures Valid() && processed == old(processed) + [e]
    {
      hide InMemory, Recorded, InFlight;
      match e {
        case Request(d, time, success, user) =>
          if !success { Day(d, Errors, 1); }
          Day(d, Requests, 1);
          Day(d, Time, time);
          if user.Some? && user.value != 0 { Person(d, user.value, Requests, 1); }
        case ModelResponse(d, who, model) => Person(d, who, Model(model), 1);
        case ApiCall(d, api, model, user) =>
          Day(d, Api(api), 1);
          if model != "" {
            Day(d, Model(model), 1);
            if user.Some? && user.value != 0 { Person(d, user.value, Model(model), 1); }
          }
        case SearchQuery(d) => Day(d, Searches, 1);
        case CacheHit(d) => Day(d, Hits, 1);
        case CacheMiss(d) => Day(d, Misses, 1);
        case Incident(_) =>
      }
      forall k: Key ensures Recorded(processed + [e], k) == Recorded(processed, k) + Weight(e, k)
        { RecordedNext(processed, e, k); }
      processed := processed + [e];
    }

    /** `_drain_events`: everything queued is counted, in order. */
    method Drain()
      requires Valid()
      modifies this`daily, this`userDaily, this`processed, this`queue
      ensures Valid() && queue == [] && processed == old(processed) + old(queue)
    {
      while queue != []
        invariant Valid() && processed + queue == old(processed) + old(queue)
        decreases |queue|
      {
        var e := queue[0];
        queue := queue[1..];
        Process(e);
      }
    }

    /** Phase one of `_save_metrics_day`: copy the day and reset it, without suspending. */
    method Snapshot(d: Day) returns (global: Tally, users: map<User, Tally>)
      requires Valid() && flight == None
      modifies this`daily, this`userDaily, this`flight
      ensures Valid() && flight == Some(Flight(d, global, users, false, false)) && processed == old(processed)
      ensures global == OfDay(old(daily), d) && users == Counting(OfUsers(old(userDaily), d))
      ensures Covers(processed, stored, flight.value)
      ensures forall k: Key :: k.day == d ==> InMemory(daily, userDaily, k) == 0
    {
      hide InMemory, InFlight, Recorded;
      ghost var daily0, users0 := daily, userDaily;
      global := OfDay(daily, d);
      if d in daily { daily := daily[d := map[]]; }
      var all := OfUsers(userDaily, d);
      users := Counting(all);
      userDaily := userDaily[d := Cleared(all)];
      forall k: Key
        ensures InMemory(daily, userDaily, k) + InFlight(Some(Flight(d, global, users, false, false)), k)
          == InMemory(daily0, users0, k)
        ensures k.day == d ==> InMemory(daily, userDaily, k) == 0
        ensures InFlight(None, k) == 0
      {
        Snapped(daily0, users0, daily, d, k);
      }
      flight := Some(Flight(d, global, users, false, false));
    }

    /** The write of the day's totals: it adds the snapshot to what is stored, or it fails and applies nothing. */
    method SaveGlobal(f: Flight, applied: bool) returns (f': Flight)
      requires Valid() && flight == Some(f) && !f.globalSaved
      modifies this`flight, this`stored
      ensures Valid() && flight == Some(f') && f' == f.(globalSaved := f'.globalSaved)
      ensures f'.globalSaved <==> applied && !Zero(f.global)
      ensures forall k :: Stored(k) + InFlight(flight, k) == old(Stored(k)) + InFlight(Some(f), k)
      ensures Wrote(old(stored), stored, f, f'.globalSaved, false)
    {
      hide InFlight, InMemory, Recorded, Kept, Wrote, PlusGlobal;
      f' := f;
      WroteNothing(stored, f);
      if !Zero(f.global) && applied {
        f' := f.(globalSaved := true);
        WritesGlobal(stored, f);
        WroteMoves(stored, PlusGlobal(stored, f), f, true, false);
        flight := Some(f');
        stored := PlusGlobal(stored, f);
      }
    }

    /** The write of the users' numbers. */
    method SaveUsers(f: Flight, applied: bool) returns (f': Flight)
      requires Valid() && flight == Some(f) && !f.usersSaved
      modifies this`flight, this`stored
      ensures Valid() && flight == Some(f') && f' == f.(usersSaved := f'.usersSaved)
      ensures f'.usersSaved <==> applied && f.users != map[]
      ensures forall k :: Stored(k) + InFlight(flight, k) == old(Stored(k)) + InFlight(Some(f), k)
      ensures Wrote(old(stored), stored, f, false, f'.usersSaved)
    {
      hide InFlight, InMemory, Recorded, Kept, Wrote, PlusUsers;
      f' := f;
      WroteNothing(stored, f);
      if f.users != map[] && applied {
        f' := f.(usersSaved := true);
        WritesUsers(stored, f);
        WroteMoves(stored, PlusUsers(stored, f), f, false, true);
        flight := Some(f');
        stored := PlusUsers(stored, f);
      }
    }

    /** The end of a flush without failure: what was not written was nothing. */
    method Done(f: Flight)
      requires Valid() && flight == Some(f) && (f.globalSaved || Zero(f.global)) && (f.usersSaved || f.users == map[])
      modifies this`flight
      ensures Valid() && flight == None && forall k :: InFlight(Some(f), k) == 0
    {
      flight := None;
    }

    /** The end of a flush that failed: exactly the parts that were not stored go back into memory, on top
        of whatever arrived meanwhile. */
    method Compensate(f: Flight)
      requires Valid() && flight == Some(f)
      modifies this`daily, this`userDaily, this`flight
      ensures Valid() && flight == None && processed == old(processed)
    {
      var d := f.day;
      ghost var daily0, users0 := daily, userDaily;
      if !f.globalSaved { daily := daily[d := Plus(OfDay(daily, d), f.global)]; }
      if !f.usersSaved {
        var all := OfUsers(userDaily, d);
        userDaily := userDaily[d := map u | u in all.Keys + f.users.Keys :: Plus(OfUser(all, u), OfUser(f.users, u))];
      }
      forall k: Key ensures InMemory(daily, userDaily, k) == InMemory(daily0, users0, k) + InFlight(flight, k) {
        Restored(f, daily0, users0, daily, userDaily, k);
      }
      flight := None;
    }

    /** What comes between two steps of a flush: events, and pruning by the background task. */
    method Meantime(acts: seq<Meanwhile>)
      requires Valid()
      modifies this`daily, this`userDaily, this`processed
      ensures Valid() && processed == old(processed) + Arrivals(acts)
    {
      for i := 0 to |acts|
        invariant Valid() && processed == old(processed) + Arrivals(acts[..i])
      {
        assert acts[..i + 1] == acts[..i] + [acts[i]];
        ArrivalsNext(acts[..i], acts[i]);
        match acts[i]
        case Arrive(e) => Process(e);
        case Cleanup(today) => Prune(today);
      }
      assert acts[..|acts|] == acts;
    }

    /** `_save_metrics_day` with anything happening during its three writes and before its compensation.
        Whatever fails, nothing is lost or counted twice; each part is stored exactly if its write was
        reached and applied, and then holds exactly what had been counted when the flush began. */
    method FlushDay(d: Day, acts: seq<seq<Meanwhile>>, globalOk: bool, incidentsOk: bool, usersOk: bool)
      returns (ok: bool, ghost elapsed: seq<Meanwhile>)
      requires Valid() && flight == None && |acts| == 4
      modifies this
      ensures Valid() && flight == None && processed == old(processed) + Arrivals(elapsed)
      ensures ok <==>
        && (globalOk || Zero(OfDay(old(daily), d))) && incidentsOk
        && (usersOk || Counting(OfUsers(old(userDaily), d)) == map[])
      ensures ok ==> elapsed == acts[0] + acts[1] + acts[2] && Complete(old(processed), stored, d)
      ensures queue == old(queue)
      ensures Settled(old(processed), old(stored), stored, d, globalOk,
                      (globalOk || Zero(OfDay(old(daily), d))) && incidentsOk && usersOk)
    {
      hide InMemory, Recorded, InFlight, Zero, Arrivals, Counting, Wrote, Covers, Settled, Complete, Kept, Valid;
      var global, users := Snapshot(d);
      ghost var counted, stored0, taken := processed, stored, flight.value;
      Meantime(acts[0]);
      elapsed := acts[0];
      ghost var users' := false;
      var f := Flight(d, global, users, false, false);
      f := SaveGlobal(f, globalOk);
      if f.globalSaved || Zero(global) {
        Meantime(acts[1]);
        ArrivalsJoin(elapsed, acts[1]);
        elapsed := elapsed + acts[1];
        if incidentsOk {
          Meantime(acts[2]);
          ArrivalsJoin(elapsed, acts[2]);
          elapsed := elapsed + acts[2];
          ghost var stored1, f1 := stored, f;
          f := SaveUsers(f, usersOk);
          WroteBoth(stored0, stored1, stored, taken, f1, f.globalSaved, f.usersSaved);
          users' := usersOk;
          ok := f.usersSaved || users == map[];
        } else {
          ok := false;
        }
      } else {
        ok := false;
      }
      if ok {
        Done(f);
      } else {
        Meantime(acts[3]);
        ArrivalsJoin(elapsed, acts[3]);
        elapsed := elapsed + acts[3];
        Compensate(f);
      }
      WroteSettles(counted, stored0, stored, taken, globalOk, users');
      if ok { WroteAll(counted, stored0, stored, taken, globalOk, users'); }
    }

    /** `_save_metrics_to_db`: everything queued is counted, then every day is flushed in turn. When all
        writes succeed, the database holds for each day at least everything counted or queued before the call:
        exactly what had been counted when the flush of that day began. */
    method FlushAll(days: seq<Day>, plans: seq<Plan>) returns (ok: bool, ghost marks: seq<nat>)
      requires Valid() && flight == None && |plans| == |days|
      requires forall i, j :: 0 <= i < j < |days| ==> days[i] != days[j]
      requires forall i :: 0 <= i < |plans| ==> |plans[i].acts| == 4
      modifies this
      ensures Valid() && flight == None && queue == []
      ensures old(processed) + old(queue) <= processed
      ensures |marks| == |days| && forall i :: 0 <= i < |days| ==>
        |old(processed)| + |old(queue)| <= marks[i] <= |processed|
      ensures ok ==> forall i :: 0 <= i < |days| ==> Holds(processed, stored, days[i], marks[i])
      ensures (forall i :: 0 <= i < |plans| ==> Succeeds(plans[i])) ==> ok
    {
      hide Valid, Settled, Holds, Zero, Counting, Complete, Arrivals;
      Drain();
      ghost var first := processed;
      ok, marks := true, [];
      for i := 0 to |days|
        invariant Valid() && flight == None && queue == [] && first <= processed && |marks| == i
        invariant first == old(processed) + old(queue)
        invariant forall j :: 0 <= j < i ==> |first| <= marks[j] <= |processed|
        invariant ok ==> forall j :: 0 <= j < i ==> Holds(processed, stored, days[j], marks[j])
        invariant (forall j :: 0 <= j < i ==> Succeeds(plans[j])) ==> ok
      {
        ghost var before, stored0 := processed, stored;
        var p := plans[i];
        var done: bool;
        ghost var elapsed;
        ghost var stage := (p.globalOk || Zero(OfDay(daily, days[i]))) && p.incidentsOk && p.usersOk;
        done, elapsed := FlushDay(days[i], p.acts, p.globalOk, p.incidentsOk, p.usersOk);
        forall j | 0 <= j < i && ok ensures Holds(processed, stored, days[j], marks[j]) {
          HeldOn(before, processed, stored0, stored, days[j], marks[j], days[i], p.globalOk, stage);
        }
        if done { HeldNow(before, processed, stored, days[i]); }
        marks := marks + [|before|];
        ok := ok && done;
      }
    }

    /** Pruning drops only entries that count nothing, so it may run at any point of a flush. */
    method Prune(today: Day)
      requires Valid()
      modifies this`daily, this`userDaily
      ensures Valid()
      ensures forall d :: d in daily <==> d in old(daily) && !(d < today - 8 && Zero(old(daily)[d]))
      ensures forall d :: d in userDaily <==>
        d in old(userDaily) && !(d != today && Counting(old(userDaily)[d]) == map[])
    {
      ghost var daily0, users0 := daily, userDaily;
      daily := map d | d in daily && !(d < today - 8 && Zero(daily[d])) :: daily[d];
      userDaily := map d | d in userDaily && !(d != today && forall u :: u in userDaily[d] ==>
        Zero(userDaily[d][u])) :: userDaily[d];
      forall k: Key ensures InMemory(daily, userDaily, k) == InMemory(daily0, users0, k) { }
      forall d | d in users0 ensures Counting(users0[d]) == map[] <==> forall u :: u in users0[d] ==>
        Zero(users0[d][u]) {
        NothingCounts(users0[d]);
      }
    }
  }

  lemma NothingCounts(all: map<User, Tally>)
    ensures Counting(all) == map[] <==> forall u :: u in all ==> Zero(all[u])
  {
    if forall u :: u in all ==> Zero(all[u]) {
      assert Counting(all).Keys == {};
    } else {
      var u :| u in all && !Zero(all[u]);
      assert u in Counting(all);
    }
  }

  lemma Restored(f: Flight, daily: map<Day, Tally>, users: map<Day, map<User, Tally>>, daily': map<Day, Tally>,
      users': map<Day, map<User, Tally>>, k: Key)
    requires daily' == if f.globalSaved then daily else daily[f.day := Plus(OfDay(daily, f.day), f.global)]
    requires users' == if f.usersSaved then users
                       else users[f.day := map u | u in OfUsers(users,
                         f.day).Keys + f.users.Keys :: Plus(OfUser(OfUsers(users, f.day), u), OfUser(f.users, u))]
    ensures InMemory(daily', users', k) == InMemory(daily, users, k) + InFlight(Some(f), k)
  {
    match k
    case Global(d, c) => PlusAt(OfDay(daily, d), f.global, c);
    case Personal(d, u, c) => PlusAt(OfUser(OfUsers(users, d), u), OfUser(f.users, u), c);
  }

  /** Attempts of API calls per day, written as absolute values that the database only ever raises. */
  class Traffic {
    var attempts: map<Day, nat>
    var flushed: map<Day, nat>
    ghost var stored: map<Day, nat>

    static function Of(m: map<Day, nat>, d: Day): nat { if d in m then m[d] else 0 }

    ghost predicate Valid()
      reads this
    {
      forall d :: Of(flushed, d) <= Of(stored, d) <= Of(attempts, d)
    }

    constructor ()
      ensures Valid() && attempts == map[]
    {
      attempts, flushed, stored := map[], map[], map[];
    }

    method Count(d: Day)
      requires Valid()
      modifies this`attempts
      ensures Valid() && attempts == old(attempts)[d := Of(old(attempts), d) + 1]
    {
      attempts := attempts[d := Of(attempts, d) + 1];
    }

    /** The write of one day. Even a write that was applied and reported as failed is never counted twice,
        and a confirmed one stores everything counted up to its snapshot. */
    method Flush(d: Day, count: nat, applied: bool, reported: bool)
      requires Valid() && Of(flushed, d) <= count <= Of(attempts, d) && (reported ==> applied)
      modifies this`flushed, this`stored
      ensures Valid() && Of(stored, d) >= Of(old(stored), d)
      ensures reported ==> Of(stored, d) >= count && Of(flushed, d) == count
      ensures Of(stored, d) == if applied && count > Of(old(stored), d) then count else Of(old(stored), d)
      ensures !reported ==> flushed == old(flushed)
      ensures forall o :: o != d ==> Of(stored, o) == Of(old(stored), o) && Of(flushed, o) == Of(old(flushed), o)
    {
      if count == 0 || count == Of(flushed, d) { return; }
      if applied { stored := stored[d := if Of(stored, d) < count then count else Of(stored, d)]; }
      if reported { flushed := flushed[d := count]; }
    }
  }
}
