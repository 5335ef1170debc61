/** The single-flight cache of dashboard sources. Code between two awaits is one atomic step:
    a reader's step up to its await, the start and the end of a refresh task, an invalidation. */
module SourceCache {
  import opened Wrappers

  type Name = string
  type TaskId = nat
  type Value = string

  datatype Reason = NoReason | Partial | Timeout | Unavailable | Failed | Invalidated | Closed

  datatype Snapshot = Snapshot(value: Option<Value>, observedAt: Option<real>, startedAt: Option<real>,
      available: bool, stale: bool, reason: Reason)

  datatype Cached = Cached(snapshot: Snapshot, observedClock: real, attemptedClock: real)

  /** How the reader of a source ended. */
  datatype Reading = Read(value: Value, partial: bool) | Error(reason: Reason)

  /** An unfinished refresh: its source and the version it was created under. */
  datatype Refresh = Refresh(name: Name, version: nat)

  datatype Answer = Hit(snapshot: Snapshot) | Join(task: TaskId) | Unknown | BadAge

  /** The tasks in flight are exactly the unfinished ones, one per source. */
  ghost predicate Flights(tasks: map<TaskId, Refresh>, inflight: map<Name, TaskId>, versions: map<Name, nat>) {
    && (forall t :: t in tasks ==> tasks[t].name in inflight && inflight[tasks[t].name] == t)
    && (forall n :: n in inflight ==> inflight[n] in tasks && tasks[inflight[n]].name == n && n in versions)
    && (forall t :: t in tasks ==> tasks[t].name in versions && tasks[t].version <= versions[tasks[t].name])
  }

  /** Every cached entry came from a refresh created under the source's current version. */
  ghost predicate Current(origin: map<Name, nat>, cache: map<Name, Cached>, versions: map<Name, nat>) {
    origin.Keys == cache.Keys && forall n :: n in cache ==> n in versions && origin[n] == versions[n]
  }

  /** A cached value that is not marked stale is the last good one. */
  ghost predicate Backed(cache: map<Name, Cached>, good: map<Name, Cached>) {
    forall n :: n in cache && cache[n].snapshot.available && !cache[n].snapshot.stale ==>
      n in good && good[n].snapshot == cache[n].snapshot && good[n].observedClock == cache[n].observedClock
  }

  ghost predicate Good(good: map<Name, Cached>) {
    forall n :: n in good ==> good[n].snapshot.available && !good[n].snapshot.stale && good[n].snapshot.value.Some?
  }

  lemma Landed(tasks: map<TaskId, Refresh>, inflight: map<Name, TaskId>, versions: map<Name, nat>, task: TaskId)
    requires Flights(tasks, inflight, versions) && task in tasks
    ensures Flights(tasks - {task}, inflight - {tasks[task].name}, versions) && tasks[task].name in versions
  {
  }

  /** What a refresh that started at `startedAt` makes of the reading it got at `now`. */
  function Observed(good: map<Name, Cached>, staleSeconds: real, name: Name, startedAt: real, startedClock: real,
      reading: Reading, now: real, wall: real): (c: Cached)
    ensures c.snapshot.available ==>
      || (reading.Read? && c.snapshot.value == Some(reading.value) && !c.snapshot.stale && c.observedClock == now)
      || (reading.Error? && name in good && c.snapshot.value == good[name].snapshot.value && c.snapshot.stale
          && c.observedClock == good[name].observedClock && now - c.observedClock <= staleSeconds)
    ensures reading.Read? ==> c.snapshot.available && c.snapshot.observedAt == Some(wall)
    ensures reading.Read? ==> c.snapshot.reason == if reading.partial then Partial else NoReason
    ensures reading.Error? ==> c.snapshot.reason == reading.reason && (c.snapshot.stale <==> name in good)
    ensures reading.Error? && name in good ==> c.snapshot.observedAt == good[name].snapshot.observedAt
    ensures reading.Error? && name in good && good[name].snapshot.available ==>
      (c.snapshot.available <==> now - good[name].observedClock <= staleSeconds)
    ensures reading.Error? && name in good && now - good[name].observedClock > staleSeconds ==> c.snapshot.value == None
    ensures reading.Error? && name !in good ==> !c.snapshot.available && c.snapshot.observedAt == None
    ensures !c.snapshot.available ==> reading.Error?
    ensures c.attemptedClock == startedClock && c.snapshot.startedAt == Some(startedAt)
  {
    match reading
    case Read(value, partial) =>
      Cached(Snapshot(Some(value), Some(wall), Some(startedAt), true, false, if partial then Partial else NoReason),
        now, startedClock)
    case Error(reason) =>
      if name in good then
        if now - good[name].observedClock <= staleSeconds then
          Cached(good[name].snapshot.(startedAt := Some(startedAt), stale := true, reason := reason),
            good[name].observedClock, startedClock)
        else
          Cached(Snapshot(None, good[name].snapshot.observedAt, Some(startedAt), false, true, reason),
            good[name].observedClock, startedClock)
      else
        Cached(Snapshot(None, None, Some(startedAt), false, false, reason), startedClock, startedClock)
  }

  /** Storing what a refresh of the current version observed. */
  lemma Stored(origin: map<Name, nat>, cache: map<Name, Cached>, good: map<Name, Cached>, versions: map<Name, nat>,
               staleSeconds: real, name: Name, startedAt: real, startedClock: real, reading: Reading, now: real,
                 wall: real)
    requires name in versions && Current(origin, cache, versions) && Backed(cache, good) && Good(good)
    ensures var entry := Observed(good, staleSeconds, name, startedAt, startedClock, reading, now, wall);
            var good' := if reading.Read? then good[name := entry] else good;
            && Current(origin[name := versions[name]], cache[name := entry], versions)
              && Backed(cache[name := entry], good') && Good(good')
  {
  }

  class Cache {
    const sources: set<Name>
    const staleSeconds: real

    var cache: map<Name, Cached>
    var good: map<Name, Cached>
    var inflight: map<Name, TaskId>
    var versions: map<Name, nat>
    var closed: bool

    /** Tasks created and not yet finished, and the version under which each cached entry was refreshed. */
    ghost var tasks: map<TaskId, Refresh>
    ghost var origin: map<Name, nat>

    ghost predicate Valid()
      reads this
    {
      && versions.Keys == sources && cache.Keys <= sources
      && Flights(tasks, inflight, versions) && Current(origin, cache, versions) && Backed(cache, good) && Good(good)
    }

    constructor (sources: set<Name>, staleSeconds: real)
      requires staleSeconds >= 0.0
      ensures Valid() && this.sources == sources && this.staleSeconds == staleSeconds && tasks == map[]
        && cache == map[]
    {
      this.sources, this.staleSeconds := sources, staleSeconds;
      cache, good, inflight, closed := map[], map[], map[], false;
      versions := map n | n in sources :: 0;
      tasks, origin := map[], map[];
    }

    /** An invalidation drops the entry and outdates the refresh in flight. */
    method Invalidate(name: Name) returns (known: bool)
      requires Valid()
      modifies this`versions, this`cache, this`origin
      ensures Valid() && (known <==> name in sources)
      ensures known ==>
        cache == old(cache) - {name} && versions[name] == old(versions[name]) + 1 && tasks == old(tasks)
        && inflight == old(inflight)
      ensures known ==> forall t :: t in tasks && tasks[t].name == name ==> tasks[t].version < versions[name]
      ensures forall n :: n in sources && n != name ==>
        versions[n] == old(versions[n]) && (n in cache <==> n in old(cache))
    {
      if name !in sources { return false; }
      versions := versions[name := versions[name] + 1];
      cache := cache - {name};
      origin := origin - {name};
      return true;
    }

    /** What a reader gets from an entry: a stale value beyond its time is withheld. */
    function CopyCurrent(entry: Cached, now: real): (r: Snapshot)
      ensures r.available && r.stale ==> now - entry.observedClock <= staleSeconds
      ensures r == entry.snapshot || (entry.snapshot.stale && now - entry.observedClock > staleSeconds && !r.available
        && r.value == None)
      ensures r == entry.snapshot.(value := r.value, available := r.available)
    {
      var s := entry.snapshot;
      if s.stale && now - entry.observedClock > staleSeconds then s.(value := None, available := false) else s
    }

    /** A reader's step up to its await: a recent entry answers at once; otherwise it joins the one
        refresh of the source, creating `task` for it when there is none. */
    method Get(name: Name, maxAge: real, now: real, task: TaskId) returns (a: Answer)
      requires Valid() && task !in tasks
      modifies this`inflight, this`tasks
      ensures Valid()
      ensures a.Unknown? <==> name !in sources
      ensures a.BadAge? <==> name in sources && maxAge < 0.0
      ensures a.Join? <==>
        name in sources && maxAge >= 0.0 && !closed && !(name in cache && now - cache[name].attemptedClock < maxAge)
      ensures a.Hit? && !closed ==>
        name in cache && now - cache[name].attemptedClock < maxAge && a.snapshot == CopyCurrent(cache[name], now)
      ensures a.Hit? && closed ==> a.snapshot == Snapshot(None, None, None, false, false, Reason.Closed)
      ensures a.Join? ==> a.task in tasks && tasks[a.task].name == name && inflight == old(inflight)[name := a.task]
      ensures a.Join? && name in old(inflight) ==> tasks == old(tasks)
      ensures a.Join? && name !in old(inflight) ==>
        a.task == task && tasks == old(tasks)[task := Refresh(name, versions[name])]
      ensures !a.Join? ==> tasks == old(tasks) && inflight == old(inflight)
    {
      if name !in sources { return Unknown; }
      if maxAge < 0.0 { return BadAge; }
      if closed { return Hit(Snapshot(None, None, None, false, false, Reason.Closed)); }
      if name in cache && now - cache[name].attemptedClock < maxAge { return Hit(CopyCurrent(cache[name], now)); }
      if name in inflight { return Join(inflight[name]); }
      inflight := inflight[name := task];
      tasks := tasks[task := Refresh(name, versions[name])];
      return Join(task);
    }

    /** The end of a refresh. Its result is stored only if no invalidation came since the task was created. */
    method Complete(task: TaskId, name: Name, version: nat, startedAt: real, startedClock: real, reading: Reading,
        now: real, wall: real)
      returns (r: Snapshot)
      requires Valid() && task in tasks && tasks[task] == Refresh(name, version)
      modifies this`cache, this`good, this`inflight, this`tasks, this`origin
      ensures Valid() && tasks == old(tasks) - {task} && inflight == old(inflight) - {name} && versions == old(versions)
      ensures version == versions[name] ==>
        cache == old(cache)[name := Observed(old(good), staleSeconds, name, startedAt, startedClock, reading, now,
          wall)] && r == cache[name].snapshot
      ensures version != versions[name] ==>
        cache == old(cache) && good == old(good) && r.stale && r.reason == Invalidated
      ensures r.available ==>
        || (reading.Read? && r.value == Some(reading.value))
        || (name in old(good) && r.value == old(good)[name].snapshot.value && r.stale
          && now - old(good)[name].observedClock <= staleSeconds)
      ensures version == versions[name] ==>
        good == if reading.Read? then old(good)[name := cache[name]] else old(good)
      ensures r.available && !r.stale ==> reading.Read? && version == versions[name]
    {
      hide Flights, Current, Backed, Good, Observed;
      Landed(tasks, inflight, versions, task);
      tasks := tasks - {task};
      inflight := inflight - {name};
      Stored(origin, cache, good, versions, staleSeconds, name, startedAt, startedClock, reading, now, wall);
      var entry := Observed(good, staleSeconds, name, startedAt, startedClock, reading, now, wall);
      if version != versions[name] { return entry.snapshot.(stale := true, reason := Invalidated); }
      if reading.Read? { good := good[name := entry]; }
      cache := cache[name := entry];
      origin := origin[name := version];
      return entry.snapshot;
    }

    /** A refresh cancelled by `close` leaves nothing but its place. */
    method Abandon(task: TaskId, name: Name)
      requires Valid() && task in tasks && tasks[task].name == name
      modifies this`inflight, this`tasks
      ensures Valid() && tasks == old(tasks) - {task} && inflight == old(inflight) - {name}
    {
      tasks := tasks - {task};
      inflight := inflight - {name};
    }

    method Close()
      requires Valid()
      modifies this`closed
      ensures Valid() && closed
    {
      closed := true;
    }

    /** Single flight: a source never has two unfinished refreshes, and readers that wait join it. */
    lemma SingleFlight(a: TaskId, b: TaskId)
      requires Valid() && a in tasks && b in tasks && tasks[a].name == tasks[b].name
      ensures a == b && inflight[tasks[a].name] == a
    {
    }
  }

  /** A run between an invalidation and the end of a refresh that was in flight: the late result is
      neither stored nor presented as current, and the next reader starts a new refresh. */
  method LateRefresh(c: Cache, name: Name, task: TaskId, version: nat, next: TaskId, startedAt: real,
      startedClock: real, reading: Reading, now: real, wall: real)
    returns (r: Snapshot, a: Answer)
    requires c.Valid() && name in c.sources && task in c.tasks && c.tasks[task] == Refresh(name, version)
      && next !in c.tasks && !c.closed
    modifies c
    ensures c.Valid() && r.stale && r.reason == Invalidated && name !in c.cache
    ensures a == Join(next) && next in c.tasks && c.tasks[next].version == c.versions[name] > old(c.versions[name])
  {
    var known := c.Invalidate(name);
    r := c.Complete(task, name, version, startedAt, startedClock, reading, now, wall);
    a := c.Get(name, 1.0, now, next);
  }
}
