/** The limiter of administrator alerts: a sliding window over all alerts and a cooldown per
    unauthorized user. Check and record run without suspension between them. */
module AdminAlerts {

  const MAX_ALERTS: nat := 5
  const WINDOW: real := 300.0
  const COOLDOWN: real := 600.0

  ghost predicate Sorted(s: seq<real>, clock: real) {
    (forall i, j :: 0 <= i < j < |s| ==> s[i] <= s[j]) && (forall i :: 0 <= i < |s| ==> s[i] <= clock)
  }

  /** Any six consecutive entries span more than the window. */
  ghost predicate Spaced(s: seq<real>) { forall i :: 0 <= i && i + MAX_ALERTS < |s| ==>
      s[i + MAX_ALERTS] - s[i] > WINDOW }

  /** Alerts about one user are at least the cooldown apart. */
  ghost predicate Cooled(s: seq<(int, real)>) {
    forall i, j :: 0 <= i < j < |s| && s[i].0 == s[j].0 ==> s[j].1 - s[i].1 >= COOLDOWN
  }

  /** The list keeps the latest attempts; whatever it no longer holds has left the window. */
  ghost predicate Windowed(timestamps: seq<real>, history: seq<real>, clock: real) {
    && |timestamps| <= MAX_ALERTS && |timestamps| <= |history| && timestamps == history[|history| - |timestamps|..]
    && (forall i :: 0 <= i < |history| - |timestamps| ==> clock - history[i] > WINDOW)
  }

  ghost predicate Cooling(alerts: seq<(int, real)>, last: map<int, real>, clock: real) {
    forall i :: 0 <= i < |alerts| ==>
      clock - alerts[i].1 >= COOLDOWN || (alerts[i].0 in last && last[alerts[i].0] >= alerts[i].1)
  }

  class Limiter {
    var timestamps: seq<real>
    var lastAlerted: map<int, real>

    /** Every attempt ever recorded, and the latest time seen. */
    ghost var history: seq<real>
    ghost var unauthorized: seq<(int, real)>
    ghost var clock: real

    ghost predicate Valid()
      reads this
    {
      && Windowed(timestamps, history, clock) && Sorted(history, clock) && Spaced(history)
      && Cooled(unauthorized) && Cooling(unauthorized, lastAlerted, clock)
    }

    constructor ()
      ensures Valid() && history == [] && unauthorized == []
    {
      timestamps, lastAlerted := [], map[];
      history, unauthorized, clock := [], [], 0.0;
    }

    /** Forgets what has left the window; limited when five attempts are still inside it. */
    method IsRateLimited(now: real) returns (limited: bool)
      requires Valid() && clock <= now
      modifies this`timestamps, this`clock
      ensures Valid() && clock == now
      ensures limited <==> |timestamps| == MAX_ALERTS
      ensures limited <==> |history| >= MAX_ALERTS && now - history[|history| - MAX_ALERTS] <= WINDOW
    {
      hide Spaced, Cooled, Sorted, Cooling, Windowed;
      Later(history, unauthorized, lastAlerted, clock, now);
      clock := now;
      while timestamps != [] && now - timestamps[0] > WINDOW
        invariant Windowed(timestamps, history, now) && now == clock
        decreases |timestamps|
      {
        PurgeOne(timestamps, history, now);
        timestamps := timestamps[1..];
      }
      Oldest(timestamps, history, now);
      return |timestamps| >= MAX_ALERTS;
    }

    method RecordAlert(now: real)
      requires Valid() && clock <= now && |timestamps| < MAX_ALERTS
      modifies this`timestamps, this`history, this`clock
      ensures Valid() && history == old(history) + [now] && clock == now
    {
      timestamps := timestamps + [now];
      history := history + [now];
      clock := now;
    }

    /** Drops finished cooldowns and says whether this user may cause an alert. */
    method CanAlertUnauthorized(user: int, now: real) returns (can: bool)
      requires Valid() && clock <= now
      modifies this`lastAlerted, this`clock
      ensures Valid() && clock == now
      ensures can ==> forall i :: 0 <= i < |unauthorized| && unauthorized[i].0 == user ==>
        now - unauthorized[i].1 >= COOLDOWN
      ensures can <==> !(user in old(lastAlerted) && now - old(lastAlerted)[user] < COOLDOWN)
    {
      clock := now;
      lastAlerted := map u | u in lastAlerted && now - lastAlerted[u] < COOLDOWN :: lastAlerted[u];
      return user !in lastAlerted || now - lastAlerted[user] >= COOLDOWN;
    }

    method RecordUnauthorized(user: int, now: real)
      requires Valid() && clock <= now
      requires forall i :: 0 <= i < |unauthorized| && unauthorized[i].0 == user ==> now - unauthorized[i].1 >= COOLDOWN
      modifies this`lastAlerted, this`unauthorized, this`clock
      ensures Valid() && clock == now && unauthorized == old(unauthorized) + [(user, now)]
    {
      lastAlerted := lastAlerted[user := now];
      unauthorized := unauthorized + [(user, now)];
      clock := now;
    }

    /** `alert_admin` and `alert_admin_raw`: the attempt is recorded before the transport can yield, and
        only when an administrator and a bot exist and the window has room. */
    method Alert(check: real, record: real, reachable: bool) returns (sent: bool)
      requires Valid() && clock <= check <= record
      modifies this
      ensures Valid() && history == (if sent then old(history) + [record] else old(history))
        && unauthorized == old(unauthorized)
      ensures sent <==>
        reachable && !(|old(history)| >= 5 && check - old(history)[|old(history)| - 5] <= 300.0)
    {
      var limited := IsRateLimited(check);
      if limited || !reachable { return false; }
      RecordAlert(record);
      return true;
    }

    /** The bound over any run of the limiter: more than five attempts always take more than 300 seconds, and
        two alerts about one user are at least 600 seconds apart. */
    lemma WindowBound(i: nat, j: nat)
      requires Valid()
      ensures i + 5 <= j < |history| ==> history[j] - history[i] > 300.0
      ensures i < j < |unauthorized| && unauthorized[i].0 == unauthorized[j].0 ==>
        unauthorized[j].1 - unauthorized[i].1 >= 600.0
    {
      if i + MAX_ALERTS <= j < |history| {
        assert history[i + MAX_ALERTS] - history[i] > WINDOW;
        assert i + MAX_ALERTS == j || history[i + MAX_ALERTS] <= history[j];
      }
    }

    /** `alert_admin_unauthorized_user`: both limits at once. */
    method AlertUnauthorized(user: int, first: real, second: real, record: real, later: real, reachable: bool)
        returns (sent: bool)
      requires Valid() && clock <= first <= second <= record <= later
      modifies this
      ensures Valid() && history == (if sent then old(history) + [record] else old(history))
      ensures unauthorized == if sent then old(unauthorized) + [(user, later)] else old(unauthorized)
      ensures sent <==>
        && reachable && !(user in old(lastAlerted) && first - old(lastAlerted)[user] < 600.0)
        && !(|old(history)| >= 5 && second - old(history)[|old(history)| - 5] <= 300.0)
    {
      var can := CanAlertUnauthorized(user, first);
      if !can { return false; }
      var limited := IsRateLimited(second);
      if limited || !reachable { return false; }
      RecordAlert(record);
      RecordUnauthorized(user, later);
      return true;
    }
  }

  lemma PurgeOne(timestamps: seq<real>, history: seq<real>, now: real)
    requires Windowed(timestamps, history, now) && timestamps != [] && now - timestamps[0] > WINDOW
    ensures Windowed(timestamps[1..], history, now)
  {
  }

  lemma Later(s: seq<real>, alerts: seq<(int, real)>, last: map<int, real>, clock: real, now: real)
    requires Sorted(s, clock) && Cooling(alerts, last, clock) && clock <= now
    ensures Sorted(s, now) && Cooling(alerts, last, now)
    ensures forall t :: Windowed(t, s, clock) ==> Windowed(t, s, now)
  {
  }

  lemma Oldest(timestamps: seq<real>, history: seq<real>, now: real)
    requires Windowed(timestamps, history, now) && Sorted(history, now)
    requires timestamps == [] || now - timestamps[0] <= WINDOW
    ensures |timestamps| <= MAX_ALERTS
    ensures |timestamps| == MAX_ALERTS <==> |history| >= MAX_ALERTS && now - history[|history| - MAX_ALERTS] <= WINDOW
  {
  }
}
