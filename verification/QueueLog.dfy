/** The history of a queue: who started what, how each start was settled, and which
    job an operator retry created. Events name jobs by their unique sequence number. */
module QueueLog {
  import opened Wrappers
  import opened QueueTypes

  datatype Event =
    | Admitted(job: nat, parent: Option<nat>)
    | Claimed(job: nat, token: Token, effectful: bool)
    | Settled(job: nat, token: Token, outcome: Outcome)

  datatype Log = Empty | Snoc(prev: Log, last: Event)

  /** Number of times a job was started. */
  ghost function Claims(log: Log, q: nat): nat {
    match log
    case Empty => 0
    case Snoc(prev, e) => Claims(prev, q) + if e.Claimed? && e.job == q then 1 else 0
  }

  /** The latest start or settlement of a job. */
  ghost function Latest(log: Log, q: nat): Option<Event> {
    match log
    case Empty => None
    case Snoc(prev, e) => if !e.Admitted? && e.job == q then Some(e) else Latest(prev, q)
  }

  ghost predicate IsAdmitted(log: Log, q: nat, parent: Option<nat>) {
    match log
    case Empty => false
    case Snoc(prev, e) => e == Admitted(q, parent) || IsAdmitted(prev, q, parent)
  }

  ghost predicate HasChild(log: Log, q: nat) {
    match log
    case Empty => false
    case Snoc(prev, e) => (e.Admitted? && e.parent == Some(q)) || HasChild(prev, q)
  }

  ghost predicate IsChild(log: Log, q: nat) {
    match log
    case Empty => false
    case Snoc(prev, e) => (e.Admitted? && e.job == q && e.parent.Some?) || IsChild(prev, q)
  }

  ghost predicate SettledBy(log: Log, t: Token) {
    match log
    case Empty => false
    case Snoc(prev, e) => (e.Settled? && e.token == t) || SettledBy(prev, t)
  }

  ghost predicate Mentions(log: Log, q: nat) {
    match log
    case Empty => false
    case Snoc(prev, e) => e.job == q || (e.Admitted? && e.parent == Some(q)) || Mentions(prev, q)
  }

  ghost predicate RetryReported(e: Option<Event>) {
    e.Some? && e.value.Settled? && e.value.outcome == RetryableFailure
  }

  /** Every start of an effectful job is its first one or follows, with nothing in
      between, a settlement that reported a retryable failure. */
  ghost predicate NoReplay(log: Log) {
    match log
    case Empty => true
    case Snoc(prev, e) =>
      NoReplay(prev)
      && (e.Claimed? && e.effectful ==> Latest(prev, e.job) == None || RetryReported(Latest(prev, e.job)))
  }

  /** No owner token settles twice. */
  ghost predicate SettledOnce(log: Log) {
    match log
    case Empty => true
    case Snoc(prev, e) => SettledOnce(prev) && (e.Settled? ==> !SettledBy(prev, e.token))
  }

  /** A settlement closes the latest start of its job and names the token of that start. */
  ghost predicate Fenced(log: Log) {
    match log
    case Empty => true
    case Snoc(prev, e) =>
      Fenced(prev)
      && (e.Settled? ==> exists eff :: Latest(prev, e.job) == Some(Claimed(e.job, e.token, eff)))
  }

  /** An operator retry makes the first child of a job that is no child itself. */
  ghost predicate OneGeneration(log: Log) {
    match log
    case Empty => true
    case Snoc(prev, e) =>
      OneGeneration(prev)
      && (e.Admitted? ==> !Mentions(prev, e.job))
      && (e.Admitted? && e.parent.Some? ==>
            e.parent.value != e.job && !HasChild(prev, e.parent.value) && !IsChild(prev, e.parent.value))
  }

  ghost predicate Extends(log: Log, later: Log)
  {
    log == later || (later.Snoc? && Extends(log, later.prev))
  }

  lemma {:induction false} ExtendsTransitive(a: Log, b: Log, c: Log)
    requires Extends(a, b) && Extends(b, c)
    ensures Extends(a, c)
    decreases c
  {
    if b != c { ExtendsTransitive(a, b, c.prev); }
  }
}
