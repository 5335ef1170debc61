/** The values the version-two job queue works on: job records, lanes, policies and
    the Redis keys of one queue namespace. Times are microseconds of Redis TIME. */
module QueueTypes {
  import opened Wrappers

  type Id = nat
  type Token = nat
  type Key = nat
  type Time = int

  const SECOND: Time := 1_000_000
  const MILLISECOND: Time := 1_000
  const LEASE: Time := 60 * SECOND
  const RETRY_KEEP: Time := 900 * SECOND
  const DAY: Time := 86400 * SECOND
  const SCORE_STEP: int := 1_000_000_000_000
  const BYTE_CAP: int := 8388608

  datatype Lane = Deferred | Maintenance | Daily | Broadcast

  datatype JobState =
    | Queued | Delayed | Running | CancelRequested
    | Succeeded | Failed | Cancelled | Expired | UnknownDelivery

  datatype Outcome = Success | RetryableFailure | PermanentFailure | Ambiguous

  datatype Kind = Document | Tarot | Other

  datatype Reason =
    | NoReason | PayloadExpired | DeadlineExceeded | StorageUnconfirmed | InterruptedDelivery
    | CancelAsked | AttemptsExhausted | RetryAfterDeadline | Reported(code: string)

  /** What an accepted submission fixes for the whole life of its job. */
  datatype Ticket = Ticket(
    id: Id, lane: Lane, user: int, kind: Kind, epoch: Option<int>, priority: int,
    effectful: bool, imageWork: bool, parent: Option<Id>, conflictKeys: seq<Key>,
    timeout: Option<int>, maxAttempts: int, submittedAt: Time, queueDeadlineAt: Time,
    payloadBytes: int, sequence: nat, identity: Key, fingerprint: Key)

  /** The record under `job:<id>`. A set `metadataExpiresAt` is also the key's time to live. */
  datatype Job = Job(
    t: Ticket, state: JobState, revision: nat, attempts: nat, notBefore: Time,
    deadlineAt: Time, heartbeatAt: Time, reason: Reason, retryGrants: int,
    retryEligible: bool, accounted: bool, owner: Option<Token>, finishToken: Option<Token>,
    payloadExpiresAt: Time, metadataExpiresAt: Option<Time>)

  datatype Policy = Policy(maxJobs: int, maxPayload: int, maxTotal: int, maxAge: int, maxAttempts: int)

  datatype LaneState = LaneState(revision: int, admissionPaused: bool, claimPaused: bool, policy: Policy)

  datatype Payload = Payload(text: string, expiresAt: Time)
  datatype Permit = Permit(token: Token, expiresAt: Time)
  datatype Owner = Owner(user: int, lane: Lane, state: JobState)
  datatype Idem = Idem(task: Id, fingerprint: Key, expiresAt: Time)
  datatype IdemSet = IdemSet(members: set<Key>, expiresAt: Option<Time>)
  datatype Operation = Operation(fingerprint: Key, target: Option<Id>, expiresAt: Time)

  /** A field of the hash `counts:<lane>`. */
  datatype Field = Nonterminal | RunningNow | PayloadBytes | InState(state: JobState)
  type Counts = map<(Lane, Field), int>

  /** One queue namespace. Sorted sets are maps from member to score; the per-lane sets
      `ready:<lane>` and `delayed:<lane>` are keyed by lane and member. */
  datatype Db = Db(
    clock: Time,
    jobs: map<Id, Job>,
    payloads: map<Id, Payload>,
    ready: map<(Lane, Id), int>,
    delayed: map<(Lane, Id), int>,
    running: map<Id, int>,
    deadline: map<Id, int>,
    payloadExpiry: map<Id, int>,
    metaExpiry: map<Id, int>,
    permit: Option<Permit>,
    counts: Counts,
    owners: map<Id, Owner>,
    users: set<(int, Id)>,
    conflicts: map<(Lane, Key), Id>,
    idem: map<Key, Idem>,
    identities: map<Id, IdemSet>,
    operations: map<Key, Operation>,
    commands: map<Id, set<Key>>,
    lanes: map<Lane, LaneState>,
    sequence: nat)

  predicate Active(s: JobState) { s == Queued || s == Delayed || s == Running || s == CancelRequested }
  predicate Held(s: JobState) { s == Running || s == CancelRequested }
  predicate Waiting(s: JobState) { s == Queued || s == Delayed }

  function Workers(l: Lane): int {
    match l case Deferred => 3 case Maintenance => 1 case Daily => 2 case Broadcast => 1
  }

  function JobCap(l: Lane): int {
    match l case Deferred => 100 case Maintenance => 100 case Daily => 32 case Broadcast => 10
  }

  function AgeCap(l: Lane): int { if l == Daily then 1800 else 900 }

  function Min(a: int, b: int): int { if a < b then a else b }
  function Max(a: int, b: int): int { if a < b then b else a }

  predicate Positive(p: Policy) {
    p.maxJobs >= 1 && p.maxPayload >= 1 && p.maxTotal >= 1 && p.maxAge >= 1 && p.maxAttempts >= 1
  }

  function Score(m: Job): int { (5 - m.t.priority) * SCORE_STEP + m.t.sequence }

  function OwnerOf(m: Job): Owner { Owner(m.t.user, m.t.lane, m.state) }

  function Counter(counts: Counts, l: Lane, f: Field): int {
    if (l, f) in counts then counts[(l, f)] else 0
  }

  /** HINCRBY */
  function Bump(counts: Counts, l: Lane, f: Field, step: int): Counts {
    counts[(l, f) := Counter(counts, l, f) + step]
  }

  /** ZADD when `on`, ZREM otherwise. */
  function Place<K>(z: map<K, int>, k: K, on: bool, score: int): map<K, int> {
    if on then z[k := score] else z - {k}
  }

  function LaneView(z: map<(Lane, Id), int>, l: Lane): map<Id, int> {
    map k | k in z && k.0 == l :: k.1 := z[k]
  }

  function Due(z: map<Id, int>, now: Time): map<Id, int> {
    map id | id in z && z[id] <= now :: z[id]
  }

  /** The empty namespace at a time of Redis TIME. */
  function Vacant(now: Time): Db {
    Db(now, map[], map[], map[], map[], map[], map[], map[], map[], None, map[], map[], {}, map[],
       map[], map[], map[], map[], map[], 0)
  }
}
