/** How task ids and identities are derived, and which calls can therefore meet a record that is
    not theirs. A submission's id and identity both come from user and key. An operator retry's child
    id comes from the operation alone, its identity from the parent's user and the operation. */
module QueueNaming {
  import opened Wrappers
  import opened QueueTypes
  import opened QueueInvariant
  import opened QueueSteps
  import opened QueueLoops
  import opened QueueAdmission
  import opened QueueIdentity
  import opened QueueCalls
  import opened QueueServer

  datatype Command =
    | SweepOnly
    | DoClaim(lane: Lane, token: Token)
    | DoHeartbeat(id: Id, token: Token, revision: int)
    | DoFinish(id: Id, token: Token, revision: int, outcome: Outcome, reason: Option<string>, delay: Time)
    | DoCancel(op: Key, fingerprint: Key, id: Id, revision: int)
    | DoSetLane(op: Key, fingerprint: Key, lane: Lane, policy: Policy, revision: int, admissionPaused: bool,
                claimPaused: bool)
    | DoAdmit(request: Request, policy: Policy, identity: Key, fingerprint: Key)
    | DoRetry(op: Key, fingerprint: Key, id: Id, revision: int, epoch: Option<int>, child: Id, policy: Policy,
              identity: Key)
    | DoErase(user: int, pick: seq<Id>)

  /** The hashes behind ids and identities, and the job each operation is about. */
  datatype Names = Names(identity: (int, Key) -> Key, submitted: (int, Key) -> Id, child: Key -> Id, parent: Key -> Id)

  /** Different submissions and operations have different ids. */
  ghost predicate Distinguishes(n: Names) {
    && (forall u: int, k: Key, u': int, k': Key :: n.submitted(u, k) == n.submitted(u', k') ==> u == u' && k == k')
    && (forall o: Key, o': Key :: n.child(o) == n.child(o') ==> o == o')
    && (forall u: int, k: Key, o: Key :: n.submitted(u, k) != n.child(o))
  }

  ghost predicate OfSubmission(n: Names, t: Ticket) {
    exists k: Key :: t.id == n.submitted(t.user, k) && t.identity == n.identity(t.user, k)
  }

  ghost predicate OfRetry(n: Names, t: Ticket) {
    exists o: Key :: t.id == n.child(o) && t.identity == n.identity(t.user, o)
  }

  /** The child of an operation that was used for its own parent only. */
  ghost predicate OfParent(n: Names, t: Ticket) {
    exists o: Key, k: Key :: t.id == n.child(o) && t.parent == Some(n.parent(o))
      && n.parent(o) == n.submitted(t.user, k)
  }

  ghost predicate WellNamed(n: Names, t: Ticket) { if t.parent == None then OfSubmission(n, t) else OfRetry(n, t) }

  ghost predicate AllNamed(n: Names, d: Db) {
    forall id :: id in d.jobs ==> d.jobs[id].t.id == id && WellNamed(n, d.jobs[id].t)
  }

  ghost predicate AllAdopted(n: Names, d: Db) {
    forall id :: id in d.jobs && d.jobs[id].t.parent.Some? ==> OfParent(n, d.jobs[id].t)
  }

  /** A call names its job as the runtime and the store derive the names. */
  ghost predicate Proper(n: Names, d: Db, c: Command) {
    match c
    case DoAdmit(q, _, identity, _) =>
      exists k: Key :: q.id == n.submitted(q.user, k) && identity == n.identity(q.user, k)
    case DoRetry(op, _, id, _, _, child, _, identity) =>
      child == n.child(op) && (id in d.jobs ==> identity == n.identity(d.jobs[id].t.user, op))
    case _ => true
  }

  /** An operation is used for one parent only. */
  predicate Adopts(n: Names, c: Command) { c.DoRetry? ==> c.id == n.parent(c.op) }

  // ---- overwriting -----------------------------------------------------------------------------------

  /** The call is about to create a job. */
  predicate Creates(d: Db, c: Command) {
    match c
    case DoAdmit(q, p, identity, fp) => Decide(d, q, p, identity, fp, 0).Accept?
    case DoRetry(op, fp, id, revision, epoch, child, p, identity) =>
      op !in d.operations && Retryable(d, id, revision, epoch) && RetryDecision(d, id, child, p, identity, fp).Accept?
    case _ => false
  }

  function NewId(c: Command): Id
    requires c.DoAdmit? || c.DoRetry?
  {
    if c.DoAdmit? then c.request.id else c.child
  }

  /** The job is created under an id that an index already knows. */
  predicate Overwrites(d: Db, c: Command) { Creates(d, c) && NewId(c) in d.owners }

  /** First way: the same user's record outlived its idempotency key. */
  predicate KeyGone(d: Db, id: Id, user: int) {
    id in d.jobs && d.jobs[id].t.user == user && d.jobs[id].t.identity !in d.idem
  }

  /** Second way: the record is removed, its metadata still waits for the sweep. */
  predicate Removed(d: Db, id: Id) { id in d.owners && id !in d.jobs }

  /** Third way: the operation was used before, for a job of another user. */
  predicate Foreign(d: Db, c: Command) {
    c.DoRetry? && c.id in d.jobs && c.child in d.jobs && d.jobs[c.child].t.user != d.jobs[c.id].t.user
  }

  function UserOf(d: Db, c: Command): int
    requires Creates(d, c)
  {
    if c.DoAdmit? then c.request.user else d.jobs[c.id].t.user
  }

  lemma CreatesFresh(d: Db, c: Command)
    requires Creates(d, c)
    ensures (c.DoAdmit? || c.DoRetry?) && c.identity !in d.idem && (c.DoRetry? ==> c.id in d.jobs)
  {
  }

  /** A record stored under the id a call is about to use: of the same user it has the call's own identity. */
  lemma {:induction false} SameUserSameIdentity(n: Names, d: Db, c: Command)
    requires Distinguishes(n) && AllNamed(n, d) && Proper(n, d, c) && Creates(d, c) && NewId(c) in d.jobs
    ensures c.DoAdmit? ==> d.jobs[NewId(c)].t.user == UserOf(d, c)
    ensures d.jobs[NewId(c)].t.user == UserOf(d, c) ==> d.jobs[NewId(c)].t.identity == c.identity
  {
    hide Decide, Retryable, RetryDecision;
    CreatesFresh(d, c);
    var t := d.jobs[NewId(c)].t;
    assert WellNamed(n, t) && t.id == NewId(c);
    if t.parent == None {
      var k: Key :| t.id == n.submitted(t.user, k) && t.identity == n.identity(t.user, k);
    } else {
      var o: Key :| t.id == n.child(o) && t.identity == n.identity(t.user, o);
    }
  }

  /** A call overwrites a record in exactly three ways. */
  lemma {:induction false} OverwriteWays(n: Names, d: Db, c: Command, past: Past)
    requires Distinguishes(n) && AllNamed(n, d) && Proper(n, d, c)
    requires Inv(d, past)
    ensures Overwrites(d, c) <==>
      && Creates(d, c)
      && (KeyGone(d, NewId(c), UserOf(d, c)) || Removed(d, NewId(c)) || Foreign(d, c))
  {
    hide Inv, Creates, AllNamed, Distinguishes, Proper;
    if Creates(d, c) {
      CreatesFresh(d, c);
      OwnedIfStored(d, NewId(c), past);
      if NewId(c) in d.jobs { SameUserSameIdentity(n, d, c); }
    }
  }

  /** In a linked keyspace whose metadata scan was complete, only an operation used before for another user's
      job can overwrite. */
  lemma {:induction false} OverwriteForeign(n: Names, d: Db, c: Command, past: Past)
    requires Distinguishes(n) && AllNamed(n, d) && Proper(n, d, c) && Linked(d)
    requires forall id :: id in d.owners ==> id in d.jobs
    requires Inv(d, past)
    ensures Overwrites(d, c) <==> Creates(d, c) && Foreign(d, c)
  {
    hide Inv, Creates, AllNamed, Distinguishes, Proper, Linked;
    OverwriteWays(n, d, c, past);
    if Creates(d, c) {
      CreatesFresh(d, c);
      if NewId(c) in d.jobs { OneIdentity(d, NewId(c), NewId(c)); }
    }
  }

  /** A stored child of an operation used for one parent is that parent's, and of its user. */
  lemma {:induction false} AdoptedUser(n: Names, d: Db, op: Key, id: Id)
    requires Distinguishes(n) && AllNamed(n, d) && AllAdopted(n, d) && id == n.parent(op)
    requires n.child(op) in d.jobs && id in d.jobs && d.jobs[id].t.parent == None
    ensures d.jobs[n.child(op)].t.user == d.jobs[id].t.user
  {
    var t, u := d.jobs[n.child(op)].t, d.jobs[id].t;
    assert WellNamed(n, u) && WellNamed(n, t) && t.id == n.child(op);
    var k: Key :| u.id == n.submitted(u.user, k) && u.identity == n.identity(u.user, k);
    assert t.parent.Some?;
    assert OfParent(n, t);
    var o: Key, k': Key :| t.id == n.child(o) && t.parent == Some(n.parent(o))
      && n.parent(o) == n.submitted(t.user, k');
  }

  /** And none at all while every operation is used for one parent. */
  lemma {:induction false} NoneForeign(n: Names, d: Db, c: Command, past: Past)
    requires Distinguishes(n) && AllNamed(n, d) && AllAdopted(n, d) && Proper(n, d, c) && Adopts(n, c)
    requires Inv(d, past)
    ensures !(Creates(d, c) && Foreign(d, c))
  {
    hide Inv, Decide, RetryDecision, RecordOk, PayloadsExact, ConflictsExact, AllNamed, AllAdopted, Distinguishes;
    if Creates(d, c) && c.DoRetry? && c.child in d.jobs {
      Known(d, c.id, past);
      ParentIsFirst(d.jobs[c.id], d.clock);
      AdoptedUser(n, d, c.op, c.id);
    }
  }

  lemma ParentIsFirst(m: Job, clock: Time)
    requires RecordOk(m, clock)
    ensures m.retryGrants >= 1 ==> m.t.parent == None
  {
  }

  // ---- names over a run ------------------------------------------------------------------------------

  /** Between two states no ticket was issued. */
  ghost predicate SameTickets(d: Db, d': Db) {
    forall id :: id in d'.jobs ==> id in d.jobs && d'.jobs[id].t == d.jobs[id].t
  }

  lemma TicketsKept(d: Db, d': Db, p': Past)
    requires Progress(d, d') && d'.sequence == d.sequence
    requires Settledown(d', p')
    ensures SameTickets(d, d')
  {
    hide Indexed, LanesOk, Accounted, PermitExact, Recorded, Fresh, RecordOk;
    forall id | id in d'.jobs ensures id in d.jobs && d'.jobs[id].t == d.jobs[id].t {
      assert d'.jobs[id].t.sequence <= d.sequence;
      assert id in d.jobs && Evolves(d.jobs[id], d'.jobs[id]);
    }
  }

  lemma {:induction false} NamesStay(n: Names, d: Db, d': Db)
    requires SameTickets(d, d')
    ensures (AllNamed(n, d) ==> AllNamed(n, d')) && (AllAdopted(n, d) ==> AllAdopted(n, d'))
  {
    hide WellNamed, OfParent;
  }

  lemma {:induction false} NamesAdmitted(n: Names, d: Db, d': Db, c: Command, p: Policy)
    requires c.DoAdmit? && Proper(n, d, c)
    requires d'.jobs == d.jobs[c.request.id := NewJob(d, c.request, p, c.identity, c.fingerprint, None)]
    ensures (AllNamed(n, d) ==> AllNamed(n, d')) && (AllAdopted(n, d) ==> AllAdopted(n, d'))
  {
    var t := NewJob(d, c.request, p, c.identity, c.fingerprint, None).t;
    assert WellNamed(n, t) && t.id == c.request.id;
    hide WellNamed, OfParent;
  }

  lemma {:induction false} NamesBegot(n: Names, d: Db, d': Db, c: Command, a: Decision, past: Past)
    requires c.DoRetry? && Proper(n, d, c) && c.id in d.jobs && d.jobs[c.id].retryGrants >= 1
    requires Begot(d, d', c.id, c.child, a, c.identity)
    requires Inv(d, past)
    ensures AllNamed(n, d) ==> AllNamed(n, d')
    ensures AllNamed(n, d) && AllAdopted(n, d) && Adopts(n, c) ==> AllAdopted(n, d')
  {
    hide Inv, RecordOk, PayloadsExact, ConflictsExact, Counter;
    Known(d, c.id, past);
    ParentIsFirst(d.jobs[c.id], d.clock);
    if AllNamed(n, d) {
      assert WellNamed(n, d.jobs[c.id].t);
      if a.Accept? {
        var t := d'.jobs[c.child].t;
        assert t.id == n.child(c.op) && t.identity == n.identity(t.user, c.op);
        assert OfRetry(n, t);
      }
    }
  }
}
