/** What one call of the script keeps, whatever the command. */
module QueueCalls {
  import opened Wrappers
  import opened QueueTypes
  import opened QueueInvariant
  import opened QueueLog
  import opened QueueOps
  import opened QueueSteps
  import opened QueueGone
  import opened QueueSweep
  import opened QueueLoops
  import opened QueueCommands
  import opened QueueClaim
  import opened QueueAdmission
  import opened QueueIdentity
  import opened QueueAnswers
  import opened QueueStock
  import opened QueueMeaning

  /** A job gets an owner it did not have only by a claim with a new token. */
  ghost predicate Reowned(d: Db, tokens: set<Token>, d': Db) {
    forall id :: id in d'.jobs && d'.jobs[id].owner.Some? ==>
      (id in d.jobs && d.jobs[id].owner == d'.jobs[id].owner) || d'.jobs[id].owner.value !in tokens
  }

  lemma ReownedTransitive(a: Db, ta: set<Token>, b: Db, tb: set<Token>, c: Db)
    requires Reowned(a, ta, b) && Reowned(b, tb, c) && ta <= tb
    ensures Reowned(a, ta, c)
  {
  }

  lemma ReownedRewrote(d: Db, d': Db, id: Id, m: Job, tokens: set<Token>)
    requires Rewrote(d, d', id, m) && (m.owner == None || (id in d.jobs && m.owner == d.jobs[id].owner))
    ensures Reowned(d, tokens, d')
  {
  }

  lemma ReownedPassed(d: Db, d': Db, l: Lane, r: Option<Id>, token: Token, tokens: set<Token>)
    requires AllPassed(d, d', l, r) && token !in tokens
    requires r.Some? ==> r.value in d'.jobs && d'.jobs[r.value].owner == Some(token)
    ensures Reowned(d, tokens, d')
  {
    hide Met, Ahead, Keeps;
  }

  lemma ReownedSwept(d: Db, d': Db, now: Time, batch: set<Id>, tokens: set<Token>)
    requires d'.jobs.Keys == Alive(d.jobs, now).Keys
    requires forall id :: id in d'.jobs ==>
      d'.jobs[id] == Swept(now, id in batch, id in ExpireKeys(d, now).payloads, d.jobs[id])
    ensures Reowned(d, tokens, d')
  {
    hide Swept;
    forall id | id in d'.jobs ensures id in d.jobs
      && (d'.jobs[id].owner == None || d'.jobs[id].owner == d.jobs[id].owner) {
      SweptOwner(now, id in batch, id in ExpireKeys(d, now).payloads, d.jobs[id]);
    }
  }

  lemma SweptOwner(now: Time, hit: bool, present: bool, m: Job)
    ensures Swept(now, hit, present, m).owner == None || Swept(now, hit, present, m).owner == m.owner
  {
  }

  lemma ReownedJobs(d: Db, d': Db, tokens: set<Token>)
    requires forall id :: id in d'.jobs ==>
      d'.jobs[id].owner == None || (id in d.jobs && d'.jobs[id].owner == d.jobs[id].owner)
    ensures Reowned(d, tokens, d')
  {
  }

  ghost predicate SameBytes(a: Counts, b: Counts) {
    forall l: Lane :: Counter(b, l, PayloadBytes) == Counter(a, l, PayloadBytes)
  }

  /** What every call keeps: the state between calls is in order, records only move forward,
      identities stay in order, the history only grows, no payload byte is lost track of, and the
      payload scan stays up to date. */
  ghost predicate Sound(d: Db, p: Past, d': Db, p': Past) {
    && Settledown(d', p') && Progress(d, d') && Extends(p.log, p'.log)
    && (Linked(d) ==> Linked(d')) && (Stocked(d) ==> Stocked(d'))
    && p.tokens <= p'.tokens && d'.clock == d.clock && Reowned(d, p.tokens, d')
    && (Prompt(d) ==> Prompt(d')) && SameBytes(p.leaked, p'.leaked)
  }

  lemma SoundSelf(d: Db, p: Past)
    requires Settledown(d, p)
    ensures Sound(d, p, d, p)
  {
    hide Settledown, Progress, Linked, Answered, Stocked, Prompt;
    ProgressSelf(d, d);
  }

  lemma PromptPassed(d: Db, d': Db, l: Lane, r: Option<Id>)
    requires AllPassed(d, d', l, r) && (r.Some? ==> r.value in d'.jobs && Active(d'.jobs[r.value].state))
    ensures Prompt(d) ==> Prompt(d')
  {
    hide Met, Ahead, Keeps, Eligible;
    if Prompt(d) {
      forall id | id in d'.jobs ensures PromptJob(d'.jobs[id], d'.clock) {
        if r != Some(id) { assert PromptJob(d.jobs[id], d.clock); }
      }
    }
  }

  lemma PromptJobs(d: Db, d': Db)
    requires d'.clock == d.clock
    requires forall id :: id in d'.jobs ==>
      Active(d'.jobs[id].state) || !d'.jobs[id].accounted || (id in d.jobs && d'.jobs[id] == d.jobs[id])
    ensures Prompt(d) ==> Prompt(d')
  {
  }

  const START: Past := Past(Empty, {}, map[])

  lemma StartInv(now: Time)
    ensures Settledown(Vacant(now), START) && Linked(Vacant(now)) && Answered(Vacant(now)) && Prompt(Vacant(now))
    ensures Stocked(Vacant(now))
  {
  }

  lemma LaneInv(d: Db, l: Lane, lane: LaneState, past: Past)
    requires Positive(lane.policy) && Settledown(d, past)
    ensures var d' := d.(lanes := d.lanes[l := lane]); Settledown(d', past) && Progress(d, d') && Upholds(d, d')
  {
    hide Indexed, RecordsOk, Accounted, PermitExact, Recorded, Fresh, Progress, Linked, Answered, Stocked;
    var d' := d.(lanes := d.lanes[l := lane]);
    ProgressSelf(d, d');
    LaneFrame(d, d', past);
  }

  lemma LaneFrame(d: Db, d': Db, past: Past)
    requires d' == d.(lanes := d'.lanes)
    ensures Indexed(d) ==> Indexed(d')
    ensures Accounted(d, past) ==> Accounted(d', past)
    ensures Recorded(d, past) ==> Recorded(d', past)
    ensures Fresh(d) ==> Fresh(d')
    ensures Upholds(d, d')
  {
    hide ReadyExact, DelayedExact, RunningExact, DeadlineExact, PayloadExpiryExact, PayloadsExact;
    hide OwnersExact, MetaExact, UsersExact, ConflictsExact, CountsExact, LeaksOk, CapsOk, LogShape, JobLogs, TokensOk,
      FreshJob;
    hide LinkedJobs, LinkedSets, LinkedKeys, AllAnswer, Fading, SetsTimed, Aged, PaidOk, InStock;
  }

  /** The operation key of a command, filed under the job it is about. */
  function Noted(d: Db, op: Key, fingerprint: Key, target: Option<Id>, about: Option<Id>): Db {
    d.(operations := d.operations[op := Operation(fingerprint, target, d.clock + DAY)],
       commands := if about == None then d.commands
                   else d.commands[about.value := CommandsOf(d.commands, about.value) + {op}])
  }

  lemma NotedInv(d: Db, op: Key, fingerprint: Key, target: Option<Id>, about: Option<Id>, past: Past)
    requires Settledown(d, past)
    ensures var d' := Noted(d, op, fingerprint, target, about);
            Settledown(d', past) && Progress(d, d') && Upholds(d, d')
  {
    hide Settledown, Progress, LinkedJobs, LinkedSets, LinkedKeys, AllAnswer, Fading, SetsTimed, Aged, PaidOk, InStock;
    SideInv(d, Noted(d, op, fingerprint, target, about), past);
  }

  /** The records and payloads left when the ids of `gone` have been erased. */
  ghost predicate Erased(d0: Db, d: Db, user: int, gone: set<Id>) {
    && d.jobs == d0.jobs - gone && d.owners == d0.owners - gone && d.clock == d0.clock && d.sequence == d0.sequence
    && (forall u: int, id: Id :: (u, id) in d.users <==> (u, id) in d0.users && !(u == user && id in gone))
    && d.lanes == d0.lanes && PayloadsLeft(d0, d, gone)
  }

  ghost predicate PayloadsLeft(d0: Db, d: Db, gone: set<Id>) {
    && (forall id :: id in d.payloads <==> id in d0.payloads && !(id in gone && id in d0.jobs))
    && (forall id :: id in d.payloads ==> d.payloads[id] == d0.payloads[id])
  }

  lemma ErasedNext(d0: Db, d: Db, d': Db, user: int, gone: set<Id>, id: Id)
    requires Erased(d0, d, user, gone)
    requires d'.jobs == d.jobs - {id} && d'.owners == d.owners - {id} && d'.users == d.users - {(user, id)}
    requires d'.clock == d.clock && d'.sequence == d.sequence && d'.lanes == d.lanes && id !in gone
    requires d'.payloads == if id in d.jobs then d.payloads - {id} else d.payloads
    ensures Erased(d0, d', user, gone + {id})
  {
    assert d0.jobs - gone - {id} == d0.jobs - (gone + {id});
    assert d0.owners - gone - {id} == d0.owners - (gone + {id});
  }

  lemma ErasedFresh(d0: Db, d: Db, user: int, gone: set<Id>)
    requires Erased(d0, d, user, gone) && Fresh(d0)
    ensures Fresh(d) && Progress(d0, d) && d.clock == d0.clock && (Prompt(d0) ==> Prompt(d))
    ensures forall tokens: set<Token> :: Reowned(d0, tokens, d)
  {
    hide FreshJob;
  }

  lemma OwnedUser(d: Db, user: int, id: Id, past: Past)
    requires (user, id) in d.users
    requires Inv(d, past)
    ensures id in d.owners && d.owners[id].user == user
      && (id in d.jobs ==> d.jobs[id].t.user == user && d.jobs[id].t.id == id)
  {
    hide ReadyExact, DelayedExact, RunningExact, DeadlineExact, PayloadExpiryExact, PayloadsExact;
    hide MetaExact, ConflictsExact, Accounted, PermitExact, Recorded, RecordOk;
  }

  lemma EraseStock(d: Db, user: int, id: Id)
    requires Stocked(d) && (id in d.jobs ==> d.jobs[id].t.id == id)
    ensures Stocked(if id in d.jobs then EraseRecord(d, d.jobs[id], user) else EraseVanished(d, id, user))
  {
    hide Stocked, EraseCounts, FreeConflicts, ReleasePermit, DeleteKeys, Members, CommandsOf, DropOperations;
    StockedFrame(d, if id in d.jobs then EraseRecord(d, d.jobs[id], user) else EraseVanished(d, id, user));
  }

  lemma EraseStep(d: Db, user: int, id: Id, past: Past)
    requires (user, id) in d.users
    requires Inv(d, past)
    ensures if id in d.jobs then Inv(EraseRecord(d, d.jobs[id], user), past)
            else id in d.owners && Inv(EraseVanished(d, id, user),
              past.(leaked := LeakState(past.leaked, d.owners[id])))
    ensures Linked(d) ==> Linked(if id in d.jobs then EraseRecord(d, d.jobs[id], user) else EraseVanished(d, id, user))
    ensures Stocked(d) ==> Stocked(if id in d.jobs then EraseRecord(d, d.jobs[id], user)
      else EraseVanished(d, id, user))
  {
    hide Inv, Linked, Stocked, EraseRecord, EraseVanished, Retire;
    OwnedUser(d, user, id, past);
    if Stocked(d) { EraseStock(d, user, id); }
    if id in d.jobs { EraseInv(d, d.jobs[id], past); } else { EraseVanishedInv(d, id, past); }
    if Linked(d) { if id in d.jobs { LinkedErase(d, d.jobs[id], user); } else { LinkedRetire(d, id); } }
  }

  lemma EraseShape(d: Db, user: int, id: Id)
    requires id in d.jobs ==> d.jobs[id].t.id == id
    ensures id in d.jobs ==> var d' := EraseRecord(d, d.jobs[id], user);
              d'.jobs == d.jobs - {id} && d'.owners == d.owners - {id} && d'.users == d.users - {(user, id)}
                && d'.clock == d.clock && d'.sequence == d.sequence && d'.lanes == d.lanes
                && d'.payloads == d.payloads - {id}
    ensures id !in d.jobs ==> var d' := EraseVanished(d, id, user);
              d'.jobs == d.jobs - {id} && d'.owners == d.owners - {id} && d'.users == d.users - {(user, id)}
                && d'.clock == d.clock && d'.sequence == d.sequence && d'.lanes == d.lanes
                && d'.payloads == d.payloads
  {
    hide EraseCounts, FreeConflicts, ReleasePermit, DeleteKeys, Members;
    assert id !in d.jobs ==> d.jobs - {id} == d.jobs;
  }

  // ---- the ledger of erased ids ------------------------------------------------------------------

  /** The erased ids without a record whose owner entry a state counter still counts. */
  ghost function Vanished(d: Db, gone: set<Id>, l: Lane, f: Field): set<Id> {
    set id | id in gone && StillCounted(d, id, l, f)
  }

  predicate StillCounted(d: Db, id: Id, l: Lane, f: Field) {
    id in d.owners && id !in d.jobs && d.owners[id].lane == l && f == InState(d.owners[id].state)
  }

  /** The ledger has grown by exactly the vanished ids. */
  ghost predicate Charged(d: Db, leaked: Counts, leaked': Counts, gone: set<Id>) {
    forall l: Lane, f: Field :: Counter(leaked', l, f) == Counter(leaked, l, f) + |Vanished(d, gone, l, f)|
  }

  lemma ChargedFirst(d: Db, leaked: Counts)
    ensures Charged(d, leaked, leaked, {})
  {
    forall l: Lane, f: Field ensures |Vanished(d, {}, l, f)| == 0 { assert Vanished(d, {}, l, f) == {}; }
    hide Vanished, Counter;
  }

  lemma ChargedStored(d: Db, leaked: Counts, leaked': Counts, gone: set<Id>, id: Id)
    requires Charged(d, leaked, leaked', gone) && id in d.jobs
    ensures Charged(d, leaked, leaked', gone + {id})
  {
    forall l: Lane, f: Field ensures Vanished(d, gone + {id}, l, f) == Vanished(d, gone, l, f) { }
    hide Vanished, Counter;
  }

  lemma VanishedNext(d: Db, gone: set<Id>, id: Id, l: Lane, f: Field)
    requires id !in gone
    ensures |Vanished(d, gone + {id}, l, f)| == |Vanished(d, gone, l, f)| + if StillCounted(d, id, l, f) then 1 else 0
  {
    hide StillCounted;
    if StillCounted(d, id, l, f) {
      assert Vanished(d, gone + {id}, l, f) == Vanished(d, gone, l, f) + {id};
    } else {
      assert Vanished(d, gone + {id}, l, f) == Vanished(d, gone, l, f);
    }
  }

  lemma ChargedVanished(d: Db, leaked: Counts, leaked': Counts, gone: set<Id>, id: Id)
    requires Charged(d, leaked, leaked', gone) && id !in d.jobs && id in d.owners && id !in gone
    ensures Charged(d, leaked, LeakState(leaked', d.owners[id]), gone + {id})
  {
    hide Vanished, Counter, Bump;
    var o := d.owners[id];
    forall l: Lane, f: Field
      ensures Counter(LeakState(leaked', o), l, f) == Counter(leaked, l, f) + |Vanished(d, gone + {id}, l, f)|
    {
      BumpAt(leaked', o.lane, InState(o.state), 1, l, f);
      VanishedNext(d, gone, id, l, f);
    }
  }

  lemma ChargedBytes(d: Db, leaked: Counts, leaked': Counts, gone: set<Id>)
    requires Charged(d, leaked, leaked', gone)
    ensures SameBytes(leaked, leaked')
  {
    forall l: Lane ensures Counter(leaked', l, PayloadBytes) == Counter(leaked, l, PayloadBytes) {
      assert Vanished(d, gone, l, PayloadBytes) == {};
      hide Vanished, Counter;
    }
  }

  lemma ErasedFirst(d: Db, user: int, pick: seq<Id>)
    ensures Erased(d, d, user, Taken(pick, 0)) && Forgotten(d, d, Taken(pick, 0))
  {
    ForgottenFirst(d);
    assert Taken(pick, 0) == {};
    assert d.jobs - Taken(pick, 0) == d.jobs && d.owners - Taken(pick, 0) == d.owners;
  }

  lemma ForgottenStep(d0: Db, d: Db, user: int, pick: seq<Id>, i: nat)
    requires i < |pick| && Distinct(pick) && Forgotten(d0, d, Taken(pick, i))
      && (pick[i] in d.jobs ==> d.jobs[pick[i]].t.id == pick[i])
    ensures Forgotten(d0, if pick[i] in d.jobs then EraseRecord(d, d.jobs[pick[i]], user)
      else EraseVanished(d, pick[i], user), Taken(pick, i + 1))
  {
    hide Forgotten, DeleteKeys, Members, EraseCounts, FreeConflicts, ReleasePermit;
    var id := pick[i];
    assert id !in Taken(pick, i);
    TakenNext(pick, i);
    if id !in d.jobs {
      assert d.jobs - {id} == d.jobs;
      assert KeysOf(d, id) == Members(d.identities, id);
    }
    ForgottenNext(d0, d, if id in d.jobs then EraseRecord(d, d.jobs[id], user)
      else EraseVanished(d, id, user), Taken(pick, i), id);
  }

  lemma TakenNext(pick: seq<Id>, i: nat)
    requires i < |pick|
    ensures Taken(pick, i + 1) == Taken(pick, i) + {pick[i]}
  {
  }

  lemma ErasedRest(d0: Db, d: Db, user: int, pick: seq<Id>, i: nat)
    requires i < |pick| && Distinct(pick) && (user, pick[i]) in d0.users && Erased(d0, d, user, Taken(pick, i))
    ensures (user, pick[i]) in d.users && (pick[i] in d.jobs <==> pick[i] in d0.jobs) && pick[i] !in Taken(pick, i)
    ensures pick[i] in d.owners ==> pick[i] in d0.owners && d.owners[pick[i]] == d0.owners[pick[i]]
  {
    assert pick[i] !in Taken(pick, i);
  }

  // ---- operator retry ------------------------------------------------------------------------------

  /** The keyspace after the admission of a retry was decided. */
  function Retried(d: Db, id: Id, child: Id, a: Decision, identity: Key, fingerprint: Key): Db
    requires id in d.jobs && id in d.payloads
  {
    match a
    case Refuse(_) => d
    case Existing(task, _) => if task == child then SpendOne(d, id) else d
    case Alias(task) =>
      var d1 := AliasTo(d, task, identity, fingerprint);
      if task == child then SpendOne(d1, id) else d1
    case Accept(_, _) => RetryOne(d, id, child, a, identity, fingerprint)
  }

  /** The job a decision leads to. */
  function TaskOf(a: Decision, child: Id): Id {
    match a case Existing(task, _) => task case Alias(task) => task case _ => child
  }

  predicate Granted(a: Decision) { a.Accept? || a.Alias? || (a.Existing? && a.same) }

  ghost function RetryPast(p: Past, d: Db, id: Id, a: Decision): Past
    requires id in d.jobs
  {
    if a.Accept? then AdmitPast(p, d.sequence + 1, Some(d.jobs[id].t.sequence)) else p
  }

  /** What an operator retry means for the records: one new child that is its parent's work over again and
      has taken over its grant, or work already under way. */
  ghost predicate Begot(d: Db, d': Db, id: Id, child: Id, a: Decision, identity: Key) {
    && id in d.jobs && d'.clock == d.clock
    && (a.Accept? ==>
          && child !in d.jobs && child in d'.jobs && Waiting(d'.jobs[child].state) && d'.jobs[child].owner == None
          && d'.jobs[child].t.parent == Some(id) && d'.jobs[child].t.identity == identity
          && d'.jobs[child].t.user == d.jobs[id].t.user && d'.jobs[child].t.id == child
            && d'.jobs[child].retryGrants == 0
          && Inherits(d, d', id, child, a.policy.maxAge, a.policy.maxAttempts)
          && id in d'.jobs && GivesUp(d.jobs[id], d'.jobs[id])
          && d'.jobs == d.jobs[id := Spent(d.jobs[id])][child := d'.jobs[child]] && d'.sequence == d.sequence + 1
          && Counter(d'.counts, d.jobs[id].t.lane, PayloadBytes) <= BYTE_CAP)
    && (!a.Accept? ==>
          && d'.sequence == d.sequence
          && d'.jobs == if !a.Refuse? && TaskOf(a, child) == child then d.jobs[id := Spent(d.jobs[id])] else d.jobs)
  }

  lemma SpendWhole(d: Db, id: Id, past: Past)
    requires id in d.jobs && !Active(d.jobs[id].state) && d.jobs[id].retryGrants >= 0
    requires Settledown(d, past)
    ensures var d' := SpendOne(d, id);
            && Settledown(d', past) && Progress(d, d') && Upholds(d, d') && d'.jobs == d.jobs[id := Spent(d.jobs[id])]
            && d'.clock == d.clock && d'.sequence == d.sequence && d'.operations == d.operations
  {
    hide Linked, Answered, Stocked, Settledown, Progress, Spent, ByteCounts;
    SpendStep(d, id, past);
    SpendNames(d, id, past);
  }

  lemma RetryNames(d: Db, id: Id, revision: int, epoch: Option<int>, child: Id, p: Policy, identity: Key,
      fingerprint: Key, past: Past)
    requires Retryable(d, id, revision, epoch) && Positive(p)
    requires Decide(d, ChildRequest(d, id, child), p, identity, fingerprint, Credit(d.jobs[id])).Accept?
    requires child !in d.owners
    requires Settledown(d, past)
    ensures Upholds(d, RetryOne(d, id, child,
      Decide(d, ChildRequest(d, id, child), p, identity, fingerprint, Credit(d.jobs[id])), identity, fingerprint))
  {
    hide Inv, Fresh, Linked, Answered, Stocked, InsertOne, ByteCounts, Rewrote, Progress, RetryOne, PayloadsExact,
      ConflictsExact, RecordOk;
    var a := Decide(d, ChildRequest(d, id, child), p, identity, fingerprint, Credit(d.jobs[id]));
    Known(d, id, past);
    OwnedIfStored(d, id, past);
    RetryOrder(d, id, child, a, identity, fingerprint);
    SpendStep(d, id, past);
    SpendNames(d, id, past);
    InsertNames(SpendOne(d, id), ChildRequest(d, id, child), a, identity, fingerprint, Some(id), past);
  }

  /** Every way a retry can go keeps the invariant, as long as the child's id is new when it is used. */
  lemma RetriedSound(d: Db, id: Id, revision: int, epoch: Option<int>, child: Id, p: Policy, identity: Key,
      fingerprint: Key, past: Past)
    requires Retryable(d, id, revision, epoch) && Positive(p)
    requires Decide(d, ChildRequest(d, id, child), p, identity, fingerprint, Credit(d.jobs[id])).Accept? ==>
      child !in d.owners
    requires Settledown(d, past)
    ensures var a := Decide(d, ChildRequest(d, id, child), p, identity, fingerprint, Credit(d.jobs[id]));
            var d' := Retried(d, id, child, a, identity, fingerprint);
            && Settledown(d', RetryPast(past, d, id, a)) && Progress(d, d') && Upholds(d, d')
              && Begot(d, d', id, child, a, identity)
  {
    hide Linked, Answered, Stocked, Settledown, Progress, Decide, RetryOne, SpendOne, Positive, ChildRequest, Spent,
      Counter,
      Credit, Retryable, Rewrote, AliasTo, Inherits, GivesUp, Stores;
    RetryParent(d, id, revision, epoch);
    ProgressSelf(d, d);
    var q := ChildRequest(d, id, child);
    var a := Decide(d, q, p, identity, fingerprint, Credit(d.jobs[id]));
    match a
    case Refuse(_) =>
    case Existing(task, _) => if task == child { SpendWhole(d, id, past); }
    case Alias(task) =>
      AliasStep(d, q, p, identity, fingerprint, Credit(d.jobs[id]), past);
      var d1 := AliasTo(d, task, identity, fingerprint);
      AliasShape(d, task, identity, fingerprint);
      if task == child {
        SpendWhole(d1, id, past);
        ProgressTransitive(d, d1, SpendOne(d1, id));
      }
    case Accept(_, _) =>
      RetryStep(d, id, revision, epoch, child, p, identity, fingerprint, past);
      RetryNames(d, id, revision, epoch, child, p, identity, fingerprint, past);
      RetrySequence(d, id, child, a, identity, fingerprint);
      RetryKnown(d, id, past);
      RetryMeans(d, id, child, a, identity, fingerprint);
  }

  lemma RetryKnown(d: Db, id: Id, past: Past)
    requires id in d.jobs && Settledown(d, past)
    ensures d.jobs[id].t.id == id
  {
    hide Inv, Fresh, RecordOk, PayloadsExact, ConflictsExact;
    Known(d, id, past);
  }

  lemma AliasShape(d: Db, task: Id, identity: Key, fingerprint: Key)
    ensures var d' := AliasTo(d, task, identity, fingerprint);
      d'.jobs == d.jobs && d'.clock == d.clock && d'.sequence == d.sequence
  {
  }

  lemma RetrySequence(d: Db, id: Id, child: Id, a: Decision, identity: Key, fingerprint: Key)
    requires id in d.jobs && id in d.payloads && a.Accept?
    ensures RetryOne(d, id, child, a, identity, fingerprint).sequence == d.sequence + 1
  {
    hide ByteCounts, NewJob;
  }

  lemma BegotSide(d: Db, d': Db, d'': Db, id: Id, child: Id, a: Decision, identity: Key, tokens: set<Token>)
    requires Begot(d, d', id, child, a, identity) && Aside(d', d'') && d''.idem == d'.idem
    ensures Begot(d, d'', id, child, a, identity) && Reowned(d, tokens, d'') && (Prompt(d) ==> Prompt(d''))
  {
    hide Counter;
  }
}
