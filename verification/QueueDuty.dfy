/** Submissions under a task id that an index still knows: the script overwrites the record. This
    module says exactly what that breaks. */
module QueueDuty {
  import opened Wrappers
  import opened QueueTypes
  import opened Totals
  import opened QueueInvariant
  import opened QueueOps
  import opened QueueSteps
  import opened QueueEvents
  import opened QueueLoops
  import opened QueueAdmission

  /** Some history makes all indexes, counters and records agree. */
  ghost predicate Consistent(d: Db) { exists p: Past :: Inv(d, p) }

  lemma OwnersKnown(d: Db, l: Lane, past: Past)
    requires Inv(d, past)
    ensures OwnersExact(d.owners, d.jobs) && MetaExact(d.metaExpiry, d.owners, d.jobs)
    ensures Counter(d.counts, l, Nonterminal) == Total(JobWeights(d.jobs, l, Nonterminal))
  {
    hide ReadyExact, DelayedExact, RunningExact, DeadlineExact, PayloadExpiryExact, PayloadsExact;
    hide OwnersExact, MetaExact, UsersExact, ConflictsExact, RecordsOk, PermitExact, Recorded, LanesOk, CapsOk;
    hide Counter, Total, JobWeights;
    assert Counter(d.counts, l, Nonterminal)
        == Measure(d.jobs, d.owners, l, Nonterminal) + Counter(past.leaked, l, Nonterminal);
    assert !Leaky(Nonterminal);
  }

  /** Replacing an active record by another one leaves the lane counts one too high. */
  lemma ReplacedWeights(jobs: map<Id, Job>, m: Job, l: Lane)
    requires m.t.id in jobs && Active(jobs[m.t.id].state) && Active(m.state)
    ensures Total(JobWeights(jobs[m.t.id := m], l, Nonterminal)) == Total(JobWeights(jobs, l, Nonterminal))
              + (if m.t.lane == l then 1 else 0) - (if jobs[m.t.id].t.lane == l then 1 else 0)
  {
    var w := JobWeights(jobs, l, Nonterminal);
    TotalPut(w, m.t.id, Weight(l, Nonterminal, m));
    assert JobWeights(jobs[m.t.id := m], l, Nonterminal) == w[m.t.id := Weight(l, Nonterminal, m)];
  }

  lemma AdmitNonterminal(n: Counts, m: Job, l: Lane)
    ensures Counter(AdmitCounts(n, m), l, Nonterminal) == Counter(n, l, Nonterminal) + if m.t.lane == l then 1 else 0
  {
    var n1 := Bump(n, m.t.lane, Nonterminal, 1);
    var n2 := Bump(n1, m.t.lane, PayloadBytes, m.t.payloadBytes);
    BumpAt(n, m.t.lane, Nonterminal, 1, l, Nonterminal);
    BumpAt(n1, m.t.lane, PayloadBytes, m.t.payloadBytes, l, Nonterminal);
    BumpAt(n2, m.t.lane, InState(m.state), 1, l, Nonterminal);
    hide Counter, Bump;
  }

  /** An active record over an active one: the nonterminal counter cannot be right in both lanes. */
  lemma ActiveOverwritten(d: Db, d': Db, m: Job, past: Past, p: Past)
    requires m.t.id in d.jobs && Active(d.jobs[m.t.id].state) && Active(m.state)
    requires d'.jobs == d.jobs[m.t.id := m] && d'.counts == AdmitCounts(d.counts, m)
    requires Inv(d, past)
    ensures !Inv(d', p)
  {
    hide Inv, OwnersExact, MetaExact, Counter, Total, JobWeights, AdmitCounts;
    var l := d.jobs[m.t.id].t.lane;
    OwnersKnown(d, l, past);
    ReplacedWeights(d.jobs, m, l);
    AdmitNonterminal(d.counts, m, l);
    if Inv(d', p) { OwnersKnown(d', l, p); }
  }

  /** Admission under a known id leaves no history under which the keyspace is consistent. */
  lemma OverwriteBreaks(d: Db, m: Job, text: string, lane: LaneState, past: Past, p: Past)
    requires m.t.id in d.owners && Active(m.state)
    requires Inv(d, past)
    ensures !Inv(Insert(d, m, text, lane), p)
  {
    hide Inv, AdmitCounts, AddConflicts, AddIdentity;
    var d' := Insert(d, m, text, lane);
    OwnersKnown(d, m.t.lane, past);
    if Active(d.owners[m.t.id].state) {
      ActiveOverwritten(d, d', m, past, p);
    } else if Inv(d', p) {
      OwnersKnown(d', m.t.lane, p);
    }
  }

  /** An accepted submission leaves a consistent keyspace if and only if no index knows its task id. */
  lemma AcceptedExactly(d: Db, r: Request, p0: Policy, identity: Key, fingerprint: Key, past: Past)
    requires Positive(p0) && Fits(r, None) && Decide(d, r, p0, identity, fingerprint, 0).Accept?
    requires Settledown(d, past)
    ensures var a := Decide(d, r, p0, identity, fingerprint, 0);
            Consistent(InsertOne(d, r, a, identity, fingerprint, None)) <==> r.id !in d.owners
  {
    hide Inv, Fresh, Decide, Insert, Progress, Positive, Fits;
    var a := Decide(d, r, p0, identity, fingerprint, 0);
    var d' := InsertOne(d, r, a, identity, fingerprint, None);
    if r.id !in d.owners {
      AdmitStep(d, r, p0, identity, fingerprint, past);
      assert Inv(d', AdmitPast(past, d'.sequence, None));
    } else {
      forall p: Past ensures !Inv(d', p) {
        OverwriteBreaks(d, NewJob(d, r, a.policy, identity, fingerprint, None), r.text, a.lane, past, p);
      }
    }
  }

  /** The same for an operator retry and the id of its child. */
  lemma RetriedExactly(d: Db, id: Id, revision: int, epoch: Option<int>, child: Id, p0: Policy, identity: Key,
      fingerprint: Key, past: Past)
    requires Retryable(d, id, revision, epoch) && Positive(p0)
    requires Decide(d, ChildRequest(d, id, child), p0, identity, fingerprint, Credit(d.jobs[id])).Accept?
    requires Settledown(d, past)
    ensures var a := Decide(d, ChildRequest(d, id, child), p0, identity, fingerprint, Credit(d.jobs[id]));
            Consistent(RetryOne(d, id, child, a, identity, fingerprint)) <==> child !in d.owners
  {
    hide Inv, Fresh, Decide, Insert, Progress, Positive, Fits, SpendOne, Rewrote, RetryOne, PayloadsExact,
      ConflictsExact, RecordOk;
    var a := Decide(d, ChildRequest(d, id, child), p0, identity, fingerprint, Credit(d.jobs[id]));
    var d' := RetryOne(d, id, child, a, identity, fingerprint);
    if child !in d.owners {
      RetryStep(d, id, revision, epoch, child, p0, identity, fingerprint, past);
      assert Inv(d', AdmitPast(past, d'.sequence, Some(d.jobs[id].t.sequence)));
    } else {
      Known(d, id, past);
      forall p: Past ensures !Inv(d', p) {
        if child == id {
          ParentOverChild(d, id, a, identity, fingerprint, p);
        } else {
          RetryOrder(d, id, child, a, identity, fingerprint);
          SpendStep(d, id, past);
          var s := SpendOne(d, id);
          OverwriteBreaks(s, NewJob(s, ChildRequest(d, id, child), a.policy, identity, fingerprint, Some(id)),
                          d.payloads[id].text, a.lane, past, p);
        }
      }
    }
  }

  /** A child under its parent's own id: the parent's record comes back over an active owner entry. */
  lemma ParentOverChild(d: Db, id: Id, a: Decision, identity: Key, fingerprint: Key, p: Past)
    requires id in d.jobs && d.jobs[id].t.id == id && id in d.payloads && !Active(d.jobs[id].state) && a.Accept?
    ensures !Inv(RetryOne(d, id, id, a, identity, fingerprint), p)
  {
    hide Inv, AdmitCounts, AddConflicts, AddIdentity, ByteCounts, Counter, Total, JobWeights, MetaExact;
    var d' := RetryOne(d, id, id, a, identity, fingerprint);
    assert id in d'.jobs && d'.jobs[id] == Spent(d.jobs[id]) && !Active(d'.jobs[id].state);
    assert Active(d'.owners[id].state) && OwnerOf(d'.jobs[id]).state == d'.jobs[id].state;
    assert !OwnersExact(d'.owners, d'.jobs);
    if Inv(d', p) { OwnersKnown(d', d.jobs[id].t.lane, p); }
  }
}
