/** The payload-byte counter: when it is exact, and when a sweep loses track of bytes. */
module QueueLedger {
  import opened Wrappers
  import opened QueueTypes
  import opened Totals
  import opened QueueInvariant
  import opened QueueSteps
  import opened QueueGone
  import opened QueueCalls

  /** The longest silence that cannot make a retained payload outlive its record unseen. */
  const RETRY_GAP: Time := DAY - RETRY_KEEP

  /** The record goes at `now` with payload bytes that the payload scan never gave back. */
  predicate Lossy(m: Job, now: Time, l: Lane) {
    m.t.lane == l && Gone(m, now) && m.accounted && m.t.payloadBytes > 0
  }

  /** A sweep loses payload bytes of a lane exactly when a record that the payload scan had not
      reached is removed by its own time to live. */
  lemma LostExactly(jobs: map<Id, Job>, now: Time, l: Lane)
    requires forall id :: id in jobs ==> jobs[id].t.payloadBytes >= 0
    ensures LostBytes(jobs, now, l) > 0 <==> exists id :: id in jobs && Lossy(jobs[id], now, l)
  {
    var w := JobWeights(Departed(jobs, now), l, PayloadBytes);
    if id :| id in jobs && Lossy(jobs[id], now, l) {
      assert id in w;
      TotalRemove(w, id);
      TotalNonneg(w - {id});
    } else {
      forall id | id in w ensures w[id] == 0 { assert id in jobs && !Lossy(jobs[id], now, l); }
      TotalZero(w);
    }
  }

  /** With the scan up to date, nothing is lost unless the queue falls silent for more than 85500 seconds. */
  lemma NothingLost(d: Db, past: Past, now: Time, l: Lane)
    requires Prompt(d) && d.clock <= now <= d.clock + RETRY_GAP
    requires Inv(d, past)
    ensures LostBytes(d.jobs, now, l) == 0
  {
    hide Inv, RecordOk, PayloadsExact, ConflictsExact;
    forall id | id in d.jobs ensures d.jobs[id].t.payloadBytes >= 0
      && !(Gone(d.jobs[id], now) && d.jobs[id].accounted) {
      Known(d, id, past);
      Retained(d.jobs[id], d.clock);
      assert PromptJob(d.jobs[id], d.clock);
      assert !Lossy(d.jobs[id], now, l);
    }
    LostExactly(d.jobs, now, l);
    LostBytesNonneg(d.jobs, now, l);
  }

  lemma Retained(m: Job, clock: Time)
    requires RecordOk(m, clock)
    ensures m.t.payloadBytes >= 0 && (Active(m.state) ==> m.metadataExpiresAt == None)
    ensures !Active(m.state) && m.accounted ==> m.metadataExpiresAt == Some(m.payloadExpiresAt + (DAY - RETRY_KEEP))
  {
  }

  /** The payload scan is up to date and no byte was ever lost. */
  ghost predicate Tight(d: Db, past: Past) {
    Prompt(d) && forall l: Lane :: Counter(past.leaked, l, PayloadBytes) == 0
  }

  lemma TightSwept(d: Db, p: Past, d': Db, p': Past, now: Time)
    requires p' == p.(leaked := LeakBytes(p.leaked, d.jobs, now)) && d.clock <= now
    requires Settledown(d, p)
    ensures Tight(d, p) && Prompt(d') && now <= d.clock + RETRY_GAP ==> Tight(d', p')
  {
    hide Inv, Fresh, Prompt, Counter, LeakBytes, LostBytes;
    if Tight(d, p) && Prompt(d') && now <= d.clock + RETRY_GAP {
      forall l: Lane ensures Counter(p'.leaked, l, PayloadBytes) == 0 {
        LeakBytesAt(p.leaked, d.jobs, now, l, PayloadBytes);
        NothingLost(d, p, now, l);
      }
    }
  }

  lemma TightCall(d: Db, p: Past, d': Db, p': Past)
    requires Sound(d, p, d', p')
    ensures Tight(d, p) ==> Tight(d', p')
  {
    hide Prompt, Counter;
  }

  /** The counter is the true sum of the payloads held. */
  lemma TightExact(d: Db, past: Past)
    requires Tight(d, past)
    requires Settledown(d, past)
    ensures forall l: Lane :: Counter(d.counts, l, PayloadBytes) == Measure(d.jobs, d.owners, l, PayloadBytes)
  {
    hide Indexed, RecordsOk, LanesOk, PermitExact, Recorded, Counter, Measure, Prompt, Fresh;
  }
}
