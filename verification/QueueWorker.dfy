/** The worker's side of a claim: what it reports for each way an execution can end, and when a
    retried job is due again. */
module QueueWorker {
  import opened Wrappers
  import opened QueueTypes
  import opened QueueOwner

  /** How the execution of a claim ended. */
  datatype Execution =
    | Finished(outcome: Outcome, reason: Option<string>)
    | CancelSeen(code: string)
    | WorkerCancelled
    | ExecutionCancelled
    | OwnershipLost
    | Crashed

  datatype Report = Report(outcome: Outcome, reason: Option<string>) | Silence

  predicate Interrupted(e: Execution) { e.WorkerCancelled? || e.ExecutionCancelled? || e.Crashed? }

  function Uncertainty(effectful: bool): Outcome { if effectful then Ambiguous else RetryableFailure }

  /** What `_worker` passes to `_finish_claim`. */
  function WorkerReport(e: Execution, t: Ticket): Report {
    match e
    case Finished(outcome, reason) => Report(outcome, reason)
    case CancelSeen(code) => Report(PermanentFailure, Some(code))
    case WorkerCancelled => Report(Uncertainty(t.effectful), Some("worker_interrupted"))
    case ExecutionCancelled => Report(Uncertainty(t.effectful), Some("execution_interrupted"))
    case OwnershipLost => Silence
    case Crashed =>
      Report(Uncertainty(t.effectful),
             Some(if t.kind == Document then "document_storage_unconfirmed" else if t.effectful
               then "delivery_unconfirmed" else "handler_failed"))
  }

  /** Interrupts and crashes never cause a silent replay: an effectful job ends in unknown delivery,
      out of reach of any later start or operator retry. */
  lemma InterruptedEffect(d: Db, m: Job, token: Token, e: Execution, delay: Time)
    requires m.t.effectful && Interrupted(e)
    ensures var r := WorkerReport(e, m.t);
            && r.Report?
            && var m' := FinishedJob(d, m, token, r.outcome, r.reason, delay);
               m'.state == UnknownDelivery && !m'.retryEligible && m'.owner == None && m'.attempts == m.attempts
  {
  }

  /** A start is given another chance only if it was reported retryable in time, by a handler or, for a
      job without effects, by an interrupt. */
  lemma StartsAgain(d: Db, m: Job, token: Token, e: Execution, delay: Time)
    requires WorkerReport(e, m.t).Report?
    ensures var r := WorkerReport(e, m.t);
            var m' := FinishedJob(d, m, token, r.outcome, r.reason, delay);
            Waiting(m'.state) <==>
              && m.state != CancelRequested && m.attempts < m.t.maxAttempts && d.clock + delay < m.t.queueDeadlineAt
              && ((e.Finished? && e.outcome == RetryableFailure) || (!m.t.effectful && Interrupted(e)))
  {
  }

  /** What each ending of an execution makes of the job, as its handler or its interruption means it. */
  lemma ExecutionSettles(d: Db, m: Job, token: Token, e: Execution, delay: Time)
    requires Held(m.state)
    ensures WorkerReport(e, m.t).Silence? <==> e == OwnershipLost
    ensures e != OwnershipLost ==>
      var r := WorkerReport(e, m.t);
      var m' := FinishedJob(d, m, token, r.outcome, r.reason, delay);
      && (e.Finished? && e.outcome == Ambiguous ==> m'.state == UnknownDelivery)
      && (Interrupted(e) && m.t.effectful ==> m'.state == UnknownDelivery)
      && (e.Finished? && e.outcome == Success && m.state == Running ==> m'.state == Succeeded)
      && (e.Finished? && e.outcome == PermanentFailure && m.state == Running ==> m'.state == Failed)
      && (e.CancelSeen? && m.state == Running ==> m'.state == Failed && m'.reason == Reported(e.code))
      && (m.state == CancelRequested && m'.state != UnknownDelivery ==>
            m'.state == Cancelled && m'.reason == CancelAsked)
      && (m'.state == UnknownDelivery ==>
            (e.Finished? && e.outcome == Ambiguous) || (Interrupted(e) && m.t.effectful))
      && (m'.state in {Succeeded, UnknownDelivery} && e.Finished? ==>
            m'.reason == match e.reason case Some(code) => Reported(code) case None => NoReason)
      && (m'.state == UnknownDelivery && Interrupted(e) ==> m'.reason == Reported(Blame(e, m.t)))
      && (Waiting(m'.state) && Interrupted(e) ==> m'.reason == Reported(Blame(e, m.t)))
  {
  }

  /** The reason code of an interrupt. */
  function Blame(e: Execution, t: Ticket): string {
    if e == WorkerCancelled then "worker_interrupted"
    else if e == ExecutionCancelled then "execution_interrupted"
    else if t.kind == Document then "document_storage_unconfirmed"
    else if t.effectful then "delivery_unconfirmed"
    else "handler_failed"
  }

  // ---- next_attempt_at ---------------------------------------------------------------------

  function Base(attempts: int): real {
    if attempts <= 1 then 15.0 else if attempts == 2 then 30.0 else 60.0
  }

  /** Seconds until the next attempt; `retryAfter` is a finite wish of the provider. */
  function RetryDelay(attempts: int, retryAfter: Option<real>, random: real): real
    requires 0.0 <= random <= 1.0
  {
    var delay := Base(attempts) * (1.0 + 0.2 * random);
    if retryAfter.Some? && retryAfter.value > delay then retryAfter.value else delay
  }

  /** The base doubles per attempt up to a minute, as `15 * 2 ** min(2, max(0, attempts - 1))` says. */
  lemma BaseDoubles(attempts: int)
    ensures var n := Min(2, Max(0, attempts - 1)); Base(attempts) == 15.0 * Power2(n)
  {
    assert Power2(0) == 1.0 && Power2(1) == 2.0 * Power2(0) && Power2(2) == 2.0 * Power2(1);
  }

  function Power2(n: nat): real { if n == 0 then 1.0 else 2.0 * Power2(n - 1) }

  /** A retry waits at least 15 seconds and at least what the provider asked for; left to itself it waits
      at most 72 seconds, and later attempts with the same jitter never wait less. */
  lemma RetryDelayBounds(attempts: int, more: int, retryAfter: Option<real>, random: real)
    requires 0.0 <= random <= 1.0 && attempts <= more
    ensures RetryDelay(attempts, retryAfter, random) >= 15.0
    ensures retryAfter.Some? ==> RetryDelay(attempts, retryAfter, random) >= retryAfter.value
    ensures retryAfter == None || retryAfter.value <= 15.0 ==> RetryDelay(attempts, retryAfter, random) <= 72.0
    ensures RetryDelay(attempts, retryAfter, random) <= RetryDelay(more, retryAfter, random)
    ensures retryAfter == None ==>
      RetryDelay(attempts, retryAfter, random) == Base(attempts) + Base(attempts) * random / 5.0
    ensures RetryDelay(attempts, retryAfter, random) == RetryDelay(attempts, None, random)
      || Some(RetryDelay(attempts, retryAfter, random)) == retryAfter
  {
    assert 15.0 <= Base(attempts) <= Base(more) <= 60.0;
    assert 1.0 <= 1.0 + 0.2 * random <= 1.2;
  }
}
