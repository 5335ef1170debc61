/** One delivery to one recipient: a journalled proxy around the Bot that an arbitrary
    sequential helper drives, against any behaviour of transport, journal and checkpoint. */
module Delivery {
  import opened Wrappers

  datatype Outcome = Sent | Failed | Skipped | UnknownDelivery

  datatype Verdict = Verdict(outcome: Outcome, reason: string, retryable: bool, message: Option<int>)

  /** A checkpoint passes, reports cancellation or lost ownership, or fails otherwise. */
  datatype Check = Pass | Stop(reason: string) | Broken

  /** The journal opens an attempt, refuses it, fails with an error, or the task is cancelled meanwhile. */
  datatype Start = Opened | Refused | Unavailable | Interrupted

  /** What the transport did with one Bot call. */
  datatype Reply =
    | RateLimited(seconds: real)
    | Rejected(unreachable: bool)
    | Lost
    | Receipt(message: int)
    | NoReceipt

  /** One try: the two checkpoints, the journal at both ends, the transport, and the sleep before a retry. */
  datatype Try = Try(first: Check, start: Start, second: Check, reply: Reply, confirmed: bool, slept: bool)

  /** How a send or a helper ended. */
  datatype Ending = Returned | Stopped | Raised

  predicate DefinitelyRejected(r: Reply) { r.RateLimited? || r.Rejected? }
  predicate Ambiguous(r: Reply) { r.Lost? || r.NoReceipt? }

  const UNCONFIRMED: Verdict := Verdict(UnknownDelivery, "journal_commit_unconfirmed", false, None)

  /** The verdict each reply of the transport leads to: retryable only after a rate limit. */
  function VerdictOf(r: Reply): (v: Verdict)
    ensures v.outcome == UnknownDelivery <==> Ambiguous(r)
    ensures v.outcome == Failed <==> DefinitelyRejected(r)
    ensures v.retryable <==> r.RateLimited?
    ensures r.Rejected? ==> v.reason == if r.unreachable then "recipient_unreachable" else "telegram_rejected"
    ensures r.Lost? ==> v.reason == "telegram_send_unconfirmed"
    ensures r.NoReceipt? ==> v.reason == "telegram_receipt_missing"
    ensures v.message == match r case Receipt(message) => Some(message) case _ => None
  {
    match r
    case RateLimited(_) => Verdict(Failed, "telegram_rate_limited", true, None)
    case Rejected(unreachable) =>
      Verdict(Failed, if unreachable then "recipient_unreachable" else "telegram_rejected", false, None)
    case Lost => Verdict(UnknownDelivery, "telegram_send_unconfirmed", false, None)
    case NoReceipt => Verdict(UnknownDelivery, "telegram_receipt_missing", false, None)
    case Receipt(message) => Verdict(Sent, "telegram_confirmed", false, Some(message))
  }

  // ---- what a send comes to, try by try --------------------------------------------------------------

  /** Whether a try reaches its Bot call. */
  predicate Reaches(quarantined: bool, t: Try) { !quarantined && t.first.Pass? && t.start.Opened? && t.second.Pass? }

  /** Whether a try that does not reach its Bot call is stopped by the queue rather than by an error. */
  predicate IsStopped(quarantined: bool, t: Try) {
    !quarantined && (t.first.Stop? || (t.first.Pass? && t.start.Opened? && t.second.Stop? && t.confirmed))
  }

  /** Whether a first try is repeated. */
  predicate Repeats(t: Try) {
    t.reply.RateLimited? && 0.0 <= t.reply.seconds <= 60.0 && t.slept && t.confirmed
  }

  /** Whether a try quarantines the delivery. */
  predicate Seals(quarantined: bool, t: Try) {
    || quarantined
    || (t.first.Pass? && (t.start.Refused? || (t.start.Opened? && t.second.Stop? && !t.confirmed)))
    || (Reaches(quarantined, t) && (Ambiguous(t.reply) || !t.confirmed))
  }

  /** The try a send ends with. */
  function Final(quarantined: bool, tries: seq<Try>): (t: Try)
    requires |tries| == 2
  {
    if Reaches(quarantined, tries[0]) && Repeats(tries[0]) then tries[1] else tries[0]
  }

  /** The Bot calls of a send. */
  function Made(quarantined: bool, tries: seq<Try>): (made: seq<Reply>)
    requires |tries| == 2
    ensures quarantined ==> made == []
    ensures forall i :: 0 <= i < |made| - 1 ==> made[i].RateLimited?
  {
    if !Reaches(quarantined, tries[0]) then []
    else if !Repeats(tries[0]) then [tries[0].reply]
    else [tries[0].reply] + if Reaches(false, tries[1]) then [tries[1].reply] else []
  }

  function EndOf(quarantined: bool, tries: seq<Try>): Ending
    requires |tries| == 2
  {
    var t := Final(quarantined, tries);
    if Reaches(quarantined, t) then (if t.reply.Receipt? && t.confirmed then Returned else Raised)
    else if IsStopped(quarantined, t) then Stopped
    else Raised
  }

  /** The Bot calls of a whole delivery. */
  function AllMade(quarantined: bool, sends: seq<seq<Try>>): seq<Reply>
    requires forall i :: 0 <= i < |sends| ==> |sends[i]| == 2
    decreases |sends|
  {
    if sends == [] then []
    else Made(quarantined, sends[0]) + AllMade(Seals(quarantined, Final(quarantined, sends[0])), sends[1..])
  }

  /** The verdict on record after a try, and the reason of each. */
  function Noted(quarantined: bool, t: Try, before: Option<Verdict>): Option<Verdict> {
    if quarantined || t.first.Broken? then before
    else if t.first.Stop? then Some(Verdict(Skipped, t.first.reason, false, None))
    else match t.start
      case Unavailable => Some(Verdict(Failed, "journal_start_unavailable", true, None))
      case Refused => Some(Verdict(UnknownDelivery, "recipient_ownership_lost", false, None))
      case Interrupted => before
      case Opened =>
        if t.second.Broken? then before
        else if !t.confirmed then Some(UNCONFIRMED)
        else if t.second.Stop? then Some(Verdict(Skipped, "cancel_requested", false, None))
        else Some(VerdictOf(t.reply))
  }

  function NotedBySend(quarantined: bool, tries: seq<Try>, before: Option<Verdict>): Option<Verdict>
    requires |tries| == 2
  {
    var first := Noted(quarantined, tries[0], before);
    if Reaches(quarantined, tries[0]) && Repeats(tries[0]) then Noted(false, tries[1], first) else first
  }

  function NotedByAll(quarantined: bool, sends: seq<seq<Try>>, before: Option<Verdict>): Option<Verdict>
    requires forall i :: 0 <= i < |sends| ==> |sends[i]| == 2
    decreases |sends|
  {
    if sends == [] then before
    else NotedByAll(Seals(quarantined, Final(quarantined, sends[0])), sends[1..],
                    NotedBySend(quarantined, sends[0], before))
  }

  class Owner {
    var sequence: nat
    var receipts: seq<int>
    var result: Option<Verdict>
    var quarantined: bool

    /** Every Bot call made for this recipient, with what the transport did, and how many there were when
        the delivery was quarantined. */
    ghost var calls: seq<Reply>
    ghost var sealed: nat

    /** Receipts are the confirmed calls; after an ambiguous call nothing was sent, and the last
        verdict says so. */
    ghost predicate Valid()
      reads this
    {
      && receipts == Confirmed(calls)
      && (quarantined ==> result.Some? && result.value.outcome == UnknownDelivery && !result.value.retryable)
      && (!quarantined ==> forall i :: 0 <= i < |calls| ==> !Ambiguous(calls[i]))
      && (quarantined ==> sealed == |calls| && forall i :: 0 <= i < |calls| - 1 ==> !Ambiguous(calls[i]))
      && (!quarantined && result.Some? ==> result.value.outcome != UnknownDelivery)
      && (calls != [] ==> result.Some?)
      && (result.Some? && result.value.outcome == Sent ==> receipts != [])
      && (result.Some? && result.value.retryable ==> result.value.outcome == Failed)
    }

    constructor ()
      ensures Valid() && result == None && !quarantined && calls == []
    {
      sequence, receipts, result, quarantined := 0, [], None, false;
      calls, sealed := [], 0;
    }

    /** Settles an attempt in the journal; an unconfirmed write quarantines the delivery. */
    method Persist(confirmed: bool) returns (ok: bool)
      modifies this`quarantined, this`result, this`sealed
      ensures ok == confirmed
      ensures ok ==> quarantined == old(quarantined) && result == old(result) && sealed == old(sealed)
      ensures !ok ==> quarantined && result == Some(UNCONFIRMED) && sealed == |calls|
    {
      if !confirmed {
        quarantined := true;
        sealed := |calls|;
        result := Some(UNCONFIRMED);
      }
      return confirmed;
    }

    /** Everything of one try that precedes the Bot call; `None` says that the call is to be made. */
    method Prepare(t: Try) returns (ending: Option<Ending>)
      requires Valid()
      modifies this`sequence, this`result, this`quarantined, this`sealed
      ensures Valid()
      ensures ending == None <==> !old(quarantined) && t.first.Pass? && t.start.Opened? && t.second.Pass?
      ensures ending == None ==> !quarantined && result == old(result)
      ensures old(quarantined) ==> ending == Some(Raised) && result == old(result) && sequence == old(sequence)
      ensures ending.Some? ==> ending.value == if IsStopped(old(quarantined), t) then Stopped else Raised
      ensures quarantined <==>
        (old(quarantined) || (t.first.Pass? && (t.start.Refused?
          || (t.start.Opened? && t.second.Stop? && !t.confirmed))))
      ensures sequence == old(sequence) + if !old(quarantined) && t.first.Pass? then 1 else 0
      ensures ending.Some? ==> result == Noted(old(quarantined), t, old(result))
    {
      if quarantined { return Some(Raised); }
      match t.first {
        case Stop(reason) =>
          result := Some(Verdict(Skipped, reason, false, None));
          return Some(Stopped);
        case Broken => return Some(Raised);
        case Pass =>
      }
      sequence := sequence + 1;
      match t.start {
        case Unavailable =>
          result := Some(Verdict(Failed, "journal_start_unavailable", true, None));
          return Some(Raised);
        case Interrupted => return Some(Raised);
        case Refused =>
          quarantined := true;
          sealed := |calls|;
          result := Some(Verdict(UnknownDelivery, "recipient_ownership_lost", false, None));
          return Some(Raised);
        case Opened =>
      }
      match t.second {
        case Stop(_) =>
          result := Some(Verdict(Skipped, "cancel_requested", false, None));
          var ok := Persist(t.confirmed);
          return Some(if ok then Stopped else Raised);
        case Broken => return Some(Raised);
        case Pass => return None;
      }
    }

    /** The Bot call of one try and its settlement; `None` asks for the bounded second try. */
    method Transmit(t: Try, retry: nat) returns (ending: Option<Ending>)
      requires Valid() && !quarantined
      modifies this`receipts, this`result, this`quarantined, this`calls, this`sealed
      ensures Valid() && calls == old(calls) + [t.reply]
      ensures quarantined <==> Ambiguous(t.reply) || !t.confirmed
      ensures result == Some(if t.confirmed then VerdictOf(t.reply) else UNCONFIRMED)
      ensures ending == None <==>
        retry == 0 && t.reply.RateLimited? && 0.0 <= t.reply.seconds <= 60.0 && t.slept && t.confirmed
      ensures ending == Some(Returned) <==> t.reply.Receipt? && t.confirmed
      ensures ending != Some(Stopped)
    {
      hide Confirmed;
      calls := calls + [t.reply];
      ConfirmedNext(old(calls), t.reply);
      var ok;
      result := Some(VerdictOf(t.reply));
      if Ambiguous(t.reply) {
        quarantined := true;
        sealed := |calls|;
      }
      if t.reply.Receipt? { receipts := receipts + [t.reply.message]; }
      ok := Persist(t.confirmed);
      if !ok { return Some(Raised); }
      match t.reply
      case RateLimited(seconds) =>
        return if retry == 0 && 0.0 <= seconds <= 60.0 && t.slept then None else Some(Raised);
      case Receipt(_) => return Some(Returned);
      case _ => return Some(Raised);
    }

    /** One send of the helper: at most two tries, and no Bot call once the delivery is quarantined. */
    method Send(tries: seq<Try>) returns (ending: Ending)
      requires Valid() && |tries| == 2
      modifies this
      ensures Valid()
      ensures calls == old(calls) + Made(old(quarantined), tries) && ending == EndOf(old(quarantined), tries)
      ensures quarantined == Seals(old(quarantined), Final(old(quarantined), tries))
      ensures result == NotedBySend(old(quarantined), tries, old(result))
      ensures old(quarantined) ==>
        quarantined && calls == old(calls) && result == old(result) && ending == Raised && sealed == old(sealed)
    {
      var retry := 0;
      while retry < 2
        invariant Valid() && 0 <= retry < 2
        invariant retry == 0 ==>
          quarantined == old(quarantined) && calls == old(calls) && result == old(result) && sealed == old(sealed)
        invariant retry == 1 ==> !old(quarantined) && !quarantined && calls == old(calls) + [tries[0].reply]
        invariant retry == 1 ==> Reaches(false, tries[0]) && Repeats(tries[0])
        invariant retry == 1 ==> result == Some(VerdictOf(tries[0].reply))
        decreases 2 - retry
      {
        var before := Prepare(tries[retry]);
        if before.Some? { return before.value; }
        var after := Transmit(tries[retry], retry);
        if after.Some? { return after.value; }
        retry := retry + 1;
      }
      assert false;
      ending := Raised;
    }

    /** Everything the helper sends, in order. */
    method SendAll(sends: seq<seq<Try>>)
      requires Valid() && calls == [] && !quarantined
      requires forall i :: 0 <= i < |sends| ==> |sends[i]| == 2
      modifies this
      ensures Valid() && calls == AllMade(false, sends) && result == NotedByAll(false, sends, old(result))
    {
      hide Valid, Made, Final, Seals, EndOf, NotedBySend;
      assert sends[0..] == sends;
      for i := 0 to |sends|
        invariant Valid() && calls + AllMade(quarantined, sends[i..]) == AllMade(false, sends)
        invariant NotedByAll(quarantined, sends[i..], result) == NotedByAll(false, sends, old(result))
      {
        assert sends[i..][1..] == sends[i + 1..];
        var _ := Send(sends[i]);
      }
    }

    /** The whole delivery: the helper sends as often as it likes, catching what it likes, and ends somehow.
        A verdict of failed or skipped is given exactly when the transport definitely rejected every Bot
        call, so a retryable verdict never repeats a message that may have arrived. */
    method Deliver(sends: seq<seq<Try>>, helper: Ending) returns (verdict: Verdict)
      requires Valid() && result == None && calls == []
      requires forall i :: 0 <= i < |sends| ==> |sends[i]| == 2
      modifies this
      ensures Valid()
      ensures quarantined ==> verdict.outcome == UnknownDelivery && |calls| == sealed
      ensures forall i :: 0 <= i < |calls| - 1 ==> !Ambiguous(calls[i])
      ensures verdict.outcome == Failed || verdict.outcome == Skipped <==>
        !quarantined && forall i :: 0 <= i < |calls| ==> DefinitelyRejected(calls[i])
      ensures verdict.retryable ==> verdict.outcome == Failed
      ensures calls == AllMade(false, sends)
      ensures verdict.outcome == Sent <==>
        !quarantined && receipts != [] && result.Some? && result.value.outcome == Sent
      ensures verdict.outcome == Sent ==> receipts != [] && verdict.message == Some(receipts[|receipts| - 1])
      ensures verdict.outcome == Sent ==> forall i :: 0 <= i < |calls| ==> !Ambiguous(calls[i])
      ensures receipts == Confirmed(calls)
      ensures var noted := NotedByAll(false, sends, None);
        && (quarantined || (receipts == [] && noted.Some?) ==> Some(verdict) == noted)
        && (noted == None && helper == Stopped ==> verdict == Verdict(Skipped, "cancel_requested", false, None))
        && (noted == None && helper != Stopped ==> verdict == Verdict(Failed, "preparation_failed", true, None))
        && (!quarantined && receipts != [] ==> noted.Some?)
        && (!quarantined && receipts != [] && noted.value.outcome != Sent ==>
              verdict == Verdict(UnknownDelivery, "partial_delivery", false, None))
    {
      hide AllMade, Confirmed, NotedByAll;
      SendAll(sends);
      if helper == Stopped && result == None { result := Some(Verdict(Skipped, "cancel_requested", false, None)); }
      if helper == Raised && result == None { result := Some(Verdict(Failed, "preparation_failed", true, None)); }
      RejectedOrConfirmed(calls);
      if quarantined { return result.value; }
      if receipts != [] {
        if result.Some? && result.value.outcome != Sent
          { return Verdict(UnknownDelivery, "partial_delivery", false, None); }
        return Verdict(Sent, "telegram_confirmed", false, Some(receipts[|receipts| - 1]));
      }
      return if result.Some? then result.value else Verdict(Failed, "preparation_failed", true, None);
    }
  }

  /** The messages the transport confirmed, in order. */
  function Confirmed(calls: seq<Reply>): seq<int> {
    if calls == [] then []
    else Confirmed(calls[..|calls| - 1]) + if calls[|calls| - 1].Receipt? then [calls[|calls| - 1].message] else []
  }

  lemma ConfirmedNext(calls: seq<Reply>, r: Reply)
    ensures Confirmed(calls + [r]) == Confirmed(calls) + if r.Receipt? then [r.message] else []
  {
    assert (calls + [r])[..|calls|] == calls;
  }

  lemma {:induction false} RejectedOrConfirmed(calls: seq<Reply>)
    ensures (forall i :: 0 <= i < |calls| ==> DefinitelyRejected(calls[i])) ==> Confirmed(calls) == []
    ensures (forall i :: 0 <= i < |calls| ==> !Ambiguous(calls[i])) && Confirmed(calls) == [] ==>
              forall i :: 0 <= i < |calls| ==> DefinitelyRejected(calls[i])
  {
    if calls != [] {
      var init := calls[..|calls| - 1];
      RejectedOrConfirmed(init);
      assert forall i :: 0 <= i < |init| ==> init[i] == calls[i];
      assert calls == init + [calls[|calls| - 1]];
    }
  }
}
