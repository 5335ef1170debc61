/** The wakeup of idle queue workers: each notification sets the lane's current event and puts a
    new one in its place, so a worker waits on the event it saw before its claim. */
module WorkSignal {

  type Event = nat
  type Admission = nat

  /** Where a worker of the lane is in its loop. `seen` are the admissions its empty claim could see. */
  datatype Phase = Idle | Claiming(event: Event) | Waiting(event: Event, seen: set<Admission>)

  class Lane {
    var current: Event
    var isSet: set<Event>

    ghost var admitted: set<Admission>
    ghost var notified: set<Admission>
    ghost var workers: map<nat, Phase>

    /** Admissions notified when a worker captured its event are the most its event can miss. */
    ghost predicate Valid()
      reads this
    {
      && current !in isSet && (forall e: Event :: e < current ==> e in isSet)
      && (forall e :: e in isSet ==> e < current)
      && notified <= admitted
      && (forall w :: w in workers && !workers[w].Idle? ==> workers[w].event <= current)
      && (forall w :: w in workers && workers[w].Waiting? && workers[w].event == current ==>
        notified <= workers[w].seen)
    }

    constructor ()
      ensures Valid() && workers == map[]
    {
      current, isSet := 0, {};
      admitted, notified, workers := {}, {}, map[];
    }

    /** The worker remembers the event before it claims. */
    method Capture(ghost w: nat) returns (event: Event)
      requires Valid() && (w in workers ==> workers[w].Idle?)
      modifies this
      ensures Valid() && event == current == old(current) && isSet == old(isSet)
        && workers == old(workers)[w := Claiming(event)]
      ensures admitted == old(admitted) && notified == old(notified)
    {
      event := current;
      workers := workers[w := Claiming(event)];
    }

    /** The store answered the claim with nothing: every admission so far was visible to it. */
    ghost method ClaimEmpty(w: nat)
      requires Valid() && w in workers && workers[w].Claiming?
      modifies this`workers
      ensures Valid() && workers == old(workers)[w := Waiting(old(workers[w]).event, admitted)]
    {
      workers := workers[w := Waiting(workers[w].event, admitted)];
    }

    /** A submission reaches the store; its notification comes later, and others may come between. */
    ghost method Admit(a: Admission)
      requires Valid() && a !in admitted
      modifies this`admitted
      ensures Valid() && admitted == old(admitted) + {a}
    {
      admitted := admitted + {a};
    }

    /** `_notify_work`: rotate, then set. */
    method Notify(ghost a: Admission)
      requires Valid() && a in admitted
      modifies this`current, this`isSet, this`notified
      ensures Valid() && notified == old(notified) + {a} && isSet == old(isSet) + {old(current)}
      ensures current > old(current)
    {
      var event := current;
      current := current + 1;
      isSet := isSet + {event};
      notified := notified + {a};
    }

    /** The wait is over when the event is set or the delay has passed. */
    method Wake(event: Event, timedOut: bool, ghost w: nat) returns (woke: bool)
      requires Valid() && w in workers && workers[w].Waiting? && workers[w].event == event
      modifies this`workers
      ensures Valid() && (woke <==> event in isSet || timedOut)
      ensures workers == if woke then old(workers)[w := Idle] else old(workers)
      ensures !woke ==> notified <= workers[w].seen
    {
      woke := event in isSet || timedOut;
      if woke { workers := workers[w := Idle]; }
    }

    /** No lost wakeup: a worker can stay blocked only while every admission that has been announced was
        already visible to its empty claim. */
    lemma NoLostWakeup(w: nat, a: Admission)
      requires Valid() && w in workers && workers[w].Waiting?
      requires a in notified && a !in workers[w].seen
      ensures workers[w].event in isSet && workers[w].event != current
    {
    }
  }

  const MIN_DELAY: real := 0.5
  const MAX_DELAY: real := 5.0

  /** The next idle delay of `_wait_for_work`. */
  function NextDelay(delay: real, woken: bool): (r: real)
    requires MIN_DELAY <= delay <= MAX_DELAY
    ensures 0.5 <= r <= 5.0 && (woken ==> r == 0.5) && (!woken ==> r >= delay)
    ensures !woken ==> r == 2.0 * delay || (r == 5.0 && 2.0 * delay > 5.0)
  {
    if woken then MIN_DELAY else if delay * 2.0 <= MAX_DELAY then delay * 2.0 else MAX_DELAY
  }
}
