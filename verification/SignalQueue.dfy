/** The bounded queue of detected signatures (src/asm/services/decision_service.py): when it is full
    the oldest entry is dropped, because a stale copy signal has no value and a fresh one does. */
module SignalQueue {
  datatype Arrival = Arrival(signature: string, slot: int)

  /** A signature is detected, or a worker takes one. */
  datatype Event = Arrives(item: Arrival) | Taken

  datatype Queue = Queue(waiting: seq<Arrival>, dropped: nat)

  function AfterArrival(q: Queue, capacity: nat, item: Arrival): Queue
    requires capacity > 0
  {
    if |q.waiting| < capacity then q.(waiting := q.waiting + [item])
    else Queue(q.waiting[1..] + [item], q.dropped + 1)
  }

  function AfterTake(q: Queue): Queue { if q.waiting == [] then q else q.(waiting := q.waiting[1..]) }

  function After(q: Queue, capacity: nat, events: seq<Event>): Queue
    requires capacity > 0
  {
    if events == [] then q
    else
      var before := After(q, capacity, events[..|events| - 1]);
      match events[|events| - 1]
      case Arrives(item) => AfterArrival(before, capacity, item)
      case Taken => AfterTake(before)
  }

  /** Everything that ever arrived, in order. */
  function Arrived(events: seq<Event>): seq<Arrival> {
    if events == [] then []
    else
      var before := Arrived(events[..|events| - 1]);
      match events[|events| - 1] case Arrives(item) => before + [item] case Taken => before
  }

  /** How many of them a worker took. */
  function Served(capacity: nat, events: seq<Event>): nat
    requires capacity > 0
  {
    if events == [] then 0
    else
      var earlier := events[..|events| - 1];
      Served(capacity, earlier)
      + if events[|events| - 1].Taken? && After(Queue([], 0), capacity, earlier).waiting != [] then 1 else 0
  }

  /** The queue is the newest part of the log; what is older was served or dropped. */
  predicate Newest(q: Queue, capacity: nat, log: seq<Arrival>, served: nat) {
    && |q.waiting| <= capacity
    && |log| == served + q.dropped + |q.waiting|
    && q.waiting == log[|log| - |q.waiting|..]
  }

  lemma ArrivalKeeps(q: Queue, capacity: nat, log: seq<Arrival>, served: nat, item: Arrival)
    requires capacity > 0 && Newest(q, capacity, log, served)
    ensures Newest(AfterArrival(q, capacity, item), capacity, log + [item], served)
  {
    SuffixPush(log, |q.waiting|, item);
  }

  lemma TakeKeeps(q: Queue, capacity: nat, log: seq<Arrival>, served: nat)
    requires Newest(q, capacity, log, served)
    ensures Newest(AfterTake(q), capacity, log, served + if q.waiting != [] then 1 else 0)
  {
    SuffixPop(log, |q.waiting|);
  }

  /** The queue always holds the newest arrivals in order, never more than fit, and everything older was
      either served or counted as dropped. */
  lemma {:induction false} NewestAreKept(capacity: nat, events: seq<Event>)
    requires capacity > 0
    ensures Newest(After(Queue([], 0), capacity, events), capacity, Arrived(events), Served(capacity, events))
  {
    if events != [] {
      var earlier := events[..|events| - 1];
      NewestAreKept(capacity, earlier);
      var q, log := After(Queue([], 0), capacity, earlier), Arrived(earlier);
      match events[|events| - 1]
      case Arrives(item) => ArrivalKeeps(q, capacity, log, Served(capacity, earlier), item);
      case Taken => TakeKeeps(q, capacity, log, Served(capacity, earlier));
    }
  }

  /** An arrival costs another signal its place exactly when the queue is full, and is itself the last. */
  lemma DropsExactlyWhenFull(q: Queue, capacity: nat, item: Arrival)
    requires capacity > 0 && |q.waiting| <= capacity
    ensures var after := AfterArrival(q, capacity, item);
            && after.dropped == q.dropped + (if |q.waiting| == capacity then 1 else 0)
            && after.waiting != [] && after.waiting[|after.waiting| - 1] == item
            && |after.waiting| == if |q.waiting| == capacity then capacity else |q.waiting| + 1
  {
  }

  /** No more than fit ever wait, arrivals less those served, after any prefix. */
  ghost predicate AlwaysFits(capacity: nat, events: seq<Event>)
    requires capacity > 0
  {
    forall n :: 0 <= n <= |events| ==> |Arrived(events[..n])| <= Served(capacity, events[..n]) + capacity
  }

  lemma FitsBefore(capacity: nat, events: seq<Event>)
    requires capacity > 0 && events != []
    ensures AlwaysFits(capacity, events)
       <==> AlwaysFits(capacity, events[..|events| - 1]) && |Arrived(events)| <= Served(capacity, events) + capacity
  {
    var earlier := events[..|events| - 1];
    assert events[..|events|] == events;
    assert forall n :: 0 <= n <= |earlier| ==> earlier[..n] == events[..n];
  }

  /** Over any arrivals and takes, nothing was dropped if and only if that held all the time. */
  lemma {:induction false} NothingDroppedExactlyWhen(capacity: nat, events: seq<Event>)
    requires capacity > 0
    ensures After(Queue([], 0), capacity, events).dropped == 0 <==> AlwaysFits(capacity, events)
  {
    NewestAreKept(capacity, events);
    if events == [] {
      assert events[..0] == [];
    } else {
      var earlier := events[..|events| - 1];
      NothingDroppedExactlyWhen(capacity, earlier);
      NewestAreKept(capacity, earlier);
      FitsBefore(capacity, events);
    }
  }

  lemma SuffixPush(log: seq<Arrival>, n: nat, item: Arrival)
    requires n <= |log|
    ensures log[|log| - n..] + [item] == (log + [item])[|log| - n..]
    ensures n > 0 ==> log[|log| - n..][1..] + [item] == (log + [item])[|log| + 1 - n..]
  {
  }

  lemma SuffixPop(log: seq<Arrival>, n: nat)
    requires n <= |log|
    ensures n > 0 ==> log[|log| - n..][1..] == log[|log| - (n - 1)..]
  {
  }

  class DecisionService {
    const capacity: nat
    var queue: seq<Arrival>
    var dropped: nat

    constructor (size: nat)
      requires size > 0
      ensures Valid() && capacity == size && State() == Queue([], 0)
    {
      capacity, queue, dropped := size, [], 0;
    }

    function State(): Queue
      reads this
    {
      Queue(queue, dropped)
    }

    ghost predicate Valid()
      reads this
    {
      |queue| <= capacity && capacity > 0
    }

    method OnSignature(signature: string, slot: int)
      requires Valid()
      modifies this
      ensures Valid()
      ensures State() == AfterArrival(old(State()), capacity, Arrival(signature, slot))
    {
      if |queue| < capacity {
        queue := queue + [Arrival(signature, slot)];
        return;
      }
      if queue != [] { queue := queue[1..]; }
      dropped := dropped + 1;
      if |queue| < capacity { queue := queue + [Arrival(signature, slot)]; }
    }

    method Get() returns (item: Arrival)
      requires Valid() && queue != []
      modifies this`queue
      ensures Valid()
      ensures item == old(queue)[0] && State() == AfterTake(old(State()))
    {
      item := queue[0];
      queue := queue[1..];
    }
  }
}
