/**
 The fixed-capacity queue behind the user pool.  A taker that finds the queue
 empty parks; the next element is handed to the longest-parked taker instead of
 being stored.  Enqueue and take are atomic.
 */
module FixedFifo {

  /** WaitForNextElementChanCapacity. */
  const MAX_PARKED: nat := 4000

  /** `parked` holds the tickets of the takers that wait, oldest first. */
  datatype Fifo<T> = Fifo(capacity: nat, queue: seq<T>, parked: seq<nat>)

  datatype PutResult = Stored | HandedTo(ticket: nat) | Full

  datatype TakeResult<T> = Got(value: T) | Parked | Refused

  function Put<T>(f: Fifo<T>, v: T): (Fifo<T>, PutResult) {
    if f.parked != [] then (f.(parked := f.parked[1..]), HandedTo(f.parked[0]))
    else if |f.queue| < f.capacity then (f.(queue := f.queue + [v]), Stored)
    else (f, Full)
  }

  function Take<T>(f: Fifo<T>, ticket: nat): (Fifo<T>, TakeResult<T>) {
    if f.queue != [] then (f.(queue := f.queue[1..]), Got(f.queue[0]))
    else if |f.parked| < MAX_PARKED then (f.(parked := f.parked + [ticket]), Parked)
    else (f, Refused)
  }

  /** A queue with its whole past: accepted elements, number of accepted takers, and what each taker received. */
  datatype Past<T> = Past(f: Fifo<T>, accepted: seq<T>, takers: nat, received: map<nat, T>)

  datatype Op<T> = Enqueue(value: T) | Dequeue

  function Step<T>(p: Past<T>, op: Op<T>): Past<T> {
    match op
    case Enqueue(v) =>
      var (f, r) := Put(p.f, v);
      (match r
       case Stored => p.(f := f, accepted := p.accepted + [v])
       case HandedTo(t) => p.(f := f, accepted := p.accepted + [v], received := p.received[t := v])
       case Full => p)
    case Dequeue =>
      var (f, r) := Take(p.f, p.takers);
      match r
      case Got(v) => p.(f := f, takers := p.takers + 1, received := p.received[p.takers := v])
      case Parked => p.(f := f, takers := p.takers + 1)
      case Refused => p
  }

  function Run<T>(capacity: nat, ops: seq<Op<T>>): Past<T> {
    if ops == [] then Past(Fifo(capacity, [], []), [], 0, map[])
    else Step(Run(capacity, ops[..|ops| - 1]), ops[|ops| - 1])
  }

  /** The queue is the accepted elements not yet taken; the parked takers are the ones ahead of the elements. */
  ghost predicate Fair<T>(p: Past<T>) {
    && p.f.queue == (if p.takers <= |p.accepted| then p.accepted[p.takers..] else [])
    && |p.f.parked| == (if |p.accepted| <= p.takers then p.takers - |p.accepted| else 0)
    && (forall i :: 0 <= i < |p.f.parked| ==> p.f.parked[i] == |p.accepted| + i)
    && (forall k: nat :: k in p.received <==> k < p.takers && k < |p.accepted|)
    && (forall k: nat :: k in p.received ==> k < |p.accepted| && p.received[k] == p.accepted[k])
    && |p.f.queue| <= p.f.capacity && |p.f.parked| <= MAX_PARKED
  }

  lemma EnqueueIsFair<T>(p: Past<T>, v: T)
    requires Fair(p)
    ensures Fair(Step(p, Enqueue(v))) && Step(p, Enqueue(v)).f.capacity == p.f.capacity
  {
  }

  lemma DequeueIsFair<T>(p: Past<T>)
    requires Fair(p)
    ensures Fair(Step(p, Dequeue)) && Step(p, Dequeue).f.capacity == p.f.capacity
  {
  }

  lemma StepIsFair<T>(p: Past<T>, op: Op<T>)
    requires Fair(p)
    ensures Fair(Step(p, op))
    ensures Step(p, op).f.capacity == p.f.capacity
  {
    hide Fair, Step;
    match op
    case Enqueue(v) => EnqueueIsFair(p, v);
    case Dequeue => DequeueIsFair(p);
  }

  /** After any operations the k-th accepted taker that was served holds the k-th accepted element,
      and stored elements never coexist with parked takers. */
  lemma {:induction false} RunIsFair<T>(capacity: nat, ops: seq<Op<T>>)
    ensures var p := Run(capacity, ops);
            && Fair(p)
            && p.f.capacity == capacity
            && (p.f.queue == [] || p.f.parked == [])
            && forall k: nat :: k < p.takers && k < |p.accepted| ==> k in p.received && p.received[k] == p.accepted[k]
  {
    if ops != [] {
      RunIsFair(capacity, ops[..|ops| - 1]);
      StepIsFair(Run(capacity, ops[..|ops| - 1]), ops[|ops| - 1]);
    }
  }

  /** An element is refused exactly when the untaken elements fill the queue; a taker exactly when the lead of
      takers over elements fills the waiting room. */
  lemma RefusalIsExact<T>(capacity: nat, ops: seq<Op<T>>, v: T)
    ensures var p := Run(capacity, ops);
            && (Put(p.f, v).1.Full? <==> |p.accepted| - p.takers == capacity)
            && (Take(p.f, p.takers).1.Refused? <==> p.takers - |p.accepted| == MAX_PARKED)
  {
    RunIsFair(capacity, ops);
  }

  /** The queue object: the two channels and what each call does to them. */
  class FixedFIFO<T> {
    const capacity: nat
    var queue: seq<T>
    var parked: seq<nat>

    ghost function Contents(): Fifo<T>
      reads this
    {
      Fifo(capacity, queue, parked)
    }

    constructor (capacity: nat)
      ensures Contents() == Fifo(capacity, [], [])
    {
      this.capacity := capacity;
      queue, parked := [], [];
    }

    method Enqueue(value: T) returns (r: PutResult)
      modifies this
      ensures (Contents(), r) == Put(old(Contents()), value)
    {
      if |parked| > 0 {
        r := HandedTo(parked[0]);
        parked := parked[1..];
      } else if |queue| < capacity {
        queue := queue + [value];
        r := Stored;
      } else {
        r := Full;
      }
    }

    method DequeueOrWaitForNextElement(ticket: nat) returns (r: TakeResult<T>)
      modifies this
      ensures (Contents(), r) == Take(old(Contents()), ticket)
    {
      if |queue| > 0 {
        r := Got(queue[0]);
        queue := queue[1..];
      } else if |parked| < MAX_PARKED {
        parked := parked + [ticket];
        r := Parked;
      } else {
        r := Refused;
      }
    }
  }
}
