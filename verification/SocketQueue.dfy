/** The listener's pending queue, its latched gap and its wake: what the mutex of the socket protects.

    `State` is the protected state as a value and the functions on it say what each critical section does; `Shared` is
    the object the listener and its reader share, proved against them. */
module SocketQueue {
  import opened Wrappers
  import opened ChannelCache

  // Events waiting for the reader, and the frames of those events together.
  const MAX_PENDING: nat := 256
  const MAX_PENDING_BYTES: nat := 0x80_0000
  // The largest frame a websocket hands over.
  const MAX_MESSAGE: nat := 0x10_0000

  datatype GapCause = Overflow | Failed | Reconnect

  datatype Gap = Gap(number: nat, cause: GapCause)

  // What normalization makes of one message event.
  datatype Event =
    | New(record: Message)
    | Edited(record: Message)
    | Deleted(channel: string, key: Key)
    | Unsupported
    | Unrepresentable

  datatype Taken = Taken(gap: Option<Gap>, events: seq<Event>)

  datatype State = State(queue: seq<(Event, nat)>, bytes: nat, gap: Option<Gap>)

  const START: State := State([], 0, None)

  function Events(queue: seq<(Event, nat)>): (events: seq<Event>)
    ensures |events| == |queue|
    ensures forall i :: 0 <= i < |queue| ==> events[i] == queue[i].0
  {
    seq(|queue|, i requires 0 <= i < |queue| => queue[i].0)
  }

  function Cost(queue: seq<(Event, nat)>): nat {
    if queue == [] then 0 else Cost(queue[..|queue| - 1]) + queue[|queue| - 1].1
  }

  predicate Overflows(s: State, cost: nat) {
    |s.queue| >= MAX_PENDING || s.bytes + cost > MAX_PENDING_BYTES
  }

  // `number` is the next of the process-wide gap numbers, used only when a gap is latched.
  function Latched(s: State, cause: GapCause, number: nat): State {
    s.(gap := Some(Gap(number, cause)))
  }

  function Pushed(s: State, event: Event, cost: nat, number: nat): State {
    if Overflows(s, cost) then Latched(s, Overflow, number)
    else s.(queue := s.queue + [(event, cost)], bytes := s.bytes + cost)
  }

  // The gap an event leaves when the listener hands it on: no record can carry it, or there is no room for it.
  function LossOf(s: State, event: Event, cost: nat): Option<GapCause> {
    match event
    case Unsupported => None
    case Unrepresentable => Some(Failed)
    case _ => if Overflows(s, cost) then Some(Overflow) else None
  }

  // The queue after an event that leaves no gap.
  function Kept(s: State, event: Event, cost: nat): State {
    if event.Unsupported? then s else s.(queue := s.queue + [(event, cost)], bytes := s.bytes + cost)
  }

  function Drained(s: State): State { s.(queue := [], bytes := 0) }

  predicate Clears(s: State, gap: Gap) { s.gap.Some? && s.gap.value.number == gap.number }

  function Cleared(s: State, gap: Gap): State { if Clears(s, gap) then s.(gap := None) else s }

  // The counted bytes are the waiting frames', and both bounds hold.
  ghost predicate Counted(s: State) {
    && s.bytes == Cost(s.queue)
    && |s.queue| <= MAX_PENDING
    && s.bytes <= MAX_PENDING_BYTES
  }

  lemma PushKeepsCount(s: State, event: Event, cost: nat, number: nat)
    requires Counted(s)
    ensures Counted(Pushed(s, event, cost, number))
    ensures Events(Pushed(s, event, cost, number).queue) ==
            Events(s.queue) + (if Overflows(s, cost) then [] else [event])
  {
    var grown := s.queue + [(event, cost)];
    assert grown[..|grown| - 1] == s.queue;
    assert Events(grown) == Events(s.queue) + [event];
    assert Events(s.queue) == Events(s.queue) + [];
  }

  /** An event dropped from an empty queue wakes nobody; exactly an event larger than the whole budget is. A frame is
      at most `MAX_MESSAGE` bytes, so it never happens. */
  lemma EmptyQueueOverflowsOnlyOnAnOversizedEvent(s: State, cost: nat)
    requires Counted(s) && s.queue == []
    ensures Overflows(s, cost) <==> cost > MAX_PENDING_BYTES
    ensures cost <= MAX_MESSAGE ==> !Overflows(s, cost)
  {
    assert Cost(s.queue) == 0;
  }

  // ---------------------------------------------------------------- the shared object

  // The process-wide counter of gap numbers.
  class Numbers {
    var last: nat

    constructor ()
      ensures last == 0
    {
      last := 0;
    }

    method Next() returns (number: nat)
      modifies this
      ensures last == old(last) + 1 && number == last
    {
      last := last + 1;
      number := last;
    }
  }

  class Shared {
    var queue: seq<(Event, nat)>
    var bytes: nat
    var gap: Option<Gap>
    // A stored notification, consumed by the next wait.
    var ready: bool
    const numbers: Numbers

    ghost function Value(): State
      reads this
    {
      State(queue, bytes, gap)
    }

    constructor (numbers: Numbers)
      ensures Value() == START && !ready && this.numbers == numbers
    {
      this.numbers := numbers;
      queue, bytes, gap, ready := [], 0, None, false;
    }

    method Latch(cause: GapCause)
      modifies this, numbers
      ensures numbers.last == old(numbers.last) + 1 && ready
      ensures gap == Some(Gap(numbers.last, cause)) && queue == old(queue) && bytes == old(bytes)
      ensures Value() == Latched(old(Value()), cause, numbers.last)
    {
      var number := numbers.Next();
      gap := Some(Gap(number, cause));
      ready := true;
    }

    method Push(event: Event, cost: nat)
      requires Counted(Value())
      modifies this, numbers
      ensures Counted(Value())
      ensures if |old(queue)| >= MAX_PENDING || old(bytes) + cost > MAX_PENDING_BYTES then
                && numbers.last == old(numbers.last) + 1 && gap == Some(Gap(numbers.last, Overflow))
                && queue == old(queue) && bytes == old(bytes) && ready == old(ready)
              else
                && queue == old(queue) + [(event, cost)] && bytes == old(bytes) + cost && ready
                && gap == old(gap) && numbers.last == old(numbers.last)
      ensures Value() == Pushed(old(Value()), event, cost, numbers.last)
    {
      PushKeepsCount(Value(), event, cost, numbers.last + 1);
      if |queue| >= MAX_PENDING || bytes + cost > MAX_PENDING_BYTES {
        var number := numbers.Next();
        gap := Some(Gap(number, Overflow));
        return;
      }
      bytes := bytes + cost;
      queue := queue + [(event, cost)];
      ready := true;
    }

    // One message event as the listener hands it on: queued, ignored, or a gap; never dropped unseen.
    method Listen(event: Event, cost: nat)
      requires Counted(Value())
      modifies this, numbers
      ensures Counted(Value())
      ensures match event
              case Unsupported =>
                Value() == old(Value()) && ready == old(ready) && numbers.last == old(numbers.last)
              case Unrepresentable =>
                && numbers.last == old(numbers.last) + 1 && gap == Some(Gap(numbers.last, Failed)) && ready
                && queue == old(queue) && bytes == old(bytes)
              case _ =>
                if |old(queue)| >= MAX_PENDING || old(bytes) + cost > MAX_PENDING_BYTES then
                  && numbers.last == old(numbers.last) + 1 && gap == Some(Gap(numbers.last, Overflow))
                  && queue == old(queue) && bytes == old(bytes) && ready == old(ready)
                else
                  && queue == old(queue) + [(event, cost)] && bytes == old(bytes) + cost && ready
                  && gap == old(gap) && numbers.last == old(numbers.last)
    {
      match event
      case Unsupported =>
      case Unrepresentable => Latch(Failed);
      case _ => Push(event, cost);
    }

    method Take() returns (taken: Taken)
      modifies this
      ensures queue == [] && bytes == 0 && gap == old(gap)
      ensures taken.gap == old(gap) && |taken.events| == |old(queue)|
      ensures forall i :: 0 <= i < |taken.events| ==> taken.events[i] == old(queue)[i].0
      ensures Value() == Drained(old(Value()))
      ensures taken == Taken(old(gap), Events(old(queue)))
      ensures ready == old(ready)
    {
      var events := [];
      var i := 0;
      while i < |queue|
        invariant 0 <= i <= |queue|
        invariant events == Events(queue[..i])
        invariant queue == old(queue) && Value() == old(Value()) && ready == old(ready)
      {
        events := events + [queue[i].0];
        i := i + 1;
      }
      assert queue[..i] == queue;
      taken := Taken(gap, events);
      queue, bytes := [], 0;
    }

    method Reconciled(gap: Gap) returns (cleared: bool)
      modifies this
      ensures cleared <==> old(this.gap).Some? && old(this.gap).value.number == gap.number
      ensures this.gap == (if cleared then None else old(this.gap)) && queue == old(queue) && bytes == old(bytes)
      ensures cleared == Clears(old(Value()), gap)
      ensures Value() == Cleared(old(Value()), gap)
      ensures ready == old(ready)
    {
      cleared := this.gap.Some? && this.gap.value.number == gap.number;
      if cleared {
        this.gap := None;
      }
    }

    // A wait with no bound to sleep for: one look.
    method WaitNow() returns (look: bool)
      modifies this`ready
      ensures look == (queue != [] || old(ready))
      ensures ready == (old(ready) && queue != [])
    {
      if queue != [] {
        return true;
      }
      look := ready;
      ready := false;
    }
  }
}
