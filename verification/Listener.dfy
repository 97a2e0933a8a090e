/** The listener's loop as a function of its luck: a script says what each attempt meets, and the loop leaves a trace of
    the steps it took, among those of the reader that shares its queue.

    A frame is read and acted on in one step here, since nothing of the shared state depends on when it left the socket; the
    reader's critical sections come before frames and before attempts. */
module Listener {
  import opened Wrappers
  import opened SocketQueue

  datatype Frame =
    | HelloFrame
    // A message event, as normalization answered it, and the size of its frame.
    | EventFrame(event: Event, cost: nat)
    // A frame or an event that cannot be read, or that names too long an envelope.
    | UnreadableFrame
    // A message past its bound: a gap, then the end.
    | OversizedFrame
    | OtherFrame
    // A close, an error, a refresh, an acknowledgement or ping that cannot be written, silence past the idle bound.
    | Ending

  // A critical section of the reader.
  datatype Section = Takes | Clears(gap: Gap)

  // The next frame of a socket, and what the reader did before it.
  datatype Turn = Turn(before: seq<Section>, frame: Frame)

  // `before`: what the reader did since the last attempt. `stopped`: the stop was seen while the socket was served.
  datatype Attempt = Refused(before: seq<Section>) | Opened(before: seq<Section>, turns: seq<Turn>, stopped: bool)

  datatype Step =
    | Open
    | Read(frame: Frame)
    | Latch(cause: GapCause, number: nat)
    | Retire
    | Pause(length: nat)
    | ReaderDoes(section: Section)

  // ---------------------------------------------------------------- what a trace must be

  // The gap a frame means: what came before a hello is missing, and so is what a frame held that cannot be read, carried or
  // queued.
  function Loss(s: State, f: Frame): Option<GapCause> {
    match f
    case HelloFrame => Some(Reconnect)
    case EventFrame(event, cost) => LossOf(s, event, cost)
    case UnreadableFrame => Some(Failed)
    case OversizedFrame => Some(Failed)
    case _ => None
  }

  // The gap a step means, with the queue as it then is: what is sent between a retired socket and the next is missing too.
  function Owed(s: State, step: Step): Option<GapCause> {
    match step
    case Read(f) => Loss(s, f)
    case Retire => Some(Reconnect)
    case _ => None
  }

  // The queue after a step.
  function After(s: State, step: Step): State {
    match step
    case Read(EventFrame(event, cost)) => if LossOf(s, event, cost).Some? then s else Kept(s, event, cost)
    case Latch(cause, number) => Latched(s, cause, number)
    case ReaderDoes(Takes) => Drained(s)
    case ReaderDoes(Clears(gap)) => Cleared(s, gap)
    case _ => s
  }

  function QueueAfter(s: State, steps: seq<Step>): State {
    if steps == [] then s else After(QueueAfter(s, steps[..|steps| - 1]), steps[|steps| - 1])
  }

  // What the `i`-th step owes.
  function OwedAt(s: State, steps: seq<Step>, i: nat): Option<GapCause>
    requires i < |steps|
  {
    Owed(QueueAfter(s, steps[..i]), steps[i])
  }

  // Websockets open after these steps.
  function OpenSockets(steps: seq<Step>): int {
    if steps == [] then 0 else OpenSockets(steps[..|steps| - 1]) + Opens(steps[|steps| - 1])
  }

  function Opens(s: Step): int { if s.Open? then 1 else if s.Retire? then -1 else 0 }

  ghost predicate OneAtATime(steps: seq<Step>) {
    forall i :: 0 <= i <= |steps| ==> 0 <= OpenSockets(steps[..i]) <= 1
  }

  // Every gap latched is numbered above `above` and above each one before it.
  ghost predicate NumbersRise(steps: seq<Step>, above: nat) {
    && (forall i :: 0 <= i < |steps| && steps[i].Latch? ==> above < steps[i].number)
    && (forall i, j :: 0 <= i < j < |steps| && steps[i].Latch? && steps[j].Latch? ==>
          steps[i].number < steps[j].number)
  }

  // Each loss is latched at once under its cause, and nothing else is; a retire at the very end, by a stop, need not be.
  ghost predicate LossesLatched(s: State, steps: seq<Step>) {
    && (forall i: nat :: i < |steps| && OwedAt(s, steps, i).Some? && (i + 1 < |steps| || !steps[i].Retire?) ==>
          i + 1 < |steps| && steps[i + 1].Latch? && steps[i + 1].cause == OwedAt(s, steps, i).value)
    && (forall i: nat :: i < |steps| && steps[i].Latch? ==> i > 0 && OwedAt(s, steps, i - 1) == Some(steps[i].cause))
  }

  // The step after the `i`-th latches this cause.
  predicate LatchedNext(steps: seq<Step>, i: nat, cause: GapCause) {
    i + 1 < |steps| && steps[i + 1].Latch? && steps[i + 1].cause == cause
  }

  /** What each step does to the queue and the gap, said of the step's own cases: nothing is dropped unseen. */
  ghost predicate EachStepAccounted(s: State, steps: seq<Step>) {
    forall i: nat :: i < |steps| ==>
      var before, after := QueueAfter(s, steps[..i]), QueueAfter(s, steps[..i + 1]);
      match steps[i]
      case Read(HelloFrame) => LatchedNext(steps, i, Reconnect) && after == before
      case Read(UnreadableFrame) => LatchedNext(steps, i, Failed) && after == before
      case Read(OversizedFrame) => LatchedNext(steps, i, Failed) && after == before
      case Read(EventFrame(event, cost)) =>
        if event.Unsupported? then after == before
        else if event.Unrepresentable? then LatchedNext(steps, i, Failed) && after == before
        else if |before.queue| >= MAX_PENDING || before.bytes + cost > MAX_PENDING_BYTES then
          LatchedNext(steps, i, Overflow) && after == before
        else after == State(before.queue + [(event, cost)], before.bytes + cost, before.gap)
      case Read(_) => after == before
      case Retire => (i + 1 < |steps| ==> LatchedNext(steps, i, Reconnect)) && after == before
      case Latch(cause, number) => after == before.(gap := Some(Gap(number, cause)))
      case ReaderDoes(Takes) => after == State([], 0, before.gap)
      case ReaderDoes(Clears(gap)) =>
        after == if before.gap.Some? && before.gap.value.number == gap.number then before.(gap := None) else before
      case _ => after == before
  }

  lemma StepAccounted(s: State, steps: seq<Step>, i: nat)
    requires LossesLatched(s, steps) && i < |steps|
    ensures QueueAfter(s, steps[..i + 1]) == After(QueueAfter(s, steps[..i]), steps[i])
    ensures OwedAt(s, steps, i).Some? && (i + 1 < |steps| || !steps[i].Retire?) ==>
              LatchedNext(steps, i, OwedAt(s, steps, i).value)
  {
    assert steps[..i + 1][..i] == steps[..i];
  }

  lemma LatchedLossesAccount(s: State, steps: seq<Step>)
    requires LossesLatched(s, steps)
    ensures EachStepAccounted(s, steps)
  {
    forall i: nat | i < |steps|
      ensures QueueAfter(s, steps[..i + 1]) == After(QueueAfter(s, steps[..i]), steps[i])
      ensures OwedAt(s, steps, i).Some? && (i + 1 < |steps| || !steps[i].Retire?) ==>
                LatchedNext(steps, i, OwedAt(s, steps, i).value)
    {
      StepAccounted(s, steps, i);
    }
  }

  // Of the first `n` steps, the events read that are messages and whose loss was not latched next.
  function Unlost(steps: seq<Step>, n: nat): seq<Event>
    requires n <= |steps|
  {
    if n == 0 then []
    else Unlost(steps, n - 1) + UnlostOne(steps, n)
  }

  // And what the reader took in them.
  function TakenIn(s: State, steps: seq<Step>, n: nat): seq<Event>
    requires n <= |steps|
  {
    if n == 0 then []
    else
      TakenIn(s, steps, n - 1) +
      if steps[n - 1] == ReaderDoes(Takes) then Events(QueueAfter(s, steps[..n - 1]).queue) else []
  }

  lemma EventsAfter(before: State, step: Step)
    ensures var after := After(before, step);
            Events(after.queue) ==
            match step
            case ReaderDoes(Takes) => []
            case Read(EventFrame(event, cost)) =>
              Events(before.queue) + (if event.Unsupported? || LossOf(before, event, cost).Some? then [] else [event])
            case _ => Events(before.queue)
  {
  }

  // A step's event is lost exactly when a latch follows it.
  lemma LostExactlyWhenLatched(s: State, steps: seq<Step>, i: nat)
    requires LossesLatched(s, steps) && i < |steps| && steps[i].Read?
    ensures OwedAt(s, steps, i).Some? <==> i + 1 < |steps| && steps[i + 1].Latch?
  {
    if i + 1 < |steps| && steps[i + 1].Latch? {
      assert OwedAt(s, steps, i + 1 - 1).Some?;
    }
  }

  function UnlostOne(steps: seq<Step>, n: nat): seq<Event>
    requires 0 < n <= |steps|
  {
    match steps[n - 1]
    case Read(EventFrame(event, _)) => if event.Unsupported? || (n < |steps| && steps[n].Latch?) then [] else [event]
    case _ => []
  }

  // One step: what is taken and waiting grows by the event read, if it was not lost.
  lemma OneMoreAccounted(s: State, steps: seq<Step>, n: nat)
    requires LossesLatched(s, steps) && 0 < n <= |steps|
    ensures var before, after := QueueAfter(s, steps[..n - 1]), QueueAfter(s, steps[..n]);
            if steps[n - 1] == ReaderDoes(Takes) then Events(after.queue) == [] && UnlostOne(steps, n) == []
            else Events(after.queue) == Events(before.queue) + UnlostOne(steps, n)
  {
    StepAccounted(s, steps, n - 1);
    var before := QueueAfter(s, steps[..n - 1]);
    EventsAfter(before, steps[n - 1]);
    if steps[n - 1].Read? {
      LostExactlyWhenLatched(s, steps, n - 1);
    }
    assert Events(before.queue) + [] == Events(before.queue);
  }

  lemma Moved<T>(taken: seq<T>, before: seq<T>, after: seq<T>, base: seq<T>, unlost: seq<T>, one: seq<T>, takes: bool)
    requires taken + before == base + unlost
    requires if takes then after == [] && one == [] else after == before + one
    ensures (taken + if takes then before else []) + after == base + (unlost + one)
  {
    assert base + (unlost + one) == (base + unlost) + one;
    assert !takes ==> (taken + []) + after == (taken + before) + one;
  }

  lemma {:induction false} EventsReadAreAccountedFor(s: State, steps: seq<Step>, n: nat)
    requires LossesLatched(s, steps) && n <= |steps|
    ensures TakenIn(s, steps, n) + Events(QueueAfter(s, steps[..n]).queue) == Events(s.queue) + Unlost(steps, n)
  {
    if n == 0 {
      assert steps[..0] == [];
    } else {
      EventsReadAreAccountedFor(s, steps, n - 1);
      OneMoreAccounted(s, steps, n);
      Moved(TakenIn(s, steps, n - 1), Events(QueueAfter(s, steps[..n - 1]).queue), Events(QueueAfter(s, steps[..n]).queue),
            Events(s.queue), Unlost(steps, n - 1), UnlostOne(steps, n), steps[n - 1] == ReaderDoes(Takes));
    }
  }

  // The frames read, in order.
  function Reads(steps: seq<Step>): seq<Frame> {
    if steps == [] then [] else Reads(steps[..|steps| - 1]) + ReadIn(steps[|steps| - 1])
  }

  function ReadIn(s: Step): seq<Frame> { if s.Read? then [s.frame] else [] }

  lemma ReadsSnoc(steps: seq<Step>, s: Step)
    ensures Reads(steps + [s]) == Reads(steps) + ReadIn(s)
  {
    assert (steps + [s])[..|steps|] == steps;
  }

  // ---------------------------------------------------------------- a monitor of traces

  // Whether a socket is open, the latch owed, the highest number latched, the pauses so far, and the queue.
  datatype Monitor = Monitor(open: bool, owes: Option<GapCause>, top: nat, pauses: seq<nat>, queue: State)

  // A listener that has not begun.
  function Waiting(above: nat, s: State): Monitor { Monitor(false, None, above, [], s) }

  predicate Allowed(m: Monitor, s: Step) {
    match s
    case Latch(cause, number) => m.owes == Some(cause) && m.top < number
    case Open => m.owes.None? && !m.open
    case Pause(_) => m.owes.None? && !m.open
    case Read(_) => m.owes.None? && m.open
    case Retire => m.owes.None? && m.open
    case ReaderDoes(_) => m.owes.None?
  }

  function Observe(m: Monitor, s: Step): Option<Monitor> {
    if !Allowed(m, s) then None
    else
      Some(Monitor(s.Open? || (m.open && !s.Retire?), Owed(m.queue, s), if s.Latch? then s.number else m.top,
                   if s.Pause? then m.pauses + [s.length] else m.pauses, After(m.queue, s)))
  }

  function Observed(steps: seq<Step>, from: Monitor): Option<Monitor> {
    if steps == [] then Some(from)
    else match Observed(steps[..|steps| - 1], from)
      case None => None
      case Some(m) => Observe(m, steps[|steps| - 1])
  }

  lemma ObservedSnoc(steps: seq<Step>, s: Step, from: Monitor)
    requires Observed(steps, from).Some?
    ensures Observed(steps + [s], from) == Observe(Observed(steps, from).value, s)
  {
    assert (steps + [s])[..|steps|] == steps;
  }

  lemma {:induction false} ObservedPrefix(steps: seq<Step>, from: Monitor, i: nat)
    requires Observed(steps, from).Some? && i <= |steps|
    ensures Observed(steps[..i], from).Some?
    decreases |steps|
  {
    if i < |steps| {
      ObservedPrefix(steps[..|steps| - 1], from, i);
      assert steps[..|steps| - 1][..i] == steps[..i];
    } else {
      assert steps[..i] == steps;
    }
  }

  // The monitor's counts and its queue are the trace's.
  lemma {:induction false} ObservedCounts(steps: seq<Step>, above: nat, s: State)
    requires Observed(steps, Waiting(above, s)).Some?
    ensures var m := Observed(steps, Waiting(above, s)).value;
            && OpenSockets(steps) == (if m.open then 1 else 0)
            && above <= m.top
            && (forall i :: 0 <= i < |steps| && steps[i].Latch? ==> above < steps[i].number <= m.top)
            && m.queue == QueueAfter(s, steps)
            && m.owes == (if steps == [] then None else OwedAt(s, steps, |steps| - 1))
    decreases |steps|
  {
    if steps != [] {
      ObservedCounts(steps[..|steps| - 1], above, s);
    }
  }

  // The pauses taken, in order.
  function Pauses(steps: seq<Step>): seq<nat> {
    if steps == [] then []
    else Pauses(steps[..|steps| - 1]) + if steps[|steps| - 1].Pause? then [steps[|steps| - 1].length] else []
  }

  lemma {:induction false} ObservedPauses(steps: seq<Step>, from: Monitor)
    requires Observed(steps, from).Some? && from.pauses == []
    ensures Observed(steps, from).value.pauses == Pauses(steps)
    decreases |steps|
  {
    if steps != [] {
      ObservedPauses(steps[..|steps| - 1], from);
    }
  }

  lemma ObservedStep(steps: seq<Step>, from: Monitor, i: nat)
    requires Observed(steps, from).Some? && i < |steps|
    ensures Observed(steps[..i], from).Some? && Observed(steps[..i + 1], from).Some?
    ensures Observed(steps[..i + 1], from) == Observe(Observed(steps[..i], from).value, steps[i])
  {
    ObservedPrefix(steps, from, i);
    ObservedPrefix(steps, from, i + 1);
    assert steps[..i + 1][..i] == steps[..i];
  }

  // A step that owes a latch is followed by it, and a latch follows a step that owes it.
  lemma LatchesFollow(steps: seq<Step>, above: nat, s: State, i: nat)
    requires Observed(steps, Waiting(above, s)).Some? && i < |steps| - 1
    ensures OwedAt(s, steps, i).Some? ==> steps[i + 1].Latch? && steps[i + 1].cause == OwedAt(s, steps, i).value
    ensures steps[i + 1].Latch? ==> OwedAt(s, steps, i) == Some(steps[i + 1].cause)
  {
    ObservedStep(steps, Waiting(above, s), i + 1);
    var before := steps[..i + 1];
    ObservedCounts(before, above, s);
    assert before[i] == steps[i] && before[..i] == steps[..i];
    assert OwedAt(s, before, i) == OwedAt(s, steps, i);
  }

  lemma NumbersOfATraceRise(steps: seq<Step>, above: nat, s: State)
    requires Observed(steps, Waiting(above, s)).Some?
    ensures NumbersRise(steps, above)
  {
    ObservedCounts(steps, above, s);
    forall i, j | 0 <= i < j < |steps| && steps[i].Latch? && steps[j].Latch?
      ensures steps[i].number < steps[j].number
    {
      ObservedStep(steps, Waiting(above, s), j);
      ObservedCounts(steps[..j], above, s);
      assert steps[..j][i] == steps[i];
    }
  }

  lemma LossesOfATraceAreLatched(steps: seq<Step>, above: nat, s: State)
    requires Observed(steps, Waiting(above, s)).Some?
    requires steps == [] || steps[|steps| - 1].Retire? || Observed(steps, Waiting(above, s)).value.owes.None?
    ensures LossesLatched(s, steps)
  {
    ObservedCounts(steps, above, s);
    forall i: nat | i < |steps| && OwedAt(s, steps, i).Some? && (i + 1 < |steps| || !steps[i].Retire?)
      ensures i + 1 < |steps| && steps[i + 1].Latch? && steps[i + 1].cause == OwedAt(s, steps, i).value
    {
      if i + 1 < |steps| {
        LatchesFollow(steps, above, s, i);
      }
    }
    forall i: nat | i < |steps| && steps[i].Latch? ensures i > 0 && OwedAt(s, steps, i - 1) == Some(steps[i].cause) {
      if i > 0 {
        LatchesFollow(steps, above, s, i - 1);
      } else {
        ObservedStep(steps, Waiting(above, s), 0);
      }
    }
  }

  // A trace the monitor follows to its end has the three properties.
  lemma ObservedTracesAreSound(steps: seq<Step>, above: nat, s: State)
    requires Observed(steps, Waiting(above, s)).Some?
    requires steps == [] || steps[|steps| - 1].Retire? || Observed(steps, Waiting(above, s)).value.owes.None?
    ensures OneAtATime(steps) && NumbersRise(steps, above) && LossesLatched(s, steps)
    ensures QueueAfter(s, steps) == Observed(steps, Waiting(above, s)).value.queue
    ensures OpenSockets(steps) == 0 <==> !Observed(steps, Waiting(above, s)).value.open
  {
    forall i | 0 <= i <= |steps| ensures 0 <= OpenSockets(steps[..i]) <= 1 {
      ObservedPrefix(steps, Waiting(above, s), i);
      ObservedCounts(steps[..i], above, s);
    }
    NumbersOfATraceRise(steps, above, s);
    LossesOfATraceAreLatched(steps, above, s);
    ObservedCounts(steps, above, s);
  }

  // ---------------------------------------------------------------- what is read of a script

  predicate Ends(f: Frame) { f.Ending? || f.OversizedFrame? }

  // A socket's frames from the `i`-th, to the one that ends it.
  function ReadFrom(turns: seq<Turn>, i: nat): seq<Frame>
    decreases |turns| - i, 1
  {
    if i >= |turns| then [] else [turns[i].frame] + ReadAfter(turns, i)
  }

  // What is read after the `i`-th.
  function ReadAfter(turns: seq<Turn>, i: nat): seq<Frame>
    requires i < |turns|
    decreases |turns| - i, 0
  {
    if Ends(turns[i].frame) then [] else ReadFrom(turns, i + 1)
  }

  function UntilEnd(turns: seq<Turn>): seq<Frame> { ReadFrom(turns, 0) }

  lemma ReadOne(read: seq<Frame>, turns: seq<Turn>, i: nat)
    requires i < |turns|
    ensures read + ReadFrom(turns, i) == (read + [turns[i].frame]) + ReadAfter(turns, i)
    ensures HelloFrame in ReadFrom(turns, i) <==> turns[i].frame.HelloFrame? || HelloFrame in ReadAfter(turns, i)
  {
  }

  function ReadOf(a: Attempt): seq<Frame> { if a.Opened? then UntilEnd(a.turns) else [] }

  function AllRead(script: seq<Attempt>, n: nat): seq<Frame>
    requires n <= |script|
  {
    if n == 0 then [] else AllRead(script, n - 1) + ReadOf(script[n - 1])
  }

  // ---------------------------------------------------------------- the pauses the script asks for

  function Power2(k: nat): nat { if k == 0 then 1 else 2 * Power2(k - 1) }

  function Min(a: nat, b: nat): nat { if a < b then a else b }

  // Whether the socket said hello before it ended.
  predicate Helloed(a: Attempt) { a.Opened? && HelloIn(a.turns) }

  predicate HelloIn(turns: seq<Turn>) { HelloFrame in UntilEnd(turns) }

  // How many attempts in a row, ending just before the `i`-th, said no hello.
  function Misses(script: seq<Attempt>, i: nat): nat
    requires i <= |script|
  {
    if i == 0 || Helloed(script[i - 1]) then 0 else 1 + Misses(script, i - 1)
  }

  function Delay(first: nat, max: nat, k: nat): nat { Min(first * Power2(k), max) }

  // The pause after the `i`-th attempt: the first pause after a hello, and doubling to the bound otherwise.
  function PauseAfter(script: seq<Attempt>, i: nat, first: nat, max: nat): nat
    requires i < |script|
  {
    if Helloed(script[i]) then first else Delay(first, max, Misses(script, i))
  }

  function Expected(script: seq<Attempt>, n: nat, first: nat, max: nat): (pauses: seq<nat>)
    requires n <= |script|
    ensures |pauses| == n
    ensures forall i :: 0 <= i < n ==> pauses[i] == PauseAfter(script, i, first, max)
  {
    if n == 0 then [] else Expected(script, n - 1, first, max) + [PauseAfter(script, n - 1, first, max)]
  }

  lemma DelayDoubles(first: nat, max: nat, k: nat)
    ensures Delay(first, max, k + 1) == Min(Delay(first, max, k) * 2, max)
  {
    assert first * Power2(k + 1) == (first * Power2(k)) * 2;
  }

  /** After a hello, or before any, the `k`-th attempt in a row without one is followed by `min(first * 2^k, max)`, counting
      from none; an attempt that said hello is followed by `first`. */
  lemma {:induction false} PausesStartAgain(script: seq<Attempt>, i: nat, j: nat, first: nat, max: nat)
    requires j <= i < |script| && (j == 0 || HelloFrame in ReadOf(script[j - 1]))
    requires forall k :: j <= k < i ==> HelloFrame !in ReadOf(script[k])
    ensures PauseAfter(script, i, first, max) ==
            if HelloFrame in ReadOf(script[i]) then first
            else if first * Power2(i - j) < max then first * Power2(i - j) else max
  {
    MissesCount(script, i, j);
  }

  lemma {:induction false} MissesCount(script: seq<Attempt>, i: nat, j: nat)
    requires j <= i <= |script| && (j == 0 || HelloFrame in ReadOf(script[j - 1]))
    requires forall k :: j <= k < i ==> HelloFrame !in ReadOf(script[k])
    ensures Misses(script, i) == i - j
  {
    if j < i {
      MissesCount(script, i - 1, j);
    }
  }

  /** A socket's frames are read from its first on, and the last one read is the first that ends it. */
  lemma {:induction false} ReadsToTheEnd(turns: seq<Turn>, i: nat)
    requires i <= |turns|
    ensures var read := ReadFrom(turns, i);
            && |read| <= |turns| - i
            && (forall k :: 0 <= k < |read| ==> read[k] == turns[i + k].frame)
            && (forall k :: 0 <= k < |read| - 1 ==> !read[k].Ending? && !read[k].OversizedFrame?)
            && (|read| < |turns| - i ==> read != [] && (read[|read| - 1].Ending? || read[|read| - 1].OversizedFrame?))
    decreases |turns| - i
  {
    if i < |turns| {
      ReadsToTheEnd(turns, i + 1);
      var read, rest := ReadFrom(turns, i), ReadFrom(turns, i + 1);
      if !Ends(turns[i].frame) {
        assert read == [turns[i].frame] + rest;
        assert rest != [] ==> read[|read| - 1] == rest[|rest| - 1];
      } else {
        assert read == [turns[i].frame];
      }
    }
  }

  lemma DelayStarts(first: nat, max: nat)
    ensures first <= max ==> Delay(first, max, 0) == first
  {
    assert first * Power2(0) == first;
  }

  // ---------------------------------------------------------------- the loop

  class Worker {
    const shared: Shared
    const first: nat
    const max: nat
    var connected: bool
    // The trace so far, what the monitor makes of it, and the frames read in it.
    ghost var steps: seq<Step>
    ghost var seen: Monitor
    ghost var read: seq<Frame>

    constructor (shared: Shared, first: nat, max: nat)
      requires first <= max
      ensures this.shared == shared && this.first == first && this.max == max
      ensures steps == [] && !connected
    {
      this.shared, this.first, this.max := shared, first, max;
      steps, seen, read, connected := [], Waiting(0, START), [], false;
    }

    // The monitor has followed the trace.
    ghost predicate Traced(from: Monitor)
      reads this
    {
      Observed(steps, from) == Some(seen) && Reads(steps) == read
    }

    // Its queue is the shared one, and no number latched is above the counter's.
    ghost predicate Current()
      reads this, shared, shared.numbers
    {
      seen.queue == shared.Value() && seen.top <= shared.numbers.last && Counted(shared.Value())
    }

    // A socket is open and nothing is owed; or none is, and nothing is.
    ghost predicate Serving(from: Monitor)
      reads this, shared, shared.numbers
    {
      Traced(from) && Current() && seen.open && seen.owes.None?
    }

    ghost predicate Resting(from: Monitor)
      reads this, shared, shared.numbers
    {
      Traced(from) && Current() && !seen.open && seen.owes.None?
    }

    ghost method Record(s: Step, from: Monitor)
      requires Traced(from) && Allowed(seen, s)
      modifies this`steps, this`seen, this`read
      ensures Traced(from)
      ensures Some(seen) == Observe(old(seen), s)
      ensures read == old(read) + ReadIn(s)
      ensures steps != [] && steps[|steps| - 1] == s
    {
      ObservedSnoc(steps, s, from);
      ReadsSnoc(steps, s);
      steps := steps + [s];
      seen := Observe(seen, s).value;
      read := read + ReadIn(s);
    }

    // A latch: its number is the counter's next, so it is above every one before.
    method Lose(cause: GapCause, ghost from: Monitor)
      requires Traced(from) && Current() && seen.owes == Some(cause)
      modifies this`steps, this`seen, this`read, shared, shared.numbers
      ensures Traced(from) && Current()
      ensures seen.open == old(seen.open) && seen.owes.None? && seen.pauses == old(seen.pauses)
      ensures read == old(read)
    {
      shared.Latch(cause);
      Record(Latch(cause, shared.numbers.last), from);
    }

    // The reader's sections between two steps of the listener.
    method Meanwhile(sections: seq<Section>, ghost from: Monitor)
      requires Traced(from) && Current() && seen.owes.None?
      modifies this`steps, this`seen, this`read, shared
      ensures Traced(from) && Current()
      ensures seen.open == old(seen.open) && seen.owes.None? && seen.pauses == old(seen.pauses)
      ensures read == old(read)
    {
      for i := 0 to |sections|
        invariant Traced(from) && Current()
        invariant seen.open == old(seen.open) && seen.owes.None? && seen.pauses == old(seen.pauses)
        invariant read == old(read)
      {
        match sections[i] {
          case Takes =>
            var _ := shared.Take();
          case Clears(gap) =>
            var _ := shared.Reconciled(gap);
        }
        Record(ReaderDoes(sections[i]), from);
      }
    }

    // An event frame: it is queued or ignored, or its gap is latched within the same section.
    method Hear(event: Event, cost: nat, ghost from: Monitor)
      requires Serving(from)
      modifies this`steps, this`seen, this`read, shared, shared.numbers
      ensures Serving(from) && seen.pauses == old(seen.pauses)
      ensures read == old(read) + [EventFrame(event, cost)]
    {
      ghost var lost := LossOf(shared.Value(), event, cost);
      shared.Listen(event, cost);
      Record(Read(EventFrame(event, cost)), from);
      if lost.Some? {
        Record(Latch(lost.value, shared.numbers.last), from);
      }
    }

    // One frame: what it lost is latched before anything else is done.
    method Handle(f: Frame, ghost from: Monitor)
      requires Serving(from)
      modifies this, shared, shared.numbers
      ensures Serving(from) && seen.pauses == old(seen.pauses)
      ensures read == old(read) + [f]
      ensures connected == (old(connected) || f.HelloFrame?)
    {
      if f.EventFrame? {
        Hear(f.event, f.cost, from);
        return;
      }
      Record(Read(f), from);
      match f {
        case HelloFrame =>
          connected := true;
          Lose(Reconnect, from);
        case UnreadableFrame => Lose(Failed, from);
        case OversizedFrame => Lose(Failed, from);
        case _ =>
      }
    }

    method TakeTurn(t: Turn, ghost from: Monitor)
      requires Serving(from)
      modifies this, shared, shared.numbers
      ensures Serving(from) && seen.pauses == old(seen.pauses)
      ensures read == old(read) + [t.frame]
      ensures connected == (old(connected) || t.frame.HelloFrame?)
    {
      Meanwhile(t.before, from);
      Handle(t.frame, from);
    }

    // Every frame up to the one that ends the socket is read; then the socket is retired.
    method Serve(turns: seq<Turn>, ghost from: Monitor) returns (helloed: bool)
      requires Serving(from)
      modifies this, shared, shared.numbers
      ensures Traced(from) && Current() && !seen.open && seen.owes == Some(Reconnect)
      ensures seen.pauses == old(seen.pauses)
      ensures steps != [] && steps[|steps| - 1].Retire?
      ensures read == old(read) + UntilEnd(turns)
      ensures helloed == HelloIn(turns) && connected == (old(connected) || helloed)
    {
      helloed := false;
      var i := 0;
      var ended := false;
      ghost var all := UntilEnd(turns);
      ghost var rest := all;
      while i < |turns| && !ended
        invariant 0 <= i <= |turns|
        invariant Serving(from) && seen.pauses == old(seen.pauses)
        invariant rest == if ended then [] else ReadFrom(turns, i)
        invariant read + rest == old(read) + all
        invariant HelloFrame in all <==> helloed || HelloFrame in rest
        invariant connected == (old(connected) || helloed)
        decreases |turns| - i
      {
        ReadOne(read, turns, i);
        rest := ReadAfter(turns, i);
        TakeTurn(turns[i], from);
        helloed := helloed || turns[i].frame.HelloFrame?;
        ended := Ends(turns[i].frame);
        i := i + 1;
      }
      assert rest == [] && read + rest == read;
      Record(Retire, from);
    }

    // The pause now and the backoff after it, with `misses` attempts in a row gone by.
    method NextBackoff(backoff: nat, ghost misses: nat) returns (wait: nat, next: nat)
      requires backoff == Delay(first, max, misses)
      ensures wait == backoff && next == Delay(first, max, misses + 1)
    {
      DelayDoubles(first, max, misses);
      wait := backoff;
      next := Min(backoff * 2, max);
    }

    // A socket from its opening to its retirement.
    method Visit(turns: seq<Turn>, ghost from: Monitor) returns (helloed: bool)
      requires Resting(from)
      modifies this, shared, shared.numbers
      ensures Traced(from) && Current() && !seen.open && seen.owes == Some(Reconnect)
      ensures seen.pauses == old(seen.pauses)
      ensures steps != [] && steps[|steps| - 1].Retire?
      ensures read == old(read) + UntilEnd(turns) && helloed == HelloIn(turns)
    {
      Record(Open, from);
      assert read == old(read);
      helloed := Serve(turns, from);
    }

    // What one attempt leaves: a pause to take, or a stop.
    method Connect(a: Attempt, ghost from: Monitor) returns (helloed: bool, stopped: bool)
      requires Resting(from) && !connected
      modifies this, shared, shared.numbers
      ensures Traced(from) && Current() && !seen.open && !connected
      ensures seen.pauses == old(seen.pauses)
      ensures read == old(read) + ReadOf(a)
      ensures helloed == Helloed(a) && stopped == (a.Opened? && a.stopped)
      ensures if stopped then steps != [] && steps[|steps| - 1].Retire? else seen.owes.None?
    {
      Meanwhile(a.before, from);
      helloed, stopped := false, false;
      if a.Opened? {
        helloed := Visit(a.turns, from);
        connected := false;
        stopped := a.stopped;
        if !stopped {
          Lose(Reconnect, from);
        }
      }
    }

    // The pause after the `i`-th attempt, and the backoff after it.
    method PauseFor(script: seq<Attempt>, i: nat, helloed: bool, backoff: nat) returns (wait: nat, next: nat)
      requires first <= max && i < |script| && helloed == Helloed(script[i])
      requires backoff == Delay(first, max, Misses(script, i))
      ensures wait == PauseAfter(script, i, first, max) && next == Delay(first, max, Misses(script, i + 1))
    {
      if helloed {
        DelayStarts(first, max);
        wait, next := first, first;
      } else {
        wait, next := NextBackoff(backoff, Misses(script, i));
      }
    }

    // One attempt and the pause after it, unless the stop was seen.
    method Round(script: seq<Attempt>, i: nat, backoff: nat, ghost from: Monitor) returns (next: nat, stopped: bool)
      requires first <= max && i < |script| && backoff == Delay(first, max, Misses(script, i))
      requires Resting(from) && !connected
      modifies this, shared, shared.numbers
      ensures Traced(from) && Current() && !seen.open && !connected
      ensures read == old(read) + ReadOf(script[i])
      ensures stopped == (script[i].Opened? && script[i].stopped)
      ensures if stopped then seen.pauses == old(seen.pauses) && steps != [] && steps[|steps| - 1].Retire?
              else
                && seen.owes.None? && seen.pauses == old(seen.pauses) + [PauseAfter(script, i, first, max)]
                && next == Delay(first, max, Misses(script, i + 1))
    {
      next := backoff;
      var helloed;
      helloed, stopped := Connect(script[i], from);
      if !stopped {
        var wait;
        wait, next := PauseFor(script, i, helloed, backoff);
        Record(Pause(wait), from);
      }
    }

    // The loop, with the monitor beside it.
    method Loop(script: seq<Attempt>, ghost from: Monitor) returns (ghost done: nat)
      requires first <= max && Resting(from) && !connected && seen.pauses == [] && read == []
      modifies this, shared, shared.numbers
      ensures Traced(from) && Current() && !seen.open && !connected && done <= |script|
      ensures seen.pauses == Expected(script, done, first, max)
      ensures if done < |script| then script[done].Opened? && script[done].stopped && read == AllRead(script, done + 1)
              else read == AllRead(script, done)
      ensures seen.owes.None? || (steps != [] && steps[|steps| - 1].Retire?)
    {
      var backoff := first;
      var i := 0;
      DelayStarts(first, max);
      while i < |script|
        invariant 0 <= i <= |script|
        invariant Resting(from) && !connected
        invariant seen.pauses == Expected(script, i, first, max)
        invariant backoff == Delay(first, max, Misses(script, i))
        invariant read == AllRead(script, i)
      {
        var stopped;
        backoff, stopped := Round(script, i, backoff, from);
        if stopped {
          return i;
        }
        i := i + 1;
      }
      done := i;
    }

    /** At most one websocket is ever open and each is retired before the next opens. Of every attempt but a refused one,
        all frames up to the one that ends it are read. Each hello, each frame that is too large or cannot be read, each
        event that no record can carry or the queue has no room for, and each retire the listener goes on from latches its
        gap at once, numbered above every one before, and nothing else does; every other event is queued or ignored. The
        pauses are the script's: `first` after a hello, and `min(first * 2^k, max)` after the `k`-th attempt in a row
        without one. */
    method Run(script: seq<Attempt>)
      requires first <= max && steps == [] && Counted(shared.Value())
      modifies this, shared, shared.numbers
      ensures OneAtATime(steps) && OpenSockets(steps) == 0
      ensures NumbersRise(steps, old(shared.numbers.last))
      ensures LossesLatched(old(shared.Value()), steps) && EachStepAccounted(old(shared.Value()), steps)
      ensures shared.Value() == QueueAfter(old(shared.Value()), steps) && Counted(shared.Value())
      ensures TakenIn(old(shared.Value()), steps, |steps|) + Events(shared.queue) ==
              Events(old(shared.queue)) + Unlost(steps, |steps|)
      ensures !connected
      ensures exists done :: 0 <= done <= |script|
                && Reads(steps) == AllRead(script, if done < |script| then done + 1 else done)
                && Pauses(steps) == Expected(script, done, first, max)
                && (done < |script| ==> script[done].Opened? && script[done].stopped)
    {
      ghost var from := Waiting(shared.numbers.last, shared.Value());
      connected := false;
      seen, read := from, [];
      ghost var done := Loop(script, from);
      ObservedPauses(steps, from);
      ObservedTracesAreSound(steps, from.top, from.queue);
      LatchedLossesAccount(from.queue, steps);
      EventsReadAreAccountedFor(from.queue, steps, |steps|);
      assert steps[..|steps|] == steps;
    }
  }
}
