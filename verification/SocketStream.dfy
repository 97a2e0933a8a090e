/** Runs of the pending queue: the listener hears message events and latches losses, one reader takes, waits and clears.

    Every step is one critical section. The history fields (`heard`, `fates`, `taken`, `readTop`, `clearedTop`, `owed`)
    record what happened; no step's effect on the code's own state depends on them. */
module SocketStream {
  import opened SocketQueue

  // What became of one message event the listener heard.
  datatype Fate =
    | Queued(event: Event)
    | Ignored(event: Event)
    // No record of it will ever be taken: `number` is the gap it left, `readBefore` the highest gap read until then.
    | Lost(event: Event, number: nat, readBefore: nat)

  datatype Feed = Feed(
    s: State,
    // The stored notification, and whether the one wait in flight is past its look at the queue.
    ready: bool,
    parked: bool,
    // The highest gap number the process has given out.
    last: nat,
    heard: seq<Event>,
    fates: seq<Fate>,
    taken: seq<Event>,
    readTop: nat,
    clearedTop: nat,
    // A gap was latched after the last take and the last wait that consumed the notification.
    owed: bool)

  const BEGIN: Feed := Feed(START, false, false, 0, [], [], [], 0, 0, false)

  datatype Act =
    | Listen(event: Event, cost: nat)
    | Lose(cause: GapCause)
    | OtherSocketLatches
    | Take
    | ReadGap
    | Reconcile(gap: Gap)
    | Look
    | Wake
    | GiveUp

  ghost predicate Enabled(f: Feed, a: Act) {
    match a
    case Listen(_, cost) => cost <= MAX_MESSAGE
    // A wait holds the reader exclusively: nothing else takes, reads or clears under it.
    case Take => !f.parked
    case ReadGap => true
    case Reconcile(gap) => !f.parked && gap.number <= f.readTop
    case Look => !f.parked
    case Wake => f.parked && f.ready
    case GiveUp => f.parked
    case Lose(_) => true
    case OtherSocketLatches => true
  }

  function Max(a: nat, b: nat): nat { if a < b then b else a }

  function Read(f: Feed): nat {
    if f.s.gap.Some? then Max(f.readTop, f.s.gap.value.number) else f.readTop
  }

  function Verdict(f: Feed, event: Event, cost: nat): Fate {
    match event
    case Unsupported => Ignored(event)
    case Unrepresentable => Lost(event, f.last + 1, f.readTop)
    case _ => if Overflows(f.s, cost) then Lost(event, f.last + 1, f.readTop) else Queued(event)
  }

  // The overflow's latch alone stores no notification.
  function Hear(f: Feed, event: Event, cost: nat): Feed {
    var g := f.(heard := f.heard + [event], fates := f.fates + [Verdict(f, event, cost)]);
    match Verdict(f, event, cost)
    case Ignored(_) => g
    case Queued(_) => g.(s := Pushed(f.s, event, cost, f.last), ready := true)
    case Lost(_, number, _) =>
      if event.Unrepresentable? then
        g.(s := Latched(f.s, Failed, number), last := number, ready := true, owed := true)
      else
        g.(s := Pushed(f.s, event, cost, number), last := number, owed := true)
  }

  function Do(f: Feed, a: Act): Feed {
    match a
    case Listen(event, cost) => Hear(f, event, cost)
    case Lose(cause) => f.(s := Latched(f.s, cause, f.last + 1), last := f.last + 1, ready := true, owed := true)
    case OtherSocketLatches => f.(last := f.last + 1)
    case Take => f.(s := Drained(f.s), taken := f.taken + Events(f.s.queue), readTop := Read(f), owed := false)
    case ReadGap => f.(readTop := Read(f))
    case Reconcile(gap) =>
      f.(s := Cleared(f.s, gap),
         clearedTop := if Clears(f.s, gap) then Max(f.clearedTop, gap.number) else f.clearedTop)
    // A look at a queue that holds something returns at once; otherwise the wait parks.
    case Look => if f.s.queue == [] then f.(parked := true) else f
    case Wake => f.(parked := false, ready := false, owed := false)
    case GiveUp => f.(parked := false)
  }

  ghost predicate Next(s: Feed, t: Feed) {
    exists a :: Enabled(s, a) && t == Do(s, a)
  }

  ghost predicate Run(run: seq<Feed>) {
    && |run| > 0 && run[0] == BEGIN
    && forall i :: 0 <= i < |run| - 1 ==> Next(run[i], run[i + 1])
  }

  // The events of the fates that reached the queue, in order.
  function Delivered(fates: seq<Fate>): seq<Event> {
    if fates == [] then []
    else
      var fate := fates[|fates| - 1];
      Delivered(fates[..|fates| - 1]) + (if fate.Queued? then [fate.event] else [])
  }

  lemma DeliveredSnoc(fates: seq<Fate>, fate: Fate)
    ensures Delivered(fates + [fate]) == Delivered(fates) + (if fate.Queued? then [fate.event] else [])
  {
    assert (fates + [fate])[..|fates|] == fates;
  }

  // A number latched for a loss is still in force, or was cleared by a reconcile that named it or a later one.
  ghost predicate Remembered(f: Feed, number: nat) {
    number <= f.clearedTop || (f.s.gap.Some? && number <= f.s.gap.value.number)
  }

  ghost predicate FatesFit(f: Feed) {
    && |f.fates| == |f.heard|
    && (forall i :: 0 <= i < |f.fates| ==>
          && f.fates[i].event == f.heard[i]
          && (f.fates[i].Ignored? <==> f.heard[i].Unsupported?))
  }

  ghost predicate LossesNumbered(f: Feed) {
    && (forall i :: 0 <= i < |f.fates| && f.fates[i].Lost? ==>
          f.fates[i].readBefore < f.fates[i].number <= f.last && Remembered(f, f.fates[i].number))
    && f.readTop <= f.last && f.clearedTop <= f.last
    && (f.s.gap.Some? ==> f.s.gap.value.number <= f.last)
  }

  ghost predicate Accounted(f: Feed) {
    && FatesFit(f)
    && Delivered(f.fates) == f.taken + Events(f.s.queue)
    && LossesNumbered(f)
  }

  // What the next wait finds: an owed look is always answered by the queue or by the notification.
  ghost predicate Awake(f: Feed) {
    && (f.owed ==> f.s.queue != [] || f.ready)
    && (f.parked && (f.s.queue != [] || f.owed) ==> f.ready)
  }

  ghost predicate Inv(f: Feed) { Counted(f.s) && Accounted(f) && Awake(f) }

  lemma HearDelivers(f: Feed, event: Event, cost: nat)
    requires Counted(f.s) && Delivered(f.fates) == f.taken + Events(f.s.queue)
    ensures Counted(Hear(f, event, cost).s)
    ensures Delivered(Hear(f, event, cost).fates) == f.taken + Events(Hear(f, event, cost).s.queue)
  {
    var fate := Verdict(f, event, cost);
    DeliveredSnoc(f.fates, fate);
    if fate.Queued? {
      PushKeepsCount(f.s, event, cost, f.last);
      assert f.taken + Events(f.s.queue) + [event] == f.taken + (Events(f.s.queue) + [event]);
    } else {
      assert Hear(f, event, cost).s.queue == f.s.queue;
      assert Delivered(f.fates) + [] == Delivered(f.fates);
    }
  }

  lemma HearNumbersLosses(f: Feed, event: Event, cost: nat)
    requires LossesNumbered(f)
    ensures LossesNumbered(Hear(f, event, cost))
  {
    var g := Hear(f, event, cost);
    forall i | 0 <= i < |g.fates| && g.fates[i].Lost?
      ensures g.fates[i].readBefore < g.fates[i].number <= g.last && Remembered(g, g.fates[i].number)
    {
      if i < |f.fates| {
        assert g.fates[i] == f.fates[i];
        assert Remembered(f, f.fates[i].number);
      }
    }
  }

  lemma HearKeepsAwake(f: Feed, event: Event, cost: nat)
    requires Counted(f.s) && Awake(f) && cost <= MAX_MESSAGE
    ensures Awake(Hear(f, event, cost))
  {
    if f.s.queue == [] {
      EmptyQueueOverflowsOnlyOnAnOversizedEvent(f.s, cost);
    }
  }

  lemma HearFits(f: Feed, event: Event, cost: nat)
    requires FatesFit(f)
    ensures FatesFit(Hear(f, event, cost))
    ensures Hear(f, event, cost).taken == f.taken
  {
  }

  lemma ListenKeepsInv(f: Feed, event: Event, cost: nat)
    requires Inv(f) && cost <= MAX_MESSAGE
    ensures Inv(Hear(f, event, cost))
  {
    HearDelivers(f, event, cost);
    HearNumbersLosses(f, event, cost);
    HearKeepsAwake(f, event, cost);
    HearFits(f, event, cost);
  }

  lemma OtherStepsNumberLosses(f: Feed, a: Act)
    requires LossesNumbered(f) && Enabled(f, a) && !a.Listen?
    ensures LossesNumbered(Do(f, a))
  {
    var g := Do(f, a);
    forall i | 0 <= i < |g.fates| && g.fates[i].Lost?
      ensures Remembered(g, g.fates[i].number)
    {
      assert Remembered(f, f.fates[i].number);
    }
  }

  lemma OtherStepsDeliver(f: Feed, a: Act)
    requires Counted(f.s) && !a.Listen?
    requires Delivered(f.fates) == f.taken + Events(f.s.queue)
    ensures Counted(Do(f, a).s)
    ensures Delivered(f.fates) == Do(f, a).taken + Events(Do(f, a).s.queue)
  {
    if a.Take? {
      assert Do(f, a).taken + Events([]) == Do(f, a).taken;
    }
  }

  lemma StepKeepsInv(f: Feed, a: Act)
    requires Inv(f) && Enabled(f, a)
    ensures Inv(Do(f, a))
  {
    if a.Listen? {
      ListenKeepsInv(f, a.event, a.cost);
    } else {
      OtherStepsDeliver(f, a);
      OtherStepsNumberLosses(f, a);
      assert FatesFit(Do(f, a));
      assert Awake(Do(f, a));
    }
  }

  lemma {:induction false} RunKeepsInv(run: seq<Feed>, i: nat)
    requires Run(run) && i < |run|
    ensures Inv(run[i])
  {
    if i == 0 {
      assert Events(BEGIN.s.queue) == [];
    } else {
      RunKeepsInv(run, i - 1);
      assert Next(run[i - 1], run[i - 1 + 1]);
      var a :| Enabled(run[i - 1], a) && run[i] == Do(run[i - 1], a);
      StepKeepsInv(run[i - 1], a);
    }
  }

  /** No wake-up is lost: whenever an event is queued, or a gap was latched after the last take and the last wait that
      consumed the notification, a wait that starts now ends at once, and one already parked has its notification. */
  lemma NoWakeupIsLost(run: seq<Feed>, i: nat)
    requires Run(run) && i < |run|
    requires run[i].s.queue != [] || run[i].owed
    ensures !run[i].parked ==> run[i].s.queue != [] || Enabled(Do(run[i], Look), Wake)
    ensures run[i].parked ==> Enabled(run[i], Wake)
  {
    RunKeepsInv(run, i);
  }

  /** The stream is accounted for: what was taken and what waits are, in arrival order, exactly the events heard that
      were not ignored and left no gap; each event lost left a gap numbered above every gap read before it, in force
      until a reconcile that names that gap or a later one. The counted bytes are the queue's. */
  lemma TheStreamIsAccountedFor(run: seq<Feed>, i: nat)
    requires Run(run) && i < |run|
    ensures Counted(run[i].s)
    ensures |run[i].fates| == |run[i].heard|
    ensures forall k :: 0 <= k < |run[i].heard| ==>
              run[i].fates[k].event == run[i].heard[k] && (run[i].fates[k].Ignored? <==> run[i].heard[k].Unsupported?)
    ensures run[i].taken + Events(run[i].s.queue) == Delivered(run[i].fates)
    ensures forall k :: 0 <= k < |run[i].fates| && run[i].fates[k].Lost? ==>
              run[i].fates[k].readBefore < run[i].fates[k].number && Remembered(run[i], run[i].fates[k].number)
  {
    RunKeepsInv(run, i);
  }

  /** The bound on one message is what the wake rests on: a larger event, dropped from an empty queue, would leave its
      gap with no notification, and a wait would sleep through it. */
  lemma AnOversizedEventWouldWakeNobody(event: Event, cost: nat)
    requires event.New? || event.Edited? || event.Deleted?
    ensures cost > MAX_PENDING_BYTES <==> (Hear(BEGIN, event, cost).owed && !Awake(Hear(BEGIN, event, cost)))
  {
    EmptyQueueOverflowsOnlyOnAnOversizedEvent(START, cost);
  }

  // ---------------------------------------------------------------- the object makes these steps

  ghost predicate Mirrors(shared: Shared, f: Feed)
    reads shared, shared.numbers
  {
    shared.Value() == f.s && shared.ready == f.ready && shared.numbers.last == f.last
  }

  // Each critical section of the object is the step of its name, queue, gap, notification and number alike.
  method StepOn(shared: Shared, a: Act, ghost f: Feed) returns (ghost t: Feed)
    requires Mirrors(shared, f) && Counted(f.s) && Enabled(f, a) && !a.Look? && !a.Wake? && !a.GiveUp?
    modifies shared, shared.numbers
    ensures t == Do(f, a) && Mirrors(shared, t)
  {
    t := Do(f, a);
    match a
    case Listen(event, cost) => shared.Listen(event, cost);
    case Lose(cause) => shared.Latch(cause);
    case OtherSocketLatches =>
      var _ := shared.numbers.Next();
    case Take =>
      var taken := shared.Take();
      assert t.taken == f.taken + taken.events;
    case ReadGap =>
    case Reconcile(gap) =>
      var _ := shared.Reconciled(gap);
  }

  // A wait that does not sleep is a look, and then a wake if one is due, or giving up.
  method WaitOn(shared: Shared, ghost f: Feed) returns (look: bool, ghost t: Feed)
    requires Mirrors(shared, f) && !f.parked
    modifies shared
    ensures Mirrors(shared, t) && !t.parked
    ensures look <==> f.s.queue != [] || f.ready
    ensures if f.s.queue != [] then t == Do(f, Look)
            else if f.ready then Enabled(Do(f, Look), Wake) && t == Do(Do(f, Look), Wake)
            else t == Do(Do(f, Look), GiveUp)
  {
    t := Do(f, Look);
    if f.s.queue == [] {
      t := if f.ready then Do(t, Wake) else Do(t, GiveUp);
    }
    look := shared.WaitNow();
  }
}
