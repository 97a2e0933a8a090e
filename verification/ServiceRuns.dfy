/** The service's claim under any interleaving of requests, drops, stops and calls, with the channels of what was given.

    A stop is three atomic steps: the phase is swapped, the claim ends, the stop finishes. A call of `begin` or `loaded` is
    two: its look at the claim, then its effect on the channels. Each other call is one. A call holds its `Watches`
    exclusively, and the service it is made against cannot be dropped under it. */
module ServiceRuns {
  import opened Wrappers
  import opened SocketQueue
  import opened ChannelCache
  import opened WatchModel
  import opened Watching
  import opened Ids

  datatype Stage = Run | Halting | Halted

  // A call past its look. A load against a stranger ends at its look; a begin against one goes on and takes nothing.
  datatype Call =
    | Loading(channel: string, ticket: nat, records: seq<Message>)
    | Beginning(channel: string, own: bool)

  datatype World = World(
    stage: Stage,
    // A stop has swapped the phase and not yet ended the claim.
    storing: bool,
    dropped: bool,
    claim: ClaimState,
    // The channels of each `Watches` alive, by its number; the next number; the calls under way.
    alive: map<nat, Model>,
    next: nat,
    calls: map<nat, Call>)

  const BEGIN: World := World(Run, false, false, Free, map[], 0, map[])

  datatype Act =
    | Ask
    | DropWatches(id: nat)
    | StopSwaps | StopEnds | StopFinishes
    | DropService
    | Look(id: nat, call: Call)
    // The gap or the take is what the service holds at that instant; neither is anything once the phase was swapped.
    | LoadEffect(id: nat, now: Option<Gap>)
    | BeginEffect(id: nat, taken: Taken)
    | Pump(id: nat, own: bool, taken: Taken)
    | Watch(id: nat, channel: string)
    | Unwatch(id: nat, channel: string)
    | Fail(id: nat, channel: string, ticket: nat)
    | Reconcile(id: nat, cleared: bool)

  predicate Gives(s: World, own: bool) { own && s.stage.Run? && !s.dropped }

  predicate Idle(s: World, id: nat) { id in s.alive && id !in s.calls }

  predicate OnOwn(call: Call) { call.Loading? || call.own }

  ghost predicate Enabled(s: World, a: Act) {
    match a
    case Ask => !s.dropped
    case DropWatches(id) => Idle(s, id)
    case StopSwaps => s.stage.Run? && !s.dropped
    case StopEnds => s.storing
    case StopFinishes => s.stage.Halting? && !s.storing
    case DropService => !s.storing && !s.dropped && forall id :: id in s.calls ==> !OnOwn(s.calls[id])
    case Look(id, call) => Idle(s, id) && (OnOwn(call) ==> !s.dropped)
    case LoadEffect(id, now) =>
      id in s.alive && id in s.calls && s.calls[id].Loading? && (Gives(s, true) || now == None)
    case BeginEffect(id, taken) =>
      id in s.alive && id in s.calls && s.calls[id].Beginning? && (Gives(s, s.calls[id].own) || taken == Taken(None, []))
    case Pump(id, own, taken) => Idle(s, id) && (Gives(s, own) || taken == Taken(None, []))
    case Watch(id, _) => Idle(s, id)
    case Unwatch(id, _) => Idle(s, id)
    case Fail(id, _, _) => Idle(s, id)
    case Reconcile(id, cleared) => Idle(s, id) && (cleared ==> Gives(s, true) && MayClear(s.alive[id]))
  }

  function Put(s: World, id: nat, m: Model): World { s.(alive := s.alive[id := m]) }

  ghost function Do(s: World, a: Act): World
    requires Enabled(s, a)
  {
    match a
    case Ask =>
      if s.claim.Free? then s.(claim := Held, alive := s.alive[s.next := FRESH], next := s.next + 1) else s
    case DropWatches(id) =>
      s.(alive := s.alive - {id}, claim := if s.claim.Held? then Free else s.claim)
    case StopSwaps => s.(stage := Halting, storing := true)
    case StopEnds => s.(storing := false, claim := Ended)
    case StopFinishes => s.(stage := Halted)
    case DropService => s.(dropped := true, claim := Ended)
    // A call that finds the claim ended returns at once.
    case Look(id, call) => s.(calls := if s.claim.Ended? then s.calls else s.calls[id := call])
    case LoadEffect(id, now) =>
      var call := s.calls[id];
      s.(alive := s.alive[id := LoadedAt(s.alive[id], call.channel, call.ticket, call.records, now)],
         calls := s.calls - {id})
    case BeginEffect(id, taken) =>
      s.(alive := s.alive[id := Begun(s.alive[id], s.calls[id].channel, taken)], calls := s.calls - {id})
    case Pump(id, _, taken) => Put(s, id, Pumped(s.alive[id], taken))
    case Watch(id, channel) => Put(s, id, Watched(s.alive[id], channel))
    case Unwatch(id, channel) => Put(s, id, Unwatched(s.alive[id], channel))
    case Fail(id, channel, ticket) => Put(s, id, FailedAt(s.alive[id], channel, ticket))
    case Reconcile(id, cleared) => if cleared then Put(s, id, s.alive[id].(gap := None)) else s
  }

  ghost predicate Next(s: World, t: World) {
    exists a :: Enabled(s, a) && t == Do(s, a)
  }

  ghost predicate Execution(run: seq<World>) {
    && |run| > 0 && run[0] == BEGIN
    && forall i :: 0 <= i < |run| - 1 ==> Next(run[i], run[i + 1])
  }

  // ---------------------------------------------------------------- the claim

  ghost predicate Inv(s: World) {
    && (forall id :: id in s.alive ==> id < s.next)
    && s.calls.Keys <= s.alive.Keys
    && |s.alive.Keys| <= 1
    && (s.claim.Free? ==> s.alive == map[])
    && (s.claim.Held? ==> |s.alive.Keys| == 1)
    && (s.stage.Run? ==> !s.storing)
    && (s.stage.Halted? ==> s.claim.Ended?)
    && (s.stage.Halting? && !s.storing ==> s.claim.Ended?)
  }

  lemma OnlyOne(ids: set<nat>, id: nat)
    requires |ids| <= 1 && id in ids
    ensures ids == {id} && ids - {id} == {}
  {
    assert |ids - {id}| == 0;
  }

  lemma StepKeepsInv(s: World, a: Act)
    requires Inv(s) && Enabled(s, a)
    ensures Inv(Do(s, a))
    ensures s.claim.Ended? ==> Do(s, a).claim.Ended? && Do(s, a).alive.Keys <= s.alive.Keys
  {
    var t := Do(s, a);
    match a
    case Ask => assert s.claim.Free? ==> t.alive.Keys == {s.next};
    case DropWatches(id) =>
      OnlyOne(s.alive.Keys, id);
      assert t.alive.Keys == s.alive.Keys - {id};
    case _ => assert t.alive.Keys == s.alive.Keys;
  }

  lemma {:induction false} ExecutionKeepsInv(run: seq<World>, i: nat)
    requires Execution(run) && i < |run|
    ensures Inv(run[i])
  {
    if i > 0 {
      ExecutionKeepsInv(run, i - 1);
      assert Next(run[i - 1], run[i - 1 + 1]);
      var a :| Enabled(run[i - 1], a) && run[i] == Do(run[i - 1], a);
      StepKeepsInv(run[i - 1], a);
    }
  }

  /** At most one `Watches` of a service lives at any time, and no other is given out while it does. A stop that is over
      has ended the claim. */
  lemma AtMostOneWatches(run: seq<World>, i: nat)
    requires Execution(run) && i < |run|
    ensures |run[i].alive.Keys| <= 1
    ensures run[i].alive != map[] && Enabled(run[i], Ask) ==> Do(run[i], Ask) == run[i]
    ensures run[i].stage.Halted? ==> run[i].claim.Ended?
  {
    ExecutionKeepsInv(run, i);
  }

  // The end, and nobody new, from one state to another.
  predicate StaysEnded(s: World, t: World) { s.claim.Ended? ==> t.claim.Ended? && t.alive.Keys <= s.alive.Keys }

  lemma StepStaysEnded(run: seq<World>, k: nat)
    requires Execution(run) && k < |run| - 1
    ensures StaysEnded(run[k], run[k + 1])
  {
    ExecutionKeepsInv(run, k);
    assert Next(run[k], run[k + 1]);
    var a :| Enabled(run[k], a) && run[k + 1] == Do(run[k], a);
    StepKeepsInv(run[k], a);
  }

  lemma {:induction false} EndedForGood(states: seq<World>, i: nat, j: nat)
    requires forall k :: 0 <= k < |states| - 1 ==> StaysEnded(states[k], states[k + 1])
    requires i <= j < |states|
    ensures StaysEnded(states[i], states[j])
    decreases j
  {
    if i < j {
      EndedForGood(states, i, j - 1);
      assert StaysEnded(states[j - 1], states[j - 1 + 1]);
    }
  }

  lemma EndedReadsOwed(m: Model, c: string)
    requires c in m.channels
    ensures StandingOf(m, c, true) == Some(Owed)
  {
  }

  /** The end is final: once a stop or a drop has set it, it stays, nobody new is given the service, and every channel of
      the one it was given to reads as owing a snapshot, whatever was or will be loaded into it. */
  lemma TheEndIsFinal(run: seq<World>, i: nat, j: nat)
    requires Execution(run) && i <= j < |run| && run[i].claim.Ended?
    ensures run[j].claim.Ended? && run[j].alive.Keys <= run[i].alive.Keys
    ensures forall id, c :: id in run[j].alive && c in run[j].alive[id].channels ==>
              StandingOf(run[j].alive[id], c, run[j].claim.Ended?) == Some(Owed)
  {
    forall k | 0 <= k < |run| - 1 ensures StaysEnded(run[k], run[k + 1]) {
      StepStaysEnded(run, k);
    }
    EndedForGood(run, i, j);
    var t := run[j];
    forall id, c | id in t.alive && c in t.alive[id].channels
      ensures StandingOf(t.alive[id], c, t.claim.Ended?) == Some(Owed)
    {
      EndedReadsOwed(t.alive[id], c);
    }
  }

  // ---------------------------------------------------------------- looks and effects

  ghost predicate Full(s: World, id: nat, c: string) {
    id in s.alive && c in s.alive[id].channels && s.alive[id].channels[c].phase.Complete?
  }

  function Tickets(s: World, id: nat): nat { if id in s.alive then s.alive[id].tickets else 0 }

  // A step completes a channel exactly as the effect of a load whose answer is kept.
  ghost predicate KeepsAnswer(s: World, a: Act, id: nat, c: string) {
    && a.LoadEffect? && a.id == id && id in s.calls && s.calls[id].Loading? && s.calls[id].channel == c
    && id in s.alive && Verdict(s.alive[id], c, s.calls[id].ticket, a.now).Kept?
  }

  // And issues a ticket exactly as the effect of a begin of a channel that owes a snapshot.
  ghost predicate IssuesTicket(s: World, a: Act, id: nat) {
    && a.BeginEffect? && a.id == id && id in s.calls && s.calls[id].Beginning?
    && id in s.alive && Begins(Pumped(s.alive[id], a.taken), s.calls[id].channel)
  }

  lemma PumpedIsNoFuller(m: Model, taken: Taken, c: string)
    ensures Pumped(m, taken).tickets == m.tickets
    ensures c in Pumped(m, taken).channels && Pumped(m, taken).channels[c].phase.Complete? ==>
              c in m.channels && m.channels[c].phase.Complete?
  {
    PumpedShape(m, taken);
    if c in m.channels {
      PumpedChannel(m, taken, c);
    }
  }

  lemma LoadCompletesExactly(m: Model, channel: string, ticket: nat, records: seq<Message>, now: Option<Gap>, c: string)
    ensures var t := LoadedAt(m, channel, ticket, records, now);
            (c in t.channels && t.channels[c].phase.Complete? && !(c in m.channels && m.channels[c].phase.Complete?))
            <==> channel == c && Verdict(m, channel, ticket, now).Kept?
  {
    LoadedShape(m, channel, ticket, records, now);
  }

  lemma CompletesExactly(s: World, a: Act, id: nat, c: string)
    requires Enabled(s, a)
    ensures Full(Do(s, a), id, c) && !Full(s, id, c) <==> KeepsAnswer(s, a, id, c)
  {
    match a
    case LoadEffect(k, now) =>
      var call := s.calls[k];
      LoadCompletesExactly(s.alive[k], call.channel, call.ticket, call.records, now, c);
    case BeginEffect(k, taken) => PumpedIsNoFuller(s.alive[k], taken, c);
    case Pump(k, _, taken) => PumpedIsNoFuller(s.alive[k], taken, c);
    case _ =>
  }

  lemma IssuesExactly(s: World, a: Act, id: nat)
    requires Enabled(s, a)
    ensures Tickets(Do(s, a), id) > Tickets(s, id) <==> IssuesTicket(s, a, id)
  {
    match a
    case LoadEffect(k, now) =>
      var call := s.calls[k];
      LoadedShape(s.alive[k], call.channel, call.ticket, call.records, now);
    case BeginEffect(k, taken) => PumpedIsNoFuller(s.alive[k], taken, "");
    case Pump(k, _, taken) => PumpedIsNoFuller(s.alive[k], taken, "");
    case _ =>
  }

  // The call under way at `i` looked at `k`, when the claim had not ended, and has been under way since.
  ghost predicate LookedAt(run: seq<World>, k: nat, i: nat, id: nat)
    requires i < |run|
  {
    && k < i && Idle(run[k], id) && !run[k].claim.Ended?
    && id in run[i].calls
    && forall m :: k < m <= i ==> id in run[m].calls && run[m].calls[id] == run[i].calls[id]
  }

  // A call gets under way by a look alone, and only while the claim has not ended.
  lemma OnlyALookBegins(s: World, a: Act, id: nat)
    requires Enabled(s, a) && id in Do(s, a).calls
    requires !(id in s.calls && s.calls[id] == Do(s, a).calls[id])
    ensures a == Look(id, Do(s, a).calls[id]) && Idle(s, id) && !s.claim.Ended?
  {
  }

  lemma {:induction false} EveryCallLooked(run: seq<World>, i: nat, id: nat)
    requires Execution(run) && i < |run| && id in run[i].calls
    ensures exists k :: LookedAt(run, k, i, id)
  {
    if i > 0 {
      var s, t := run[i - 1], run[i];
      assert Next(run[i - 1], run[i - 1 + 1]);
      var a :| Enabled(s, a) && t == Do(s, a);
      if id in s.calls && s.calls[id] == t.calls[id] {
        EveryCallLooked(run, i - 1, id);
        var k :| LookedAt(run, k, i - 1, id);
        assert LookedAt(run, k, i, id);
      } else {
        OnlyALookBegins(s, a, id);
        assert LookedAt(run, i - 1, i, id);
      }
    }
  }

  /** Once the claim has ended, a step completes a channel if and only if it is the effect of a load that looked before the
      end, with an answer that is kept; and issues a ticket if and only if it is the effect of a begin that looked before
      the end, of a channel that owes a snapshot. */
  lemma EffectsAfterTheEndExactly(run: seq<World>, i: nat, a: Act, id: nat, c: string)
    requires Execution(run) && i < |run| && Enabled(run[i], a) && run[i].claim.Ended?
    ensures Full(Do(run[i], a), id, c) && !Full(run[i], id, c) <==>
            KeepsAnswer(run[i], a, id, c) && exists k :: LookedAt(run, k, i, id)
    ensures Tickets(Do(run[i], a), id) > Tickets(run[i], id) <==>
            IssuesTicket(run[i], a, id) && exists k :: LookedAt(run, k, i, id)
  {
    CompletesExactly(run[i], a, id, c);
    IssuesExactly(run[i], a, id);
    if id in run[i].calls {
      EveryCallLooked(run, i, id);
    }
  }

  // With the claim ended and no call under way, that stays so, nothing completes and no ticket is issued.
  ghost predicate StaysQuiet(s: World, t: World) {
    s.claim.Ended? && s.calls == map[] ==>
      && t.claim.Ended? && t.calls == map[] && t.alive.Keys <= s.alive.Keys
      && (forall id, c :: Full(t, id, c) ==> Full(s, id, c))
      && (forall id :: id in t.alive ==> Tickets(t, id) <= Tickets(s, id))
  }

  lemma StepStaysQuiet(s: World, a: Act)
    requires Inv(s) && Enabled(s, a)
    ensures StaysQuiet(s, Do(s, a))
  {
    if s.claim.Ended? && s.calls == map[] {
      StepKeepsInv(s, a);
      forall id, c | Full(Do(s, a), id, c) ensures Full(s, id, c) {
        CompletesExactly(s, a, id, c);
      }
      forall id | id in Do(s, a).alive ensures Tickets(Do(s, a), id) <= Tickets(s, id) {
        IssuesExactly(s, a, id);
      }
    }
  }

  lemma RunStaysQuiet(run: seq<World>, k: nat)
    requires Execution(run) && k < |run| - 1
    ensures StaysQuiet(run[k], run[k + 1])
  {
    ExecutionKeepsInv(run, k);
    assert Next(run[k], run[k + 1]);
    var a :| Enabled(run[k], a) && run[k + 1] == Do(run[k], a);
    StepStaysQuiet(run[k], a);
  }

  lemma {:induction false} QuietForGood(states: seq<World>, i: nat, j: nat)
    requires forall k :: 0 <= k < |states| - 1 ==> StaysQuiet(states[k], states[k + 1])
    requires i <= j < |states|
    ensures StaysQuiet(states[i], states[j])
    decreases j
  {
    if i < j {
      QuietForGood(states, i, j - 1);
      assert StaysQuiet(states[j - 1], states[j - 1 + 1]);
    }
  }

  /** So no call that begins after the end has an effect: from an instant at which the claim has ended and no call is under
      way, however many are made, no channel becomes complete and no ticket is issued, for good. */
  lemma NoCallBegunAfterTheEndTakesEffect(run: seq<World>, i: nat, j: nat)
    requires Execution(run) && i <= j < |run| && run[i].claim.Ended? && run[i].calls == map[]
    ensures run[j].claim.Ended? && run[j].calls == map[] && run[j].alive.Keys <= run[i].alive.Keys
    ensures forall id, c :: Full(run[j], id, c) ==> Full(run[i], id, c)
    ensures forall id :: id in run[j].alive ==> Tickets(run[j], id) <= Tickets(run[i], id)
  {
    forall k | 0 <= k < |run| - 1 ensures StaysQuiet(run[k], run[k + 1]) {
      RunStaysQuiet(run, k);
    }
    QuietForGood(run, i, j);
  }

  // ---------------------------------------------------------------- a call that outlives the end

  // The one `Watches`, of one channel.
  function One(stage: Stage, storing: bool, claim: ClaimState, tickets: nat, phase: Phase, calls: map<nat, Call>): World {
    World(stage, storing, false, claim, map[0 := Model(None, 0, tickets, map["C" := Channel(phase, map[])])], 1, calls)
  }

  ghost predicate Reaches(t: World) { exists run :: Execution(run) && run[|run| - 1] == t }

  lemma ReachesOn(s: World, a: Act, t: World)
    requires Reaches(s) && Enabled(s, a) && t == Do(s, a)
    ensures Reaches(t)
  {
    var run :| Execution(run) && run[|run| - 1] == s;
    var more := run + [t];
    forall i | 0 <= i < |more| - 1 ensures Next(more[i], more[i + 1]) {
      if i < |run| - 1 {
        assert Next(run[i], run[i + 1]);
      }
    }
    assert Execution(more) && more[|more| - 1] == t;
  }

  lemma ReachesAWatchedChannel()
    ensures Reaches(One(Run, false, Held, 0, Needed, map[]))
  {
    assert Execution([BEGIN]) && [BEGIN][|[BEGIN]| - 1] == BEGIN;
    var given := BEGIN.(claim := Held, alive := map[0 := FRESH], next := 1);
    ReachesOn(BEGIN, Ask, given);
    var t := One(Run, false, Held, 0, Needed, map[]);
    assert ValidId("C");
    assert Watched(FRESH, "C") == t.alive[0];
    assert Do(given, Watch(0, "C")).alive == t.alive;
    ReachesOn(given, Watch(0, "C"), t);
  }

  lemma ReachesABegin()
    ensures Reaches(One(Run, false, Held, 1, Pending(1, None, [], false), map[]))
  {
    ReachesAWatchedChannel();
    var s := One(Run, false, Held, 0, Needed, map[]);
    var t := One(Run, false, Held, 0, Needed, map[0 := Beginning("C", true)]);
    ReachesOn(s, Look(0, Beginning("C", true)), t);
    var u := One(Run, false, Held, 1, Pending(1, None, [], false), map[]);
    var nothing := Taken(None, []);
    assert Pumped(t.alive[0], nothing) == t.alive[0];
    assert Begun(t.alive[0], "C", nothing) == u.alive[0];
    assert Do(t, BeginEffect(0, nothing)).alive == u.alive && Do(t, BeginEffect(0, nothing)).calls == map[];
    ReachesOn(t, BeginEffect(0, nothing), u);
  }

  /** A load that looked before the end does complete its channel after it: some run reaches a state in which the stop is
      over and the channel's snapshot is complete, although every caller reads that one is owed. */
  lemma ACallUnderWayOutlivesTheEnd()
    ensures var t := One(Halted, false, Ended, 1, Complete, map[]);
            Reaches(t) && Full(t, 0, "C") && StandingOf(t.alive[0], "C", t.claim.Ended?) == Some(Owed)
  {
    ReachesABegin();
    var pending := Pending(1, None, [], false);
    var calls: map<nat, Call> := map[0 := Loading("C", 1, [])];
    ReachesOn(One(Run, false, Held, 1, pending, map[]), Look(0, Loading("C", 1, [])),
              One(Run, false, Held, 1, pending, calls));
    ReachesOn(One(Run, false, Held, 1, pending, calls), StopSwaps, One(Halting, true, Held, 1, pending, calls));
    ReachesOn(One(Halting, true, Held, 1, pending, calls), StopEnds, One(Halting, false, Ended, 1, pending, calls));
    var s, u := One(Halting, false, Ended, 1, pending, calls), One(Halting, false, Ended, 1, Complete, map[]);
    assert LoadedAt(s.alive[0], "C", 1, [], None) == u.alive[0];
    assert Do(s, LoadEffect(0, None)).alive == u.alive && Do(s, LoadEffect(0, None)).calls == map[];
    ReachesOn(s, LoadEffect(0, None), u);
    ReachesOn(u, StopFinishes, One(Halted, false, Ended, 1, Complete, map[]));
  }
}
