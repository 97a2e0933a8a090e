/** The project chat's start and retirement: the start task, `begin` and any number of stop requests, in any order.

    `Phases` is the shared phase and its critical sections. A run interleaves those sections with what each of them
    leaves to be done after the lock is dropped. At most one service is ever made, by the one start. */
module ChatStart {
  import opened Wrappers

  datatype Status = NotHub | Failed(code: string) | Stopped

  datatype Phase = Off(status: Status) | Starting | Running | Stopping

  // What the start came to.
  datatype Made = Service | Refusal(code: string)

  // What the start task does once it has dropped the lock, and what a stop request does.
  datatype Then = Nothing | StopIt | FailLater(code: string)
  datatype Ask = NoAsk | AbortThenOff | StopThenOff

  function PhaseAfterStart(p: Phase, made: Made): Phase {
    if p.Starting? && made.Service? then Running else p
  }

  function ThenAfterStart(p: Phase, made: Made): Then {
    match made
    case Service => if p.Starting? then Nothing else StopIt
    case Refusal(code) => if p.Starting? then FailLater(code) else Nothing
  }

  function PhaseAfterRequest(p: Phase): Phase { if p.Starting? || p.Running? then Stopping else p }

  function AskOf(p: Phase): Ask {
    match p
    case Starting => AbortThenOff
    case Running => StopThenOff
    case _ => NoAsk
  }

  class Phases {
    var phase: Phase

    constructor ()
      ensures phase == Off(Stopped)
    {
      phase := Off(Stopped);
    }

    method SetOff(status: Status)
      modifies this
      ensures phase == Off(status)
    {
      phase := Off(status);
    }

    // Registered or not: a chat that registers is starting before the lock is dropped.
    method Begin(registered: bool)
      modifies this
      ensures phase == if registered then Starting else old(phase)
    {
      if !registered {
        return;
      }
      phase := Starting;
    }

    method StartCompletes(made: Made) returns (then_: Then)
      modifies this
      ensures phase == PhaseAfterStart(old(phase), made)
      ensures then_ == ThenAfterStart(old(phase), made)
    {
      match (made, phase.Starting?)
      case (Service, true) =>
        phase := Running;
        then_ := Nothing;
      case (Service, false) => then_ := StopIt;
      case (Refusal(code), true) => then_ := FailLater(code);
      case (Refusal(_), false) => then_ := Nothing;
    }

    method RequestStop() returns (ask: Ask)
      modifies this
      ensures phase == PhaseAfterRequest(old(phase)) && ask == AskOf(old(phase))
    {
      var was := phase;
      phase := Stopping;
      match was
      case Starting => ask := AbortThenOff;
      case Running => ask := StopThenOff;
      case other =>
        phase := other;
        ask := NoAsk;
    }
  }

  // ---------------------------------------------------------------- runs

  datatype Task =
    | Unborn
    | Awaiting
    // The start has returned; the task has not taken the lock yet.
    | Returned(made: Made)
    | Failing(code: string)
    | Finished

  // The stop of a service that came after the stop was requested, spawned by the start task.
  datatype Late = NotLate | UnderWay | Over

  datatype State = State(
    phase: Phase,
    task: Task,
    // `set_off(Stopped)` calls a request still owes.
    owed: nat,
    // The running service's stop, spawned by a request: under way, finished, and then the phase set off.
    stopUnderWay: bool,
    stopOver: bool,
    late: Late,
    // History: a service was made; stops of it begun; a stop was requested of a starting or running chat; of a running one.
    made: bool,
    stops: nat,
    asked: bool,
    askedRunning: bool,
    // And the code the start was refused with.
    refused: Option<string>)

  const INITIAL: State := State(Off(Stopped), Unborn, 0, false, false, NotLate, false, 0, false, false, None)

  datatype Act =
    | Begins(registered: bool)
    | StartReturns(made: Made)
    | AbortTakesEffect
    | TaskLocks
    | TaskSetsOff
    | Request
    | RequestSetsOff
    | StopFinishes
    | StopSetsOff
    | LateStopFinishes

  predicate Enabled(s: State, a: Act) {
    match a
    case Begins(_) => s.task.Unborn?
    case StartReturns(_) => s.task.Awaiting?
    // An abort ends the task only while it awaits the start; the start's future is dropped with it.
    case AbortTakesEffect => s.task.Awaiting? && s.asked
    case TaskLocks => s.task.Returned?
    case TaskSetsOff => s.task.Failing?
    case Request => true
    case RequestSetsOff => s.owed > 0
    case StopFinishes => s.stopUnderWay && !s.stopOver
    case StopSetsOff => s.stopUnderWay && s.stopOver
    case LateStopFinishes => s.late.UnderWay?
  }

  function Do(s: State, a: Act): State
    requires Enabled(s, a)
  {
    match a
    case Begins(registered) => if registered then s.(phase := Starting, task := Awaiting) else s.(task := Finished)
    case StartReturns(made) =>
      s.(task := Returned(made), made := made.Service?, refused := if made.Refusal? then Some(made.code) else None)
    case AbortTakesEffect => s.(task := Finished)
    case TaskLocks =>
      var then_ := ThenAfterStart(s.phase, s.task.made);
      s.(phase := PhaseAfterStart(s.phase, s.task.made),
         task := if then_.FailLater? then Failing(then_.code) else Finished,
         late := if then_.StopIt? then UnderWay else s.late,
         stops := s.stops + if then_.StopIt? then 1 else 0)
    case TaskSetsOff => s.(phase := Off(Failed(s.task.code)), task := Finished)
    case Request =>
      s.(phase := PhaseAfterRequest(s.phase),
         owed := s.owed + (if AskOf(s.phase).AbortThenOff? then 1 else 0),
         stopUnderWay := s.stopUnderWay || AskOf(s.phase).StopThenOff?,
         stops := s.stops + (if AskOf(s.phase).StopThenOff? then 1 else 0),
         asked := s.asked || !AskOf(s.phase).NoAsk?,
         askedRunning := s.askedRunning || AskOf(s.phase).StopThenOff?)
    case RequestSetsOff => s.(phase := Off(Stopped), owed := s.owed - 1)
    case StopFinishes => s.(stopOver := true)
    case StopSetsOff => s.(phase := Off(Stopped), stopUnderWay := false)
    case LateStopFinishes => s.(late := Over)
  }

  ghost predicate Next(s: State, t: State) { exists a :: Enabled(s, a) && t == Do(s, a) }

  ghost predicate Run(run: seq<State>) {
    && |run| > 0 && run[0] == INITIAL
    && forall i :: 0 <= i < |run| - 1 ==> Next(run[i], run[i + 1])
  }

  ghost predicate Inv(s: State) {
    && (s.phase.Starting? ==> !s.asked && !s.task.Unborn? && !s.task.Finished?)
    && (s.phase.Running? ==> !s.asked && s.task.Finished? && s.made)
    && (s.phase.Stopping? ==> s.asked)
    && (s.task.Unborn? || s.task.Awaiting? ==> !s.made && s.stops == 0)
    && (s.task.Unborn? ==> s.phase.Off? && !s.asked)
    && (s.task.Awaiting? && !s.asked ==> s.phase.Starting?)
    && (s.task.Returned? ==> s.stops == 0 && s.made == s.task.made.Service? && (!s.asked ==> s.phase.Starting?))
    && (s.task.Failing? ==> !s.made && s.stops == 0 && !s.askedRunning)
    && (s.task.Finished? && s.made ==> (if s.asked then s.stops == 1 else s.phase.Running? && s.stops == 0))
    && (!s.made ==> s.stops == 0)
    && (s.askedRunning ==> s.asked && s.made && s.task.Finished? && s.owed == 0)
    && (s.askedRunning ==> s.phase.Stopping? || (s.phase.Off? && s.stopOver))
    && (s.askedRunning && s.phase.Stopping? ==> s.stopUnderWay)
    && (s.stopUnderWay ==> s.askedRunning)
    && (s.owed > 0 ==> s.asked)
    && (!s.late.NotLate? <==> s.made && s.task.Finished? && s.asked && !s.askedRunning)
    && (s.stopOver ==> s.askedRunning)
    && (s.task.Unborn? || s.task.Awaiting? ==> s.refused.None?)
    && (s.task.Returned? ==> s.refused == if s.task.made.Refusal? then Some(s.task.made.code) else None)
    && (s.task.Failing? ==> s.refused == Some(s.task.code))
    && (s.refused.Some? && s.task.Finished? && !s.asked ==> s.phase == Off(Failed(s.refused.value)))
  }

  lemma StepKeepsInv(s: State, a: Act)
    requires Inv(s) && Enabled(s, a)
    ensures Inv(Do(s, a))
    ensures s.asked ==> Do(s, a).asked
  {
  }

  lemma {:induction false} RunKeepsInv(run: seq<State>, i: nat)
    requires Run(run) && i < |run|
    ensures Inv(run[i])
  {
    if i > 0 {
      RunKeepsInv(run, i - 1);
      assert Next(run[i - 1], run[i - 1 + 1]);
      var a :| Enabled(run[i - 1], a) && run[i] == Do(run[i - 1], a);
      StepKeepsInv(run[i - 1], a);
    }
  }

  lemma AskedStays(s: State, t: State)
    requires s.asked && Next(s, t)
    ensures t.asked
  {
  }

  lemma {:induction false} AskedForGood(run: seq<State>, i: nat, j: nat)
    requires Run(run) && i <= j < |run| && run[i].asked
    ensures run[j].asked
    decreases j
  {
    if i < j {
      AskedForGood(run, i, j - 1);
      assert Next(run[j - 1], run[j - 1 + 1]);
      AskedStays(run[j - 1], run[j]);
    }
  }

  /** Once a stop was requested of a starting or running chat, no service is handed out again. */
  lemma NoServiceAfterAStop(run: seq<State>, i: nat, j: nat)
    requires Run(run) && i <= j < |run| && run[i].asked
    ensures run[j].asked && !run[j].phase.Running? && !run[j].phase.Starting?
  {
    AskedForGood(run, i, j);
    RunKeepsInv(run, j);
  }

  /** A service the start returned is stopped at most once, and, when the start task is over, exactly once if a stop was
      requested and never if none was; then it still runs. A chat that was running reads off only after its stop
      finished. */
  lemma EveryServiceIsStoppedOnce(run: seq<State>, i: nat)
    requires Run(run) && i < |run|
    ensures run[i].stops <= 1
    ensures run[i].made && run[i].task.Finished? ==> run[i].stops == (if run[i].asked then 1 else 0)
    ensures run[i].made && run[i].task.Finished? && !run[i].asked ==> run[i].phase.Running?
    ensures run[i].askedRunning && run[i].phase.Off? ==> run[i].stopOver
  {
    RunKeepsInv(run, i);
  }

  // The stop of the service the start returned has finished.
  predicate StoppedForGood(s: State) { s.stopOver || s.late.Over? }

  /** Exactly when a chat that reads off still has a service that has not been stopped: its start has returned and the task
      has not acted on it, or the stop that the task then spawned is under way. Before that stop begins it is exactly the
      former. Either way the stop was requested while the chat was starting. */
  lemma OffBeforeStoppedExactly(run: seq<State>, i: nat)
    requires Run(run) && i < |run| && run[i].phase.Off?
    ensures run[i].made && run[i].stops == 0 <==> run[i].task == Returned(Service)
    ensures run[i].made && !StoppedForGood(run[i]) <==> run[i].task == Returned(Service) || run[i].late.UnderWay?
    ensures run[i].made && !StoppedForGood(run[i]) ==> run[i].asked && !run[i].askedRunning
  {
    RunKeepsInv(run, i);
  }

  /** That is no idle case: a chat stopped while it starts reads off with its service not stopped, and still does while the
      service's stop, begun late, is under way. */
  lemma AStartingChatReadsOffEarly() returns (run: seq<State>)
    ensures Run(run) && |run| == 6
    ensures run[4].phase == Off(Stopped) && run[4].made && run[4].stops == 0
    ensures run[5].phase == Off(Stopped) && run[5].late.UnderWay? && !StoppedForGood(run[5])
  {
    var s1 := Do(INITIAL, Begins(true));
    var s2 := Do(s1, StartReturns(Service));
    var s3 := Do(s2, Request);
    var s4 := Do(s3, RequestSetsOff);
    var s5 := Do(s4, TaskLocks);
    run := [INITIAL, s1, s2, s3, s4, s5];
    assert Next(INITIAL, s1) by { assert Enabled(INITIAL, Begins(true)); }
    assert Next(s1, s2) by { assert Enabled(s1, StartReturns(Service)); }
    assert Next(s2, s3) by { assert Enabled(s2, Request); }
    assert Next(s3, s4) by { assert Enabled(s3, RequestSetsOff); }
    assert Next(s4, s5) by { assert Enabled(s4, TaskLocks); }
  }

  /** A chat whose start was refused, and that nobody stopped, reads off with the code of the refusal. */
  lemma ARefusedStartSaysWhy(run: seq<State>, i: nat)
    requires Run(run) && i < |run| && run[i].task.Finished? && run[i].refused.Some? && !run[i].asked
    ensures run[i].phase == Off(Failed(run[i].refused.value))
  {
    RunKeepsInv(run, i);
  }
}
