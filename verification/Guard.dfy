/** The lifetime guard over the processes a daemon starts: a subreaper that reaps, kills and drains.

    `procs` holds every unreaped process below the guard. The environment forks, exits, reaps its own children and
    becomes subreapers as it likes; a pid is not given again before its process is reaped, and may be given again
    after. Each guard step is one system call. */
module Guard {
  import opened Wrappers

  // ---------------------------------------------------------------- wait statuses

  datatype Ending = Exited(code: nat) | Signaled(signo: nat, core: bool)

  // The status a wait reports for an ending, and the way the guard leaves for a status.
  predicate Reportable(e: Ending) { if e.Exited? then e.code < 256 else 0 < e.signo < 127 }

  function WaitStatus(e: Ending): nat {
    match e
    case Exited(code) => code * 256
    case Signaled(signo, core) => signo + if core then 128 else 0
  }

  // The signal is raised with its default disposition; `code` is left with when it does not end the guard.
  datatype Leaving = ExitWith(code: nat) | RaiseThenExit(signo: nat, code: nat)

  function ExitAs(status: nat): Leaving {
    if status % 128 == 0 then ExitWith(status / 256 % 256)
    else RaiseThenExit(status % 128, 128 + status % 128)
  }

  // The guard leaves the way the daemon did, and never with a core of its own.
  lemma LeavesAsTheDaemonDid(e: Ending)
    requires Reportable(e)
    ensures ExitAs(WaitStatus(e)) ==
            match e case Exited(code) => ExitWith(code) case Signaled(signo, _) => RaiseThenExit(signo, 128 + signo)
  {
    match e
    case Exited(code) =>
      assert code * 256 % 128 == 0;
      assert code * 256 / 256 == code;
    case Signaled(signo, core) =>
      assert (signo + 128) % 128 == signo;
  }

  // ---------------------------------------------------------------- one sweep of waits

  datatype WaitAnswer = Child(pid: nat, status: nat)

  // The status of the last of these children reaped under the daemon's pid.
  function LastUnder(answers: seq<WaitAnswer>, daemon: nat): Option<nat> {
    if answers == [] then None
    else
      var a := answers[|answers| - 1];
      if a.pid == daemon then Some(a.status) else LastUnder(answers[..|answers| - 1], daemon)
  }

  // One sweep over the system's answers. Of several children under the daemon's pid, the status is that of the last.
  method Reap(answers: seq<WaitAnswer>, noChild: bool, daemon: nat) returns (found: Option<nat>, none: bool)
    ensures found == LastUnder(answers, daemon) && none == noChild
  {
    found := None;
    for i := 0 to |answers|
      invariant found == LastUnder(answers[..i], daemon)
    {
      assert answers[..i + 1][..i] == answers[..i];
      if answers[i].pid == daemon {
        found := Some(answers[i].status);
      }
    }
    assert answers[..|answers|] == answers;
    none := noChild;
  }

  // ---------------------------------------------------------------- the forest

  // `born` orders processes by their creation: it names a process for good, as its pid does not.
  datatype Proc = Proc(parent: nat, born: nat, alive: bool, reaper: bool, status: nat)

  type Procs = map<nat, Proc>

  // What the guard is at.
  datatype Stage =
    // Reaping, before the daemon is known to have ended, or in the sweep that found it.
    | Reaping(found: Option<nat>)
    | Reading
    | DrainReaping(status: nat)
    | Listing(status: nat, listed: set<nat>)
    | Killing(status: nat, left: set<nat>)
    | Left(status: nat, drained: bool)

  datatype State = State(
    guard: nat,
    daemon: nat,
    procs: Procs,
    next: nat,
    stage: Stage,
    // History: the status the daemon itself was reaped with, the statuses of all the guard reaped under its pid while it
    // waited for it, in order, and every pid signaled, with whether it was then the guard's own unreaped child.
    daemonStatus: Option<nat>,
    under: seq<nat>,
    signaled: seq<(nat, bool)>)

  ghost predicate Starts(s: State) {
    && s.guard != s.daemon
    && s.procs == map[s.daemon := Proc(s.guard, 0, true, false, 0)]
    && s.next == 1 && s.stage == Reaping(None)
    && s.daemonStatus == None && s.under == [] && s.signaled == []
  }

  datatype Act =
    | Fork(parent: nat, pid: nat)
    | BecomeReaper(pid: nat)
    | Exit(pid: nat, status: nat)
    | ReapedBy(parent: nat, pid: nat)
    // The guard's own calls.
    | Waits(pid: nat)
    | WaitsForNone
    | ReadsSignal(forwards: bool)
    | ContinuesDaemon
    | Lists(pid: nat)
    | ListsNoMore
    | KillsListed(pid: nat)
    | DrainsOn
    | DrainTimesOut

  predicate OwnChild(s: State, pid: nat) { pid in s.procs && s.procs[pid].parent == s.guard }

  // Everything below the guard: parents are older, and alive or the guard.
  ghost predicate Forest(procs: Procs, guard: nat) {
    && guard !in procs
    && forall p :: p in procs && procs[p].parent != guard ==>
         && procs[p].parent in procs
         && procs[procs[p].parent].born < procs[p].born
         && procs[procs[p].parent].alive
  }

  // The nearest living subreaper from `p` up: the guard is one.
  ghost function Nearest(procs: Procs, guard: nat, p: nat): (r: nat)
    requires Forest(procs, guard) && (p in procs || p == guard)
    ensures r == guard || (r in procs && procs[r].alive && (p != guard ==> procs[r].born <= procs[p].born))
    ensures p == guard ==> r == guard
    decreases if p in procs then procs[p].born + 1 else 0
  {
    if p == guard then guard
    else if procs[p].alive && procs[p].reaper then p
    else Nearest(procs, guard, procs[p].parent)
  }

  // Its children go to the nearest living subreaper above it.
  ghost function AfterExit(procs: Procs, guard: nat, pid: nat, status: nat): Procs
    requires Forest(procs, guard) && pid in procs
  {
    var heir := Nearest(procs, guard, procs[pid].parent);
    map p | p in procs ::
      if p == pid then procs[p].(alive := false, status := status)
      else if procs[p].parent == pid then procs[p].(parent := heir)
      else procs[p]
  }

  predicate HasEnded(s: State) { exists p :: p in s.procs && OwnChild(s, p) && !s.procs[p].alive }

  predicate HasChild(s: State) { exists p :: p in s.procs && OwnChild(s, p) }

  predicate WaitingStage(stage: Stage) { stage.Reaping? || stage.DrainReaping? }

  ghost predicate Enabled(s: State, a: Act) {
    match a
    case Fork(parent, pid) => parent in s.procs && s.procs[parent].alive && pid !in s.procs && pid != s.guard
    case BecomeReaper(pid) => pid in s.procs && s.procs[pid].alive
    case Exit(pid, _) => pid in s.procs && s.procs[pid].alive && Forest(s.procs, s.guard)
    case ReapedBy(parent, pid) =>
      parent in s.procs && s.procs[parent].alive && pid in s.procs && s.procs[pid].parent == parent && !s.procs[pid].alive
    case Waits(pid) => WaitingStage(s.stage) && OwnChild(s, pid) && !s.procs[pid].alive
    case WaitsForNone => WaitingStage(s.stage) && !HasEnded(s)
    case ReadsSignal(_) => s.stage.Reading?
    case ContinuesDaemon => s.stage.Reading?
    // A listing reads the processes one by one, while they go on.
    case Lists(pid) => s.stage.Listing? && OwnChild(s, pid)
    case ListsNoMore => s.stage.Listing?
    case KillsListed(pid) => s.stage.Killing? && pid in s.stage.left
    case DrainsOn => s.stage.Killing? && s.stage.left == {}
    case DrainTimesOut => s.stage.Killing? && s.stage.left == {}
  }

  function Signal(s: State, pid: nat): State {
    s.(signaled := s.signaled + [(pid, OwnChild(s, pid))])
  }

  function AfterWait(s: State, pid: nat): State
    requires pid in s.procs
  {
    var p := s.procs[pid];
    s.(procs := s.procs - {pid},
       stage := if s.stage.Reaping? && pid == s.daemon then Reaping(Some(p.status)) else s.stage,
       daemonStatus := if p.born == 0 then Some(p.status) else s.daemonStatus,
       under := if s.stage.Reaping? && pid == s.daemon then s.under + [p.status] else s.under)
  }

  function AfterNone(s: State): State {
    match s.stage
    case Reaping(Some(status)) => s.(stage := DrainReaping(status))
    case Reaping(None) => s.(stage := Reading)
    case DrainReaping(status) =>
      s.(stage := if HasChild(s) then Listing(status, {}) else Left(status, true))
    case _ => s
  }

  ghost function Do(s: State, a: Act): State
    requires Enabled(s, a)
  {
    match a
    case Fork(parent, pid) =>
      s.(procs := s.procs[pid := Proc(parent, s.next, true, false, 0)], next := s.next + 1)
    case BecomeReaper(pid) => s.(procs := s.procs[pid := s.procs[pid].(reaper := true)])
    case Exit(pid, status) => s.(procs := AfterExit(s.procs, s.guard, pid, status))
    case ReapedBy(_, pid) => s.(procs := s.procs - {pid})
    case Waits(pid) => AfterWait(s, pid)
    case WaitsForNone => AfterNone(s)
    case ReadsSignal(forwards) => (if forwards then Signal(s, s.daemon) else s).(stage := Reaping(None))
    case ContinuesDaemon => Signal(s, s.daemon)
    case Lists(pid) => s.(stage := Listing(s.stage.status, s.stage.listed + {pid}))
    case ListsNoMore => s.(stage := Killing(s.stage.status, s.stage.listed))
    case KillsListed(pid) => Signal(s, pid).(stage := Killing(s.stage.status, s.stage.left - {pid}))
    case DrainsOn => s.(stage := DrainReaping(s.stage.status))
    case DrainTimesOut => s.(stage := Left(s.stage.status, false))
  }

  ghost predicate Next(s: State, t: State) { exists a :: Enabled(s, a) && t == Do(s, a) }

  ghost predicate Run(run: seq<State>) {
    && |run| > 0 && Starts(run[0])
    && forall i :: 0 <= i < |run| - 1 ==> Next(run[i], run[i + 1])
  }

  // ---------------------------------------------------------------- the invariant

  ghost predicate Born(s: State) {
    && s.next > 0
    && (forall p :: p in s.procs ==> s.procs[p].born < s.next)
    && (forall p, q :: p in s.procs && q in s.procs && s.procs[p].born == s.procs[q].born ==> p == q)
  }

  // Whom the guard may signal: its own children, that nobody else can reap.
  ghost predicate Targets(s: State) {
    && (s.stage.Reaping? || s.stage.Reading? ==>
          (s.stage.Reading? || s.stage.found.None? ==>
             OwnChild(s, s.daemon) && s.procs[s.daemon].born == 0 && s.daemonStatus.None? && s.under == []))
    && (s.stage.Listing? ==> forall p :: p in s.stage.listed ==> OwnChild(s, p))
    && (s.stage.Killing? ==> forall p :: p in s.stage.left ==> OwnChild(s, p))
    && (forall i :: 0 <= i < |s.signaled| ==> s.signaled[i].1)
  }

  function StatusOf(stage: Stage): Option<nat> {
    match stage
    case Reaping(found) => found
    case Reading => None
    case DrainReaping(status) => Some(status)
    case Listing(status, _) => Some(status)
    case Killing(status, _) => Some(status)
    case Left(status, _) => Some(status)
  }

  ghost predicate Faithful(s: State) {
    && (StatusOf(s.stage).Some? ==>
          && s.under != [] && StatusOf(s.stage) == Some(s.under[|s.under| - 1])
          && s.daemonStatus == Some(s.under[0]))
    && (s.daemonStatus.Some? ==> forall p :: p in s.procs ==> s.procs[p].born != 0)
    && (s.stage.Left? && s.stage.drained ==> s.procs == map[])
  }

  ghost predicate Inv(s: State) { Forest(s.procs, s.guard) && Born(s) && Targets(s) && Faithful(s) }

  // The oldest process below the guard is the guard's own child: no child, no process.
  lemma NoChildMeansNone(s: State)
    requires Forest(s.procs, s.guard) && !HasChild(s)
    ensures s.procs == map[]
  {
    if p :| p in s.procs {
      OldestIsOwn(s, p);
    }
  }

  lemma {:induction false} OldestIsOwn(s: State, p: nat)
    requires Forest(s.procs, s.guard) && p in s.procs
    ensures HasChild(s)
    decreases s.procs[p].born
  {
    if s.procs[p].parent != s.guard {
      OldestIsOwn(s, s.procs[p].parent);
    } else {
      assert OwnChild(s, p);
    }
  }

  lemma ExitKeepsForest(procs: Procs, guard: nat, pid: nat, status: nat)
    requires Forest(procs, guard) && pid in procs
    ensures Forest(AfterExit(procs, guard, pid, status), guard)
    ensures AfterExit(procs, guard, pid, status).Keys == procs.Keys
    ensures forall p :: p in procs ==> AfterExit(procs, guard, pid, status)[p].born == procs[p].born
  {
    var heir := Nearest(procs, guard, procs[pid].parent);
    assert heir != pid;
    var after := AfterExit(procs, guard, pid, status);
    forall p | p in after && after[p].parent != guard
      ensures after[p].parent in after && after[after[p].parent].born < after[p].born && after[after[p].parent].alive
    {
      if procs[p].parent == pid {
        assert after[p].parent == heir;
      }
    }
  }

  // A process that has ended is nobody's parent.
  lemma RemovalKeepsForest(procs: Procs, guard: nat, pid: nat)
    requires Forest(procs, guard) && pid in procs && !procs[pid].alive
    ensures Forest(procs - {pid}, guard)
  {
  }

  lemma ForkKeepsForest(s: State, parent: nat, pid: nat)
    requires Forest(s.procs, s.guard) && Born(s) && Enabled(s, Fork(parent, pid))
    ensures Forest(Do(s, Fork(parent, pid)).procs, s.guard) && Born(Do(s, Fork(parent, pid)))
  {
    var t := Do(s, Fork(parent, pid));
    var child := Proc(parent, s.next, true, false, 0);
    assert t.procs == s.procs[pid := child] && t.next == s.next + 1;
    forall p | p in t.procs && t.procs[p].parent != s.guard
      ensures t.procs[p].parent in t.procs && t.procs[t.procs[p].parent].born < t.procs[p].born &&
              t.procs[t.procs[p].parent].alive
    {
      if p != pid {
        assert p in s.procs && t.procs[p] == s.procs[p];
        assert s.procs[p].parent != pid;
      }
    }
    forall p, q | p in t.procs && q in t.procs && t.procs[p].born == t.procs[q].born ensures p == q {
      assert p != pid ==> t.procs[p] == s.procs[p];
      assert q != pid ==> t.procs[q] == s.procs[q];
    }
  }

  lemma ExitKeepsForestAndBirths(s: State, pid: nat, status: nat)
    requires Forest(s.procs, s.guard) && Born(s) && Enabled(s, Exit(pid, status))
    ensures Forest(Do(s, Exit(pid, status)).procs, s.guard) && Born(Do(s, Exit(pid, status)))
  {
    ExitKeepsForest(s.procs, s.guard, pid, status);
    var t := Do(s, Exit(pid, status));
    assert t.procs == AfterExit(s.procs, s.guard, pid, status) && t.next == s.next;
  }

  lemma ReapKeepsForestAndBirths(s: State, a: Act)
    requires Forest(s.procs, s.guard) && Born(s) && Enabled(s, a) && (a.ReapedBy? || a.Waits?)
    ensures Forest(Do(s, a).procs, s.guard) && Born(Do(s, a))
  {
    var pid := a.pid;
    RemovalKeepsForest(s.procs, s.guard, pid);
    assert Do(s, a).procs == s.procs - {pid} && Do(s, a).next == s.next;
  }

  predicate GuardOnly(a: Act) { !(a.Fork? || a.BecomeReaper? || a.Exit? || a.ReapedBy? || a.Waits?) }

  // Reading, signaling and listing leave every process where it is.
  lemma GuardOnlyLeavesProcs(s: State, a: Act)
    requires Enabled(s, a) && GuardOnly(a)
    ensures Do(s, a).procs == s.procs && Do(s, a).next == s.next && Do(s, a).guard == s.guard
  {
  }

  // Forest and births look at no more than parents, births and lives.
  lemma SameShapeSameForest(procs: Procs, after: Procs, guard: nat)
    requires Forest(procs, guard) && after.Keys == procs.Keys
    requires forall p :: p in procs ==> after[p].parent == procs[p].parent && after[p].born == procs[p].born &&
                                        after[p].alive == procs[p].alive
    ensures Forest(after, guard)
  {
  }

  lemma ReaperKeepsForestAndBirths(s: State, pid: nat)
    requires Forest(s.procs, s.guard) && Born(s) && Enabled(s, BecomeReaper(pid))
    ensures Forest(Do(s, BecomeReaper(pid)).procs, s.guard) && Born(Do(s, BecomeReaper(pid)))
  {
    var t := Do(s, BecomeReaper(pid));
    var after := s.procs[pid := s.procs[pid].(reaper := true)];
    assert t.procs == after && t.next == s.next;
    SameShapeSameForest(s.procs, after, s.guard);
  }

  lemma ForestKept(s: State, a: Act)
    requires Forest(s.procs, s.guard) && Born(s) && Enabled(s, a)
    ensures Forest(Do(s, a).procs, s.guard) && Born(Do(s, a))
  {
    if a.Fork? {
      ForkKeepsForest(s, a.parent, a.pid);
    } else if a.BecomeReaper? {
      ReaperKeepsForestAndBirths(s, a.pid);
    } else if a.Exit? {
      ExitKeepsForestAndBirths(s, a.pid, a.status);
    } else if a.ReapedBy? || a.Waits? {
      ReapKeepsForestAndBirths(s, a);
    } else {
      GuardOnlyLeavesProcs(s, a);
      assert Born(Do(s, a)) by {
        var t := Do(s, a);
        assert t.procs == s.procs && t.next == s.next;
      }
    }
  }

  // No step but the guard's own wait takes a child from the guard.
  lemma OwnChildrenStay(s: State, a: Act, p: nat)
    requires Forest(s.procs, s.guard) && Enabled(s, a) && OwnChild(s, p) && !(a.Waits? && a.pid == p)
    ensures OwnChild(Do(s, a), p) && Do(s, a).procs[p].born == s.procs[p].born
  {
  }

  lemma TargetsKept(s: State, a: Act)
    requires Inv(s) && Enabled(s, a)
    ensures Targets(Do(s, a))
  {
    forall p | OwnChild(s, p) && !(a.Waits? && a.pid == p)
      ensures OwnChild(Do(s, a), p) && Do(s, a).procs[p].born == s.procs[p].born
    {
      OwnChildrenStay(s, a, p);
    }
  }

  lemma FaithfulKept(s: State, a: Act)
    requires Inv(s) && Enabled(s, a)
    ensures Faithful(Do(s, a))
  {
    StatusKept(s, a);
    if a.WaitsForNone? && s.stage.DrainReaping? && !HasChild(s) {
      NoChildMeansNone(s);
    }
  }

  lemma StatusKept(s: State, a: Act)
    requires Targets(s) && Faithful(s) && Enabled(s, a)
    ensures var t := Do(s, a);
            StatusOf(t.stage).Some? ==>
              && t.under != [] && StatusOf(t.stage) == Some(t.under[|t.under| - 1])
              && t.daemonStatus == Some(t.under[0])
  {
  }

  lemma StepKeepsInv(s: State, a: Act)
    requires Inv(s) && Enabled(s, a)
    ensures Inv(Do(s, a))
  {
    ForestKept(s, a);
    TargetsKept(s, a);
    FaithfulKept(s, a);
  }

  lemma {:induction false} RunKeepsInv(run: seq<State>, i: nat)
    requires Run(run) && i < |run|
    ensures Inv(run[i])
  {
    if i > 0 {
      RunKeepsInv(run, i - 1);
      assert Next(run[i - 1], run[i - 1 + 1]);
      var a :| Enabled(run[i - 1], a) && run[i] == Do(run[i - 1], a);
      StepKeepsInv(run[i - 1], a);
    }
  }

  // ---------------------------------------------------------------- what every run keeps

  /** Every process below the guard stays below it until it is reaped, at any depth and through any number of orphanings:
      its chain of parents, each older, ends at the guard. */
  ghost predicate Below(procs: Procs, guard: nat, p: nat)
    requires Forest(procs, guard)
    decreases if p in procs then procs[p].born + 1 else 0
  {
    p in procs && (procs[p].parent == guard || Below(procs, guard, procs[p].parent))
  }

  lemma {:induction false} EveryProcessIsBelow(procs: Procs, guard: nat, p: nat)
    requires Forest(procs, guard) && p in procs
    ensures Below(procs, guard, p)
    decreases procs[p].born
  {
    if procs[p].parent != guard {
      EveryProcessIsBelow(procs, guard, procs[p].parent);
    }
  }

  lemma NothingEscapesTheGuard(run: seq<State>, i: nat, p: nat)
    requires Run(run) && i < |run| && p in run[i].procs
    ensures Forest(run[i].procs, run[i].guard) && Below(run[i].procs, run[i].guard, p)
  {
    RunKeepsInv(run, i);
    EveryProcessIsBelow(run[i].procs, run[i].guard, p);
  }

  // Only a reap by its own parent takes a process out of the forest.
  lemma OnlyAReapRemoves(s: State, a: Act, p: nat)
    requires Forest(s.procs, s.guard) && Enabled(s, a) && p in s.procs && p !in Do(s, a).procs
    ensures !s.procs[p].alive
    ensures a == Waits(p) || a == ReapedBy(s.procs[p].parent, p)
  {
    if GuardOnly(a) {
      GuardOnlyLeavesProcs(s, a);
    } else if a.Exit? {
      ExitKeepsForest(s.procs, s.guard, a.pid, a.status);
    }
  }

  // A drain that ends on no child leaves no process at all.
  lemma ADrainToNoChildLeavesNone(run: seq<State>, i: nat)
    requires Run(run) && i < |run| && run[i].stage.Left? && run[i].stage.drained
    ensures run[i].procs == map[]
  {
    RunKeepsInv(run, i);
  }

  // Every pid the guard signals is then its own unreaped child.
  lemma EverySignalIsToAnOwnChild(run: seq<State>, i: nat, k: nat)
    requires Run(run) && i < |run| && k < |run[i].signaled|
    ensures run[i].signaled[k].1
  {
    RunKeepsInv(run, i);
  }

  /** The guard leaves with the status of the last child it reaped under the daemon's pid, in the sweep that found the
      daemon; the daemon was the first. So it leaves as the daemon did exactly when the two statuses are the same, as they
      are when the daemon is the only one. */
  lemma LeavesWithTheDaemonsStatus(run: seq<State>, i: nat)
    requires Run(run) && i < |run| && run[i].stage.Left?
    ensures var under := run[i].under;
            && under != [] && run[i].daemonStatus == Some(under[0])
            && run[i].stage.status == under[|under| - 1]
            && (Some(run[i].stage.status) == run[i].daemonStatus <==> under[|under| - 1] == under[0])
            && (|under| == 1 ==> Some(run[i].stage.status) == run[i].daemonStatus)
  {
    RunKeepsInv(run, i);
  }

  /** And in every run, a step makes a status that is the daemon's another process's if and only if it is a wait, in the
      sweep that has found the daemon, for a child that was given its pid again and ended differently. */
  lemma TheStatusIsLostExactly(run: seq<State>, i: nat, a: Act)
    requires Run(run) && i < |run| && Enabled(run[i], a)
    requires StatusOf(run[i].stage).Some? && StatusOf(run[i].stage) == run[i].daemonStatus
    ensures var s := run[i];
            StatusOf(Do(s, a).stage) != Do(s, a).daemonStatus <==>
              && a == Waits(s.daemon) && s.stage.Reaping?
              && s.daemon in s.procs && s.procs[s.daemon].status != s.stage.found.value
  {
    RunKeepsInv(run, i);
    StepKeepsInv(run[i], a);
  }

  // ---------------------------------------------------------------- a pid given again within one sweep

  // Daemon 2 of guard 1 forks 3 and exits; 3 forks a child that is given pid 2, exits, and so does the child.
  function Daemon(): Proc { Proc(1, 0, true, false, 0) }
  function Ended(): Proc { Proc(1, 0, false, false, 512) }
  function Orphan(parent: nat, alive: bool): Proc { Proc(parent, 1, alive, false, 0) }
  function Second(parent: nat): Proc { Proc(parent, 2, true, false, 0) }
  function Killed(): Proc { Proc(1, 2, false, false, 9) }

  function Now(procs: Procs, next: nat, found: Option<nat>, again: bool): State {
    State(1, 2, procs, next, Reaping(found), if found.None? then None else Some(512),
          if found.None? then [] else if again then [512, 9] else [512], [])
  }

  function After(stage: Stage): State { State(1, 2, map[], 3, stage, Some(512), [512, 9], []) }

  ghost predicate Reaches(t: State) { exists run :: Run(run) && run[|run| - 1] == t }

  lemma ReachesOn(s: State, a: Act, t: State)
    requires Reaches(s) && Enabled(s, a) && t == Do(s, a)
    ensures Reaches(t)
  {
    var run :| Run(run) && run[|run| - 1] == s;
    var more := run + [t];
    forall i | 0 <= i < |more| - 1 ensures Next(more[i], more[i + 1]) {
      if i < |run| - 1 {
        assert Next(run[i], run[i + 1]);
      }
    }
    assert Run(more) && more[|more| - 1] == t;
  }

  lemma TheOrphanIsTheGuards()
    ensures var procs: Procs := map[2 := Daemon(), 3 := Orphan(2, true)];
            && Forest(procs, 1)
            && AfterExit(procs, 1, 2, 512) == map[2 := Ended(), 3 := Orphan(1, true)]
  {
    var procs: Procs := map[2 := Daemon(), 3 := Orphan(2, true)];
    assert procs[2] == Proc(1, 0, true, false, 0) && procs[3] == Proc(2, 1, true, false, 0);
    assert Forest(procs, 1);
    assert Nearest(procs, 1, 1) == 1;
    var after := AfterExit(procs, 1, 2, 512);
    assert after.Keys == {2, 3};
    assert after[2] == Proc(1, 0, false, false, 512) && after[3] == Proc(1, 1, true, false, 0);
  }

  lemma ReachesTheFork()
    ensures Reaches(Now(map[2 := Daemon(), 3 := Orphan(2, true)], 2, None, false))
  {
    var s := Now(map[2 := Daemon()], 1, None, false);
    assert Run([s]);
    assert [s][|[s]| - 1] == s;
    ReachesOn(s, Fork(2, 3), Now(map[2 := Daemon(), 3 := Orphan(2, true)], 2, None, false));
  }

  lemma ReachesTheDaemonsEnd()
    ensures Reaches(Now(map[2 := Ended(), 3 := Orphan(1, true)], 2, None, false))
  {
    ReachesTheFork();
    TheOrphanIsTheGuards();
    ReachesOn(Now(map[2 := Daemon(), 3 := Orphan(2, true)], 2, None, false), Exit(2, 512),
              Now(map[2 := Ended(), 3 := Orphan(1, true)], 2, None, false));
  }

  lemma ReachesThePidsSecondUse()
    ensures Reaches(Now(map[3 := Orphan(1, true), 2 := Second(3)], 3, Some(512), false))
  {
    ReachesTheDaemonsEnd();
    var s := Now(map[2 := Ended(), 3 := Orphan(1, true)], 2, None, false);
    var t := Now(map[3 := Orphan(1, true)], 2, Some(512), false);
    assert s.procs - {2} == t.procs;
    ReachesOn(s, Waits(2), t);
    ReachesOn(t, Fork(3, 2), Now(map[3 := Orphan(1, true), 2 := Second(3)], 3, Some(512), false));
  }

  lemma TheSecondIsOrphaned()
    ensures var procs: Procs := map[3 := Orphan(1, true), 2 := Second(3)];
            && Forest(procs, 1)
            && AfterExit(procs, 1, 3, 0) == map[3 := Orphan(1, false), 2 := Second(1)]
  {
    var procs: Procs := map[3 := Orphan(1, true), 2 := Second(3)];
    assert procs[3] == Proc(1, 1, true, false, 0) && procs[2] == Proc(3, 2, true, false, 0);
    assert Forest(procs, 1);
    assert Nearest(procs, 1, 1) == 1;
    var after := AfterExit(procs, 1, 3, 0);
    assert after.Keys == {2, 3};
    assert after[3] == Proc(1, 1, false, false, 0) && after[2] == Proc(1, 2, true, false, 0);
  }

  lemma ReachesTheOrphansEnd()
    ensures Reaches(Now(map[3 := Orphan(1, false), 2 := Second(1)], 3, Some(512), false))
  {
    ReachesThePidsSecondUse();
    TheSecondIsOrphaned();
    ReachesOn(Now(map[3 := Orphan(1, true), 2 := Second(3)], 3, Some(512), false), Exit(3, 0),
              Now(map[3 := Orphan(1, false), 2 := Second(1)], 3, Some(512), false));
  }

  lemma ReachesTheSecondEnd()
    ensures Reaches(Now(map[3 := Orphan(1, false), 2 := Killed()], 3, Some(512), false))
  {
    ReachesTheOrphansEnd();
    var t := Now(map[3 := Orphan(1, false), 2 := Second(1)], 3, Some(512), false);
    var u := Now(map[3 := Orphan(1, false), 2 := Killed()], 3, Some(512), false);
    assert Forest(t.procs, 1) && Nearest(t.procs, 1, 1) == 1;
    assert AfterExit(t.procs, 1, 2, 9) == u.procs;
    ReachesOn(t, Exit(2, 9), u);
  }

  /** The exception is real: some run's daemon exits with code 2 and the guard leaves as if killed, because the daemon's
      pid was given again and reaped in the same sweep. */
  lemma AReusedPidTakesTheStatus()
    ensures Reaches(After(Left(9, true))) && After(Left(9, true)).daemonStatus == Some(512)
    ensures ExitAs(512) == ExitWith(2) && ExitAs(9) == RaiseThenExit(9, 137)
  {
    ReachesTheSecondEnd();
    var s := Now(map[3 := Orphan(1, false), 2 := Killed()], 3, Some(512), false);
    var t := Now(map[3 := Orphan(1, false)], 3, Some(9), true);
    assert s.procs - {2} == t.procs;
    ReachesOn(s, Waits(2), t);
    assert t.procs - {3} == map[];
    ReachesOn(t, Waits(3), After(Reaping(Some(9))));
    ReachesOn(After(Reaping(Some(9))), WaitsForNone, After(DrainReaping(9)));
    ReachesOn(After(DrainReaping(9)), WaitsForNone, After(Left(9, true)));
  }
}
