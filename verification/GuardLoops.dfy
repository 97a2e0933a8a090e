/** The guard's loops over what the system answers them, round by round; `Guard` proves what their calls mean while other
    processes act between any two of them. */
module GuardLoops {
  import opened Wrappers
  import opened Guard

  const SIGCHLD: nat := 17
  const SIGCONT: nat := 18
  const SIGKILL: nat := 9

  datatype Sweep = Sweep(answers: seq<WaitAnswer>, noChild: bool)

  // One round of waiting: the sweep, whether the daemon is then stopped by job control, and the signal read, if one was.
  datatype Round = Round(sweep: Sweep, stopped: bool, signal: Option<nat>)

  datatype Call = StopSelf | Kill(pid: nat, signo: nat)

  // Round after round of calls, in one sequence.
  function Flat<T>(rounds: seq<seq<T>>): seq<T> {
    if rounds == [] then [] else Flat(rounds[..|rounds| - 1]) + rounds[|rounds| - 1]
  }

  lemma FlatSnoc<T>(rounds: seq<seq<T>>, round: seq<T>)
    ensures Flat(rounds + [round]) == Flat(rounds) + round
  {
    assert (rounds + [round])[..|rounds|] == rounds;
  }

  // ---------------------------------------------------------------- waiting

  predicate Finds(r: Round, daemon: nat) {
    exists i :: 0 <= i < |r.sweep.answers| && r.sweep.answers[i].pid == daemon
  }

  lemma {:induction false} FoundExactly(answers: seq<WaitAnswer>, daemon: nat)
    ensures LastUnder(answers, daemon).Some? <==> exists i :: 0 <= i < |answers| && answers[i].pid == daemon
  {
    if answers != [] {
      var n := |answers| - 1;
      FoundExactly(answers[..n], daemon);
      if i :| 0 <= i < n && answers[..n][i].pid == daemon {
        assert answers[i].pid == daemon;
      }
      if i :| 0 <= i < |answers| && answers[i].pid == daemon {
        assert i == n || answers[..n][i].pid == daemon;
      }
    }
  }

  /** It ends in the first round that finds the daemon, with the status found there; with the script over first, it is still
      waiting. In each round before, and in this order, it follows the daemon into a stop and continues it after, and
      forwards the signal read unless that only says that a child changed; it makes no other call. */
  method WaitForDaemon(daemon: nat, script: seq<Round>)
      returns (status: Option<nat>, calls: seq<Call>, rounds: nat, ghost made: seq<seq<Call>>)
    ensures rounds <= |script| && |made| == rounds && calls == Flat(made)
    ensures forall i :: 0 <= i < rounds ==>
              made[i] ==
              (if script[i].stopped then [StopSelf, Kill(daemon, SIGCONT)] else []) +
              (if script[i].signal.Some? && script[i].signal.value != SIGCHLD then [Kill(daemon, script[i].signal.value)]
               else [])
    ensures forall i :: 0 <= i < rounds ==> !Finds(script[i], daemon)
    ensures rounds < |script| ==>
              Finds(script[rounds], daemon) && status == LastUnder(script[rounds].sweep.answers, daemon) && status.Some?
    ensures rounds == |script| ==> status == None
  {
    calls, rounds, status, made := [], 0, None, [];
    while rounds < |script|
      invariant rounds <= |script| && |made| == rounds && calls == Flat(made) && status == None
      invariant forall i :: 0 <= i < rounds ==> !Finds(script[i], daemon)
      invariant forall i :: 0 <= i < rounds ==>
                  made[i] ==
                  (if script[i].stopped then [StopSelf, Kill(daemon, SIGCONT)] else []) +
                  (if script[i].signal.Some? && script[i].signal.value != SIGCHLD
                   then [Kill(daemon, script[i].signal.value)] else [])
    {
      var round := script[rounds];
      var found, _ := Reap(round.sweep.answers, round.sweep.noChild, daemon);
      FoundExactly(round.sweep.answers, daemon);
      if found.Some? {
        return found, calls, rounds, made;
      }
      ghost var before, now := calls, [];
      if round.stopped {
        calls, now := calls + [StopSelf, Kill(daemon, SIGCONT)], [StopSelf, Kill(daemon, SIGCONT)];
      }
      match round.signal {
        case Some(signo) =>
          if signo != SIGCHLD {
            calls, now := calls + [Kill(daemon, signo)], now + [Kill(daemon, signo)];
          }
        case None =>
      }
      assert calls == before + now;
      FlatSnoc(made, now);
      made := made + [now];
      rounds := rounds + 1;
    }
  }

  // The signals read in these rounds, but for those that only say a child changed.
  function Forwarded(rounds: seq<Round>): seq<nat> {
    if rounds == [] then []
    else
      var last := rounds[|rounds| - 1];
      Forwarded(rounds[..|rounds| - 1]) +
      if last.signal.Some? && last.signal.value != SIGCHLD then [last.signal.value] else []
  }

  // The calls of a round that forward: all but the stop and the continue that follows it.
  function Forwards(round: seq<Call>): seq<Call> {
    if round != [] && round[0].StopSelf? then (if |round| > 2 then round[2..] else []) else round
  }

  function AllForwards(made: seq<seq<Call>>): seq<Call> {
    if made == [] then [] else AllForwards(made[..|made| - 1]) + Forwards(made[|made| - 1])
  }

  /** The daemon is sent, in order, exactly the signals the guard read, apart from a continue after each stop. */
  lemma {:induction false} EverySignalIsForwarded(script: seq<Round>, made: seq<seq<Call>>, daemon: nat, k: nat)
    requires |made| == |script|
    requires forall i :: 0 <= i < |script| ==>
               made[i] ==
               (if script[i].stopped then [StopSelf, Kill(daemon, SIGCONT)] else []) +
               (if script[i].signal.Some? && script[i].signal.value != SIGCHLD
                then [Kill(daemon, script[i].signal.value)] else [])
    ensures |AllForwards(made)| == |Forwarded(script)|
    ensures k < |AllForwards(made)| ==> AllForwards(made)[k] == Kill(daemon, Forwarded(script)[k])
    decreases |script|
  {
    if script != [] {
      var n := |script| - 1;
      EverySignalIsForwarded(script[..n], made[..n], daemon, k);
    }
  }

  // While it waits, the guard signals the daemon and no other process, and continues it whenever it had stopped with it.
  lemma {:induction false} WaitingSignalsTheDaemon(script: seq<Round>, made: seq<seq<Call>>, daemon: nat, k: nat)
    requires |made| == |script| && k < |Flat(made)|
    requires forall i :: 0 <= i < |script| ==>
               made[i] ==
               (if script[i].stopped then [StopSelf, Kill(daemon, SIGCONT)] else []) +
               (if script[i].signal.Some? && script[i].signal.value != SIGCHLD
                then [Kill(daemon, script[i].signal.value)] else [])
    ensures Flat(made)[k].Kill? ==> Flat(made)[k].pid == daemon
    ensures Flat(made)[k].StopSelf? ==> k + 1 < |Flat(made)| && Flat(made)[k + 1] == Kill(daemon, SIGCONT)
    decreases |script|
  {
    var n := |script| - 1;
    if k < |Flat(made[..n])| {
      WaitingSignalsTheDaemon(script[..n], made[..n], daemon, k);
    }
  }

  // The status found is that of the last child the sweep reaped under the daemon's pid.
  lemma {:induction false} FoundIsTheLast(answers: seq<WaitAnswer>, daemon: nat, i: nat)
    requires i < |answers| && answers[i].pid == daemon && forall k :: i < k < |answers| ==> answers[k].pid != daemon
    ensures LastUnder(answers, daemon) == Some(answers[i].status)
  {
    if i < |answers| - 1 {
      FoundIsTheLast(answers[..|answers| - 1], daemon, i);
    }
  }

  // ---------------------------------------------------------------- draining

  // One round of the drain: the sweep, the children then listed, and whether the time is up.
  datatype Pass = Pass(sweep: Sweep, children: seq<nat>, late: bool)

  // A kill for each of these, in order.
  predicate KillsAll(calls: seq<Call>, pids: seq<nat>) {
    |calls| == |pids| && forall k :: 0 <= k < |pids| ==> calls[k] == Kill(pids[k], SIGKILL)
  }

  /** It ends in the first round whose sweep finds no child at all, killing nobody in it, or after the first that is late,
      having killed every child listed in it too; the children it then names are that round's. */
  method Drain(script: seq<Pass>)
      returns (calls: seq<Call>, named: seq<nat>, rounds: nat, ghost made: seq<seq<Call>>)
    ensures rounds <= |script| && |made| == rounds && calls == Flat(made)
    ensures forall i :: 0 <= i < rounds ==> KillsAll(made[i], script[i].children)
    ensures forall i :: 0 <= i < rounds ==> !script[i].sweep.noChild
    ensures forall i :: 0 <= i < rounds - 1 ==> !script[i].late
    ensures rounds < |script| && !(rounds > 0 && script[rounds - 1].late) ==> script[rounds].sweep.noChild
    ensures named == if rounds > 0 && script[rounds - 1].late then script[rounds - 1].children else []
  {
    calls, named, rounds, made := [], [], 0, [];
    while rounds < |script|
      invariant rounds <= |script| && |made| == rounds && calls == Flat(made) && named == []
      invariant forall i :: 0 <= i < rounds ==> KillsAll(made[i], script[i].children)
      invariant forall i :: 0 <= i < rounds ==> !script[i].sweep.noChild && !script[i].late
    {
      var pass := script[rounds];
      var _, none := Reap(pass.sweep.answers, pass.sweep.noChild, 0);
      if none {
        return;
      }
      ghost var before, now := calls, [];
      for i := 0 to |pass.children|
        invariant calls == before + now && KillsAll(now, pass.children[..i])
      {
        calls := calls + [Kill(pass.children[i], SIGKILL)];
        now := now + [Kill(pass.children[i], SIGKILL)];
      }
      assert pass.children[..|pass.children|] == pass.children;
      FlatSnoc(made, now);
      made := made + [now];
      rounds := rounds + 1;
      if pass.late {
        named := pass.children;
        return;
      }
    }
  }
}
