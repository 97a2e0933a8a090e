/** The child signal and its registry of contained trees, on Unix: creation and registration under one mutex, a fire
    flag published before that mutex is taken, and owners that request termination before they reap.

    A request is a group kill and a leader kill; the operating system's answers come in as `Answer`. */
module Containment {
  import opened Wrappers

  // How the system answered one termination request's two kills.
  datatype Answer = Answer(group: bool, leader: bool) {
    predicate Ok() { group && leader }
  }

  // What is needed to kill one child's group: `pid` leads it and numbers it; `child` says in the histories whose it is.
  datatype Tree = Tree(child: nat, pid: nat, terminated: bool)

  type Registry = Option<map<nat, Tree>>

  // A tree already terminated asks nothing more.
  function Asked(t: Tree, a: Answer): Tree { if t.terminated then t else t.(terminated := a.Ok()) }

  function Kept(m: map<nat, Tree>, answers: nat -> Answer): map<nat, Tree> {
    map id | id in m && !Asked(m[id], answers(id)).terminated :: Asked(m[id], answers(id))
  }

  // Kept are exactly the trees not yet terminated whose two kills did not both succeed, and they are as they were.
  lemma KeptMeans(m: map<nat, Tree>, answers: nat -> Answer)
    ensures forall id :: id in Kept(m, answers) <==>
              id in m && !m[id].terminated && !(answers(id).group && answers(id).leader)
    ensures forall id :: id in Kept(m, answers) ==> Kept(m, answers)[id] == m[id]
  {
  }

  // Every registered tree is asked; the failed requests keep theirs, and an empty registry closes for good.
  function Swept(trees: Registry, answers: nat -> Answer): Registry {
    match trees
    case None => None
    case Some(m) => if Kept(m, answers) == map[] then None else Some(Kept(m, answers))
  }

  predicate SweepOk(trees: Registry, answers: nat -> Answer) { Swept(trees, answers).None? }

  predicate ReleaseOk(trees: Registry, id: nat, a: Answer) {
    trees.Some? && id in trees.value ==> Asked(trees.value[id], a).terminated
  }

  function Released(trees: Registry, id: nat, a: Answer): Registry {
    match trees
    case None => None
    case Some(m) =>
      if id !in m then Some(m)
      else if ReleaseOk(trees, id, a) then Some(m - {id})
      else Some(m[id := Asked(m[id], a)])
  }

  function Forgotten(trees: Registry, id: nat): Registry {
    match trees
    case None => None
    case Some(m) => Some(m - {id})
  }

  // ---------------------------------------------------------------- the signal

  class Signal {
    var fired: bool
    var trees: Registry
    var next: nat
    var exitClaimed: bool

    constructor ()
      ensures !fired && trees == Some(map[]) && next == 0 && !exitClaimed
    {
      fired, trees, next, exitClaimed := false, Some(map[]), 0, false;
    }

    // The whole of a fire that nothing delays between the flag and the mutex.
    method Fire(answers: nat -> Answer) returns (ok: bool)
      modifies this
      ensures fired && trees == Swept(old(trees), answers) && ok == SweepOk(old(trees), answers)
      ensures ok <==> (old(trees).Some? ==> forall id :: id in old(trees).value ==>
                old(trees).value[id].terminated || (answers(id).group && answers(id).leader))
      ensures ok ==> trees.None?
      ensures !ok ==> trees.Some? && forall id :: id in old(trees).value ==>
                && (id in trees.value <==>
                      !old(trees).value[id].terminated && !(answers(id).group && answers(id).leader))
                && (id in trees.value ==> trees.value[id] == old(trees).value[id])
      ensures !ok ==> trees.value.Keys <= old(trees).value.Keys
      ensures next == old(next) && exitClaimed == old(exitClaimed)
    {
      fired := true;
      ok := true;
      if trees.Some? {
        var m := trees.value;
        var left := m.Keys;
        var kept: map<nat, Tree> := map[];
        while left != {}
          invariant left <= m.Keys
          invariant kept == map id | id in m && id !in left && !Asked(m[id], answers(id)).terminated
                                  :: Asked(m[id], answers(id))
          invariant ok <==> kept == map[]
          decreases left
        {
          var id :| id in left;
          var tree := Asked(m[id], answers(id));
          left := left - {id};
          if !tree.terminated {
            kept := kept[id := tree];
            assert id in kept;
            ok := false;
          }
        }
        assert kept == Kept(m, answers);
        KeptMeans(m, answers);
        trees := if kept == map[] then None else Some(kept);
      }
    }

    // True once: for the exit whose code the process leaves with.
    method ClaimExit() returns (first: bool)
      modifies this`exitClaimed
      ensures exitClaimed && first == !old(exitClaimed)
    {
      first := !exitClaimed;
      exitClaimed := true;
    }

    // Whether a start may create: asked under the mutex, which stays held when it may.
    method Reserve() returns (may: bool)
      ensures may == (!fired && trees.Some?)
    {
      may := !fired && trees.Some?;
    }

    method Fill(tree: Tree) returns (id: nat)
      requires trees.Some?
      modifies this
      ensures id == old(next) && next == old(next) + 1
      ensures trees == Some(old(trees).value[id := tree])
      ensures fired == old(fired) && exitClaimed == old(exitClaimed)
    {
      id := next;
      next := next + 1;
      trees := Some(trees.value[id := tree]);
    }

    method Release(id: nat, a: Answer) returns (ok: bool)
      modifies this`trees
      ensures ok <==> (old(trees).Some? && id in old(trees).value ==>
                old(trees).value[id].terminated || (a.group && a.leader))
      ensures trees == if ok && old(trees).Some? then Some(old(trees).value - {id}) else old(trees)
      ensures ok == ReleaseOk(old(trees), id, a) && trees == Released(old(trees), id, a)
    {
      if trees.None? {
        return true;
      }
      var m := trees.value;
      if id in m {
        var tree := Asked(m[id], a);
        if !tree.terminated {
          assert tree == m[id] && m[id := tree] == m;
          trees := Some(m[id := tree]);
          return false;
        }
      }
      trees := Some(m - {id});
      ok := true;
      assert id !in m ==> m - {id} == m;
    }
  }

  // ---------------------------------------------------------------- a blocking owner's waits

  datatype Probe = Exited | Running | Unseen

  datatype Outcome = Status(code: int) | TimedOut | Failure

  // What a blocking caller holds of its child. `reaped` is set from the reap on, to the status it gave.
  class ContainedStd {
    const sig: Signal
    const id: nat
    var reaped: Option<int>

    constructor (sig: Signal, id: nat)
      ensures this.sig == sig && this.id == id && reaped == None
    {
      this.sig, this.id, reaped := sig, id, None;
    }

    // Request, then reap: `status` is what the system's reap answers, if it answers.
    method Kill(a: Answer, status: Option<int>) returns (outcome: Outcome)
      modifies this, sig`trees
      ensures old(reaped).Some? ==>
                outcome == Status(old(reaped).value) && reaped == old(reaped) && sig.trees == old(sig.trees)
      ensures old(reaped).None? ==>
                && sig.trees == Released(old(sig.trees), id, a)
                && reaped == (if ReleaseOk(old(sig.trees), id, a) then status else None)
                && (reaped.Some? && old(sig.trees).Some? && id in old(sig.trees).value ==>
                      old(sig.trees).value[id].terminated || (a.group && a.leader))
                && outcome == match reaped case Some(code) => Status(code) case None => Failure
    {
      if reaped.Some? {
        return Status(reaped.value);
      }
      var ok := sig.Release(id, a);
      if !ok {
        return Failure;
      }
      reaped := status;
      outcome := match status case Some(code) => Status(code) case None => Failure;
    }

    // Watch for the exit, request, then reap. A probe that fails is an error even when the child was reaped.
    method Wait(seen: bool, a: Answer, status: Option<int>) returns (outcome: Outcome)
      modifies this, sig`trees
      ensures old(reaped).Some? ==>
                outcome == Status(old(reaped).value) && reaped == old(reaped) && sig.trees == old(sig.trees)
      ensures old(reaped).None? ==>
                && sig.trees == Released(old(sig.trees), id, a)
                && reaped == (if ReleaseOk(old(sig.trees), id, a) then status else None)
                && (reaped.Some? && old(sig.trees).Some? && id in old(sig.trees).value ==>
                      old(sig.trees).value[id].terminated || (a.group && a.leader))
                && outcome == if seen && reaped.Some? then Status(reaped.value) else Failure
    {
      if reaped.Some? {
        return Status(reaped.value);
      }
      outcome := Kill(a, status);
      if !seen {
        outcome := Failure;
      }
    }

    /** Poll until the child is seen to have exited or the bound passes with the last probe (one is always made).
        `TimedOut` is answered exactly when every probe saw it running, the tree's request succeeded and the child was
        reaped; and nothing is ever reaped but after a request that succeeded. */
    method WaitWithin(probes: seq<Probe>, seen: bool, a: Answer, status: Option<int>) returns (outcome: Outcome)
      requires probes != []
      modifies this, sig`trees
      ensures old(reaped).Some? ==>
                outcome == Status(old(reaped).value) && reaped == old(reaped) && sig.trees == old(sig.trees)
      ensures old(reaped).None? ==>
                && sig.trees == Released(old(sig.trees), id, a)
                && reaped == (if ReleaseOk(old(sig.trees), id, a) then status else None)
                && (reaped.Some? && old(sig.trees).Some? && id in old(sig.trees).value ==>
                      old(sig.trees).value[id].terminated || (a.group && a.leader))
                && (outcome == TimedOut <==>
                      reaped.Some? && forall i :: 0 <= i < |probes| ==> probes[i].Running?)
    {
      for i := 0 to |probes|
        invariant reaped == old(reaped) && sig.trees == old(sig.trees)
        invariant forall k :: 0 <= k < i ==> probes[k].Running?
        invariant i > 0 ==> reaped.None?
      {
        if reaped.Some? {
          return Status(reaped.value);
        }
        match probes[i] {
          case Exited =>
            outcome := Wait(seen, a, status);
            return;
          case Running =>
          case Unseen =>
            var _ := Kill(a, status);
            return Failure;
        }
      }
      var killed := Kill(a, status);
      outcome := if killed.Failure? then Failure else TimedOut;
    }
  }
}
