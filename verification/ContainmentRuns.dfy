/** Runs of the signal: any number of starts, fires and owners, over children whose pids the system reuses once reaped.

    A start holds the mutex from its reservation to its registration, or to the end of its cleanup; every other step is
    one critical section. A pid names at most one unreaped child: that is the system's promise, and its only one. */
module ContainmentRuns {
  import opened Wrappers
  import opened Containment

  datatype Kind = Blocking | Async

  // A child by its index: how many requests were attempted on it, whether one succeeded, and, as history, whether in one of
  // them the kill of its group and that of its leader both did.
  datatype Child = Child(pid: nat, kind: Kind, reaped: bool, attempts: nat, granted: bool, both: bool)

  // The start that holds the mutex. A failed one cleans up `left` times more before its tree is dropped.
  datatype Start =
    | Reserved
    | Created(child: nat)
    | Adopted(child: nat)
    | Failed(tree: Tree, left: nat)

  // An owner holds its tree, was refused its last release, has released it, or is gone.
  datatype Hold = Holding | Refused | Freed | Gone

  datatype Owner = Owner(child: nat, hold: Hold)

  datatype State = State(
    children: seq<Child>,
    fired: bool,
    start: Option<Start>,
    trees: Registry,
    next: nat,
    owners: map<nat, Owner>,
    // History: a fire has swept and returned; one returned without an error.
    swept: bool,
    sweptOk: bool)

  const BEGIN: State := State([], false, None, Some(map[]), 0, map[], false, false)

  datatype Act =
    | Reserve
    | CreateFails
    | Create(pid: nat, kind: Kind)
    | Adopt
    | StartFails
    | CleanUp(a: Answer, reapOk: bool)
    | DropPartial(a: Answer)
    | Register
    | Publish
    | Sweep(answers: nat -> Answer)
    | Release(id: nat, a: Answer)
    | Reap(id: nat)
    | GiveUp(id: nat, a: Answer)
    | Leave(id: nat)
    | OrphanReap(child: nat)

  function ChildOf(start: Start): Option<nat> {
    match start
    case Reserved => None
    case Created(c) => Some(c)
    case Adopted(c) => Some(c)
    case Failed(tree, _) => Some(tree.child)
  }

  ghost predicate Enabled(s: State, a: Act) {
    match a
    case Reserve => s.start.None? && !s.fired && s.trees.Some?
    case CreateFails => s.start == Some(Reserved)
    case Create(pid, _) =>
      && s.start == Some(Reserved)
      && forall c :: 0 <= c < |s.children| && !s.children[c].reaped ==> s.children[c].pid != pid
    case Adopt => s.start.Some? && s.start.value.Created?
    case StartFails => s.start.Some? && (s.start.value.Created? || s.start.value.Adopted?)
    case CleanUp(_, _) => s.start.Some? && s.start.value.Failed? && s.start.value.left > 0
    case DropPartial(_) => s.start.Some? && s.start.value.Failed? && s.start.value.left == 0
    case Register => s.start.Some? && s.start.value.Adopted?
    case Publish => true
    case Sweep(_) => s.start.None? && s.fired
    case Release(id, _) => s.start.None? && id in s.owners && !s.owners[id].hold.Gone?
    case Reap(id) => id in s.owners && s.owners[id].hold.Freed?
    // An owner that drops asks again, and lets go of its tree whatever the answer.
    case GiveUp(id, _) => s.start.None? && id in s.owners && s.owners[id].hold.Refused?
    case Leave(id) => id in s.owners && s.owners[id].hold.Freed?
    // The runtime reaps an asynchronous child once nothing of this process holds it, whatever its requests answered.
    case OrphanReap(c) =>
      && c < |s.children| && s.children[c].kind.Async?
      && (forall id :: id in s.owners && s.owners[id].child == c ==> s.owners[id].hold.Gone?)
      && (s.start.Some? ==> ChildOf(s.start.value) != Some(c))
  }

  // One request of `t`: nothing is asked of a tree already terminated.
  function Request(children: seq<Child>, t: Tree, a: Answer): seq<Child> {
    if t.terminated || t.child >= |children| then children
    else
      var c := children[t.child];
      children[t.child := c.(attempts := c.attempts + 1, granted := c.granted || a.Ok(),
                              both := c.both || (a.group && a.leader))]
  }

  function ReapChild(children: seq<Child>, c: nat): seq<Child> {
    if c < |children| then children[c := children[c].(reaped := true)] else children
  }

  ghost predicate AskedIn(m: map<nat, Tree>, c: nat) { exists id :: id in m && m[id].child == c && !m[id].terminated }

  ghost predicate GrantedIn(m: map<nat, Tree>, answers: nat -> Answer, c: nat) {
    exists id :: id in m && m[id].child == c && !m[id].terminated && answers(id).Ok()
  }

  ghost predicate BothIn(m: map<nat, Tree>, answers: nat -> Answer, c: nat) {
    exists id :: id in m && m[id].child == c && !m[id].terminated && answers(id).group && answers(id).leader
  }

  ghost function RequestAll(children: seq<Child>, trees: Registry, answers: nat -> Answer): (after: seq<Child>)
    ensures |after| == |children|
  {
    match trees
    case None => children
    case Some(m) =>
      seq(|children|, c requires 0 <= c < |children| =>
        if AskedIn(m, c) then
          children[c].(attempts := children[c].attempts + 1, granted := children[c].granted || GrantedIn(m, answers, c),
                       both := children[c].both || BothIn(m, answers, c))
        else children[c])
  }

  // A release asks the registered tree, if it is still there.
  function RequestOne(children: seq<Child>, trees: Registry, id: nat, a: Answer): seq<Child> {
    if trees.Some? && id in trees.value then Request(children, trees.value[id], a) else children
  }

  function AfterRelease(s: State, id: nat, a: Answer): State
    requires id in s.owners
  {
    s.(children := RequestOne(s.children, s.trees, id, a),
       trees := Released(s.trees, id, a),
       owners := s.owners[id := s.owners[id].(hold := if ReleaseOk(s.trees, id, a) then Freed else Refused)])
  }

  ghost function Do(s: State, a: Act): State
    requires Enabled(s, a)
  {
    match a
    case Reserve => s.(start := Some(Reserved))
    case CreateFails => s.(start := None)
    case Create(pid, kind) =>
      s.(children := s.children + [Child(pid, kind, false, 0, false, false)], start := Some(Created(|s.children|)))
    case Adopt => s.(start := Some(Adopted(s.start.value.child)))
    // A failed adoption cleans up at once and again as the provisional owner drops; an unwind only as it drops.
    case StartFails =>
      var c := s.start.value.child;
      s.(start := Some(Failed(Tree(c, if c < |s.children| then s.children[c].pid else 0, false),
                              if s.start.value.Created? then 2 else 1)))
    case CleanUp(a, reapOk) =>
      var t := s.start.value.tree;
      var asked := Request(s.children, t, a);
      var reaps := Asked(t, a).terminated && reapOk && t.child < |s.children| && s.children[t.child].kind.Blocking?;
      s.(children := if reaps then ReapChild(asked, t.child) else asked,
         start := Some(Failed(Asked(t, a), s.start.value.left - 1)))
    case DropPartial(a) => s.(children := Request(s.children, s.start.value.tree, a), start := None)
    case Register =>
      var c := s.start.value.child;
      s.(trees := if s.trees.Some?
                  then Some(s.trees.value[s.next := Tree(c, if c < |s.children| then s.children[c].pid else 0, false)])
                  else None,
         owners := s.owners[s.next := Owner(c, Holding)],
         next := s.next + 1,
         start := None)
    case Publish => s.(fired := true)
    case Sweep(answers) =>
      s.(children := RequestAll(s.children, s.trees, answers),
         trees := Swept(s.trees, answers),
         swept := true,
         sweptOk := s.sweptOk || SweepOk(s.trees, answers))
    case Release(id, a) => AfterRelease(s, id, a)
    case Reap(id) => s.(children := ReapChild(s.children, s.owners[id].child))
    case GiveUp(id, a) =>
      s.(children := RequestOne(s.children, s.trees, id, a),
         trees := Forgotten(s.trees, id),
         owners := s.owners[id := s.owners[id].(hold := Gone)])
    case Leave(id) => s.(owners := s.owners[id := s.owners[id].(hold := Gone)])
    case OrphanReap(c) => s.(children := ReapChild(s.children, c))
  }

  ghost predicate Next(s: State, t: State) { exists a :: Enabled(s, a) && t == Do(s, a) }

  ghost predicate Run(run: seq<State>) {
    && |run| > 0 && run[0] == BEGIN
    && forall i :: 0 <= i < |run| - 1 ==> Next(run[i], run[i + 1])
  }

  // The trees an action's requests go to: those that send kills to their pid.
  ghost predicate Kills(s: State, a: Act, t: Tree) {
    && !t.terminated
    && match a
       case CleanUp(_, _) => s.start.Some? && s.start.value.Failed? && t == s.start.value.tree
       case DropPartial(_) => s.start.Some? && s.start.value.Failed? && t == s.start.value.tree
       case Sweep(_) => s.trees.Some? && exists id :: id in s.trees.value && s.trees.value[id] == t
       case Release(id, _) => s.trees.Some? && id in s.trees.value && s.trees.value[id] == t
       case GiveUp(id, _) => s.trees.Some? && id in s.trees.value && s.trees.value[id] == t
       case _ => false
  }

  // ---------------------------------------------------------------- the invariant

  // The pid is its child's own: no other unreaped child has it.
  ghost predicate Aims(s: State, t: Tree) {
    && t.child < |s.children| && s.children[t.child].pid == t.pid
    && (!t.terminated ==> !s.children[t.child].reaped)
    && (t.terminated ==> s.children[t.child].granted)
  }

  ghost predicate PidsOwned(s: State) {
    forall c, d :: 0 <= c < d < |s.children| && !s.children[c].reaped && !s.children[d].reaped ==>
      s.children[c].pid != s.children[d].pid
  }

  ghost predicate Starting(s: State) {
    && (s.start.Some? ==> s.trees.Some?)
    && (s.start.Some? && ChildOf(s.start.value).Some? ==>
          var c := ChildOf(s.start.value).value;
          && c < |s.children|
          && (forall id :: id in s.owners ==> s.owners[id].child != c)
          && (!s.start.value.Failed? ==> !s.children[c].reaped)
          && (s.start.value.Failed? ==>
                && s.start.value.tree.pid == s.children[c].pid
                && (!s.start.value.tree.terminated ==> !s.children[c].reaped)
                && (s.start.value.tree.terminated ==> s.children[c].granted)
                && (s.start.value.left == 0 ==> s.children[c].attempts > 0)))
  }

  ghost predicate OwnersKnown(s: State) {
    && (forall id :: id in s.owners ==> id < s.next && s.owners[id].child < |s.children|)
    && (forall i, j :: i in s.owners && j in s.owners && s.owners[i].child == s.owners[j].child ==> i == j)
  }

  // A registered tree is its owner's, not terminated, and aims at an unreaped leader.
  ghost predicate TreesOwned(s: State) {
    s.trees.Some? ==> forall id :: id in s.trees.value ==>
      && id in s.owners && s.owners[id].child == s.trees.value[id].child
      && (s.owners[id].hold.Holding? || s.owners[id].hold.Refused?)
      && !s.trees.value[id].terminated && Aims(s, s.trees.value[id])
  }

  // An owner whose tree has left the registry had a request attempted, and granted if it may still reap.
  ghost predicate FreedGranted(s: State) {
    forall id :: id in s.owners && !(s.trees.Some? && id in s.trees.value) && s.owners[id].child < |s.children| ==>
      && s.children[s.owners[id].child].attempts > 0
      && (!s.owners[id].hold.Gone? ==> s.children[s.owners[id].child].granted)
  }

  ghost predicate Registered(s: State) { OwnersKnown(s) && TreesOwned(s) && FreedGranted(s) }

  // A child not yet asked is held by the start, or registered.
  ghost predicate Covered(s: State) {
    forall c :: 0 <= c < |s.children| && s.children[c].attempts == 0 ==>
      || (s.start.Some? && ChildOf(s.start.value) == Some(c))
      || (s.trees.Some? && exists id :: id in s.trees.value && s.trees.value[id].child == c)
  }

  ghost predicate Over(s: State) {
    && (s.swept ==> s.fired && s.start.None? && forall c :: 0 <= c < |s.children| ==> s.children[c].attempts > 0)
    && (s.sweptOk ==> s.swept && s.trees.None?)
  }

  // A blocking owner's child is reaped only after a request that succeeded; any child only after one was attempted.
  ghost predicate Reaped(s: State) {
    forall c :: 0 <= c < |s.children| ==>
      && (s.children[c].granted ==> s.children[c].attempts > 0)
      && (s.children[c].reaped ==>
            s.children[c].attempts > 0 && (s.children[c].kind.Blocking? ==> s.children[c].granted))
  }

  ghost predicate Inv(s: State) {
    PidsOwned(s) && Starting(s) && Registered(s) && Covered(s) && Over(s) && Reaped(s)
  }

  // ---------------------------------------------------------------- requests leave pids alone

  ghost predicate Grown(before: seq<Child>, after: seq<Child>) {
    && |before| == |after|
    && forall c :: 0 <= c < |before| ==>
         && after[c].pid == before[c].pid && after[c].kind == before[c].kind && after[c].reaped == before[c].reaped
         && after[c].attempts >= before[c].attempts && (before[c].granted ==> after[c].granted)
  }

  lemma RequestGrows(children: seq<Child>, t: Tree, a: Answer)
    ensures Grown(children, Request(children, t, a))
    ensures t.child < |children| && !t.terminated ==> Request(children, t, a)[t.child].attempts > 0
    ensures t.child < |children| && !t.terminated && a.Ok() ==> Request(children, t, a)[t.child].granted
  {
  }

  lemma RequestAllGrows(children: seq<Child>, trees: Registry, answers: nat -> Answer)
    ensures Grown(children, RequestAll(children, trees, answers))
    ensures trees.Some? ==> forall id :: id in trees.value && trees.value[id].child < |children| && !trees.value[id].terminated ==>
              && RequestAll(children, trees, answers)[trees.value[id].child].attempts > 0
              && (answers(id).Ok() ==> RequestAll(children, trees, answers)[trees.value[id].child].granted)
  {
    if trees.Some? {
      var m := trees.value;
      forall id | id in m && m[id].child < |children| && !m[id].terminated
        ensures AskedIn(m, m[id].child) && (answers(id).Ok() ==> GrantedIn(m, answers, m[id].child))
      {
      }
    }
  }

  // ---------------------------------------------------------------- what each step keeps

  lemma SameRegistry(s: State, t: State)
    requires Inv(s) && t.children == s.children && t.trees == s.trees && t.owners == s.owners && t.next == s.next
    ensures PidsOwned(t) && Registered(t) && Reaped(t)
  {
  }

  lemma SameStart(s: State, t: State)
    requires Covered(s)
    requires t.children == s.children && t.trees == s.trees
    requires s.start.Some? == t.start.Some?
    requires s.start.Some? ==> ChildOf(t.start.value) == ChildOf(s.start.value)
    ensures Covered(t)
  {
  }

  lemma QuietStepsKeepInv(s: State, a: Act)
    requires Inv(s) && Enabled(s, a)
    requires a.Reserve? || a.CreateFails? || a.Adopt? || a.StartFails? || a.Publish?
    ensures Inv(Do(s, a))
  {
    var t := Do(s, a);
    SameRegistry(s, t);
    if a.Adopt? || a.StartFails? || a.Publish? {
      SameStart(s, t);
    } else {
      assert Covered(t);
    }
    assert Starting(t);
    assert Over(t);
  }

  lemma LeaveKeepsInv(s: State, id: nat)
    requires Inv(s) && Enabled(s, Leave(id))
    ensures Inv(Do(s, Leave(id)))
  {
    var t := Do(s, Leave(id));
    OwnerStepKeepsKnown(s, t, id, Gone);
    OwnerStepKeepsTrees(s, t, id, Gone);
    OwnerStepKeepsFreed(s, t, id, Gone);
    SameStart(s, t);
  }

  lemma CreateKeepsRegistered(s: State, t: State)
    requires Registered(s) && |t.children| > |s.children|
    requires forall c :: 0 <= c < |s.children| ==> t.children[c] == s.children[c]
    requires t.trees == s.trees && t.owners == s.owners && t.next == s.next
    ensures Registered(t)
  {
    assert OwnersKnown(t);
    assert TreesOwned(t);
    assert FreedGranted(t);
  }

  lemma CreateKeepsInv(s: State, pid: nat, kind: Kind)
    requires Inv(s) && Enabled(s, Create(pid, kind))
    ensures Inv(Do(s, Create(pid, kind)))
  {
    var t := Do(s, Create(pid, kind));
    assert forall c :: 0 <= c < |s.children| ==> t.children[c] == s.children[c];
    CreateKeepsRegistered(s, t);
    assert PidsOwned(t);
    forall c | 0 <= c < |t.children| && t.children[c].attempts == 0
      ensures (t.start.Some? && ChildOf(t.start.value) == Some(c))
              || (t.trees.Some? && exists id :: id in t.trees.value && t.trees.value[id].child == c)
    {
      if c < |s.children| {
        assert s.children[c].attempts == 0;
      }
    }
  }

  // Requests on the children of trees, with the registry and the start as they may become.
  lemma GrownKeepsPids(s: State, t: State)
    requires PidsOwned(s) && Grown(s.children, t.children)
    ensures PidsOwned(t)
  {
  }

  lemma GrownKeepsReaped(s: State, t: State)
    requires Reaped(s) && Grown(s.children, t.children)
    requires forall c :: 0 <= c < |s.children| && t.children[c].granted && !s.children[c].granted ==> t.children[c].attempts > 0
    ensures Reaped(t)
  {
  }

  lemma CleanUpRequests(s: State, a: Act)
    requires Inv(s) && Enabled(s, a) && (a.CleanUp? || a.DropPartial?)
    ensures var asked := Request(s.children, s.start.value.tree, a.a);
            var c := s.start.value.tree.child;
            && Grown(s.children, asked) && c < |asked|
            && (forall d :: 0 <= d < |asked| && d != c ==> asked[d] == s.children[d])
            && asked[c].attempts > 0
            && (Asked(s.start.value.tree, a.a).terminated ==> asked[c].granted)
            && (!Asked(s.start.value.tree, a.a).terminated ==> !asked[c].reaped)
            && (asked[c].reaped ==> asked[c].kind.Blocking? ==> asked[c].granted)
  {
    RequestGrows(s.children, s.start.value.tree, a.a);
  }

  // The start's own child changes, and no other: the registry stands.
  lemma StartChildStepKeepsRegistered(s: State, t: State, c: nat)
    requires Registered(s) && Starting(s) && s.start.Some? && ChildOf(s.start.value) == Some(c)
    requires |t.children| == |s.children| && t.trees == s.trees && t.owners == s.owners && t.next == s.next
    requires forall d :: 0 <= d < |s.children| && d != c ==> t.children[d] == s.children[d]
    ensures Registered(t)
  {
    assert OwnersKnown(t);
    assert TreesOwned(t);
    assert FreedGranted(t);
  }

  lemma StartChildStepKeepsCovered(s: State, t: State, c: nat)
    requires Covered(s) && s.start.Some? && ChildOf(s.start.value) == Some(c) && c < |s.children|
    requires |t.children| == |s.children| && t.trees == s.trees && t.children[c].attempts > 0
    requires forall d :: 0 <= d < |s.children| && d != c ==> t.children[d] == s.children[d]
    ensures Covered(t)
  {
  }

  lemma CleanUpKeepsInv(s: State, a: Act)
    requires Inv(s) && Enabled(s, a) && (a.CleanUp? || a.DropPartial?)
    ensures Inv(Do(s, a))
  {
    CleanUpRequests(s, a);
    var t := Do(s, a);
    var c := s.start.value.tree.child;
    assert |t.children| == |s.children|;
    assert forall d :: 0 <= d < |s.children| && d != c ==> t.children[d] == s.children[d];
    assert t.children[c].pid == s.children[c].pid && t.children[c].attempts > 0;
    StartChildStepKeepsRegistered(s, t, c);
    StartChildStepKeepsCovered(s, t, c);
    assert PidsOwned(t);
    assert Starting(t);
    assert Reaped(t);
  }

  lemma RegisterKeepsCovered(s: State)
    requires Covered(s) && Starting(s) && OwnersKnown(s) && TreesOwned(s) && Enabled(s, Register)
    ensures Covered(Do(s, Register))
  {
    var t := Do(s, Register);
    assert s.next !in s.trees.value;
    assert t.trees.value[s.next].child == s.start.value.child;
    forall c | 0 <= c < |t.children| && t.children[c].attempts == 0
      ensures t.trees.Some? && exists id :: id in t.trees.value && t.trees.value[id].child == c
    {
      if ChildOf(s.start.value) != Some(c) {
        var id :| id in s.trees.value && s.trees.value[id].child == c;
        assert t.trees.value[id] == s.trees.value[id];
      }
    }
  }

  lemma RegisterKeepsRegistered(s: State)
    requires Starting(s) && Registered(s) && Enabled(s, Register)
    ensures Registered(Do(s, Register))
  {
    var t := Do(s, Register);
    assert s.next !in s.owners;
    assert OwnersKnown(t);
    assert TreesOwned(t);
    assert FreedGranted(t);
  }

  lemma RegisterKeepsInv(s: State)
    requires Inv(s) && Enabled(s, Register)
    ensures Inv(Do(s, Register))
  {
    RegisterKeepsCovered(s);
    RegisterKeepsRegistered(s);
  }

  lemma SweepKeepsRegistered(s: State, answers: nat -> Answer)
    requires Registered(s) && Enabled(s, Sweep(answers))
    ensures Registered(Do(s, Sweep(answers)))
  {
    RequestAllGrows(s.children, s.trees, answers);
    var t := Do(s, Sweep(answers));
    if t.trees.Some? {
      forall id | id in t.trees.value
        ensures id in s.trees.value && t.trees.value[id] == s.trees.value[id]
      {
        assert !s.trees.value[id].terminated;
      }
    }
    forall id | id in t.owners && !(t.trees.Some? && id in t.trees.value)
      ensures t.children[t.owners[id].child].attempts > 0
      ensures !t.owners[id].hold.Gone? ==> t.children[t.owners[id].child].granted
    {
      if s.trees.Some? && id in s.trees.value {
        assert id !in Kept(s.trees.value, answers);
        assert answers(id).Ok();
      }
    }
  }

  lemma SweepAsksAll(s: State, answers: nat -> Answer, c: nat)
    requires Registered(s) && Covered(s) && Enabled(s, Sweep(answers)) && c < |s.children|
    ensures Do(s, Sweep(answers)).children[c].attempts > 0
  {
    RequestAllGrows(s.children, s.trees, answers);
    if s.children[c].attempts == 0 {
      var id :| id in s.trees.value && s.trees.value[id].child == c;
    }
  }

  lemma SweepKeepsInv(s: State, answers: nat -> Answer)
    requires Inv(s) && Enabled(s, Sweep(answers))
    ensures Inv(Do(s, Sweep(answers)))
  {
    var t := Do(s, Sweep(answers));
    RequestAllGrows(s.children, s.trees, answers);
    SweepKeepsRegistered(s, answers);
    forall c | 0 <= c < |t.children| ensures t.children[c].attempts > 0 {
      SweepAsksAll(s, answers, c);
    }
    GrownKeepsPids(s, t);
    GrownKeepsReaped(s, t);
    assert s.sweptOk ==> s.trees.None? && t.trees.None?;
  }

  lemma RequestOneGrows(s: State, id: nat, a: Answer)
    requires Registered(s) && id in s.owners
    ensures Grown(s.children, RequestOne(s.children, s.trees, id, a))
    ensures var after := RequestOne(s.children, s.trees, id, a);
            var c := s.owners[id].child;
            && (forall d :: 0 <= d < |after| && d != c ==> after[d] == s.children[d])
            && after[c].attempts > 0
            && (ReleaseOk(s.trees, id, a) && !s.owners[id].hold.Gone? ==> after[c].granted)
  {
    if s.trees.Some? && id in s.trees.value {
      RequestGrows(s.children, s.trees.value[id], a);
    }
  }

  lemma OwnerStepKeepsKnown(s: State, t: State, id: nat, hold: Hold)
    requires OwnersKnown(s) && id in s.owners && |t.children| == |s.children| && t.next == s.next
    requires t.owners == s.owners[id := s.owners[id].(hold := hold)]
    ensures OwnersKnown(t)
  {
  }

  // An owner's section changes its own child, tree and hold alone.
  lemma OwnerStepKeepsTrees(s: State, t: State, id: nat, hold: Hold)
    requires OwnersKnown(s) && TreesOwned(s) && id in s.owners && Grown(s.children, t.children)
    requires t.owners == s.owners[id := s.owners[id].(hold := hold)]
    requires t.trees.Some? ==> s.trees.Some? && forall k :: k in t.trees.value ==>
               k in s.trees.value && t.trees.value[k] == s.trees.value[k]
    requires t.trees.Some? && id in t.trees.value ==> hold.Refused?
    ensures TreesOwned(t)
  {
    if t.trees.Some? {
      forall k | k in t.trees.value ensures Aims(t, t.trees.value[k]) {
        assert Aims(s, s.trees.value[k]);
      }
    }
  }

  lemma OwnerStepKeepsFreed(s: State, t: State, id: nat, hold: Hold)
    requires OwnersKnown(s) && FreedGranted(s) && id in s.owners && Grown(s.children, t.children)
    requires t.owners == s.owners[id := s.owners[id].(hold := hold)]
    requires t.children[s.owners[id].child].attempts > 0
    requires !(t.trees.Some? && id in t.trees.value) && !hold.Gone? ==>
               t.children[s.owners[id].child].granted
    requires s.trees.Some? ==> t.trees.Some? && forall k :: k in s.trees.value && k != id ==> k in t.trees.value
    ensures FreedGranted(t)
  {
    forall k | k in t.owners && !(t.trees.Some? && k in t.trees.value) && t.owners[k].child < |t.children|
      ensures t.children[t.owners[k].child].attempts > 0
      ensures !t.owners[k].hold.Gone? ==> t.children[t.owners[k].child].granted
    {
    }
  }

  lemma ReleaseKeepsRegistered(s: State, id: nat, a: Answer)
    requires Registered(s) && Enabled(s, Release(id, a))
    ensures Registered(Do(s, Release(id, a)))
  {
    RequestOneGrows(s, id, a);
    var t := Do(s, Release(id, a));
    var hold := if ReleaseOk(s.trees, id, a) then Freed else Refused;
    assert t.owners == s.owners[id := s.owners[id].(hold := hold)];
    OwnerStepKeepsKnown(s, t, id, hold);
    OwnerStepKeepsTrees(s, t, id, hold);
    OwnerStepKeepsFreed(s, t, id, hold);
  }

  lemma GiveUpKeepsRegistered(s: State, id: nat, a: Answer)
    requires Registered(s) && Enabled(s, GiveUp(id, a))
    ensures Registered(Do(s, GiveUp(id, a)))
  {
    RequestOneGrows(s, id, a);
    var t := Do(s, GiveUp(id, a));
    var hold := Gone;
    assert t.owners == s.owners[id := s.owners[id].(hold := hold)];
    OwnerStepKeepsKnown(s, t, id, hold);
    OwnerStepKeepsTrees(s, t, id, hold);
    OwnerStepKeepsFreed(s, t, id, hold);
  }

  // A child whose attempts stay none is still registered under another owner.
  lemma OwnerStepKeepsCovered(s: State, t: State, id: nat)
    requires Registered(s) && Covered(s) && id in s.owners && s.start.None? && t.start.None?
    requires |t.children| == |s.children| && t.children[s.owners[id].child].attempts > 0
    requires forall d :: 0 <= d < |s.children| && d != s.owners[id].child ==> t.children[d] == s.children[d]
    requires s.trees.Some? ==> t.trees.Some? && forall k :: k in s.trees.value && k != id ==>
               k in t.trees.value && t.trees.value[k] == s.trees.value[k]
    ensures Covered(t)
  {
    forall c | 0 <= c < |t.children| && t.children[c].attempts == 0
      ensures t.trees.Some? && exists k :: k in t.trees.value && t.trees.value[k].child == c
    {
      var k :| k in s.trees.value && s.trees.value[k].child == c;
      assert k != id;
      assert t.trees.value[k] == s.trees.value[k];
    }
  }

  lemma OwnerStepKeepsRest(s: State, t: State, id: nat, a: Answer)
    requires Inv(s) && id in s.owners && s.start.None? && t.start.None?
    requires t.children == RequestOne(s.children, s.trees, id, a) && t.fired == s.fired
    requires t.swept == s.swept && t.sweptOk == s.sweptOk && (s.trees.None? ==> t.trees.None?)
    requires s.trees.Some? ==> t.trees.Some? && forall k :: k in s.trees.value && k != id ==>
               k in t.trees.value && t.trees.value[k] == s.trees.value[k]
    ensures PidsOwned(t) && Starting(t) && Covered(t) && Over(t) && Reaped(t)
  {
    RequestOneGrows(s, id, a);
    OwnerStepKeepsCovered(s, t, id);
    GrownKeepsPids(s, t);
    GrownKeepsReaped(s, t);
  }

  lemma ReleaseKeepsInv(s: State, id: nat, a: Answer)
    requires Inv(s) && Enabled(s, Release(id, a))
    ensures Inv(Do(s, Release(id, a)))
  {
    var t := Do(s, Release(id, a));
    ReleaseKeepsRegistered(s, id, a);
    OwnerStepKeepsRest(s, t, id, a);
  }

  lemma GiveUpKeepsInv(s: State, id: nat, a: Answer)
    requires Inv(s) && Enabled(s, GiveUp(id, a))
    ensures Inv(Do(s, GiveUp(id, a)))
  {
    var t := Do(s, GiveUp(id, a));
    GiveUpKeepsRegistered(s, id, a);
    OwnerStepKeepsRest(s, t, id, a);
  }

  lemma ReapKeepsRegistered(s: State, t: State, c: nat)
    requires Registered(s) && c < |s.children| && t == s.(children := ReapChild(s.children, c))
    requires s.trees.Some? ==> forall id :: id in s.trees.value ==> s.trees.value[id].child != c
    ensures Registered(t)
  {
    assert forall d :: 0 <= d < |s.children| && d != c ==> t.children[d] == s.children[d];
    assert t.children[c] == s.children[c].(reaped := true);
    assert OwnersKnown(t);
    assert TreesOwned(t);
    assert FreedGranted(t);
  }

  // A reap touches one child: never one a tree still aims at.
  lemma ReapKeepsInv(s: State, t: State, c: nat)
    requires Inv(s) && c < |s.children| && t == s.(children := ReapChild(s.children, c))
    requires s.trees.Some? ==> forall id :: id in s.trees.value ==> s.trees.value[id].child != c
    requires s.start.Some? ==> ChildOf(s.start.value) != Some(c)
    requires s.children[c].attempts > 0 && (s.children[c].kind.Blocking? ==> s.children[c].granted)
    ensures Inv(t)
  {
    assert forall d :: 0 <= d < |s.children| && d != c ==> t.children[d] == s.children[d];
    assert t.children[c] == s.children[c].(reaped := true);
    assert PidsOwned(t);
    assert Starting(t);
    ReapKeepsRegistered(s, t, c);
    assert Covered(t);
  }

  lemma OrphanMayBeReaped(s: State, c: nat)
    requires Inv(s) && Enabled(s, OrphanReap(c))
    ensures s.trees.Some? ==> forall id :: id in s.trees.value ==> s.trees.value[id].child != c
    ensures s.children[c].attempts > 0
  {
  }

  lemma StepKeepsInv(s: State, a: Act)
    requires Inv(s) && Enabled(s, a)
    ensures Inv(Do(s, a))
  {
    match a
    case Create(pid, kind) => CreateKeepsInv(s, pid, kind);
    case CleanUp(_, _) => CleanUpKeepsInv(s, a);
    case DropPartial(_) => CleanUpKeepsInv(s, a);
    case Register => RegisterKeepsInv(s);
    case Sweep(answers) => SweepKeepsInv(s, answers);
    case Release(id, answer) => ReleaseKeepsInv(s, id, answer);
    case GiveUp(id, answer) => GiveUpKeepsInv(s, id, answer);
    case Reap(id) => ReapKeepsInv(s, Do(s, a), s.owners[id].child);
    case OrphanReap(c) => OrphanMayBeReaped(s, c); ReapKeepsInv(s, Do(s, a), c);
    case Leave(id) => LeaveKeepsInv(s, id);
    case _ => QuietStepsKeepInv(s, a);
  }

  lemma {:induction false} RunKeepsInv(run: seq<State>, i: nat)
    requires Run(run) && i < |run|
    ensures Inv(run[i])
  {
    if i > 0 {
      RunKeepsInv(run, i - 1);
      assert Next(run[i - 1], run[i - 1 + 1]);
      var a :| Enabled(run[i - 1], a) && run[i] == Do(run[i - 1], a);
      StepKeepsInv(run[i - 1], a);
    }
  }

  // ---------------------------------------------------------------- what every run keeps

  /** Once any fire has returned, every child ever created has had a termination request attempted, whether it was
      registered, released or still provisional; and a fire that returned no error leaves the registry closed. */
  lemma AFireReachesEveryChild(run: seq<State>, i: nat)
    requires Run(run) && i < |run| && run[i].swept
    ensures forall c :: 0 <= c < |run[i].children| ==> run[i].children[c].attempts > 0
    ensures run[i].start.None? && run[i].fired
    ensures run[i].sweptOk ==> run[i].trees.None?
  {
    RunKeepsInv(run, i);
  }

  // After a fire has returned, as many children as before, and the fire stays returned.
  predicate Quiet(s: State, t: State) {
    s.swept ==> t.swept && |t.children| == |s.children| && (s.sweptOk ==> t.sweptOk)
  }

  lemma {:induction false} QuietStaysQuiet(states: seq<State>, i: nat, j: nat)
    requires forall k :: 0 <= k < |states| - 1 ==> Quiet(states[k], states[k + 1])
    requires i <= j < |states|
    ensures Quiet(states[i], states[j])
    decreases j
  {
    if i < j {
      QuietStaysQuiet(states, i, j - 1);
      assert Quiet(states[j - 1], states[j - 1 + 1]);
    }
  }

  lemma NothingStartsNext(run: seq<State>, j: nat)
    requires Run(run) && j < |run| - 1
    ensures Quiet(run[j], run[j + 1])
  {
    RunKeepsInv(run, j);
    if run[j].swept {
      FiredStepsCreateNothing(run[j], run[j + 1]);
    }
  }

  /** And no later start creates a process. */
  lemma NothingStartsAfterAFire(run: seq<State>, i: nat, j: nat)
    requires Run(run) && i <= j < |run| && run[i].swept
    ensures run[j].swept && |run[j].children| == |run[i].children|
    ensures run[i].sweptOk ==> run[j].sweptOk
  {
    forall k | 0 <= k < |run| - 1 ensures Quiet(run[k], run[k + 1]) {
      NothingStartsNext(run, k);
    }
    QuietStaysQuiet(run, i, j);
  }

  lemma FiredStepsCreateNothing(s: State, t: State)
    requires s.swept && s.fired && s.start.None? && (s.sweptOk ==> s.trees.None?) && Next(s, t)
    ensures |t.children| == |s.children| && t.swept && (s.sweptOk ==> t.sweptOk)
  {
  }

  /** Every kill a tree sends, through a fire, a release, a drop or the cleanup of a failed start, goes to its own
      child's pid while that child is unreaped; and that pid is no other unreaped child's. */
  lemma EveryKillHitsItsOwnLeader(run: seq<State>, i: nat, a: Act, t: Tree)
    requires Run(run) && i < |run| && Enabled(run[i], a) && Kills(run[i], a, t)
    ensures t.child < |run[i].children| && !run[i].children[t.child].reaped
    ensures forall c :: 0 <= c < |run[i].children| && !run[i].children[c].reaped && run[i].children[c].pid == t.pid ==>
              c == t.child
    ensures run[i].children[t.child].pid == t.pid
  {
    RunKeepsInv(run, i);
    var s := run[i];
    assert Aims(s, t);
    forall c | 0 <= c < |s.children| && !s.children[c].reaped && s.children[c].pid == t.pid ensures c == t.child {
      assert c < t.child || t.child < c || c == t.child;
    }
  }

  /** A child is reaped without a request that succeeded only when it is asynchronous and nothing of this process holds
      it any more; an owner that still holds its child, and every blocking one, reaps after a request that succeeded. */
  lemma ReapsFollowRequests(run: seq<State>, i: nat, c: nat)
    requires Run(run) && i < |run| && c < |run[i].children| && run[i].children[c].reaped
    ensures run[i].children[c].attempts > 0
    ensures !run[i].children[c].granted ==>
              && run[i].children[c].kind.Async?
              && forall id :: id in run[i].owners && run[i].owners[id].child == c ==> run[i].owners[id].hold.Gone?
  {
    RunKeepsInv(run, i);
    var s := run[i];
    forall id | id in s.owners && s.owners[id].child == c && !s.children[c].granted ensures s.owners[id].hold.Gone? {
    }
  }

  ghost predicate GrantsAreBoth(children: seq<Child>) {
    forall c :: 0 <= c < |children| ==> (children[c].granted <==> children[c].both)
  }

  lemma RequestGrantsBoth(children: seq<Child>, t: Tree, a: Answer)
    requires GrantsAreBoth(children)
    ensures GrantsAreBoth(Request(children, t, a))
  {
  }

  lemma RequestAllGrantsBoth(children: seq<Child>, trees: Registry, answers: nat -> Answer)
    requires GrantsAreBoth(children)
    ensures GrantsAreBoth(RequestAll(children, trees, answers))
  {
    if trees.Some? {
      forall c ensures GrantedIn(trees.value, answers, c) <==> BothIn(trees.value, answers, c) {
      }
    }
  }

  lemma StepGrantsBoth(s: State, a: Act)
    requires GrantsAreBoth(s.children) && Enabled(s, a)
    ensures GrantsAreBoth(Do(s, a).children)
  {
    match a
    case CleanUp(answer, _) => RequestGrantsBoth(s.children, s.start.value.tree, answer);
    case DropPartial(answer) => RequestGrantsBoth(s.children, s.start.value.tree, answer);
    case Sweep(answers) => RequestAllGrantsBoth(s.children, s.trees, answers);
    case Release(id, answer) =>
      if s.trees.Some? && id in s.trees.value {
        RequestGrantsBoth(s.children, s.trees.value[id], answer);
      }
    case GiveUp(id, answer) =>
      if s.trees.Some? && id in s.trees.value {
        RequestGrantsBoth(s.children, s.trees.value[id], answer);
      }
    case _ =>
  }

  /** In every run a request is granted, and so a blocking owner may reap, only when the kills of the group and of the leader
      both succeeded. */
  lemma {:induction false} AGrantIsBothKills(run: seq<State>, i: nat)
    requires Run(run) && i < |run|
    ensures forall c :: 0 <= c < |run[i].children| ==> (run[i].children[c].granted <==> run[i].children[c].both)
    ensures forall c :: 0 <= c < |run[i].children| && run[i].children[c].reaped && run[i].children[c].kind.Blocking? ==>
              run[i].children[c].both
  {
    RunKeepsInv(run, i);
    if i > 0 {
      AGrantIsBothKills(run, i - 1);
      assert Next(run[i - 1], run[i - 1 + 1]);
      var a :| Enabled(run[i - 1], a) && run[i] == Do(run[i - 1], a);
      StepGrantsBoth(run[i - 1], a);
    }
  }

  // A step that reaps `c` although no request of it succeeded.
  ghost predicate ReapsUngranted(s: State, a: Act, c: nat) {
    && Enabled(s, a) && c < |Do(s, a).children|
    && Do(s, a).children[c].reaped && !Do(s, a).children[c].granted
  }

  // Nothing of this process holds the child: no owner that is not gone, and no start.
  ghost predicate Abandoned(s: State, c: nat) {
    && (forall id :: id in s.owners && s.owners[id].child == c ==> s.owners[id].hold.Gone?)
    && (s.start.Some? ==> ChildOf(s.start.value) != Some(c))
  }

  // No other step reaps an ungranted child: a freed owner's is granted, and a cleanup reaps on a grant.
  lemma OnlyAnOrphanReapIsUngranted(s: State, a: Act, c: nat)
    requires Inv(s) && c < |s.children| && !s.children[c].reaped && ReapsUngranted(s, a, c)
    ensures a == OrphanReap(c)
  {
    match a
    case CleanUp(_, _) => CleanUpRequests(s, a);
    case DropPartial(_) => CleanUpRequests(s, a);
    case Sweep(answers) => RequestAllGrows(s.children, s.trees, answers);
    case Release(id, answer) => RequestOneGrows(s, id, answer);
    case GiveUp(id, answer) => RequestOneGrows(s, id, answer);
    case _ =>
  }

  /** Exactly when a child can be reaped without a request that succeeded: it is asynchronous, every owner it had is gone,
      and no start holds it. In every run, for every child not yet reaped that no request has been granted on. */
  lemma UngrantedReapsExactly(run: seq<State>, i: nat, c: nat)
    requires Run(run) && i < |run| && c < |run[i].children|
    requires !run[i].children[c].reaped && !run[i].children[c].granted
    ensures (exists a :: ReapsUngranted(run[i], a, c)) <==> run[i].children[c].kind.Async? && Abandoned(run[i], c)
  {
    RunKeepsInv(run, i);
    var s := run[i];
    if a :| ReapsUngranted(s, a, c) {
      OnlyAnOrphanReapIsUngranted(s, a, c);
    }
    if s.children[c].kind.Async? && Abandoned(s, c) {
      assert ReapsUngranted(s, OrphanReap(c), c);
    }
  }

  // The states of a run that ends in the exception.
  const REFUSED: Answer := Answer(false, false)

  function Witness(i: nat): State {
    var child := Child(7, Async, false, 0, false, false);
    var tree := Tree(0, 7, false);
    var s := BEGIN.(children := if i < 2 then [] else [child]);
    match i
    case 0 => BEGIN
    case 1 => s.(start := Some(Reserved))
    case 2 => s.(start := Some(Created(0)))
    case 3 => s.(start := Some(Adopted(0)))
    case 4 => s.(trees := Some(map[0 := tree]), owners := map[0 := Owner(0, Holding)], next := 1)
    case 5 => s.(children := [child.(attempts := 1)], trees := Some(map[0 := tree]),
                 owners := map[0 := Owner(0, Refused)], next := 1)
    case 6 => s.(children := [child.(attempts := 2)], owners := map[0 := Owner(0, Gone)], next := 1)
    case _ => s.(children := [child.(attempts := 2, reaped := true)], owners := map[0 := Owner(0, Gone)], next := 1)
  }

  lemma WitnessStarts()
    ensures Next(Witness(0), Witness(1)) && Next(Witness(1), Witness(2)) && Next(Witness(2), Witness(3))
  {
    assert Do(Witness(0), Reserve) == Witness(1);
    assert Enabled(Witness(1), Create(7, Async)) && Do(Witness(1), Create(7, Async)) == Witness(2);
    assert Enabled(Witness(2), Adopt) && Do(Witness(2), Adopt) == Witness(3);
  }

  lemma WitnessRegisters()
    ensures Next(Witness(3), Witness(4))
  {
    assert Enabled(Witness(3), Register);
    assert Do(Witness(3), Register).trees.value == Witness(4).trees.value;
    assert Do(Witness(3), Register).owners == Witness(4).owners;
    assert Do(Witness(3), Register) == Witness(4);
  }

  lemma WitnessIsRefused()
    ensures Next(Witness(4), Witness(5))
  {
    assert Enabled(Witness(4), Release(0, REFUSED));
    assert Do(Witness(4), Release(0, REFUSED)).trees.value == Witness(5).trees.value;
    assert Do(Witness(4), Release(0, REFUSED)).owners == Witness(5).owners;
    assert Do(Witness(4), Release(0, REFUSED)).children == Witness(5).children;
    assert Do(Witness(4), Release(0, REFUSED)) == Witness(5);
  }

  lemma WitnessGivesUp()
    ensures Next(Witness(5), Witness(6))
  {
    assert Enabled(Witness(5), GiveUp(0, REFUSED));
    assert Do(Witness(5), GiveUp(0, REFUSED)).trees.value == Witness(6).trees.value;
    assert Do(Witness(5), GiveUp(0, REFUSED)).owners == Witness(6).owners;
    assert Do(Witness(5), GiveUp(0, REFUSED)).children == Witness(6).children;
    assert Do(Witness(5), GiveUp(0, REFUSED)) == Witness(6);
  }

  lemma WitnessIsReaped()
    ensures Next(Witness(6), Witness(7))
  {
    assert Enabled(Witness(6), OrphanReap(0));
    assert Do(Witness(6), OrphanReap(0)).children == Witness(7).children;
    assert Do(Witness(6), OrphanReap(0)) == Witness(7);
  }

  /** That exception is real: an asynchronous owner whose every request fails drops its child to the runtime, which reaps
      it although no request succeeded. */
  lemma AnAsyncChildMayBeReapedUngranted() returns (run: seq<State>)
    ensures Run(run)
    ensures var last := run[|run| - 1];
            |last.children| == 1 && last.children[0].reaped && !last.children[0].granted
  {
    WitnessStarts();
    WitnessRegisters();
    WitnessIsRefused();
    WitnessGivesUp();
    WitnessIsReaped();
    run := [Witness(0), Witness(1), Witness(2), Witness(3), Witness(4), Witness(5), Witness(6), Witness(7)];
  }
}
