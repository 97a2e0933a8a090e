/** Runs of the roster: connections register, report presence and leave in any order. A serial is drawn before the
    roster's lock is taken, so connections may enter out of the order of their serials. */
module RosterRuns {
  import opened Wrappers
  import opened Roster

  datatype State = State(
    r: Inner,
    // Serials drawn and not yet registered, and the next one.
    drawn: set<nat>,
    next: nat,
    // History: the owner each registration handed out, and the owners returned as ended, in order.
    handed: map<nat, nat>,
    ended: seq<nat>)

  const BEGIN: State := State(EMPTY, {}, 1, map[], [])

  datatype Act =
    | Draw
    | Register(serial: nat, role: string, host: Option<string>, instance: Option<string>, name: Option<string>)
    | Drop(serial: nat, now: Instant, gone: Option<WindowKey>)
    | Touch(serial: nat, at: Instant)

  ghost predicate Enabled(s: State, a: Act) {
    match a
    case Register(serial, _, _, _, _) => serial in s.drawn
    case Drop(serial, now, gone) => MayLeave(s.r, serial, now, gone)
    case _ => true
  }

  ghost function Do(s: State, a: Act): State
    requires Enabled(s, a)
  {
    match a
    case Draw => s.(drawn := s.drawn + {s.next}, next := s.next + 1)
    case Register(serial, role, host, instance, name) =>
      var info := Info(serial, role, host, instance, name, None);
      var r := Arrived(s.r, info);
      s.(r := r, drawn := s.drawn - {serial}, handed := s.handed[serial := OwnerOf(r, info)])
    case Drop(serial, now, gone) =>
      var end := EndedBy(s.r, serial, now, gone);
      s.(r := Left(s.r, serial, now, gone), ended := s.ended + (if end.Some? then [end.value] else []))
    case Touch(serial, at) => s.(r := Reported(s.r, serial, at))
  }

  ghost predicate Next(s: State, t: State) {
    exists a :: Enabled(s, a) && t == Do(s, a)
  }

  ghost predicate Run(run: seq<State>) {
    && |run| > 0 && run[0] == BEGIN
    && forall i :: 0 <= i < |run| - 1 ==> Next(run[i], run[i + 1])
  }

  // ---------------------------------------------------------------- the invariant

  function ConnsOf(r: Inner, key: WindowKey): set<nat> {
    set c | c in r.conns && KeyOf(r.conns[c]) == Some(key)
  }

  // Who may own pages: a remembered window, or a live connection of no window.
  datatype Holder = OfWindow(key: WindowKey) | OfConnection(serial: nat)

  ghost predicate Holds(r: Inner, h: Holder, owner: nat) {
    match h
    case OfWindow(key) => key in r.windows && r.windows[key].sites == owner
    case OfConnection(serial) => serial in r.conns && KeyOf(r.conns[serial]).None? && owner == serial
  }

  ghost predicate Held(r: Inner, owner: nat) { exists h :: Holds(r, h, owner) }

  ghost predicate Serials(s: State) {
    && (forall c :: c in s.r.conns ==> s.r.conns[c].serial == c && c in s.handed)
    && (forall c :: c in s.handed ==> c < s.next && c !in s.drawn)
    && (forall c :: c in s.drawn ==> c < s.next)
  }

  // A window's live count is its connections', it is marked away exactly at none, and few are away.
  ghost predicate Counts(r: Inner) {
    && (forall key :: key in r.windows ==> r.windows[key].live == |ConnsOf(r, key)|)
    && (forall c :: c in r.conns && KeyOf(r.conns[c]).Some? ==> KeyOf(r.conns[c]).value in r.windows)
    && MarkedAway(r.windows)
    && |AwayKeys(r.windows)| <= AWAY
  }

  ghost predicate Owners(s: State) {
    && (forall h, o :: Holds(s.r, h, o) ==> o in s.handed && o !in s.ended)
    && (forall h, g, o :: Holds(s.r, h, o) && Holds(s.r, g, o) ==> h == g)
    && (forall i, j :: 0 <= i < j < |s.ended| ==> s.ended[i] != s.ended[j])
    && (forall o :: o in s.ended ==> o in s.handed)
    && (forall c :: c in s.handed ==> Held(s.r, s.handed[c]) || s.handed[c] in s.ended)
    && (forall c :: c in s.r.conns && c in s.handed ==> s.handed[c] == OwnerOf(s.r, s.r.conns[c]))
  }

  // Every named connection of a window carries the window's own last use.
  ghost predicate Stamps(s: State) {
    forall c :: c in s.r.conns && Named(s.r.conns[c]) && KeyOf(s.r.conns[c]).Some?
                && KeyOf(s.r.conns[c]).value in s.r.windows ==>
      s.r.conns[c].used == s.r.windows[KeyOf(s.r.conns[c]).value].used
  }

  ghost predicate Inv(s: State) { Serials(s) && Counts(s.r) && Owners(s) && Stamps(s) }

  // ---------------------------------------------------------------- a registration

  lemma ArrivedCountsConns(r: Inner, info: Info, key: WindowKey)
    requires Counts(r) && info.serial !in r.conns && key in Arrived(r, info).windows
    ensures Arrived(r, info).windows[key].live == |ConnsOf(Arrived(r, info), key)|
  {
    var t := Arrived(r, info);
    if KeyOf(info) == Some(key) {
      assert ConnsOf(t, key) == ConnsOf(r, key) + {info.serial};
      if key !in r.windows {
        assert ConnsOf(r, key) == {};
      }
    } else {
      assert ConnsOf(t, key) == ConnsOf(r, key);
    }
  }

  lemma ArrivedKeepsCounts(r: Inner, info: Info)
    requires Counts(r) && info.serial !in r.conns
    ensures Counts(Arrived(r, info))
  {
    var t := Arrived(r, info);
    forall key | key in t.windows ensures t.windows[key].live == |ConnsOf(t, key)| {
      ArrivedCountsConns(r, info, key);
    }
    assert AwayKeys(t.windows) <= AwayKeys(r.windows);
    SubsetIsNoLarger(AwayKeys(t.windows), AwayKeys(r.windows));
  }

  lemma RegisterKeepsSerials(s: State, a: Act)
    requires Serials(s) && Enabled(s, a) && a.Register?
    ensures Serials(Do(s, a)) && a.serial !in s.r.conns && a.serial !in s.handed
  {
  }

  // A registration adds at most one holder, of an owner nobody had.
  lemma RegisterHolders(s: State, a: Act, h: Holder, o: nat)
    requires Serials(s) && Counts(s.r) && Enabled(s, a) && a.Register?
    requires Holds(Do(s, a).r, h, o)
    ensures Holds(s.r, h, o) || o == a.serial
    ensures !Holds(s.r, h, o) ==>
              h == match KeyOf(Info(a.serial, a.role, a.host, a.instance, a.name, None))
                   case Some(key) => OfWindow(key)
                   case None => OfConnection(a.serial)
  {
  }

  lemma RegisterKeepsHolders(s: State, a: Act, h: Holder, o: nat)
    requires Serials(s) && Enabled(s, a) && a.Register? && Holds(s.r, h, o)
    ensures Holds(Do(s, a).r, h, o)
  {
    assert a.serial !in s.r.conns;
  }

  lemma RegisterHandsOut(s: State, a: Act)
    requires Serials(s) && Enabled(s, a) && a.Register?
    ensures var t := Do(s, a);
            && Held(t.r, t.handed[a.serial])
            && (t.handed[a.serial] == a.serial || Held(s.r, t.handed[a.serial]))
            && t.handed[a.serial] == OwnerOf(t.r, t.r.conns[a.serial])
  {
    var t := Do(s, a);
    match KeyOf(Info(a.serial, a.role, a.host, a.instance, a.name, None))
    case Some(key) =>
      assert Holds(t.r, OfWindow(key), t.handed[a.serial]);
      if key in s.r.windows {
        assert Holds(s.r, OfWindow(key), t.handed[a.serial]);
      }
    case None => assert Holds(t.r, OfConnection(a.serial), a.serial);
  }

  lemma RegisterKeepsHolding(s: State, a: Act)
    requires Serials(s) && Counts(s.r) && Owners(s) && Enabled(s, a) && a.Register?
    ensures forall h, o :: Holds(Do(s, a).r, h, o) ==> o in Do(s, a).handed && o !in s.ended
    ensures forall h, g, o :: Holds(Do(s, a).r, h, o) && Holds(Do(s, a).r, g, o) ==> h == g
  {
    var t := Do(s, a);
    forall h, o | Holds(t.r, h, o) ensures o in t.handed && o !in s.ended {
      RegisterHolders(s, a, h, o);
    }
    forall h, g, o | Holds(t.r, h, o) && Holds(t.r, g, o) ensures h == g {
      RegisterHolders(s, a, h, o);
      RegisterHolders(s, a, g, o);
    }
  }

  lemma RegisterKeepsOwners(s: State, a: Act)
    requires Serials(s) && Counts(s.r) && Owners(s) && Enabled(s, a) && a.Register?
    ensures Owners(Do(s, a))
  {
    var t := Do(s, a);
    assert a.serial !in s.handed && a.serial !in s.r.conns && t.ended == s.ended;
    RegisterKeepsHolding(s, a);
    RegisterHandsOut(s, a);
    forall c | c in t.handed ensures Held(t.r, t.handed[c]) || t.handed[c] in t.ended {
      if c != a.serial && Held(s.r, s.handed[c]) {
        var h :| Holds(s.r, h, s.handed[c]);
        RegisterKeepsHolders(s, a, h, s.handed[c]);
      }
    }
    forall c | c in t.r.conns && c in t.handed ensures t.handed[c] == OwnerOf(t.r, t.r.conns[c]) {
      if c != a.serial {
        assert t.r.conns[c] == s.r.conns[c];
      }
    }
  }

  lemma RegisterKeepsStamps(s: State, a: Act)
    requires Serials(s) && Counts(s.r) && Stamps(s) && Enabled(s, a) && a.Register?
    ensures Stamps(Do(s, a))
  {
    assert a.serial !in s.r.conns;
  }

  // ---------------------------------------------------------------- a departure

  lemma PartedCounts(s: State, serial: nat, now: Instant)
    requires Serials(s) && Counts(s.r) && serial in s.r.conns
    ensures var rest := s.r.(conns := s.r.conns - {serial});
            var p := Parted(rest, s.r.conns[serial], now);
            && p.conns == rest.conns && p.windows.Keys == s.r.windows.Keys
            && (forall key :: key in p.windows ==> p.windows[key].live == |ConnsOf(p, key)|)
            && MarkedAway(p.windows)
            && |AwayKeys(p.windows)| <= AWAY + 1
            && (|AwayKeys(p.windows)| > AWAY ==> Forgets(rest, s.r.conns[serial], now))
  {
    var info := s.r.conns[serial];
    var rest := s.r.(conns := s.r.conns - {serial});
    var p := Parted(rest, info, now);
    forall key | key in p.windows ensures p.windows[key].live == |ConnsOf(p, key)| {
      if KeyOf(info) == Some(key) {
        assert ConnsOf(p, key) == ConnsOf(s.r, key) - {serial};
        assert serial in ConnsOf(s.r, key);
      } else {
        assert ConnsOf(p, key) == ConnsOf(s.r, key);
      }
    }
    match KeyOf(info)
    case None => assert AwayKeys(p.windows) == AwayKeys(s.r.windows);
    case Some(key) =>
      if p.windows[key].live == 0 {
        assert AwayKeys(p.windows) <= AwayKeys(s.r.windows) + {key};
        SubsetIsNoLarger(AwayKeys(p.windows), AwayKeys(s.r.windows) + {key});
      } else {
        assert AwayKeys(p.windows) <= AwayKeys(s.r.windows);
        SubsetIsNoLarger(AwayKeys(p.windows), AwayKeys(s.r.windows));
      }
  }

  lemma DropKeepsCounts(s: State, serial: nat, now: Instant, gone: Option<WindowKey>)
    requires Serials(s) && Counts(s.r) && Enabled(s, Drop(serial, now, gone))
    ensures Serials(Do(s, Drop(serial, now, gone))) && Counts(Do(s, Drop(serial, now, gone)).r)
    ensures gone.Some? ==> gone.value in s.r.windows && ConnsOf(Do(s, Drop(serial, now, gone)).r, gone.value) == {}
  {
    var t := Do(s, Drop(serial, now, gone));
    var p := Parted(s.r.(conns := s.r.conns - {serial}), s.r.conns[serial], now);
    PartedCounts(s, serial, now);
    assert t.r.conns == p.conns;
    forall key ensures ConnsOf(t.r, key) == ConnsOf(p, key) {
    }
    if gone.Some? {
      assert p.windows[gone.value].live == 0;
      assert |ConnsOf(p, gone.value)| == 0;
      assert AwayKeys(t.r.windows) == AwayKeys(p.windows) - {gone.value};
    }
    forall c | c in t.r.conns && KeyOf(t.r.conns[c]).Some? ensures KeyOf(t.r.conns[c]).value in t.r.windows {
      if gone.Some? {
        assert c !in ConnsOf(p, gone.value);
      }
    }
  }

  // Parting leaves every window and its owner in place.
  lemma PartedKeepsOwners(r: Inner, info: Info, now: Instant)
    ensures var p := Parted(r, info, now);
            && p.conns == r.conns && p.windows.Keys == r.windows.Keys
            && forall key :: key in r.windows ==> p.windows[key].sites == r.windows[key].sites
  {
  }

  // A departure takes an owner from no holder but the one whose owner it returns.
  lemma DropHolders(s: State, serial: nat, now: Instant, gone: Option<WindowKey>, h: Holder, o: nat)
    requires Serials(s) && Counts(s.r) && Enabled(s, Drop(serial, now, gone))
    ensures var t := Do(s, Drop(serial, now, gone));
            && (Holds(t.r, h, o) ==> Holds(s.r, h, o))
            && (Holds(s.r, h, o) && !Holds(t.r, h, o) ==> EndedBy(s.r, serial, now, gone) == Some(o))
  {
    PartedKeepsOwners(s.r.(conns := s.r.conns - {serial}), s.r.conns[serial], now);
    match h
    case OfWindow(key) =>
    case OfConnection(c) => assert c in s.r.conns ==> s.r.conns[c].serial == c;
  }

  // And from that one it takes it.
  lemma DropLoses(s: State, serial: nat, now: Instant, gone: Option<WindowKey>)
    requires Serials(s) && Counts(s.r) && Enabled(s, Drop(serial, now, gone))
    ensures var t := Do(s, Drop(serial, now, gone));
            var end := EndedBy(s.r, serial, now, gone);
            end.Some? ==>
              var lost := if KeyOf(s.r.conns[serial]).None? then OfConnection(serial) else OfWindow(gone.value);
              Holds(s.r, lost, end.value) && !Holds(t.r, lost, end.value)
  {
    PartedCounts(s, serial, now);
  }

  lemma DropEndsAHolder(s: State, serial: nat, now: Instant, gone: Option<WindowKey>)
    requires Serials(s) && Counts(s.r) && Owners(s) && Enabled(s, Drop(serial, now, gone))
    ensures var end := EndedBy(s.r, serial, now, gone);
            end.Some? ==>
              && end.value in s.handed && end.value !in s.ended
              && forall h :: !Holds(Do(s, Drop(serial, now, gone)).r, h, end.value)
  {
    var t := Do(s, Drop(serial, now, gone));
    var end := EndedBy(s.r, serial, now, gone);
    if end.Some? {
      var lost := if KeyOf(s.r.conns[serial]).None? then OfConnection(serial) else OfWindow(gone.value);
      DropLoses(s, serial, now, gone);
      assert Holds(s.r, lost, end.value);
      forall h ensures !Holds(t.r, h, end.value) {
        DropHolders(s, serial, now, gone, h, end.value);
        assert Holds(s.r, h, end.value) ==> h == lost;
      }
    }
  }

  lemma DropKeepsHeld(s: State, serial: nat, now: Instant, gone: Option<WindowKey>)
    requires Serials(s) && Counts(s.r) && Owners(s) && Enabled(s, Drop(serial, now, gone))
    ensures var t := Do(s, Drop(serial, now, gone));
            forall c :: c in t.handed ==> Held(t.r, t.handed[c]) || t.handed[c] in t.ended
  {
    var t := Do(s, Drop(serial, now, gone));
    forall c | c in t.handed ensures Held(t.r, t.handed[c]) || t.handed[c] in t.ended {
      if Held(s.r, s.handed[c]) {
        var h :| Holds(s.r, h, s.handed[c]);
        DropHolders(s, serial, now, gone, h, s.handed[c]);
      }
    }
  }

  lemma DropKeepsOwners(s: State, serial: nat, now: Instant, gone: Option<WindowKey>)
    requires Serials(s) && Counts(s.r) && Owners(s) && Enabled(s, Drop(serial, now, gone))
    ensures Owners(Do(s, Drop(serial, now, gone)))
  {
    var t := Do(s, Drop(serial, now, gone));
    DropEndsAHolder(s, serial, now, gone);
    DropKeepsHeld(s, serial, now, gone);
    DropKeepsPages(s, serial, now, gone);
    forall h, o | Holds(t.r, h, o) ensures Holds(s.r, h, o) && o in t.handed && o !in t.ended {
      DropHolders(s, serial, now, gone, h, o);
    }
  }

  // A connection that stays keeps the owner of its pages.
  lemma DropKeepsPages(s: State, serial: nat, now: Instant, gone: Option<WindowKey>)
    requires Serials(s) && Counts(s.r) && Enabled(s, Drop(serial, now, gone))
    ensures var t := Do(s, Drop(serial, now, gone));
            forall c :: c in t.r.conns ==> c in s.r.conns && OwnerOf(t.r, t.r.conns[c]) == OwnerOf(s.r, s.r.conns[c])
  {
    DropKeepsCounts(s, serial, now, gone);
    PartedCounts(s, serial, now);
  }

  lemma DropKeepsStamps(s: State, serial: nat, now: Instant, gone: Option<WindowKey>)
    requires Stamps(s) && Enabled(s, Drop(serial, now, gone))
    ensures Stamps(Do(s, Drop(serial, now, gone)))
  {
  }

  // ---------------------------------------------------------------- presence

  // A report moves no connection, window, count or owner: only last uses.
  lemma ReportedShape(r: Inner, serial: nat, at: Instant)
    ensures var t := Reported(r, serial, at);
            && t.conns.Keys == r.conns.Keys && t.windows.Keys == r.windows.Keys
            && (forall c :: c in r.conns ==> t.conns[c] == r.conns[c].(used := t.conns[c].used))
            && (forall k :: k in r.windows ==> t.windows[k] == r.windows[k].(used := t.windows[k].used))
  {
  }

  // Last uses have no part in the counts.
  lemma UsesDoNotCount(r: Inner, t: Inner)
    requires Counts(r) && t.conns.Keys == r.conns.Keys && t.windows.Keys == r.windows.Keys
    requires forall c :: c in r.conns ==> t.conns[c] == r.conns[c].(used := t.conns[c].used)
    requires forall k :: k in r.windows ==> t.windows[k] == r.windows[k].(used := t.windows[k].used)
    ensures Counts(t)
  {
    forall key ensures ConnsOf(t, key) == ConnsOf(r, key) {
    }
    assert AwayKeys(t.windows) == AwayKeys(r.windows);
  }

  lemma TouchKeepsCounts(s: State, serial: nat, at: Instant)
    requires Serials(s) && Counts(s.r)
    ensures Serials(Do(s, Touch(serial, at))) && Counts(Do(s, Touch(serial, at)).r)
  {
    var t := Reported(s.r, serial, at);
    ReportedShape(s.r, serial, at);
    UsesDoNotCount(s.r, t);
  }

  lemma TouchKeepsOwners(s: State, serial: nat, at: Instant)
    requires Owners(s)
    ensures Owners(Do(s, Touch(serial, at)))
  {
    var t := Do(s, Touch(serial, at));
    ReportedShape(s.r, serial, at);
    forall h, o ensures Holds(t.r, h, o) <==> Holds(s.r, h, o) {
    }
    forall c | c in t.handed ensures Held(t.r, t.handed[c]) || t.handed[c] in t.ended {
      if Held(s.r, s.handed[c]) {
        var h :| Holds(s.r, h, s.handed[c]);
        assert Holds(t.r, h, t.handed[c]);
      }
    }
  }

  lemma TouchKeepsStamps(s: State, serial: nat, at: Instant)
    requires Stamps(s)
    ensures Stamps(Do(s, Touch(serial, at)))
  {
  }

  lemma StepKeepsInv(s: State, a: Act)
    requires Inv(s) && Enabled(s, a)
    ensures Inv(Do(s, a))
  {
    match a
    case Draw =>
    case Register(_, _, _, _, _) =>
      RegisterKeepsSerials(s, a);
      ArrivedKeepsCounts(s.r, Info(a.serial, a.role, a.host, a.instance, a.name, None));
      RegisterKeepsOwners(s, a);
      RegisterKeepsStamps(s, a);
    case Drop(serial, now, gone) =>
      DropKeepsCounts(s, serial, now, gone);
      DropKeepsOwners(s, serial, now, gone);
      DropKeepsStamps(s, serial, now, gone);
    case Touch(serial, at) =>
      TouchKeepsCounts(s, serial, at);
      TouchKeepsOwners(s, serial, at);
      TouchKeepsStamps(s, serial, at);
  }

  lemma {:induction false} RunKeepsInv(run: seq<State>, i: nat)
    requires Run(run) && i < |run|
    ensures Inv(run[i])
  {
    if i > 0 {
      RunKeepsInv(run, i - 1);
      assert Next(run[i - 1], run[i - 1 + 1]);
      var a :| Enabled(run[i - 1], a) && run[i] == Do(run[i - 1], a);
      StepKeepsInv(run[i - 1], a);
    }
  }

  // ---------------------------------------------------------------- what every run keeps

  /** A window's live count is its connections', it carries the instant it was left exactly when it has none, at most
      `AWAY` windows are away, and a window with a live connection is remembered. */
  lemma WindowsAreCounted(run: seq<State>, i: nat)
    requires Run(run) && i < |run|
    ensures forall key :: key in run[i].r.windows ==>
              && run[i].r.windows[key].live == |ConnsOf(run[i].r, key)|
              && (run[i].r.windows[key].leftAt.Some? <==> ConnsOf(run[i].r, key) == {})
    ensures |AwayKeys(run[i].r.windows)| <= AWAY
    ensures forall key :: ConnsOf(run[i].r, key) != {} ==> key in run[i].r.windows
  {
    RunKeepsInv(run, i);
  }

  /** Page owners are conserved: every owner ever handed out has exactly one holder, a remembered window or a live
      connection of no window, or was returned as ended, exactly once, and then has none. Each live connection still
      opens the pages of the owner its registration handed out. */
  lemma OwnersAreConserved(run: seq<State>, i: nat, c: nat)
    requires Run(run) && i < |run| && c in run[i].handed
    ensures Held(run[i].r, run[i].handed[c]) <==> run[i].handed[c] !in run[i].ended
    ensures forall h, g :: Holds(run[i].r, h, run[i].handed[c]) && Holds(run[i].r, g, run[i].handed[c]) ==> h == g
    ensures forall k, l :: 0 <= k < |run[i].ended| && 0 <= l < |run[i].ended| && run[i].ended[k] == run[i].ended[l] ==>
              k == l
    ensures c in run[i].r.conns ==> run[i].handed[c] == OwnerOf(run[i].r, run[i].r.conns[c])
  {
    RunKeepsInv(run, i);
  }

  // An owner that ended is never handed out again.
  lemma AnEndedOwnerIsNotHandedOut(run: seq<State>, i: nat, a: Act)
    requires Run(run) && i < |run| && Enabled(run[i], a) && a.Register?
    ensures Do(run[i], a).handed[a.serial] !in run[i].ended
  {
    RunKeepsInv(run, i);
    StepKeepsInv(run[i], a);
    RegisterHandsOut(run[i], a);
  }

  // Every named connection of a window carries the window's own last use.
  lemma AWindowsUseIsOneFact(run: seq<State>, i: nat, c: nat)
    requires Run(run) && i < |run| && c in run[i].r.conns
    requires Named(run[i].r.conns[c]) && KeyOf(run[i].r.conns[c]).Some?
    ensures KeyOf(run[i].r.conns[c]).value in run[i].r.windows
    ensures run[i].r.conns[c].used == run[i].r.windows[KeyOf(run[i].r.conns[c]).value].used
  {
    RunKeepsInv(run, i);
  }

  // ---------------------------------------------------------------- runs by name

  ghost predicate Reaches(t: State) { exists run :: Run(run) && run[|run| - 1] == t }

  lemma ReachesBegin()
    ensures Reaches(BEGIN)
  {
    assert Run([BEGIN]) && [BEGIN][|[BEGIN]| - 1] == BEGIN;
  }

  lemma ReachesOn(s: State, a: Act, t: State)
    requires Reaches(s) && Enabled(s, a) && t == Do(s, a)
    ensures Reaches(t)
  {
    var run :| Run(run) && run[|run| - 1] == s;
    var more := run + [t];
    forall i | 0 <= i < |more| - 1 ensures Next(more[i], more[i + 1]) {
      if i < |run| - 1 {
        assert Next(run[i], run[i + 1]);
      }
    }
    assert Run(more) && more[|more| - 1] == t;
  }
}
