/** The choice of a window for a command that names none, and what makes that choice right for a roster. */
module Routing {
  import opened Wrappers
  import opened Roster
  import RosterRuns

  // The last use of an active frontend is at most this many seconds old.
  const ACTIVE_WINDOW: int := 300

  datatype ActiveFrontend = ActiveFrontend(serial: nat, handle: string)

  datatype Why = Used | LastUsed | LastConnected | SameComputer

  datatype Route = Every | One(to: ActiveFrontend, why: Why) | Nowhere(away: Option<string>)

  // `Absent(Some(host))`: the person left that computer, and nothing is open there now.
  datatype Answer = Found(to: ActiveFrontend, why: Why) | Absent(away: Option<string>)

  datatype Snapshot = Snapshot(
    clients: seq<Info>,
    active: Option<ActiveFrontend>,
    away: Option<(string, Instant)>)

  // ---------------------------------------------------------------- the orders

  // Never used comes before any use.
  predicate UsedBefore(a: Option<Instant>, b: Option<Instant>) {
    b.Some? && (a.None? || a.value < b.value)
  }

  // The one ordering: last used, then the later connection.
  predicate Ranks(a: Info, b: Info) {
    UsedBefore(a.used, b.used) || (a.used == b.used && a.serial <= b.serial)
  }

  function Highest(infos: seq<Info>): Option<Info> {
    if infos == [] then None
    else
      var c := infos[|infos| - 1];
      match Highest(infos[..|infos| - 1])
      case None => Some(c)
      case Some(best) => if Ranks(best, c) then Some(c) else Some(best)
  }

  function Newest(infos: seq<Info>): Option<Info> {
    if infos == [] then None
    else
      var c := infos[|infos| - 1];
      match Newest(infos[..|infos| - 1])
      case None => Some(c)
      case Some(best) => if best.serial <= c.serial then Some(c) else Some(best)
  }

  function Filter(infos: seq<Info>, keep: Info -> bool): seq<Info> {
    if infos == [] then []
    else
      var c := infos[|infos| - 1];
      Filter(infos[..|infos| - 1], keep) + if keep(c) then [c] else []
  }

  lemma {:induction false} FilterKeeps(infos: seq<Info>, keep: Info -> bool)
    ensures forall c :: c in Filter(infos, keep) <==> c in infos && keep(c)
  {
    if infos != [] {
      FilterKeeps(infos[..|infos| - 1], keep);
      assert infos == infos[..|infos| - 1] + [infos[|infos| - 1]];
    }
  }

  lemma {:induction false} HighestIsHighest(infos: seq<Info>)
    ensures Highest(infos).None? <==> infos == []
    ensures Highest(infos).Some? ==>
              Highest(infos).value in infos && forall c :: c in infos ==> Ranks(c, Highest(infos).value)
  {
    if infos != [] {
      HighestIsHighest(infos[..|infos| - 1]);
      assert infos == infos[..|infos| - 1] + [infos[|infos| - 1]];
    }
  }

  lemma {:induction false} NewestIsNewest(infos: seq<Info>)
    ensures Newest(infos).None? <==> infos == []
    ensures Newest(infos).Some? ==>
              Newest(infos).value in infos && forall c :: c in infos ==> c.serial <= Newest(infos).value.serial
  {
    if infos != [] {
      NewestIsNewest(infos[..|infos| - 1]);
      assert infos == infos[..|infos| - 1] + [infos[|infos| - 1]];
    }
  }

  // ---------------------------------------------------------------- what the code answers

  function Target(info: Info): ActiveFrontend {
    ActiveFrontend(info.serial, if info.name.Some? then info.name.value else "")
  }

  function Windows(clients: seq<Info>): seq<Info> { Filter(clients, Named) }

  function OnHost(clients: seq<Info>, host: string): seq<Info> {
    Filter(Windows(clients), (c: Info) => c.host == Some(host))
  }

  function InUse(s: Snapshot): Answer {
    var live := Highest(Windows(s.clients));
    if s.away.Some? && (live.None? || !UsedBefore(Some(s.away.value.1), live.value.used)) then
      match Newest(OnHost(s.clients, s.away.value.0))
      case Some(c) => Found(Target(c), SameComputer)
      case None => Absent(Some(s.away.value.0))
    else
      match live
      case None => Absent(None)
      case Some(c) => Found(Target(c), if c.used.Some? then LastUsed else LastConnected)
  }

  predicate Pane(cmd: string) { cmd == "preview" || cmd == "reveal" }

  function WindowFor(s: Snapshot, cmd: string): Route {
    if cmd == "relaunch" then (if s.active.Some? then One(s.active.value, Used) else Nowhere(None))
    else if Pane(cmd) then Every
    else match InUse(s)
      case Found(to, why) => One(to, why)
      case Absent(away) => Nowhere(away)
  }

  predicate Recent(now: Instant, used: Option<Instant>) { used.Some? && now - used.value <= ACTIVE_WINDOW }

  // A frontend that declared any name, an empty one included, used recently.
  predicate MayBeActive(info: Info, now: Instant) { info.role == "fe" && info.name.Some? && Recent(now, info.used) }

  function ResolveActive(clients: seq<Info>, now: Instant): Option<ActiveFrontend> {
    match Highest(Filter(clients, (c: Info) => MayBeActive(c, now)))
    case Some(c) => Some(Target(c))
    case None => None
  }

  // ---------------------------------------------------------------- snapshots of a roster

  ghost predicate IsAway(r: Inner, key: WindowKey) { key in r.windows && r.windows[key].live == 0 }

  // A window away with the latest use of all away; which of several equally late is the table's own order.
  ghost predicate LatestAway(r: Inner, away: Option<(string, Instant)>) {
    if away.Some? then
      && (exists key :: IsAway(r, key) && key.0 == away.value.0 && r.windows[key].used == Some(away.value.1))
      && (forall key :: IsAway(r, key) ==> !UsedBefore(Some(away.value.1), r.windows[key].used))
    else
      forall key :: IsAway(r, key) ==> r.windows[key].used.None?
  }

  ghost predicate SnapshotOf(s: Snapshot, r: Inner, now: Instant) {
    && (forall i :: 0 <= i < |s.clients| ==>
          s.clients[i].serial in r.conns && s.clients[i] == r.conns[s.clients[i].serial])
    && (forall c :: c in r.conns ==> r.conns[c] in s.clients)
    && LatestAway(r, s.away)
    && s.active == ResolveActive(s.clients, now)
  }

  // ---------------------------------------------------------------- what the answer means

  // The last use of the window a connection speaks for: the window's own, or the connection's when it has none.
  function UseOf(r: Inner, c: Info): Option<Instant> {
    match KeyOf(c)
    case Some(key) => if key in r.windows then r.windows[key].used else c.used
    case None => c.used
  }

  ghost predicate LiveWindow(r: Inner, c: Info) { c.serial in r.conns && r.conns[c.serial] == c && Named(c) }

  // `c` speaks for the window used last among the live ones; of equals, the later connection.
  ghost predicate LeadsLive(r: Inner, c: Info) {
    && LiveWindow(r, c)
    && forall d :: LiveWindow(r, d) ==>
         UsedBefore(UseOf(r, d), UseOf(r, c)) || (UseOf(r, d) == UseOf(r, c) && d.serial <= c.serial)
  }

  // The window `key`, away, was used at least as late as every other window away and every live one.
  ghost predicate LeadsAway(r: Inner, key: WindowKey) {
    && IsAway(r, key) && r.windows[key].used.Some?
    && (forall k :: IsAway(r, k) ==> !UsedBefore(r.windows[key].used, r.windows[k].used))
    && (forall d :: LiveWindow(r, d) ==> !UsedBefore(r.windows[key].used, UseOf(r, d)))
  }

  ghost predicate NewestOnHost(r: Inner, c: Info, host: string) {
    && LiveWindow(r, c) && c.host == Some(host)
    && forall d :: LiveWindow(r, d) && d.host == Some(host) ==> d.serial <= c.serial
  }

  // When the answer is right for the roster, said without how it is found.
  ghost predicate Right(r: Inner, answer: Answer) {
    match answer
    case Found(to, SameComputer) =>
      exists key, c :: LeadsAway(r, key) && NewestOnHost(r, c, key.0) && to == Target(c)
    case Absent(Some(host)) =>
      exists key :: LeadsAway(r, key) && key.0 == host && forall d :: LiveWindow(r, d) ==> d.host != Some(host)
    case Found(to, why) =>
      && (forall key :: !LeadsAway(r, key))
      && (exists c :: LeadsLive(r, c) && to == Target(c) && why == if UseOf(r, c).Some? then LastUsed else LastConnected)
    case Absent(None) =>
      (forall key :: !LeadsAway(r, key)) && (forall d :: !LiveWindow(r, d))
  }

  ghost predicate Stamped(r: Inner) {
    && (forall c :: c in r.conns ==> r.conns[c].serial == c)
    && (forall c :: c in r.conns && Named(r.conns[c]) ==> r.conns[c].used == UseOf(r, r.conns[c]))
  }

  lemma WindowsAreLive(s: Snapshot, r: Inner, now: Instant, c: Info)
    requires SnapshotOf(s, r, now) && Stamped(r)
    ensures c in Windows(s.clients) <==> LiveWindow(r, c)
    ensures LiveWindow(r, c) ==> c.used == UseOf(r, c)
  {
    FilterKeeps(s.clients, Named);
    if c in s.clients {
      var i :| 0 <= i < |s.clients| && s.clients[i] == c;
    }
  }

  lemma HighestLeadsLive(s: Snapshot, r: Inner, now: Instant)
    requires SnapshotOf(s, r, now) && Stamped(r)
    ensures var live := Highest(Windows(s.clients));
            if live.Some? then LeadsLive(r, live.value) && live.value.used == UseOf(r, live.value)
            else forall d :: !LiveWindow(r, d)
  {
    HighestIsHighest(Windows(s.clients));
    var live := Highest(Windows(s.clients));
    forall d ensures d in Windows(s.clients) <==> LiveWindow(r, d)
             ensures LiveWindow(r, d) ==> d.used == UseOf(r, d) {
      WindowsAreLive(s, r, now, d);
    }
  }

  // The branch taken: some window away leads exactly when the snapshot's latest away is not outranked by a live one.
  lemma AwayLeadsExactly(s: Snapshot, r: Inner, now: Instant)
    requires SnapshotOf(s, r, now) && Stamped(r)
    ensures var live := Highest(Windows(s.clients));
            var branch := s.away.Some? && (live.None? || !UsedBefore(Some(s.away.value.1), live.value.used));
            && (branch ==> exists key :: LeadsAway(r, key) && key.0 == s.away.value.0)
            && (!branch ==> forall key :: !LeadsAway(r, key))
  {
    HighestLeadsLive(s, r, now);
    var live := Highest(Windows(s.clients));
    if s.away.Some? {
      var key :| IsAway(r, key) && key.0 == s.away.value.0 && r.windows[key].used == Some(s.away.value.1);
      if live.None? || !UsedBefore(Some(s.away.value.1), live.value.used) {
        assert LeadsAway(r, key);
      } else {
        forall k ensures !LeadsAway(r, k) {
          assert LiveWindow(r, live.value);
        }
      }
    }
  }

  lemma NewestIsNewestOnHost(s: Snapshot, r: Inner, now: Instant, host: string)
    requires SnapshotOf(s, r, now) && Stamped(r)
    ensures var here := Newest(OnHost(s.clients, host));
            if here.Some? then NewestOnHost(r, here.value, host)
            else forall d :: LiveWindow(r, d) ==> d.host != Some(host)
  {
    NewestIsNewest(OnHost(s.clients, host));
    FilterKeeps(Windows(s.clients), (c: Info) => c.host == Some(host));
    forall d ensures d in Windows(s.clients) <==> LiveWindow(r, d) {
      WindowsAreLive(s, r, now, d);
    }
  }

  /** The answer is right: a connection of the live window used last, used strictly after every window away; or the
      newest one on the computer of a window away that was used at least as late as every other; or nobody. */
  lemma TheAnswerIsRight(s: Snapshot, r: Inner, now: Instant)
    requires SnapshotOf(s, r, now) && Stamped(r)
    ensures Right(r, InUse(s))
  {
    HighestLeadsLive(s, r, now);
    AwayLeadsExactly(s, r, now);
    if s.away.Some? {
      NewestIsNewestOnHost(s, r, now, s.away.value.0);
    }
  }

  // Of the live windows one leads: two connections used at the same instant differ in their serials.
  lemma LeadersAreOne(r: Inner, c: Info, d: Info)
    ensures LeadsLive(r, c) && LeadsLive(r, d) ==> c == d
  {
  }

  lemma NewestAreOne(r: Inner, c: Info, d: Info, host: string)
    ensures NewestOnHost(r, c, host) && NewestOnHost(r, d, host) ==> c == d
  {
  }

  lemma WithoutATieOneAnswer(r: Inner, a: Answer, b: Answer)
    requires Right(r, a) && Right(r, b)
    requires forall k, l :: LeadsAway(r, k) && LeadsAway(r, l) ==> k.0 == l.0
    ensures a == b
  {
    if a.Found? && a.why.SameComputer? && b.Found? && b.why.SameComputer? {
      var k, c :| LeadsAway(r, k) && NewestOnHost(r, c, k.0) && a.to == Target(c);
      var l, d :| LeadsAway(r, l) && NewestOnHost(r, d, l.0) && b.to == Target(d);
      NewestAreOne(r, c, d, k.0);
    } else if a.Found? && b.Found? && !a.why.SameComputer? && !b.why.SameComputer? {
      var c :| LeadsLive(r, c) && a.to == Target(c);
      var d :| LeadsLive(r, d) && b.to == Target(d);
      LeadersAreOne(r, c, d);
    }
  }

  // Of a computer's live windows one connected last.
  lemma {:induction false} NewestExists(r: Inner, host: string, from: set<nat>, c: Info)
    requires LiveWindow(r, c) && c.host == Some(host)
    requires forall d :: LiveWindow(r, d) && d.host == Some(host) && d.serial !in from ==> d.serial <= c.serial
    ensures exists d :: NewestOnHost(r, d, host)
    decreases |from|
  {
    if d :| LiveWindow(r, d) && d.host == Some(host) && d.serial > c.serial {
      NewestExists(r, host, from - {d.serial}, d);
    } else {
      assert NewestOnHost(r, c, host);
    }
  }

  // The answer that a leading window away makes right.
  lemma AwayAnswers(r: Inner, key: WindowKey) returns (a: Answer)
    requires LeadsAway(r, key)
    ensures Right(r, a)
    ensures a == Absent(Some(key.0)) ||
            exists c :: NewestOnHost(r, c, key.0) && a == Found(Target(c), SameComputer)
  {
    if c :| LiveWindow(r, c) && c.host == Some(key.0) {
      NewestExists(r, key.0, r.conns.Keys, c);
      var d :| NewestOnHost(r, d, key.0);
      a := Found(Target(d), SameComputer);
    } else {
      a := Absent(Some(key.0));
    }
  }

  lemma ATieHasTwoAnswers(r: Inner, k: WindowKey, l: WindowKey) returns (a: Answer, b: Answer)
    requires LeadsAway(r, k) && LeadsAway(r, l) && k.0 != l.0
    ensures Right(r, a) && Right(r, b) && a != b
  {
    a := AwayAnswers(r, k);
    b := AwayAnswers(r, l);
    if a.Found? && b.Found? {
      var c :| NewestOnHost(r, c, k.0) && a == Found(Target(c), SameComputer);
      var d :| NewestOnHost(r, d, l.0) && b == Found(Target(d), SameComputer);
      assert c.serial != d.serial;
    }
  }

  /** And it is the only right one exactly when no two windows away on different computers lead together, used last at the
      same instant. */
  lemma TheRightAnswerIsOne(r: Inner)
    ensures (forall a, b :: Right(r, a) && Right(r, b) ==> a == b) <==>
            (forall k, l :: LeadsAway(r, k) && LeadsAway(r, l) ==> k.0 == l.0)
  {
    if forall k, l :: LeadsAway(r, k) && LeadsAway(r, l) ==> k.0 == l.0 {
      forall a, b | Right(r, a) && Right(r, b) ensures a == b {
        WithoutATieOneAnswer(r, a, b);
      }
    } else {
      var k, l :| LeadsAway(r, k) && LeadsAway(r, l) && k.0 != l.0;
      var a, b := ATieHasTwoAnswers(r, k, l);
      assert Right(r, a) && Right(r, b) && a != b;
    }
  }

  // In every run the roster's snapshots answer right.
  lemma InUseIsRightInEveryRun(run: seq<RosterRuns.State>, i: nat, s: Snapshot, now: Instant)
    requires RosterRuns.Run(run) && i < |run| && SnapshotOf(s, run[i].r, now)
    ensures Right(run[i].r, InUse(s))
  {
    RosterRuns.RunKeepsInv(run, i);
    TheAnswerIsRight(s, run[i].r, now);
  }

  // ---------------------------------------------------------------- where a command goes

  // `c` was used last of all that may be active; of equals, the later connection.
  ghost predicate LeadsActive(r: Inner, now: Instant, c: Info) {
    && c.serial in r.conns && r.conns[c.serial] == c
    && c.role == "fe" && c.name.Some? && c.used.Some? && now - c.used.value <= ACTIVE_WINDOW
    && forall s :: s in r.conns && r.conns[s].role == "fe" && r.conns[s].name.Some? && r.conns[s].used.Some? &&
                   now - r.conns[s].used.value <= ACTIVE_WINDOW ==>
         r.conns[s].used.value < c.used.value || (r.conns[s].used == c.used && r.conns[s].serial <= c.serial)
  }

  lemma ActiveLeads(s: Snapshot, r: Inner, now: Instant)
    requires SnapshotOf(s, r, now) && Stamped(r)
    ensures if s.active.Some? then exists c :: LeadsActive(r, now, c) && s.active.value == Target(c)
            else forall k :: k in r.conns ==> !MayBeActive(r.conns[k], now)
  {
    var may := (c: Info) => MayBeActive(c, now);
    FilterKeeps(s.clients, may);
    HighestIsHighest(Filter(s.clients, may));
    if s.active.Some? {
      var c := Highest(Filter(s.clients, may)).value;
      assert c in s.clients && LeadsActive(r, now, c);
    } else {
      forall k | k in r.conns ensures !MayBeActive(r.conns[k], now) {
        assert r.conns[k] in s.clients;
      }
    }
  }

  /** In every run the commands of `Pane`, and no others, go to all windows; a relaunch goes to the frontend that leads
      among those recently used, and to nobody when there is none; and any other command goes where a right answer says,
      to one window or to none. */
  lemma ACommandGoesWhereItShould(run: seq<RosterRuns.State>, i: nat, s: Snapshot, now: Instant, cmd: string)
    requires RosterRuns.Run(run) && i < |run| && SnapshotOf(s, run[i].r, now)
    ensures WindowFor(s, cmd) == Every <==> cmd == "preview" || cmd == "reveal"
    ensures cmd != "preview" && cmd != "reveal" && cmd != "relaunch" ==>
            match WindowFor(s, cmd)
            case One(to, why) => Right(run[i].r, Found(to, why))
            case Nowhere(away) => Right(run[i].r, Absent(away))
            case Every => false
    ensures cmd == "relaunch" ==>
            match WindowFor(s, cmd)
            case One(to, why) => why == Used && exists c :: LeadsActive(run[i].r, now, c) && to == Target(c)
            case Nowhere(away) =>
              away == None && forall k :: k in run[i].r.conns ==>
                var c := run[i].r.conns[k];
                !(c.role == "fe" && c.name.Some? && c.used.Some? && now - c.used.value <= ACTIVE_WINDOW)
            case Every => false
  {
    RosterRuns.RunKeepsInv(run, i);
    InUseIsRightInEveryRun(run, i, s, now);
    ActiveLeads(s, run[i].r, now);
    assert !Pane("relaunch");
  }

  // ---------------------------------------------------------------- the window of a page owner

  // The newest named connection that opens `owner`'s pages, an owner's redial included.
  function WindowConnection(r: Inner, clients: seq<Info>, owner: nat): Option<Info> {
    Newest(Filter(Windows(clients), (c: Info) => OwnerOf(r, c) == owner))
  }

  /** In every run a page owner resolves to the newest live window whose registration was handed that owner, and to
      none exactly when no live window was. */
  lemma AnOwnerFindsItsWindow(run: seq<RosterRuns.State>, i: nat, s: Snapshot, now: Instant, owner: nat)
    requires RosterRuns.Run(run) && i < |run| && SnapshotOf(s, run[i].r, now)
    ensures forall d :: LiveWindow(run[i].r, d) ==> d.serial in run[i].handed
    ensures var found := WindowConnection(run[i].r, s.clients, owner);
            if found.Some? then
              && LiveWindow(run[i].r, found.value) && run[i].handed[found.value.serial] == owner
              && forall d :: LiveWindow(run[i].r, d) && run[i].handed[d.serial] == owner ==>
                   d.serial <= found.value.serial
            else
              forall d :: LiveWindow(run[i].r, d) ==> run[i].handed[d.serial] != owner
  {
    RosterRuns.RunKeepsInv(run, i);
    var mine := (c: Info) => OwnerOf(run[i].r, c) == owner;
    NewestIsNewest(Filter(Windows(s.clients), mine));
    FilterKeeps(Windows(s.clients), mine);
    forall d ensures d in Windows(s.clients) <==> LiveWindow(run[i].r, d) {
      WindowsAreLive(s, run[i].r, now, d);
    }
  }

  // ---------------------------------------------------------------- recent use

  /** The window in use, when it was used within `ACTIVE_WINDOW`, is the active frontend unless a frontend that named
      itself with the empty name was used later: it can be active, and is never the window in use. */
  lemma InUseIsActiveExactly(s: Snapshot, c: Info, now: Instant)
    requires Highest(Windows(s.clients)) == Some(c) && Recent(now, c.used)
    requires forall d, e :: d in s.clients && e in s.clients && d.serial == e.serial ==> d == e
    ensures ResolveActive(s.clients, now) == Some(Target(c)) <==>
              forall d :: d in s.clients && MayBeActive(d, now) && d.name == Some("") ==> Ranks(d, c)
  {
    FilterKeeps(s.clients, Named);
    HighestIsHighest(Windows(s.clients));
    FilterKeeps(s.clients, (d: Info) => MayBeActive(d, now));
    HighestIsHighest(Filter(s.clients, (d: Info) => MayBeActive(d, now)));
  }

  // ---------------------------------------------------------------- both exceptions are met

  // A state with these connections and windows, after two serials.
  function Two(conns: map<nat, Info>, windows: map<WindowKey, Window>): RosterRuns.State {
    RosterRuns.State(Inner(conns, windows), {}, 3, map[1 := 1, 2 := 2], [])
  }

  function Frontend(serial: nat, host: Option<string>, name: string, used: Option<Instant>): Info {
    Info(serial, "fe", host, if host.Some? then Some("w") else None, Some(name), used)
  }

  lemma ReachesTwoSerials()
    ensures RosterRuns.Reaches(RosterRuns.State(EMPTY, {1, 2}, 3, map[], []))
  {
    RosterRuns.ReachesBegin();
    var one := RosterRuns.State(EMPTY, {1}, 2, map[], []);
    RosterRuns.ReachesOn(RosterRuns.BEGIN, RosterRuns.Draw, one);
    RosterRuns.ReachesOn(one, RosterRuns.Draw, RosterRuns.State(EMPTY, {1, 2}, 3, map[], []));
  }

  lemma ReachesTwoConnections()
    ensures RosterRuns.Reaches(Two(map[1 := Frontend(1, None, "x", None), 2 := Frontend(2, None, "", None)], map[]))
  {
    ReachesTwoSerials();
    var s := RosterRuns.State(EMPTY, {1, 2}, 3, map[], []);
    var t := RosterRuns.State(Inner(map[1 := Frontend(1, None, "x", None)], map[]), {2}, 3, map[1 := 1], []);
    RosterRuns.ReachesOn(s, RosterRuns.Register(1, "fe", None, None, Some("x")), t);
    var u := Two(map[1 := Frontend(1, None, "x", None), 2 := Frontend(2, None, "", None)], map[]);
    assert t.r.conns[2 := Frontend(2, None, "", None)] == u.r.conns && t.handed[2 := 2] == u.handed;
    RosterRuns.ReachesOn(t, RosterRuns.Register(2, "fe", None, None, Some("")), u);
  }

  // The second, which has no name, was used last.
  function Unnamed(): RosterRuns.State {
    Two(map[1 := Frontend(1, None, "x", Some(10)), 2 := Frontend(2, None, "", Some(20))], map[])
  }

  lemma ReachesUnnamed()
    ensures RosterRuns.Reaches(Unnamed())
  {
    ReachesTwoConnections();
    var s := Two(map[1 := Frontend(1, None, "x", None), 2 := Frontend(2, None, "", None)], map[]);
    var t := Two(map[1 := Frontend(1, None, "x", Some(10)), 2 := Frontend(2, None, "", None)], map[]);
    assert s.r.conns[1 := Frontend(1, None, "x", Some(10))] == t.r.conns;
    RosterRuns.ReachesOn(s, RosterRuns.Touch(1, 10), t);
    assert t.r.conns[2 := Frontend(2, None, "", Some(20))] == Unnamed().r.conns;
    RosterRuns.ReachesOn(t, RosterRuns.Touch(2, 20), Unnamed());
  }

  function UnnamedSnapshot(): Snapshot {
    Snapshot([Frontend(1, None, "x", Some(10)), Frontend(2, None, "", Some(20))], Some(ActiveFrontend(2, "")), None)
  }

  lemma OfTwo(a: Info, b: Info, keep: Info -> bool)
    ensures Highest([a]) == Some(a) && Highest([a, b]) == Some(if Ranks(a, b) then b else a)
    ensures Filter([a, b], keep) == (if keep(a) then [a] else []) + (if keep(b) then [b] else [])
  {
    assert [a, b][..1] == [a] && [a][..0] == [];
    assert Filter([a], keep) == if keep(a) then [a] else [];
  }

  lemma UnnamedLeadsActive(a: Info, b: Info)
    requires a == Frontend(1, None, "x", Some(10)) && b == Frontend(2, None, "", Some(20))
    ensures ResolveActive([a, b], 20) == Some(ActiveFrontend(2, ""))
  {
    var may := (c: Info) => MayBeActive(c, 20);
    OfTwo(a, b, may);
    assert may(a) && may(b) && Ranks(a, b);
    assert Filter([a, b], may) == [a, b];
  }

  lemma NamedIsInUse(a: Info, b: Info)
    requires a == Frontend(1, None, "x", Some(10)) && b == Frontend(2, None, "", Some(20))
    ensures Highest(Windows([a, b])) == Some(a)
  {
    OfTwo(a, b, Named);
    assert Named(a) && !Named(b);
    assert Windows([a, b]) == [a];
  }

  lemma UnnamedIsActive()
    ensures var s := UnnamedSnapshot();
            && ResolveActive(s.clients, 20) == s.active && InUse(s) == Found(ActiveFrontend(1, "x"), LastUsed)
  {
    var a, b := Frontend(1, None, "x", Some(10)), Frontend(2, None, "", Some(20));
    UnnamedLeadsActive(a, b);
    NamedIsInUse(a, b);
  }

  /** A run to a roster whose active frontend is one with the empty name, and whose window in use is another. */
  lemma AnUnnamedFrontendIsActive()
    ensures RosterRuns.Reaches(Unnamed()) && SnapshotOf(UnnamedSnapshot(), Unnamed().r, 20)
    ensures WindowFor(UnnamedSnapshot(), "relaunch") == One(ActiveFrontend(2, ""), Used)
    ensures WindowFor(UnnamedSnapshot(), "docs") == One(ActiveFrontend(1, "x"), LastUsed)
  {
    ReachesUnnamed();
    UnnamedIsActive();
  }

  // Two windows on two computers.
  function Windowed(a: Option<Instant>, b: Option<Instant>): RosterRuns.State {
    Two(map[1 := Frontend(1, Some("a"), "x", a), 2 := Frontend(2, Some("b"), "y", b)],
        map[("a", "w") := Window(1, a, 1, None), ("b", "w") := Window(2, b, 1, None)])
  }

  lemma ReachesTwoWindows()
    ensures RosterRuns.Reaches(Windowed(None, None))
  {
    ReachesTwoSerials();
    var s := RosterRuns.State(EMPTY, {1, 2}, 3, map[], []);
    var t := RosterRuns.State(Inner(map[1 := Frontend(1, Some("a"), "x", None)], map[("a", "w") := Window(1, None, 1, None)]),
                              {2}, 3, map[1 := 1], []);
    RosterRuns.ReachesOn(s, RosterRuns.Register(1, "fe", Some("a"), Some("w"), Some("x")), t);
    var u := Windowed(None, None);
    assert t.r.conns[2 := Frontend(2, Some("b"), "y", None)] == u.r.conns && t.handed[2 := 2] == u.handed;
    assert t.r.windows[("b", "w") := Window(2, None, 1, None)] == u.r.windows;
    RosterRuns.ReachesOn(t, RosterRuns.Register(2, "fe", Some("b"), Some("w"), Some("y")), u);
  }

  lemma ReachesTwoUses()
    ensures RosterRuns.Reaches(Windowed(Some(10), Some(10)))
  {
    ReachesTwoWindows();
    var s, t, u := Windowed(None, None), Windowed(Some(10), None), Windowed(Some(10), Some(10));
    assert Reported(s.r, 1, 10).conns == t.r.conns && Reported(s.r, 1, 10).windows == t.r.windows;
    RosterRuns.ReachesOn(s, RosterRuns.Touch(1, 10), t);
    assert Reported(t.r, 2, 10).conns == u.r.conns && Reported(t.r, 2, 10).windows == u.r.windows;
    RosterRuns.ReachesOn(t, RosterRuns.Touch(2, 10), u);
  }

  function Tied(): RosterRuns.State {
    Two(map[], map[("a", "w") := Window(1, Some(10), 0, Some(30)), ("b", "w") := Window(2, Some(10), 0, Some(30))])
  }

  function HalfTied(): RosterRuns.State {
    Two(map[2 := Frontend(2, Some("b"), "y", Some(10))],
        map[("a", "w") := Window(1, Some(10), 0, Some(30)), ("b", "w") := Window(2, Some(10), 1, None)])
  }

  lemma ReachesHalfTied()
    ensures RosterRuns.Reaches(HalfTied())
  {
    ReachesTwoUses();
    var s, t := Windowed(Some(10), Some(10)), HalfTied();
    var p := Parted(s.r.(conns := s.r.conns - {1}), s.r.conns[1], 30);
    assert p.conns == t.r.conns && p.windows == t.r.windows;
    assert AwayKeys(p.windows) == {("a", "w")};
    RosterRuns.ReachesOn(s, RosterRuns.Drop(1, 30, None), t);
  }

  /** A run to a roster with a tie: two windows away on two computers, last used at the same instant, both lead. */
  lemma ATieIsReached()
    ensures RosterRuns.Reaches(Tied())
    ensures LeadsAway(Tied().r, ("a", "w")) && LeadsAway(Tied().r, ("b", "w"))
  {
    ReachesHalfTied();
    var s, t := HalfTied(), Tied();
    var p := Parted(s.r.(conns := s.r.conns - {2}), s.r.conns[2], 30);
    assert p.conns == t.r.conns && p.windows == t.r.windows;
    assert AwayKeys(p.windows) == {("a", "w"), ("b", "w")};
    RosterRuns.ReachesOn(s, RosterRuns.Drop(2, 30, None), t);
  }
}
