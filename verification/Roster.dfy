/** The frontends connected to a daemon and the windows they speak for. `Inner` is the roster's state as a value, the
    functions on it are its critical sections, and `Clients` is the object proved against them. */
module Roster {
  import opened Wrappers

  // One departure may leave one window more than this away; it forgets one then.
  const AWAY: nat := 64

  type Instant = int
  // Host, then instance.
  type WindowKey = (string, string)

  datatype Info = Info(
    serial: nat,
    role: string,
    host: Option<string>,
    instance: Option<string>,
    name: Option<string>,
    // When a person last used this connection's window, as this connection carries it.
    used: Option<Instant>)

  // `sites` owns the window's pages for as long as the record lasts, through every redial.
  datatype Window = Window(sites: nat, used: Option<Instant>, live: nat, leftAt: Option<Instant>)

  datatype Inner = Inner(conns: map<nat, Info>, windows: map<WindowKey, Window>)

  const EMPTY: Inner := Inner(map[], map[])

  // An empty name is no name.
  function WindowName(role: string, name: Option<string>): Option<string> {
    if role == "fe" && name.Some? && name.value != "" then name else None
  }

  predicate Named(info: Info) { WindowName(info.role, info.name).Some? }

  function KeyOf(info: Info): Option<WindowKey> {
    if info.host.Some? && info.instance.Some? && info.instance.value != "" then
      Some((info.host.value, info.instance.value))
    else None
  }

  // The owner of the pages a live connection opens.
  function OwnerOf(r: Inner, info: Info): nat {
    match KeyOf(info)
    case Some(key) => if key in r.windows then r.windows[key].sites else info.serial
    case None => info.serial
  }

  // ---------------------------------------------------------------- arriving, leaving, reporting

  function Arrived(r: Inner, info: Info): Inner {
    match KeyOf(info)
    case None => r.(conns := r.conns[info.serial := info])
    case Some(key) =>
      var window := if key in r.windows then r.windows[key] else Window(info.serial, None, 0, None);
      Inner(r.conns[info.serial := info.(used := window.used)],
            r.windows[key := window.(live := window.live + 1, leftAt := None)])
  }

  function AwayKeys(windows: map<WindowKey, Window>): set<WindowKey> {
    set key | key in windows && windows[key].live == 0
  }

  // One connection fewer; `now` is recorded when none remains.
  function Parted(r: Inner, info: Info, now: Instant): Inner {
    match KeyOf(info)
    case None => r
    case Some(key) =>
      if key !in r.windows then r
      else
        var window := r.windows[key];
        var live := if window.live == 0 then 0 else window.live - 1;
        r.(windows := r.windows[key :=
             window.(live := live, leftAt := if live == 0 then Some(now) else window.leftAt)])
  }

  predicate LexLess(a: string, b: string) {
    b != "" && (a == "" || a[0] < b[0] || (a[0] == b[0] && LexLess(a[1..], b[1..])))
  }

  predicate KeyLess(a: WindowKey, b: WindowKey) { LexLess(a.0, b.0) || (a.0 == b.0 && LexLess(a.1, b.1)) }

  // `a` has been away longer than `b`; the key decides between equal instants.
  predicate AwayLonger(windows: map<WindowKey, Window>, a: WindowKey, b: WindowKey)
    requires a in windows && windows[a].leftAt.Some? && b in windows && windows[b].leftAt.Some?
  {
    windows[a].leftAt.value < windows[b].leftAt.value
    || (windows[a].leftAt == windows[b].leftAt && KeyLess(a, b))
  }

  ghost predicate LongestAway(windows: map<WindowKey, Window>, key: WindowKey) {
    && key in windows && windows[key].leftAt.Some?
    && forall k :: k in windows && windows[k].leftAt.Some? ==> !AwayLonger(windows, k, key)
  }

  // Being marked away and having a count of zero are one fact.
  ghost predicate MarkedAway(windows: map<WindowKey, Window>) {
    forall k :: k in windows ==> (windows[k].leftAt.Some? <==> windows[k].live == 0)
  }

  // The last connection of a window has left, and one window too many is away.
  predicate Forgets(rest: Inner, info: Info, now: Instant) {
    match KeyOf(info)
    case None => false
    case Some(key) =>
      && key in rest.windows
      && Parted(rest, info, now).windows[key].live == 0
      && |AwayKeys(Parted(rest, info, now).windows)| > AWAY
  }

  // A departure that also forgets `gone`.
  function Left(r: Inner, serial: nat, now: Instant, gone: Option<WindowKey>): Inner
    requires serial in r.conns
  {
    var p := Parted(r.(conns := r.conns - {serial}), r.conns[serial], now);
    if gone.Some? then p.(windows := p.windows - {gone.value}) else p
  }

  ghost predicate MayLeave(r: Inner, serial: nat, now: Instant, gone: Option<WindowKey>) {
    && serial in r.conns
    && var info := r.conns[serial];
       var rest := r.(conns := r.conns - {serial});
       if Forgets(rest, info, now) then
         gone.Some? && LongestAway(Parted(rest, info, now).windows, gone.value)
       else gone.None?
  }

  ghost function EndedBy(r: Inner, serial: nat, now: Instant, gone: Option<WindowKey>): Option<nat>
    requires serial in r.conns
  {
    var info := r.conns[serial];
    var p := Parted(r.(conns := r.conns - {serial}), info, now);
    if KeyOf(info).None? then Some(info.serial)
    else if gone.Some? && gone.value in p.windows then Some(p.windows[gone.value].sites)
    else None
  }

  // A person was at this connection's window. For a named frontend it is the window's use, on each of its connections.
  function Reported(r: Inner, serial: nat, at: Instant): Inner {
    if serial !in r.conns then r
    else
      var info := r.conns[serial];
      var stamped := r.conns[serial := info.(used := Some(at))];
      if !Named(info) || KeyOf(info).None? then r.(conns := stamped)
      else
        var key := KeyOf(info);
        Inner(map s | s in stamped :: if KeyOf(stamped[s]) == key then stamped[s].(used := Some(at)) else stamped[s],
              if key.value in r.windows
              then r.windows[key.value := r.windows[key.value].(used := Some(at))] else r.windows)
  }

  // ---------------------------------------------------------------- the order of windows away

  lemma {:induction false} LexTotal(a: string, b: string)
    ensures a == b || LexLess(a, b) || LexLess(b, a)
  {
    if a != "" && b != "" && a[0] == b[0] {
      LexTotal(a[1..], b[1..]);
      assert a == [a[0]] + a[1..] && b == [b[0]] + b[1..];
    }
  }

  lemma {:induction false} LexTransitive(a: string, b: string, c: string)
    requires LexLess(a, b) && LexLess(b, c)
    ensures LexLess(a, c)
  {
    if a != "" && a[0] == b[0] == c[0] {
      LexTransitive(a[1..], b[1..], c[1..]);
    }
  }

  lemma {:induction false} LexIrreflexive(a: string)
    ensures !LexLess(a, a)
  {
    if a != "" {
      LexIrreflexive(a[1..]);
    }
  }

  lemma AwayLongerTransitive(windows: map<WindowKey, Window>, a: WindowKey, b: WindowKey, c: WindowKey)
    requires a in windows && b in windows && c in windows
    requires windows[a].leftAt.Some? && windows[b].leftAt.Some? && windows[c].leftAt.Some?
    ensures AwayLonger(windows, a, b) && AwayLonger(windows, b, c) ==> AwayLonger(windows, a, c)
  {
    if KeyLess(a, b) && KeyLess(b, c) {
      if LexLess(a.0, b.0) && LexLess(b.0, c.0) { LexTransitive(a.0, b.0, c.0); }
      if LexLess(a.1, b.1) && LexLess(b.1, c.1) { LexTransitive(a.1, b.1, c.1); }
    }
  }

  lemma AwayLongerTotal(windows: map<WindowKey, Window>, a: WindowKey, b: WindowKey)
    requires a in windows && b in windows
    requires windows[a].leftAt.Some? && windows[b].leftAt.Some?
    ensures a == b || AwayLonger(windows, a, b) || AwayLonger(windows, b, a)
    ensures !AwayLonger(windows, a, a)
  {
    LexTotal(a.0, b.0);
    LexTotal(a.1, b.1);
    LexIrreflexive(a.0);
    LexIrreflexive(a.1);
  }

  // ---------------------------------------------------------------- the shared roster

  class Clients {
    var conns: map<nat, Info>
    var windows: map<WindowKey, Window>
    // Above every serial given so far.
    var next: nat

    ghost function Value(): Inner
      reads this
    {
      Inner(conns, windows)
    }

    constructor ()
      ensures Value() == EMPTY && next == 1
    {
      conns, windows, next := map[], map[], 1;
    }

    // What is returned goes into the connection's guard.
    method Register(role: string, host: Option<string>, instance: Option<string>, name: Option<string>)
      returns (serial: nat, sites: nat)
      modifies this
      ensures serial == old(next) && next == old(next) + 1
      ensures Value() == Arrived(old(Value()), Info(serial, role, host, instance, name, None))
      ensures sites == OwnerOf(Value(), Info(serial, role, host, instance, name, None))
    {
      serial := next;
      next := next + 1;
      var info := Info(serial, role, host, instance, name, None);
      match KeyOf(info) {
        case None => sites := serial;
        case Some(key) =>
          var window := if key in windows then windows[key] else Window(serial, None, 0, None);
          windows := windows[key := window.(live := window.live + 1, leftAt := None)];
          info := info.(used := window.used);
          sites := window.sites;
      }
      conns := conns[serial := info];
    }

    method CountAway() returns (count: nat)
      ensures count == |AwayKeys(windows)|
    {
      var left := windows.Keys;
      count := 0;
      assert AwayKeys(windows) - left == {};
      while left != {}
        invariant left <= windows.Keys
        invariant count == |AwayKeys(windows) - left|
        decreases left
      {
        var key :| key in left;
        if windows[key].live == 0 {
          assert AwayKeys(windows) - (left - {key}) == (AwayKeys(windows) - left) + {key};
          count := count + 1;
        } else {
          assert AwayKeys(windows) - (left - {key}) == AwayKeys(windows) - left;
        }
        left := left - {key};
      }
      assert AwayKeys(windows) - {} == AwayKeys(windows);
    }

    method FindLongestAway() returns (found: Option<WindowKey>)
      ensures found.Some? ==> LongestAway(windows, found.value)
      ensures found.None? ==> forall k :: k in windows ==> windows[k].leftAt.None?
    {
      var left := windows.Keys;
      found := None;
      while left != {}
        invariant left <= windows.Keys
        invariant found.Some? ==> found.value in windows && windows[found.value].leftAt.Some?
        invariant forall k :: k in windows && k !in left && windows[k].leftAt.Some? ==>
                    found.Some? && !AwayLonger(windows, k, found.value)
        decreases left
      {
        var key :| key in left;
        if windows[key].leftAt.Some? {
          AwayLongerTotal(windows, key, key);
          if found.None? || AwayLonger(windows, key, found.value) {
            forall k | k in windows && k !in left && windows[k].leftAt.Some?
              ensures !AwayLonger(windows, k, key)
            {
              AwayLongerTransitive(windows, k, key, found.value);
            }
            found := Some(key);
          }
        }
        left := left - {key};
      }
    }

    // `gone` is the window this departure forgot, if it forgot one; a second drop of the same serial does nothing.
    method DropGuard(serial: nat, now: Instant) returns (ended: Option<nat>, gone: Option<WindowKey>)
      modifies this
      ensures serial !in old(conns) ==> Value() == old(Value()) && ended == None && gone == None
      ensures serial in old(conns) ==>
                && Value() == Left(old(Value()), serial, now, gone)
                && ended == EndedBy(old(Value()), serial, now, gone)
      ensures serial in old(conns) && MarkedAway(old(windows)) ==> MayLeave(old(Value()), serial, now, gone)
      ensures next == old(next)
    {
      ended, gone := None, None;
      if serial !in conns {
        return;
      }
      var info := conns[serial];
      conns := conns - {serial};
      match KeyOf(info) {
        case None => ended := Some(info.serial);
        case Some(key) =>
          if key in windows {
            var window := windows[key];
            var live := if window.live == 0 then 0 else window.live - 1;
            windows := windows[key := window.(live := live, leftAt := if live == 0 then Some(now) else window.leftAt)];
            if live == 0 {
              var away := CountAway();
              if away > AWAY {
                gone := FindLongestAway();
                if gone.Some? {
                  ended := Some(windows[gone.value].sites);
                  windows := windows - {gone.value};
                }
              }
            }
          }
      }
    }

    // Every connection of the window carries the same last use.
    method StampWindow(key: WindowKey, at: Instant)
      modifies this`conns
      ensures conns == map s | s in old(conns) ::
                if KeyOf(old(conns)[s]) == Some(key) then old(conns)[s].(used := Some(at)) else old(conns)[s]
    {
      ghost var before := conns;
      var left := conns.Keys;
      while left != {}
        invariant left <= conns.Keys == before.Keys
        invariant forall s :: s in conns ==>
                    conns[s] == if s !in left && KeyOf(before[s]) == Some(key) then before[s].(used := Some(at))
                                else before[s]
        decreases left
      {
        var s :| s in left;
        if KeyOf(conns[s]) == Some(key) {
          conns := conns[s := conns[s].(used := Some(at))];
        }
        left := left - {s};
      }
    }

    method TouchPersonInput(serial: nat, at: Instant)
      modifies this
      ensures Value() == Reported(old(Value()), serial, at) && next == old(next)
    {
      if serial !in conns {
        return;
      }
      var info := conns[serial];
      conns := conns[serial := info.(used := Some(at))];
      var key := KeyOf(info);
      if !Named(info) || key.None? {
        return;
      }
      if key.value in windows {
        windows := windows[key.value := windows[key.value].(used := Some(at))];
      }
      StampWindow(key.value, at);
      assert conns == Reported(old(Value()), serial, at).conns;
    }
  }
}
