/** The roster beside what happened to it: who last reported a person's input, and when each window lost its last
    connection. A story makes the roster's own steps; what it adds no step reads. */
module RosterStory {
  import opened Wrappers
  import opened Roster
  import opened RosterRuns
  import opened Routing

  datatype Story = Story(
    s: State,
    // The last report made through a named frontend, by the window or lone connection it spoke for.
    reports: map<Holder, Instant>,
    // When the last connection of a window left.
    lefts: map<WindowKey, Instant>)

  predicate NamedFrontend(info: Info) { info.role == "fe" && info.name.Some? && info.name.value != "" }

  function Speaker(info: Info): Holder {
    if info.host.Some? && info.instance.Some? && info.instance.value != ""
    then OfWindow((info.host.value, info.instance.value))
    else OfConnection(info.serial)
  }

  // No connection but perhaps `except` is the window's.
  ghost predicate Deserted(conns: map<nat, Info>, key: WindowKey, except: nat) {
    forall c :: c in conns && c != except ==> Speaker(conns[c]) != OfWindow(key)
  }

  ghost predicate NoneOf(conns: map<nat, Info>, key: WindowKey) {
    forall c :: c in conns ==> Speaker(conns[c]) != OfWindow(key)
  }

  ghost function LeftAfter(st: Story, serial: nat, now: Instant): map<WindowKey, Instant> {
    if serial in st.s.r.conns && Speaker(st.s.r.conns[serial]).OfWindow? &&
       Deserted(st.s.r.conns, Speaker(st.s.r.conns[serial]).key, serial)
    then st.lefts[Speaker(st.s.r.conns[serial]).key := now]
    else st.lefts
  }

  ghost function Tell(st: Story, a: Act): Story
    requires Enabled(st.s, a)
  {
    var conns := st.s.r.conns;
    match a
    case Draw => Story(Do(st.s, a), st.reports, st.lefts)
    case Register(serial, role, host, instance, name) =>
      var speaker := Speaker(Info(serial, role, host, instance, name, None));
      Story(Do(st.s, a), st.reports, if speaker.OfWindow? then st.lefts - {speaker.key} else st.lefts)
    case Drop(serial, now, gone) =>
      Story(Do(st.s, a),
            st.reports - {OfConnection(serial)} - (if gone.Some? then {OfWindow(gone.value)} else {}),
            LeftAfter(st, serial, now) - (if gone.Some? then {gone.value} else {}))
    case Touch(serial, at) =>
      Story(Do(st.s, a),
            if serial in conns && NamedFrontend(conns[serial]) then st.reports[Speaker(conns[serial]) := at] else st.reports,
            st.lefts)
  }

  ghost predicate Told(st: Story, next: Story) { exists a :: Enabled(st.s, a) && next == Tell(st, a) }

  ghost predicate Stories(run: seq<Story>) {
    && |run| > 0 && run[0] == Story(BEGIN, map[], map[])
    && forall i :: 0 <= i < |run| - 1 ==> Told(run[i], run[i + 1])
  }

  // Every run of the roster has a story.
  lemma {:induction false} EveryRunHasAStory(run: seq<State>) returns (story: seq<Story>)
    requires Run(run)
    ensures Stories(story) && |story| == |run| && forall i :: 0 <= i < |run| ==> story[i].s == run[i]
    decreases |run|
  {
    var n := |run| - 1;
    if n == 0 {
      story := [Story(BEGIN, map[], map[])];
    } else {
      var before := run[..n];
      forall i | 0 <= i < |before| - 1 ensures Next(before[i], before[i + 1]) {
        assert Next(run[i], run[i + 1]);
      }
      story := EveryRunHasAStory(before);
      assert Next(run[n - 1], run[n - 1 + 1]);
      var a :| Enabled(run[n - 1], a) && run[n] == Do(run[n - 1], a);
      var next := Tell(story[n - 1], a);
      assert Told(story[n - 1], next);
      var longer := story + [next];
      forall i | 0 <= i < |longer| - 1 ensures Told(longer[i], longer[i + 1]) {
        if i < n - 1 {
          assert Told(story[i], story[i + 1]);
        }
      }
      story := longer;
    }
  }

  // ---------------------------------------------------------------- what the roster remembers

  function Last(reports: map<Holder, Instant>, h: Holder): Option<Instant> { if h in reports then Some(reports[h]) else None }

  ghost predicate Remembers(r: Inner, reports: map<Holder, Instant>) {
    && (forall key :: key in r.windows ==> r.windows[key].used == Last(reports, OfWindow(key)))
    && (forall c :: c in r.conns && NamedFrontend(r.conns[c]) && Speaker(r.conns[c]).OfConnection? ==>
          r.conns[c].used == Last(reports, OfConnection(c)))
    && (forall key :: OfWindow(key) in reports ==> key in r.windows)
    && (forall c :: OfConnection(c) in reports ==> c in r.conns)
  }

  ghost predicate UsesTold(st: Story) { Remembers(st.s.r, st.reports) }

  ghost predicate LeftsTold(st: Story) {
    forall key :: key in st.s.r.windows ==>
      if NoneOf(st.s.r.conns, key) then key in st.lefts && st.s.r.windows[key].leftAt == Some(st.lefts[key])
      else st.s.r.windows[key].leftAt.None?
  }

  lemma SpeakerIsKey(info: Info)
    ensures KeyOf(info) == match Speaker(info) case OfWindow(key) => Some(key) case OfConnection(_) => None
    ensures Named(info) <==> NamedFrontend(info)
  {
  }

  lemma NoneOfMeansNoConns(r: Inner, key: WindowKey)
    ensures NoneOf(r.conns, key) <==> ConnsOf(r, key) == {}
  {
    forall c | c in r.conns ensures KeyOf(r.conns[c]) == Some(key) <==> Speaker(r.conns[c]) == OfWindow(key) {
      SpeakerIsKey(r.conns[c]);
    }
    if !NoneOf(r.conns, key) {
      var c :| c in r.conns && Speaker(r.conns[c]) == OfWindow(key);
      assert c in ConnsOf(r, key);
    }
  }

  lemma RegisterKeepsUses(st: Story, a: Act)
    requires Serials(st.s) && Counts(st.s.r) && UsesTold(st) && Enabled(st.s, a) && a.Register?
    ensures UsesTold(Tell(st, a))
  {
    var info := Info(a.serial, a.role, a.host, a.instance, a.name, None);
    SpeakerIsKey(info);
    assert a.serial !in st.s.r.conns;
  }

  lemma DropKeepsUses(st: Story, a: Act)
    requires Serials(st.s) && UsesTold(st) && Enabled(st.s, a) && a.Drop?
    ensures UsesTold(Tell(st, a))
  {
    var r := st.s.r;
    PartedKeepsUses(r.(conns := r.conns - {a.serial}), r.conns[a.serial], a.now);
    assert r.conns[a.serial].serial == a.serial;
  }

  lemma PartedKeepsUses(r: Inner, info: Info, now: Instant)
    ensures var p := Parted(r, info, now);
            && p.conns == r.conns && p.windows.Keys == r.windows.Keys
            && forall key :: key in r.windows ==> p.windows[key].used == r.windows[key].used
  {
  }

  // A report through a named frontend of a window is the window's; any other is the connection's own.
  lemma ReportMeans(r: Inner, serial: nat, at: Instant)
    requires serial in r.conns
    requires forall c :: c in r.conns ==> r.conns[c].serial == c
    requires Speaker(r.conns[serial]).OfWindow? ==> Speaker(r.conns[serial]).key in r.windows
    ensures var t, speaker := Reported(r, serial, at), Speaker(r.conns[serial]);
            && t.windows.Keys == r.windows.Keys && t.conns.Keys == r.conns.Keys
            && (forall key :: key in r.windows ==>
                  t.windows[key].used ==
                  if NamedFrontend(r.conns[serial]) && speaker == OfWindow(key) then Some(at) else r.windows[key].used)
            && (forall c :: c in r.conns && NamedFrontend(r.conns[c]) && Speaker(r.conns[c]).OfConnection? ==>
                  t.conns[c].used == if c == serial then Some(at) else r.conns[c].used)
            && (forall c :: c in r.conns ==> t.conns[c] == r.conns[c].(used := t.conns[c].used))
  {
    SpeakerIsKey(r.conns[serial]);
    ReportedShape(r, serial, at);
    forall c | c in r.conns && NamedFrontend(r.conns[c]) && Speaker(r.conns[c]).OfConnection?
      ensures Reported(r, serial, at).conns[c].used == if c == serial then Some(at) else r.conns[c].used
    {
      SpeakerIsKey(r.conns[c]);
    }
  }

  lemma ReportIsRemembered(r: Inner, reports: map<Holder, Instant>, serial: nat, at: Instant)
    requires Remembers(r, reports) && serial in r.conns
    requires forall c :: c in r.conns ==> r.conns[c].serial == c
    requires Speaker(r.conns[serial]).OfWindow? ==> Speaker(r.conns[serial]).key in r.windows
    ensures Remembers(Reported(r, serial, at),
                      if NamedFrontend(r.conns[serial]) then reports[Speaker(r.conns[serial]) := at] else reports)
  {
    ReportMeans(r, serial, at);
  }

  lemma TouchKeepsUses(st: Story, a: Act)
    requires Serials(st.s) && Counts(st.s.r) && UsesTold(st) && Enabled(st.s, a) && a.Touch?
    ensures UsesTold(Tell(st, a))
  {
    var r, t := st.s.r, Tell(st, a);
    assert t.s.r == Reported(r, a.serial, a.at);
    if a.serial in r.conns {
      SpeakerIsKey(r.conns[a.serial]);
      ReportIsRemembered(r, st.reports, a.serial, a.at);
    }
  }

  lemma StepKeepsUses(st: Story, a: Act)
    requires Inv(st.s) && UsesTold(st) && Enabled(st.s, a)
    ensures UsesTold(Tell(st, a))
  {
    match a
    case Draw =>
    case Register(_, _, _, _, _) => RegisterKeepsUses(st, a);
    case Drop(_, _, _) => DropKeepsUses(st, a);
    case Touch(_, _) => TouchKeepsUses(st, a);
  }

  lemma RegisterKeepsLefts(st: Story, a: Act)
    requires Serials(st.s) && Counts(st.s.r) && LeftsTold(st) && Enabled(st.s, a) && a.Register?
    ensures LeftsTold(Tell(st, a))
  {
    var info := Info(a.serial, a.role, a.host, a.instance, a.name, None);
    SpeakerIsKey(info);
    var t := Tell(st, a);
    assert a.serial !in st.s.r.conns;
    assert Speaker(t.s.r.conns[a.serial]) == Speaker(info);
    forall key | key in t.s.r.windows
      ensures NoneOf(t.s.r.conns, key) <==> NoneOf(st.s.r.conns, key) && Speaker(info) != OfWindow(key)
    {
      assert forall c :: c in st.s.r.conns ==> t.s.r.conns[c] == st.s.r.conns[c];
    }
  }

  lemma TouchKeepsLefts(st: Story, a: Act)
    requires LeftsTold(st) && Enabled(st.s, a) && a.Touch?
    ensures LeftsTold(Tell(st, a))
  {
    var r, t := st.s.r, Tell(st, a);
    ReportedShape(r, a.serial, a.at);
    forall key ensures NoneOf(t.s.r.conns, key) <==> NoneOf(r.conns, key) {
      assert forall c :: c in r.conns ==> Speaker(t.s.r.conns[c]) == Speaker(r.conns[c]);
    }
  }

  lemma DesertedRest(conns: map<nat, Info>, serial: nat, key: WindowKey)
    requires serial in conns
    ensures NoneOf(conns - {serial}, key) <==> Deserted(conns, key, serial)
    ensures Speaker(conns[serial]) != OfWindow(key) ==> (NoneOf(conns, key) <==> Deserted(conns, key, serial))
  {
    if Deserted(conns, key, serial) && Speaker(conns[serial]) != OfWindow(key) {
      forall c | c in conns ensures Speaker(conns[c]) != OfWindow(key) {
      }
    }
    if NoneOf(conns - {serial}, key) {
      forall c | c in conns && c != serial ensures Speaker(conns[c]) != OfWindow(key) {
        assert (conns - {serial})[c] == conns[c];
      }
    }
  }

  lemma OtherWindowsStay(r: Inner, info: Info, now: Instant, key: WindowKey)
    requires Speaker(info) != OfWindow(key) && key in r.windows
    ensures key in Parted(r, info, now).windows && Parted(r, info, now).windows[key] == r.windows[key]
  {
    SpeakerIsKey(info);
  }

  // What a parting leaves: each window's mark is when its last connection left.
  lemma PartedLefts(st: Story, serial: nat, now: Instant, key: WindowKey)
    requires Serials(st.s) && Counts(st.s.r) && LeftsTold(st) && serial in st.s.r.conns && key in st.s.r.windows
    ensures var rest := st.s.r.(conns := st.s.r.conns - {serial});
            var p := Parted(rest, st.s.r.conns[serial], now);
            && p.conns == rest.conns && key in p.windows
            && (NoneOf(rest.conns, key) <==> Deserted(st.s.r.conns, key, serial))
            && (p.windows[key].live == 0 <==> Deserted(st.s.r.conns, key, serial))
            && if Deserted(st.s.r.conns, key, serial)
               then key in LeftAfter(st, serial, now) && p.windows[key].leftAt == Some(LeftAfter(st, serial, now)[key])
               else p.windows[key].leftAt.None?
  {
    var r, info := st.s.r, st.s.r.conns[serial];
    var rest := r.(conns := r.conns - {serial});
    var p := Parted(rest, info, now);
    PartedCounts(st.s, serial, now);
    NoneOfMeansNoConns(p, key);
    DesertedRest(r.conns, serial, key);
    assert p.windows[key].live == 0 <==> Deserted(r.conns, key, serial);
    if Speaker(info) == OfWindow(key) {
      SpeakerIsKey(info);
    } else {
      OtherWindowsStay(rest, info, now, key);
    }
  }

  lemma DropKeepsLefts(st: Story, a: Act)
    requires Serials(st.s) && Counts(st.s.r) && LeftsTold(st) && Enabled(st.s, a) && a.Drop?
    ensures LeftsTold(Tell(st, a))
  {
    forall key | key in Tell(st, a).s.r.windows
      ensures if NoneOf(Tell(st, a).s.r.conns, key)
              then key in Tell(st, a).lefts && Tell(st, a).s.r.windows[key].leftAt == Some(Tell(st, a).lefts[key])
              else Tell(st, a).s.r.windows[key].leftAt.None?
    {
      PartedCounts(st.s, a.serial, a.now);
      PartedLefts(st, a.serial, a.now, key);
    }
  }

  lemma StepKeepsLefts(st: Story, a: Act)
    requires Inv(st.s) && LeftsTold(st) && Enabled(st.s, a)
    ensures LeftsTold(Tell(st, a))
  {
    match a
    case Draw =>
    case Register(_, _, _, _, _) => RegisterKeepsLefts(st, a);
    case Drop(_, _, _) => DropKeepsLefts(st, a);
    case Touch(_, _) => TouchKeepsLefts(st, a);
  }

  lemma {:induction false} StoriesAreTold(run: seq<Story>, i: nat)
    requires Stories(run) && i < |run|
    ensures Inv(run[i].s) && UsesTold(run[i]) && LeftsTold(run[i])
  {
    if i > 0 {
      StoriesAreTold(run, i - 1);
      assert Told(run[i - 1], run[i - 1 + 1]);
      var a :| Enabled(run[i - 1].s, a) && run[i] == Tell(run[i - 1], a);
      assert run[i].s == Do(run[i - 1].s, a);
      StepKeepsInv(run[i - 1].s, a);
      StepKeepsUses(run[i - 1], a);
      StepKeepsLefts(run[i - 1], a);
    }
  }

  // ---------------------------------------------------------------- the results

  /** In every run a window's last use is the last report a named frontend of it made, over all its connections since it was
      first remembered, and none if there was none; and it is marked away with the instant its last connection left. */
  lemma AWindowRemembersItsLastReport(run: seq<Story>, i: nat, key: WindowKey)
    requires Stories(run) && i < |run| && key in run[i].s.r.windows
    ensures run[i].s.r.windows[key].used == Last(run[i].reports, OfWindow(key))
    ensures if NoneOf(run[i].s.r.conns, key)
            then key in run[i].lefts && run[i].s.r.windows[key].leftAt == Some(run[i].lefts[key])
            else run[i].s.r.windows[key].leftAt.None?
  {
    StoriesAreTold(run, i);
  }

  /** So a connection that redials a remembered window starts with that window's last report, and a new one with none. */
  lemma ARegistrationStartsWithTheLastReport(run: seq<Story>, i: nat, a: Act)
    requires Stories(run) && i < |run| && Enabled(run[i].s, a) && a.Register?
    ensures var conns := Tell(run[i], a).s.r.conns;
            a.serial in conns && conns[a.serial].used == Last(run[i].reports, Speaker(conns[a.serial]))
  {
    StoriesAreTold(run, i);
    SpeakerIsKey(Info(a.serial, a.role, a.host, a.instance, a.name, None));
    assert a.serial !in run[i].s.r.conns;
  }

  /** A departure forgets a window exactly when it leaves more than `AWAY` without a connection, and then one of those that
      lost theirs first. */
  lemma TheForgottenWasAwayLongest(run: seq<Story>, i: nat, serial: nat, now: Instant, gone: Option<WindowKey>)
    requires Stories(run) && i < |run| && Enabled(run[i].s, Drop(serial, now, gone))
    ensures var r, lefts := run[i].s.r, LeftAfter(run[i], serial, now);
            && (gone.Some? <==> |set key | key in r.windows && Deserted(r.conns, key, serial)| > AWAY)
            && (gone.Some? ==>
                  && gone.value in r.windows && Deserted(r.conns, gone.value, serial) && gone.value in lefts
                  && forall key :: key in r.windows && Deserted(r.conns, key, serial) ==>
                       key in lefts && lefts[gone.value] <= lefts[key])
  {
    StoriesAreTold(run, i);
    var r := run[i].s.r;
    var rest := r.(conns := r.conns - {serial});
    var p := Parted(rest, r.conns[serial], now);
    PartedCounts(run[i].s, serial, now);
    forall key | key in r.windows
      ensures p.windows[key].live == 0 <==> Deserted(r.conns, key, serial)
      ensures Deserted(r.conns, key, serial) ==>
                key in LeftAfter(run[i], serial, now) && p.windows[key].leftAt == Some(LeftAfter(run[i], serial, now)[key])
    {
      PartedLefts(run[i], serial, now, key);
    }
    assert AwayKeys(p.windows) == set key | key in r.windows && Deserted(r.conns, key, serial);
    if gone.Some? {
      assert p.windows[gone.value].leftAt.Some?;
      assert p.windows[gone.value].live == 0;
    }
  }

  // A live named connection, and a window with none at all.
  ghost predicate LiveNamed(st: Story, c: Info) { c in st.s.r.conns.Values && NamedFrontend(c) }

  ghost predicate Away(st: Story, key: WindowKey) { key in st.s.r.windows && NoneOf(st.s.r.conns, key) }

  // No window away, and no live named connection's, was reported at after `at`.
  ghost predicate NoneLater(st: Story, at: Instant) {
    && (forall c :: LiveNamed(st, c) && Speaker(c) in st.reports ==> st.reports[Speaker(c)] <= at)
    && (forall key :: Away(st, key) && OfWindow(key) in st.reports ==> st.reports[OfWindow(key)] <= at)
  }

  // The computer that the person left: of a window away, reported at as late as any.
  ghost predicate LeftLast(st: Story, key: WindowKey) {
    Away(st, key) && OfWindow(key) in st.reports && NoneLater(st, st.reports[OfWindow(key)])
  }

  lemma NewestNamed(st: Story, c: Info, host: string)
    requires Serials(st.s) && NewestOnHost(st.s.r, c, host)
    ensures LiveNamed(st, c) && c.host == Some(host)
    ensures forall d :: LiveNamed(st, d) && d.host == Some(host) ==> d.serial <= c.serial
  {
    SpeakerIsKey(c);
    assert c == st.s.r.conns[c.serial];
    forall d | LiveNamed(st, d) ensures LiveWindow(st.s.r, d) {
      LiveNamedIsLive(st, d);
    }
  }

  lemma LiveNamedIsLive(st: Story, c: Info)
    requires Serials(st.s)
    ensures LiveNamed(st, c) <==> LiveWindow(st.s.r, c)
  {
    SpeakerIsKey(c);
    if LiveNamed(st, c) {
      var k :| k in st.s.r.conns && st.s.r.conns[k] == c;
    }
    if LiveWindow(st.s.r, c) {
      assert st.s.r.conns[c.serial] == c;
    }
  }

  // A live named connection's use is the last report of whom it speaks for.
  lemma UseIsLastReport(st: Story, c: Info)
    requires Inv(st.s) && UsesTold(st) && LiveNamed(st, c)
    ensures UseOf(st.s.r, c) == Last(st.reports, Speaker(c))
  {
    SpeakerIsKey(c);
    LiveNamedIsLive(st, c);
  }

  lemma AwayIsAway(st: Story, key: WindowKey)
    requires Inv(st.s)
    ensures Away(st, key) <==> IsAway(st.s.r, key)
  {
    NoneOfMeansNoConns(st.s.r, key);
    if key in st.s.r.windows {
      assert st.s.r.windows[key].live == |ConnsOf(st.s.r, key)|;
    }
  }

  lemma LeftLastLeads(st: Story, key: WindowKey)
    requires Inv(st.s) && UsesTold(st)
    ensures LeftLast(st, key) <==> LeadsAway(st.s.r, key)
  {
    AwayIsAway(st, key);
    forall k ensures Away(st, k) <==> IsAway(st.s.r, k) {
      AwayIsAway(st, k);
    }
    forall c ensures LiveNamed(st, c) <==> LiveWindow(st.s.r, c)
             ensures LiveNamed(st, c) ==> UseOf(st.s.r, c) == Last(st.reports, Speaker(c)) {
      LiveNamedIsLive(st, c);
      if LiveNamed(st, c) {
        UseIsLastReport(st, c);
      }
    }
    if LeadsAway(st.s.r, key) {
      assert OfWindow(key) in st.reports;
      forall k | Away(st, k) && OfWindow(k) in st.reports ensures st.reports[OfWindow(k)] <= st.reports[OfWindow(key)] {
        assert st.s.r.windows[k].used == Some(st.reports[OfWindow(k)]);
      }
    }
    if LeftLast(st, key) {
      forall k | IsAway(st.s.r, k) ensures !UsedBefore(st.s.r.windows[key].used, st.s.r.windows[k].used) {
        assert st.s.r.windows[k].used == Last(st.reports, OfWindow(k));
      }
    }
  }

  // Of the live ones, `c` speaks for whom a person reported at last; of equals, it connected last.
  ghost predicate UsedLast(st: Story, c: Info) {
    && LiveNamed(st, c)
    && forall d :: LiveNamed(st, d) ==>
         if Speaker(d) in st.reports then
           && Speaker(c) in st.reports && st.reports[Speaker(d)] <= st.reports[Speaker(c)]
           && (st.reports[Speaker(d)] == st.reports[Speaker(c)] ==> d.serial <= c.serial)
         else Speaker(c) in st.reports || d.serial <= c.serial
  }

  lemma UsedLastLeads(st: Story, c: Info)
    requires Inv(st.s) && UsesTold(st)
    ensures UsedLast(st, c) <==> LeadsLive(st.s.r, c)
  {
    forall d ensures LiveNamed(st, d) <==> LiveWindow(st.s.r, d)
             ensures LiveNamed(st, d) ==> UseOf(st.s.r, d) == Last(st.reports, Speaker(d)) {
      LiveNamedIsLive(st, d);
      if LiveNamed(st, d) {
        UseIsLastReport(st, d);
      }
    }
  }

  // An answer that names where a person reported last, said of the reports themselves.
  ghost predicate WhereReportedLast(st: Story, answer: Answer) {
    match answer
    case Found(to, SameComputer) =>
      exists key, c :: LeftLast(st, key) && LiveNamed(st, c) && c.host == Some(key.0) && to == Target(c) &&
        (forall d :: LiveNamed(st, d) && d.host == Some(key.0) ==> d.serial <= c.serial)
    case Absent(Some(host)) =>
      (exists key :: LeftLast(st, key) && key.0 == host) && forall d :: LiveNamed(st, d) ==> d.host != Some(host)
    case Found(to, why) =>
      && (forall key :: !LeftLast(st, key))
      && exists c :: UsedLast(st, c) && to == Target(c) &&
           why == if Speaker(c) in st.reports then LastUsed else LastConnected
    case Absent(None) => (forall key :: !LeftLast(st, key)) && forall d :: !LiveNamed(st, d)
  }

  lemma RightIsWhereReportedLast(st: Story, answer: Answer)
    requires Inv(st.s) && UsesTold(st) && Right(st.s.r, answer)
    ensures WhereReportedLast(st, answer)
  {
    forall key ensures LeftLast(st, key) <==> LeadsAway(st.s.r, key) {
      LeftLastLeads(st, key);
    }
    forall d ensures LiveNamed(st, d) <==> LiveWindow(st.s.r, d) {
      LiveNamedIsLive(st, d);
    }
    if answer.Found? && answer.why.SameComputer? {
      var key, c :| LeadsAway(st.s.r, key) && NewestOnHost(st.s.r, c, key.0) && answer.to == Target(c);
      NewestNamed(st, c, key.0);
      assert LeftLast(st, key);
    } else if answer.Found? {
      var c :| LeadsLive(st.s.r, c) && answer.to == Target(c) &&
               answer.why == if UseOf(st.s.r, c).Some? then LastUsed else LastConnected;
      UsedLastLeads(st, c);
      UseIsLastReport(st, c);
    } else if answer.away.Some? {
      var key :| LeadsAway(st.s.r, key) && key.0 == answer.away.value;
      assert LeftLast(st, key);
    }
  }

  /** In every run the window in use is where a person reported last. If that is a window that is away, the answer is the
      newest frontend on its computer, or only the computer when it has none; otherwise it is the live frontend that speaks
      for whom was reported at last, and later than every window away; with no report at all, the newest of them;
      and nobody when none is live. */
  lemma InUseIsWhereAPersonReportedLast(run: seq<Story>, i: nat, s: Snapshot, now: Instant)
    requires Stories(run) && i < |run| && SnapshotOf(s, run[i].s.r, now)
    ensures WhereReportedLast(run[i], InUse(s))
  {
    StoriesAreTold(run, i);
    TheAnswerIsRight(s, run[i].s.r, now);
    RightIsWhereReportedLast(run[i], InUse(s));
  }
}
