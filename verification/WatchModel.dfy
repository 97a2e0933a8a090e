/** The reader's state as a value, and what each call of `Watches` makes of it. The classes in `Watching` are proved
    against these functions, and `ChatRuns` and `ServiceRuns` prove what they keep over runs. */
module WatchModel {
  import opened Wrappers
  import opened ChannelCache
  import opened SocketQueue
  import opened Ids

  const MAX_CHANNELS: nat := 32
  // The longest overlay; at the next change it is dropped, and the pending snapshot is worth nothing.
  const MAX_OVERLAY: nat := 128

  datatype WatchError = Full | Invalid

  // Where a watched channel stands, as callers see it.
  datatype Standing = Owed | Fetching | Current

  datatype Loaded = Kept | Resync | Stale

  datatype Phase =
    | Needed
    // `read` is the reader's gap as of the begin, compared with its gap as of the load.
    | Pending(ticket: nat, read: Option<Gap>, overlay: seq<Change>, overflow: bool)
    | Complete

  datatype Channel = Channel(phase: Phase, messages: Messages)

  datatype Model = Model(gap: Option<Gap>, seen: nat, tickets: nat, channels: map<string, Channel>)

  const FRESH: Model := Model(None, 0, 0, map[])

  function StandingOf(m: Model, channel: string, ended: bool): Option<Standing> {
    if channel !in m.channels then None
    else if ended then Some(Owed)
    else match m.channels[channel].phase
      case Needed => Some(Owed)
      case Pending(_, _, _, _) => Some(Fetching)
      case Complete => Some(Current)
  }

  function WatchOutcome(m: Model, channel: string): Option<WatchError> {
    if !ValidId(channel) then Some(Invalid)
    else if channel !in m.channels && |m.channels| >= MAX_CHANNELS then Some(Full)
    else None
  }

  function Watched(m: Model, channel: string): Model {
    if WatchOutcome(m, channel).Some? || channel in m.channels then m
    else m.(channels := m.channels[channel := Channel(Needed, map[])])
  }

  function Unwatched(m: Model, channel: string): Model { m.(channels := m.channels - {channel}) }

  // ---------------------------------------------------------------- the gap

  function Demoted(c: Channel): Channel { if c.phase.Complete? then c.(phase := Needed) else c }

  predicate Newer(m: Model, current: Option<Gap>) { current.Some? && current.value.number > m.seen }

  function Synced(m: Model, current: Option<Gap>): Model {
    if Newer(m, current) then
      Model(current, current.value.number, m.tickets, map c | c in m.channels :: Demoted(m.channels[c]))
    else m
  }

  // ---------------------------------------------------------------- events

  // Where an event belongs and what it does there, if anything.
  function ChangeOf(e: Event): Option<(string, Change)> {
    match e
    case New(r) => if r.TopLevel() then Some((r.channel, Put(r, false))) else None
    case Edited(r) => if r.TopLevel() then Some((r.channel, Put(r, true))) else None
    case Deleted(channel, key) => Some((channel, Delete(key)))
    case _ => None
  }

  ghost function Took(c: Channel, change: Change): Channel {
    match c.phase
    case Pending(ticket, read, overlay, overflow) =>
      if |overlay| >= MAX_OVERLAY then c.(phase := Pending(ticket, read, [], true))
      else if !overflow then c.(phase := Pending(ticket, read, overlay + [change], false))
      else c
    case _ => c.(messages := Apply(c.messages, change))
  }

  ghost function Applied(m: Model, e: Event): Model {
    match ChangeOf(e)
    case None => m
    case Some((channel, change)) =>
      if channel in m.channels then m.(channels := m.channels[channel := Took(m.channels[channel], change)]) else m
  }

  ghost function AppliedAll(m: Model, events: seq<Event>): Model {
    if events == [] then m
    else Applied(AppliedAll(m, events[..|events| - 1]), events[|events| - 1])
  }

  ghost function Pumped(m: Model, taken: Taken): Model { AppliedAll(Synced(m, taken.gap), taken.events) }

  // ---------------------------------------------------------------- snapshots

  predicate Begins(m: Model, channel: string) { channel in m.channels && m.channels[channel].phase.Needed? }

  ghost function Begun(m: Model, channel: string, taken: Taken): Model {
    var p := Pumped(m, taken);
    if Begins(p, channel) then
      p.(tickets := p.tickets + 1,
         channels := p.channels[channel := p.channels[channel].(phase := Pending(p.tickets + 1, p.gap, [], false))])
    else p
  }

  predicate TopOf(r: Message, channel: string) { r.channel == channel && r.TopLevel() }

  // A list of records as a table by key, the later of two winning: the channel's top-level ones alone.
  function Collected(records: seq<Message>, channel: string): Messages {
    if records == [] then map[]
    else
      var r := records[|records| - 1];
      var m := Collected(records[..|records| - 1], channel);
      if TopOf(r, channel) then m[r.key := r] else m
  }

  function Verdict(m: Model, channel: string, ticket: nat, now: Option<Gap>): Loaded {
    var s := Synced(m, now);
    if channel !in s.channels || !s.channels[channel].phase.Pending? || s.channels[channel].phase.ticket != ticket then
      Stale
    else if s.channels[channel].phase.overflow || s.channels[channel].phase.read != s.gap then Resync
    else Kept
  }

  ghost function LoadedAt(m: Model, channel: string, ticket: nat, records: seq<Message>, now: Option<Gap>): Model {
    var s := Synced(m, now);
    match Verdict(m, channel, ticket, now)
    case Stale => s
    case Resync => s.(channels := s.channels[channel := s.channels[channel].(phase := Needed)])
    case Kept =>
      var messages := Replay(Trim(Collected(records, channel)), s.channels[channel].phase.overlay);
      s.(channels := s.channels[channel := Channel(Complete, messages)])
  }

  function FailedAt(m: Model, channel: string, ticket: nat): Model {
    if channel in m.channels && m.channels[channel].phase.Pending? && m.channels[channel].phase.ticket == ticket then
      m.(channels := m.channels[channel := m.channels[channel].(phase := Needed)])
    else m
  }

  // Every watch has resynced, and there is a gap to clear.
  predicate MayClear(m: Model) {
    m.gap.Some? && forall c :: c in m.channels ==> m.channels[c].phase.Complete?
  }

  // ---------------------------------------------------------------- what events do to one channel

  // The changes of `channel` among `events`, in order.
  function Changes(channel: string, events: seq<Event>): seq<Change> {
    if events == [] then []
    else Changes(channel, events[..|events| - 1]) + ChangesOfOne(channel, events[|events| - 1])
  }

  function ChangesOfOne(channel: string, e: Event): seq<Change> {
    match ChangeOf(e)
    case Some((c, change)) => if c == channel then [change] else []
    case None => []
  }

  lemma {:induction false} ChangesConcat(channel: string, a: seq<Event>, b: seq<Event>)
    ensures Changes(channel, a + b) == Changes(channel, a) + Changes(channel, b)
    decreases |b|
  {
    if b == [] {
      assert a + b == a;
      assert Changes(channel, a) + [] == Changes(channel, a);
    } else {
      var rest := b[..|b| - 1];
      assert (a + b)[..|a + b| - 1] == a + rest;
      ChangesConcat(channel, a, rest);
      assert Changes(channel, a + b) ==
             Changes(channel, a) + Changes(channel, rest) + ChangesOfOne(channel, b[|b| - 1]);
    }
  }

  lemma ChangesSnoc(channel: string, events: seq<Event>, e: Event)
    ensures Changes(channel, events + [e]) == Changes(channel, events) + ChangesOfOne(channel, e)
  {
    assert (events + [e])[..|events|] == events;
  }

  ghost function TookAll(c: Channel, changes: seq<Change>): Channel {
    if changes == [] then c else Took(TookAll(c, changes[..|changes| - 1]), changes[|changes| - 1])
  }

  lemma TookSnoc(c: Channel, changes: seq<Change>, change: Change)
    ensures TookAll(c, changes + [change]) == Took(TookAll(c, changes), change)
  {
    assert (changes + [change])[..|changes|] == changes;
  }

  // One event moves one channel at most: the one its change is of.
  lemma AppliedMovesOne(m: Model, e: Event, c: string)
    requires c in m.channels
    ensures Applied(m, e) == m.(channels := Applied(m, e).channels) && Applied(m, e).channels.Keys == m.channels.Keys
    ensures Applied(m, e).channels[c] ==
            (if ChangesOfOne(c, e) == [] then m.channels[c] else Took(m.channels[c], ChangesOfOne(c, e)[0]))
  {
  }

  lemma TookMore(c: Channel, changes: seq<Change>, d: seq<Change>)
    requires |d| <= 1
    ensures TookAll(c, changes + d) == if d == [] then TookAll(c, changes) else Took(TookAll(c, changes), d[0])
  {
    if d == [] {
      assert changes + d == changes;
    } else {
      assert d == [d[0]];
      TookSnoc(c, changes, d[0]);
    }
  }

  // Events reach the channels one by one: each channel takes its own changes, and nothing else moves.
  lemma {:induction false} AppliedByChannel(m: Model, events: seq<Event>)
    ensures AppliedAll(m, events) == m.(channels := AppliedAll(m, events).channels)
    ensures AppliedAll(m, events).channels.Keys == m.channels.Keys
    ensures forall c :: c in m.channels ==>
              AppliedAll(m, events).channels[c] == TookAll(m.channels[c], Changes(c, events))
  {
    if events != [] {
      var rest := events[..|events| - 1];
      var e := events[|events| - 1];
      AppliedByChannel(m, rest);
      forall c | c in m.channels
        ensures AppliedAll(m, events).channels[c] == TookAll(m.channels[c], Changes(c, events))
      {
        AppliedMovesOne(AppliedAll(m, rest), e, c);
        TookMore(m.channels[c], Changes(c, rest), ChangesOfOne(c, e));
      }
    }
  }

  // A channel that is not pending applies its changes; a pending one keeps them all in order, or overflows for good.
  lemma {:induction false} TookAllMeans(c: Channel, changes: seq<Change>)
    ensures var t := TookAll(c, changes);
            if c.phase.Pending? then
              && t.phase.Pending? && t.phase.ticket == c.phase.ticket && t.phase.read == c.phase.read
              && t.messages == c.messages
              && (!t.phase.overflow ==> !c.phase.overflow && t.phase.overlay == c.phase.overlay + changes)
              && (c.phase.overflow ==> t.phase.overflow)
            else
              t == Channel(c.phase, Replay(c.messages, changes))
  {
    if changes == [] {
      if c.phase.Pending? {
        assert c.phase.overlay + [] == c.phase.overlay;
      }
    } else {
      var rest := changes[..|changes| - 1];
      TookAllMeans(c, rest);
      if c.phase.Pending? {
        assert c.phase.overlay + rest + [changes[|changes| - 1]] == c.phase.overlay + changes;
      }
    }
  }

  // When an overlay overflows: exactly when one change more than it may hold was taken, and until then it holds them all.
  lemma {:induction false} OverflowsExactly(c: Channel, changes: seq<Change>)
    requires c.phase.Pending? && |c.phase.overlay| <= MAX_OVERLAY
    ensures var t := TookAll(c, changes);
            && t.phase.Pending? && |t.phase.overlay| <= MAX_OVERLAY
            && (t.phase.overflow <==> c.phase.overflow || |c.phase.overlay| + |changes| > MAX_OVERLAY)
            && (!t.phase.overflow ==> t.phase.overlay == c.phase.overlay + changes)
  {
    TookAllMeans(c, changes);
    if changes != [] {
      OverflowsExactly(c, changes[..|changes| - 1]);
    }
  }

  // ---------------------------------------------------------------- what the calls mean, in their own cases

  // A valid channel is watched while there is room, once, owing a snapshot; nothing else changes.
  lemma WatchMeans(m: Model, channel: string)
    ensures var t := Watched(m, channel);
            && t == m.(channels := t.channels)
            && (channel in t.channels <==> channel in m.channels || (ValidId(channel) && |m.channels| < MAX_CHANNELS))
            && (channel !in m.channels && channel in t.channels ==> t.channels[channel] == Channel(Needed, map[]))
            && (forall c :: c != channel || c in m.channels ==> (c in t.channels <==> c in m.channels))
            && (forall c :: c in m.channels ==> t.channels[c] == m.channels[c])
    ensures channel in m.channels ==> WatchOutcome(m, channel).None? || !ValidId(channel)
    ensures WatchOutcome(m, channel) == Some(Invalid) <==> !ValidId(channel)
    ensures WatchOutcome(m, channel) == Some(Full) <==>
              ValidId(channel) && channel !in m.channels && |m.channels| >= MAX_CHANNELS
  {
  }

  // The channel is forgotten with all it held, and nothing else changes.
  lemma UnwatchMeans(m: Model, channel: string)
    ensures var t := Unwatched(m, channel);
            && t == m.(channels := t.channels) && channel !in t.channels
            && (forall c :: c != channel ==> (c in t.channels <==> c in m.channels))
            && (forall c :: c in t.channels ==> t.channels[c] == m.channels[c])
  {
  }

  lemma StandingMeans(m: Model, channel: string, ended: bool)
    ensures StandingOf(m, channel, ended).None? <==> channel !in m.channels
    ensures StandingOf(m, channel, ended) == Some(Current) <==>
              !ended && channel in m.channels && m.channels[channel].phase.Complete?
    ensures StandingOf(m, channel, ended) == Some(Fetching) <==>
              !ended && channel in m.channels && m.channels[channel].phase.Pending?
  {
  }

  // A gap numbered above those taken so far is adopted, and of the channels exactly the complete ones owe a snapshot again.
  lemma SyncMeans(m: Model, current: Option<Gap>)
    ensures var t := Synced(m, current);
            if current.Some? && current.value.number > m.seen then
              && t.gap == current && t.seen == current.value.number && t.tickets == m.tickets
              && t.channels.Keys == m.channels.Keys
              && forall c :: c in m.channels ==>
                   t.channels[c] == if m.channels[c].phase.Complete? then Channel(Needed, m.channels[c].messages)
                                    else m.channels[c]
            else t == m
  {
  }

  // A snapshot that failed, or whose answer is not safe, is owed again.
  lemma FailMeans(m: Model, channel: string, ticket: nat)
    ensures var t := FailedAt(m, channel, ticket);
            && t == m.(channels := t.channels) && t.channels.Keys == m.channels.Keys
            && forall c :: c in m.channels ==>
                 t.channels[c] ==
                 if c == channel && m.channels[c].phase.Pending? && m.channels[c].phase.ticket == ticket
                 then Channel(Needed, m.channels[c].messages) else m.channels[c]
  {
  }

  lemma ResyncMeans(m: Model, channel: string, ticket: nat, records: seq<Message>, now: Option<Gap>)
    ensures Verdict(m, channel, ticket, now).Stale? <==>
              channel !in m.channels || !m.channels[channel].phase.Pending? || m.channels[channel].phase.ticket != ticket
    ensures Verdict(m, channel, ticket, now).Resync? ==>
              var t := LoadedAt(m, channel, ticket, records, now);
              channel in t.channels && t.channels[channel] == Channel(Needed, m.channels[channel].messages)
  {
  }

  /** A round succeeds: a channel that owes a snapshot is given the next ticket, and, when no newer gap was seen and no more
      of its changes came than an overlay holds, the answer to that ticket completes it, with those changes replayed. */
  lemma ARoundCompletes(m: Model, c: string, taken: Taken, meanwhile: seq<Event>, records: seq<Message>)
    requires c in m.channels && m.channels[c].phase.Needed?
    requires |Changes(c, meanwhile)| <= MAX_OVERLAY
    ensures var b := Begun(m, c, taken);
            var p := Pumped(b, Taken(None, meanwhile));
            && c in b.channels && b.tickets == m.tickets + 1
            && b.channels[c].phase == Pending(m.tickets + 1, b.gap, [], false)
            && Verdict(p, c, m.tickets + 1, None) == Kept
            && var t := LoadedAt(p, c, m.tickets + 1, records, None);
               c in t.channels
               && t.channels[c] == Channel(Complete, Replay(Trim(Collected(records, c)), Changes(c, meanwhile)))
  {
    PumpedShape(m, taken);
    PumpedChannel(m, taken, c);
    TookAllMeans(Synced(m, taken.gap).channels[c], Changes(c, taken.events));
    var b := Begun(m, c, taken);
    PumpedShape(b, Taken(None, meanwhile));
    PumpedChannel(b, Taken(None, meanwhile), c);
    OverflowsExactly(b.channels[c], Changes(c, meanwhile));
    TookAllMeans(b.channels[c], Changes(c, meanwhile));
    assert [] + Changes(c, meanwhile) == Changes(c, meanwhile);
  }

  // ---------------------------------------------------------------- what a pump and a load make of each channel

  // What a pump makes of one channel: a newer gap demotes it, or it takes its own changes.
  lemma PumpedChannel(w: Model, taken: Taken, c: string)
    requires c in w.channels
    ensures var p := Pumped(w, taken);
            && c in p.channels
            && p.channels[c] == TookAll(Synced(w, taken.gap).channels[c], Changes(c, taken.events))
            && (p.channels[c].phase.Pending? ==>
                  && w.channels[c].phase.Pending?
                  && p.channels[c].phase.ticket == w.channels[c].phase.ticket
                  && p.channels[c].phase.read == w.channels[c].phase.read)
            && (p.channels[c].phase.Complete? ==> w.channels[c].phase.Complete? && !Newer(w, taken.gap))
  {
    var m := Synced(w, taken.gap);
    AppliedByChannel(m, taken.events);
    TookAllMeans(m.channels[c], Changes(c, taken.events));
  }

  lemma PumpedShape(w: Model, taken: Taken)
    ensures var p := Pumped(w, taken);
            && p.channels.Keys == w.channels.Keys
            && p.tickets == w.tickets
            && p.gap == (if Newer(w, taken.gap) then taken.gap else w.gap)
            && p.seen == (if Newer(w, taken.gap) then taken.gap.value.number else w.seen)
  {
    AppliedByChannel(Synced(w, taken.gap), taken.events);
  }

  // What a load makes of the model: no channel becomes pending, and only the answered one can become complete.
  lemma LoadedShape(m: Model, channel: string, ticket: nat, records: seq<Message>, now: Option<Gap>)
    ensures var t := LoadedAt(m, channel, ticket, records, now);
            && t.channels.Keys == m.channels.Keys && t.tickets == m.tickets
            && t.gap == Synced(m, now).gap && t.seen == Synced(m, now).seen
            && (forall c :: c in t.channels && t.channels[c].phase.Pending? ==> t.channels[c] == m.channels[c])
            && (forall c :: c in t.channels && t.channels[c].phase.Complete? ==>
                  (c == channel && Verdict(m, channel, ticket, now).Kept?)
                  || (m.channels[c] == t.channels[c] && !Newer(m, now)))
  {
  }

  // ---------------------------------------------------------------- the page an answer holds

  /** `records` is a page of the channel read when it was `s`: every current message from `floor` on and no other
      top-level message of the channel, whatever replies and strangers are among them. */
  ghost predicate PageOf(records: seq<Message>, channel: string, s: Source, floor: Key) {
    && (forall i :: 0 <= i < |records| && TopOf(records[i], channel) ==>
          records[i].key in s.cur && s.cur[records[i].key] == records[i] && floor <= records[i].key)
    && (forall k :: k in s.cur && floor <= k ==>
          s.cur[k] in records && TopOf(s.cur[k], channel) && s.cur[k].key == k)
  }

  lemma {:induction false} CollectedHolds(records: seq<Message>, channel: string)
    ensures forall k :: k in Collected(records, channel) ==>
              && Collected(records, channel)[k] in records
              && TopOf(Collected(records, channel)[k], channel) && Collected(records, channel)[k].key == k
    ensures forall r :: r in records && TopOf(r, channel) ==> r.key in Collected(records, channel)
  {
    if records != [] {
      var rest := records[..|records| - 1];
      CollectedHolds(rest, channel);
      assert records == rest + [records[|records| - 1]];
    }
  }

  lemma CollectedIsThePage(records: seq<Message>, channel: string, s: Source, floor: Key)
    requires PageOf(records, channel, s, floor)
    ensures Collected(records, channel) == Page(s, floor)
  {
    CollectedHolds(records, channel);
    var c := Collected(records, channel);
    forall k | k in c ensures k in s.cur && floor <= k && c[k] == s.cur[k] {
      var i :| 0 <= i < |records| && records[i] == c[k];
      assert TopOf(records[i], channel);
    }
    forall k | k in s.cur && floor <= k ensures k in c {
      assert s.cur[k] in records;
    }
    assert c.Keys == Page(s, floor).Keys;
  }
}
