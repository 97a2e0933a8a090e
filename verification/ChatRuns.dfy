/** Runs of the chat: the workspace, the wire, the listener's queue and the watched channels together.

    A `World` holds the code's state (`sock`, `w`, `last`, `running`), the environment's (`log`, `live`, `greeted`,
    `wire`, `answers`) and a history no step depends on (`issued`, `floors`, `basis`, `latest`, `heard`). Each `Act` is one atomic
    step of the workspace, the network, the listener or the one reader; a run takes them in any order. */
module ChatRuns {
  import opened Wrappers
  import opened ChannelCache
  import opened SocketQueue
  import opened WatchModel

  // A page on its way back: read when the channel had gone through `at` changes, from `floor` on.
  datatype Answer = Answer(at: nat, floor: Key, records: seq<Message>)

  // What a ticket was issued for: the channel, the changes of it delivered by then, the gap read, and how many events the
  // reader had taken.
  datatype Issue = Issue(channel: string, from: nat, read: Option<Gap>, heard: nat)

  // The listener's queue and gap, the highest gap number the process gave out, and the last this socket latched.
  datatype Box = Box(sock: State, last: nat, latest: nat)

  datatype World = World(
    // Every message event of the workspace, oldest first.
    log: seq<Event>,
    // Slack sends on a socket; the listener has handled its hello; events sent and not yet read.
    live: bool,
    greeted: bool,
    wire: seq<Event>,
    box: Box,
    running: bool,
    w: Model,
    issued: map<nat, Issue>,
    answers: map<nat, Answer>,
    floors: map<string, Key>,
    basis: map<string, Option<Gap>>,
    // Every event the reader ever took, in order.
    heard: seq<Event>)

  const BEGINNING: World :=
    World([], false, false, [], Box(START, 0, 0), true, FRESH, map[], map[], map[], map[], [])

  datatype Act =
    | Post(e: Event)
    | Connect | Hello | Drop
    | Deliver(cost: nat, readable: bool)
    | Lose(cause: GapCause)
    | OtherSocketLatches
    | Watch(channel: string) | Unwatch(channel: string)
    | Pump
    | Begin(channel: string)
    | Fetch(ticket: nat, floor: Key, records: seq<Message>)
    | Load(channel: string, ticket: nat, now: Option<Gap>)
    | Fail(channel: string, ticket: nat)
    | Reconcile
    | Renew
    | Stop

  ghost function History(s: World, channel: string): seq<Change> { Changes(channel, s.log) }

  ghost function Now(s: World, channel: string): Source { Fold(History(s, channel)) }

  // What the channel's model has yet to see: queued, then on the wire.
  ghost function Outstanding(s: World, channel: string): seq<Change> {
    Changes(channel, Events(s.box.sock.queue) + s.wire)
  }

  // The workspace's own order: new messages have increasing keys, edits name current messages.
  ghost predicate LegalEvent(s: World, e: Event) {
    match ChangeOf(e)
    case None => true
    case Some((channel, change)) => LegalStep(Now(s, channel), change) && (change.Put? ==> TopOf(change.record, channel))
  }

  ghost predicate Enabled(s: World, a: Act) {
    match a
    case Post(e) => LegalEvent(s, e)
    case Connect => !s.live
    case Hello => s.live && !s.greeted
    case Deliver(_, _) => s.live && s.greeted && s.wire != []
    // The page is the channel's latest at this instant; the answer is held until it is loaded, if ever.
    case Fetch(ticket, floor, records) =>
      && ticket in s.issued
      && PageOf(records, s.issued[ticket].channel, Now(s, s.issued[ticket].channel), floor)
    // `now` is any gap number that was ever given out, read as late or as early as the caller likes.
    case Load(_, ticket, now) => ticket in s.answers && (now.Some? ==> now.value.number <= s.box.last)
    case Renew => s.running
    case _ => true
  }

  function Latch(b: Box, cause: GapCause): Box {
    Box(Latched(b.sock, cause, b.last + 1), b.last + 1, b.last + 1)
  }

  // The listener reads one event off the wire: it is queued, ignored, or a gap is latched.
  function Heard(b: Box, e: Event, cost: nat, readable: bool): Box {
    if !readable || e.Unrepresentable? then Latch(b, Failed)
    else if e.Unsupported? then b
    else if Overflows(b.sock, cost) then Latch(b, Overflow)
    else b.(sock := Pushed(b.sock, e, cost, b.last))
  }

  function Delivered(s: World, cost: nat, readable: bool): World
    requires s.wire != []
  {
    s.(wire := s.wire[1..], box := Heard(s.box, s.wire[0], cost, readable))
  }

  // The reader's take at this instant; a service that a stop has reached has nothing for it.
  function TakenNow(s: World): Taken {
    if s.running then Taken(s.box.sock.gap, Events(s.box.sock.queue)) else Taken(None, [])
  }

  function SockAfterTake(s: World): State { if s.running then Drained(s.box.sock) else s.box.sock }

  ghost function AfterBegin(s: World, channel: string): World {
    var pumped := Pumped(s.w, TakenNow(s));
    var t := s.(w := Begun(s.w, channel, TakenNow(s)), box := s.box.(sock := SockAfterTake(s)),
                heard := s.heard + TakenNow(s).events);
    if Begins(pumped, channel) then
      var from := |History(s, channel)| - |Changes(channel, s.wire)|;
      t.(issued := s.issued[pumped.tickets + 1 := Issue(channel, if from < 0 then 0 else from, pumped.gap, |t.heard|)])
    else t
  }

  ghost function AfterLoad(s: World, channel: string, ticket: nat, now: Option<Gap>): World
    requires ticket in s.answers
  {
    var kept := Verdict(s.w, channel, ticket, now).Kept?;
    s.(w := LoadedAt(s.w, channel, ticket, s.answers[ticket].records, now),
       floors := if kept then s.floors[channel := s.answers[ticket].floor] else s.floors,
       basis := if kept && ticket in s.issued then s.basis[channel := s.issued[ticket].read] else s.basis)
  }

  function AfterReconcile(s: World): World {
    if s.running && MayClear(s.w) && Clears(s.box.sock, s.w.gap.value) then
      s.(w := s.w.(gap := None), box := s.box.(sock := Cleared(s.box.sock, s.w.gap.value)))
    else s
  }

  ghost function Do(s: World, a: Act): World
    requires Enabled(s, a)
  {
    match a
    case Post(e) => s.(log := s.log + [e], wire := if s.live then s.wire + [e] else s.wire)
    case Connect => s.(live := true, greeted := false, wire := [])
    case Hello => s.(greeted := true, box := Latch(s.box, Reconnect))
    case Drop => s.(live := false, greeted := false, wire := [])
    case Deliver(cost, readable) => Delivered(s, cost, readable)
    case Lose(cause) => s.(box := Latch(s.box, cause))
    case OtherSocketLatches => s.(box := s.box.(last := s.box.last + 1))
    case Watch(channel) => s.(w := Watched(s.w, channel))
    case Unwatch(channel) => s.(w := Unwatched(s.w, channel))
    case Pump =>
      s.(w := Pumped(s.w, TakenNow(s)), box := s.box.(sock := SockAfterTake(s)), heard := s.heard + TakenNow(s).events)
    case Begin(channel) => AfterBegin(s, channel)
    case Fetch(ticket, floor, records) =>
      s.(answers := s.answers[ticket := Answer(|History(s, s.issued[ticket].channel)|, floor, records)])
    case Load(channel, ticket, now) => AfterLoad(s, channel, ticket, now)
    case Fail(channel, ticket) => s.(w := FailedAt(s.w, channel, ticket))
    case Reconcile => AfterReconcile(s)
    // A `Watches` is dropped and the service gives another: its tickets and answers go with it.
    case Renew => s.(w := FRESH, issued := map[], answers := map[])
    case Stop => s.(running := false)
  }

  ghost predicate Next(s: World, t: World) {
    exists a :: Enabled(s, a) && t == Do(s, a)
  }

  ghost predicate Run(run: seq<World>) {
    && |run| > 0 && run[0] == BEGINNING
    && forall i :: 0 <= i < |run| - 1 ==> Next(run[i], run[i + 1])
  }

  // ---------------------------------------------------------------- the invariant

  // Nothing is known lost: the service runs, its socket is past its hello, and it holds no gap newer than the model's.
  ghost predicate Clear(s: World) {
    && s.running && s.live && s.greeted
    && (s.box.sock.gap.Some? ==> s.box.sock.gap.value.number <= s.w.seen)
  }

  ghost predicate AtMost(gap: Option<Gap>, bound: nat) { gap.Some? ==> gap.value.number <= bound }

  ghost predicate Numbered(s: World) {
    && s.w.seen <= s.box.last && s.box.latest <= s.box.last
    && AtMost(s.w.gap, s.w.seen)
    && (s.box.sock.gap.Some? ==> s.box.sock.gap.value.number == s.box.latest)
    && (forall c :: c in s.w.channels && s.w.channels[c].phase.Pending? ==>
          AtMost(s.w.channels[c].phase.read, s.w.seen))
  }

  ghost predicate Ordered(s: World) {
    && (forall c :: Legal(History(s, c)))
    && |s.wire| <= |s.log| && s.log[|s.log| - |s.wire|..] == s.wire
    && (!s.live ==> s.wire == [])
  }

  ghost predicate AnswerFits(s: World, ticket: nat)
    requires ticket in s.answers && ticket in s.issued
  {
    var issue := s.issued[ticket];
    var answer := s.answers[ticket];
    && issue.from <= answer.at <= |History(s, issue.channel)|
    && PageOf(answer.records, issue.channel, Fold(History(s, issue.channel)[..answer.at]), answer.floor)
  }

  ghost predicate Ticketed(s: World) {
    && (forall t :: t in s.issued ==> t <= s.w.tickets && s.issued[t].from <= |History(s, s.issued[t].channel)|)
    && (forall t :: t in s.answers ==> t in s.issued && AnswerFits(s, t))
    && (forall c :: c in s.w.channels && s.w.channels[c].phase.Pending? ==>
          var p := s.w.channels[c].phase;
          p.ticket in s.issued && s.issued[p.ticket].channel == c && s.issued[p.ticket].read == p.read)
  }

  // One channel, while nothing is known lost.
  ghost predicate Sound(s: World, c: string)
    requires c in s.w.channels
  {
    var ch := s.w.channels[c];
    && (ch.phase.Complete? ==>
          && c in s.floors
          && Agrees(Replay(ch.messages, Outstanding(s, c)), Now(s, c), s.floors[c]))
    && (ch.phase.Pending? && ch.phase.read == s.w.gap && !ch.phase.overflow && ch.phase.ticket in s.issued ==>
          && s.issued[ch.phase.ticket].from <= |History(s, c)|
          && History(s, c)[s.issued[ch.phase.ticket].from..] == ch.phase.overlay + Outstanding(s, c))
  }

  // The gap each complete channel's snapshot was begun after is the one the reader has.
  ghost predicate Based(s: World) {
    forall c :: c in s.w.channels && s.w.channels[c].phase.Complete? ==>
      c in s.basis && (s.w.gap.Some? ==> s.basis[c] == s.w.gap)
  }

  ghost predicate Inv(s: World) {
    && Numbered(s) && Ordered(s) && Ticketed(s) && Based(s)
    && (Clear(s) ==> forall c :: c in s.w.channels ==> Sound(s, c))
  }

  // ---------------------------------------------------------------- what each step keeps

  // An event adds its change to its own channel's history, and no other's.
  lemma HistoryGrows(s: World, e: Event, c: string)
    requires Legal(History(s, c)) && LegalEvent(s, e)
    ensures Changes(c, s.log + [e]) == History(s, c) + ChangesOfOne(c, e)
    ensures Legal(Changes(c, s.log + [e]))
    ensures ChangesOfOne(c, e) == [] ==> Changes(c, s.log + [e]) == History(s, c)
  {
    ChangesSnoc(c, s.log, e);
    var d := ChangesOfOne(c, e);
    if d == [] {
      assert History(s, c) + [] == History(s, c);
    } else {
      FoldSnoc(History(s, c), d[0]);
    }
  }

  lemma PostKeepsOrder(s: World, e: Event)
    requires Ordered(s) && LegalEvent(s, e)
    ensures Ordered(Do(s, Post(e)))
  {
    var t := Do(s, Post(e));
    forall c ensures Legal(History(t, c)) {
      HistoryGrows(s, e, c);
    }
    if s.live {
      assert t.log[|t.log| - |t.wire|..] == s.log[|s.log| - |s.wire|..] + [e];
    }
  }

  lemma PostKeepsAnswer(s: World, e: Event, k: nat)
    requires Ordered(s) && LegalEvent(s, e) && k in s.answers && k in s.issued && AnswerFits(s, k)
    ensures AnswerFits(Do(s, Post(e)), k)
  {
    var t := Do(s, Post(e));
    var c := s.issued[k].channel;
    HistoryGrows(s, e, c);
    assert History(t, c) == Changes(c, s.log + [e]);
    assert History(t, c)[..s.answers[k].at] == History(s, c)[..s.answers[k].at];
  }

  lemma PostKeepsTickets(s: World, e: Event)
    requires Ordered(s) && Ticketed(s) && LegalEvent(s, e)
    ensures Ticketed(Do(s, Post(e)))
  {
    var t := Do(s, Post(e));
    forall k | k in t.issued ensures t.issued[k].from <= |History(t, t.issued[k].channel)| {
      HistoryGrows(s, e, t.issued[k].channel);
    }
    forall k | k in t.answers ensures AnswerFits(t, k) {
      PostKeepsAnswer(s, e, k);
    }
  }

  lemma PostAddsOutstanding(s: World, e: Event, c: string)
    requires s.live && Enabled(s, Post(e))
    ensures Outstanding(Do(s, Post(e)), c) == Outstanding(s, c) + ChangesOfOne(c, e)
  {
    assert Events(s.box.sock.queue) + (s.wire + [e]) == (Events(s.box.sock.queue) + s.wire) + [e];
    ChangesSnoc(c, Events(s.box.sock.queue) + s.wire, e);
  }

  lemma SuffixGrows(history: seq<Change>, from: nat, overlay: seq<Change>, rest: seq<Change>, d: seq<Change>)
    requires from <= |history| && history[from..] == overlay + rest
    ensures (history + d)[from..] == overlay + (rest + d)
  {
    assert (history + d)[from..] == history[from..] + d;
  }

  lemma PostKeepsSound(s: World, e: Event, c: string)
    requires Ordered(s) && LegalEvent(s, e) && s.live
    requires c in s.w.channels && Sound(s, c)
    ensures Sound(Do(s, Post(e)), c)
  {
    HistoryGrows(s, e, c);
    PostAddsOutstanding(s, e, c);
    var ch := s.w.channels[c];
    match ch.phase
    case Complete => PostKeepsAgreement(ch.messages, s, e, c);
    case Pending(ticket, read, overlay, overflow) =>
      if read == s.w.gap && !overflow && ticket in s.issued {
        SuffixGrows(History(s, c), s.issued[ticket].from, overlay, Outstanding(s, c), ChangesOfOne(c, e));
      }
    case Needed =>
  }

  lemma PostKeepsAgreement(held: Messages, s: World, e: Event, c: string)
    requires Ordered(s) && LegalEvent(s, e)
    requires c in s.floors && Agrees(Replay(held, Outstanding(s, c)), Now(s, c), s.floors[c])
    ensures Agrees(Replay(held, Outstanding(s, c) + ChangesOfOne(c, e)), Fold(Changes(c, s.log + [e])), s.floors[c])
  {
    HistoryGrows(s, e, c);
    var d, rest, h := ChangesOfOne(c, e), Outstanding(s, c), History(s, c);
    if d == [] {
      assert rest + d == rest;
    } else {
      var change := d[0];
      assert d == [change] && LegalStep(Fold(h), change);
      GrowTogether(held, rest, h, change, s.floors[c]);
      assert Changes(c, s.log + [e]) == h + [change];
    }
  }

  lemma PostKeepsInv(s: World, e: Event)
    requires Inv(s) && LegalEvent(s, e)
    ensures Inv(Do(s, Post(e)))
  {
    PostKeepsOrder(s, e);
    PostKeepsTickets(s, e);
    var t := Do(s, Post(e));
    if Clear(t) {
      assert Clear(s);
      forall c | c in t.w.channels ensures Sound(t, c) {
        PostKeepsSound(s, e, c);
      }
    }
  }

  predicate OnTheWire(a: Act) { a.Connect? || a.Hello? || a.Drop? || a.Lose? || a.OtherSocketLatches? || a.Stop? }

  lemma WireKeepsRest(s: World, a: Act)
    requires Numbered(s) && Ordered(s) && Based(s) && Enabled(s, a) && OnTheWire(a)
    ensures Numbered(Do(s, a)) && Ordered(Do(s, a)) && Based(Do(s, a))
  {
    assert forall c :: History(Do(s, a), c) == History(s, c);
  }

  lemma WireKeepsClear(s: World, a: Act)
    requires Numbered(s) && Enabled(s, a) && OnTheWire(a) && Clear(Do(s, a))
    ensures Clear(s) && Do(s, a).wire == s.wire && Do(s, a).box.sock.queue == s.box.sock.queue
  {
  }

  lemma WireKeepsSound(s: World, a: Act, c: string)
    requires Enabled(s, a) && OnTheWire(a) && c in s.w.channels && Sound(s, c)
    requires Do(s, a).wire == s.wire && Do(s, a).box.sock.queue == s.box.sock.queue
    ensures c in Do(s, a).w.channels && Sound(Do(s, a), c)
  {
    var t := Do(s, a);
    assert t.w == s.w && t.issued == s.issued && t.floors == s.floors && t.log == s.log;
    assert Outstanding(t, c) == Outstanding(s, c) && History(t, c) == History(s, c);
  }

  // The wire, the hello and the losses: each either changes nothing a channel depends on, or leaves a gap to see.
  lemma WireKeepsInv(s: World, a: Act)
    requires Inv(s) && Enabled(s, a) && OnTheWire(a)
    ensures Inv(Do(s, a))
  {
    var t := Do(s, a);
    WireKeepsRest(s, a);
    SameTicketsFit(s, t);
    if Clear(t) {
      WireKeepsClear(s, a);
      forall c | c in t.w.channels ensures Sound(t, c) {
        WireKeepsSound(s, a, c);
      }
    }
  }

  lemma SkippingChangesNothing(c: string, queued: seq<Event>, wire: seq<Event>)
    requires wire != [] && wire[0].Unsupported?
    ensures Changes(c, queued + wire) == Changes(c, queued + wire[1..])
  {
    assert queued + wire == (queued + [wire[0]]) + wire[1..];
    ChangesConcat(c, queued + [wire[0]], wire[1..]);
    ChangesConcat(c, queued, wire[1..]);
    ChangesSnoc(c, queued, wire[0]);
    assert Changes(c, queued) + [] == Changes(c, queued);
  }

  lemma QueueingMovesOne(queue: seq<(Event, nat)>, cost: nat, wire: seq<Event>)
    requires wire != []
    ensures Events(queue + [(wire[0], cost)]) + wire[1..] == Events(queue) + wire
  {
    assert Events(queue + [(wire[0], cost)]) == Events(queue) + [wire[0]];
  }

  lemma HearingKeepsOrder(b: Box, e: Event, cost: nat, readable: bool, seen: nat)
    requires seen <= b.last && AtMost(Heard(b, e, cost, readable).sock.gap, seen)
    ensures Heard(b, e, cost, readable) == if e.Unsupported? then b else b.(sock := Pushed(b.sock, e, cost, b.last))
    ensures !e.Unsupported? ==> !Overflows(b.sock, cost)
  {
  }

  lemma DeliverKeepsOutstanding(s: World, cost: nat, readable: bool, c: string)
    requires s.wire != []
    requires Clear(Delivered(s, cost, readable)) && Numbered(s)
    ensures Clear(s) && Outstanding(Delivered(s, cost, readable), c) == Outstanding(s, c)
  {
    HearingKeepsOrder(s.box, s.wire[0], cost, readable, s.w.seen);
    if s.wire[0].Unsupported? {
      SkippingChangesNothing(c, Events(s.box.sock.queue), s.wire);
    } else {
      QueueingMovesOne(s.box.sock.queue, cost, s.wire);
    }
  }

  lemma SameTicketsFit(s: World, t: World)
    requires Ticketed(s) && t.log == s.log && t.issued == s.issued && t.answers == s.answers && t.w == s.w
    ensures Ticketed(t)
  {
    assert forall c :: History(t, c) == History(s, c);
    forall k | k in t.answers ensures AnswerFits(t, k) {
      assert AnswerFits(s, k);
    }
  }

  lemma DeliverKeepsOrder(s: World, cost: nat, readable: bool)
    requires Ordered(s) && s.live && s.wire != []
    ensures Ordered(Delivered(s, cost, readable))
  {
    var t := Delivered(s, cost, readable);
    assert s.log[|s.log| - |s.wire[1..]|..] == s.log[|s.log| - |s.wire|..][1..];
    forall c ensures Legal(History(t, c)) {
      assert History(t, c) == History(s, c);
    }
  }

  lemma DeliverKeepsSound(s: World, cost: nat, readable: bool, c: string)
    requires s.wire != [] && Numbered(s)
    requires Clear(Delivered(s, cost, readable))
    requires c in s.w.channels && Sound(s, c)
    ensures Sound(Delivered(s, cost, readable), c)
  {
    DeliverKeepsOutstanding(s, cost, readable, c);
    assert History(Delivered(s, cost, readable), c) == History(s, c);
  }

  lemma DeliverKeepsInv(s: World, cost: nat, readable: bool)
    requires Inv(s) && s.live && s.wire != []
    ensures Inv(Delivered(s, cost, readable))
  {
    var t := Delivered(s, cost, readable);
    DeliverKeepsOrder(s, cost, readable);
    SameTicketsFit(s, t);
    if Clear(t) {
      forall c | c in t.w.channels ensures Sound(t, c) {
        DeliverKeepsOutstanding(s, cost, readable, c);
        DeliverKeepsSound(s, cost, readable, c);
      }
    }
  }

  // ---------------------------------------------------------------- the reader's steps

  lemma PumpKeepsRest(s: World)
    requires Numbered(s) && Ordered(s) && Ticketed(s) && Based(s)
    ensures Numbered(Do(s, Pump)) && Ordered(Do(s, Pump)) && Ticketed(Do(s, Pump)) && Based(Do(s, Pump))
  {
    var t := Do(s, Pump);
    PumpedShape(s.w, TakenNow(s));
    assert forall c :: History(t, c) == History(s, c);
    forall k | k in t.answers ensures AnswerFits(t, k) {
      assert AnswerFits(s, k);
    }
    forall c | c in t.w.channels
      ensures t.w.channels[c].phase.Pending? ==>
                s.w.channels[c].phase.Pending?
                && t.w.channels[c].phase.ticket == s.w.channels[c].phase.ticket
                && t.w.channels[c].phase.read == s.w.channels[c].phase.read
      ensures t.w.channels[c].phase.Complete? ==> s.w.channels[c].phase.Complete? && !Newer(s.w, TakenNow(s).gap)
    {
      PumpedChannel(s.w, TakenNow(s), c);
    }
  }

  lemma TakeSplitsOutstanding(s: World, c: string)
    requires s.running
    ensures Outstanding(s, c) == Changes(c, Events(s.box.sock.queue)) + Changes(c, s.wire)
    ensures Outstanding(Do(s, Pump), c) == Changes(c, s.wire)
  {
    ChangesConcat(c, Events(s.box.sock.queue), s.wire);
    var t := Do(s, Pump);
    assert t.box.sock.queue == [] && t.wire == s.wire;
    assert Events([]) + s.wire == s.wire;
  }

  // Taking what is queued leaves a channel as sound with what is on the wire as it was with both.
  lemma TakingKeepsSound(ch: Channel, taking: seq<Change>, rest: seq<Change>)
    ensures ch.phase.Complete? ==>
              Replay(TookAll(ch, taking).messages, rest) == Replay(ch.messages, taking + rest)
    ensures ch.phase.Pending? && TookAll(ch, taking).phase.Pending? && !TookAll(ch, taking).phase.overflow ==>
              TookAll(ch, taking).phase.overlay + rest == ch.phase.overlay + (taking + rest)
  {
    TookAllMeans(ch, taking);
    ReplayConcat(ch.messages, taking, rest);
  }

  lemma PumpKeepsSound(s: World, c: string)
    requires Numbered(s) && s.running && c in s.w.channels
    requires !Newer(s.w, TakenNow(s).gap) ==> Sound(s, c)
    ensures c in Do(s, Pump).w.channels && Sound(Do(s, Pump), c)
  {
    var t := Do(s, Pump);
    var taken := TakenNow(s);
    var taking := Changes(c, taken.events);
    PumpedChannel(s.w, taken, c);
    PumpedShape(s.w, taken);
    if !Newer(s.w, taken.gap) {
      var ch := s.w.channels[c];
      assert History(t, c) == History(s, c);
      TakeSplitsOutstanding(s, c);
      TookAllMeans(ch, taking);
      assert t.w.channels[c] == TookAll(ch, taking) && t.floors == s.floors && t.issued == s.issued;
      TakingKeepsSound(ch, taking, Changes(c, s.wire));
    }
  }

  lemma PumpKeepsInv(s: World)
    requires Inv(s)
    ensures Inv(Do(s, Pump))
  {
    var t := Do(s, Pump);
    PumpKeepsRest(s);
    PumpedShape(s.w, TakenNow(s));
    if Clear(t) {
      forall c | c in t.w.channels ensures Sound(t, c) {
        PumpKeepsSound(s, c);
      }
    }
  }

  // A begin is a pump, then the registration of a ticket when the channel owes a snapshot.
  ghost function Registered(s: World, channel: string): World {
    if Begins(s.w, channel) then
      var from := |History(s, channel)| - |Changes(channel, s.wire)|;
      s.(w := s.w.(tickets := s.w.tickets + 1,
                   channels := s.w.channels[channel := s.w.channels[channel].(
                                 phase := Pending(s.w.tickets + 1, s.w.gap, [], false))]),
         issued := s.issued[s.w.tickets + 1 := Issue(channel, if from < 0 then 0 else from, s.w.gap, |s.heard|)])
    else s
  }

  lemma BeginIsPumpThenRegister(s: World, channel: string)
    ensures Do(s, Begin(channel)) == Registered(Do(s, Pump), channel)
  {
    var p := Do(s, Pump);
    assert p.w == Pumped(s.w, TakenNow(s)) && p.wire == s.wire && p.issued == s.issued;
    assert History(p, channel) == History(s, channel);
    assert Do(s, Begin(channel)) == AfterBegin(s, channel);
  }

  lemma WireIsASuffix(s: World, c: string)
    requires Ordered(s)
    ensures |Changes(c, s.wire)| <= |History(s, c)|
    ensures History(s, c)[|History(s, c)| - |Changes(c, s.wire)|..] == Changes(c, s.wire)
  {
    var before := s.log[..|s.log| - |s.wire|];
    assert s.log == before + s.wire;
    ChangesConcat(c, before, s.wire);
  }

  lemma RegisterKeepsRest(s: World, channel: string)
    requires Numbered(s) && Ordered(s) && Based(s) && Begins(s.w, channel)
    ensures Numbered(Registered(s, channel)) && Ordered(Registered(s, channel)) && Based(Registered(s, channel))
  {
    var t := Registered(s, channel);
    assert forall c :: History(t, c) == History(s, c);
  }

  lemma RegisterKeepsTickets(s: World, channel: string)
    requires Ordered(s) && Ticketed(s) && Begins(s.w, channel)
    ensures Ticketed(Registered(s, channel))
  {
    var t := Registered(s, channel);
    WireIsASuffix(s, channel);
    assert forall c :: History(t, c) == History(s, c);
    assert s.w.tickets + 1 !in s.issued;
    forall k | k in t.answers ensures k in t.issued && AnswerFits(t, k) {
      assert AnswerFits(s, k);
    }
  }

  lemma RegisterKeepsOthersSound(s: World, channel: string, c: string)
    requires Ticketed(s) && Begins(s.w, channel) && c != channel
    requires c in s.w.channels && Sound(s, c)
    ensures Sound(Registered(s, channel), c)
  {
    var t := Registered(s, channel);
    assert History(t, c) == History(s, c) && Outstanding(t, c) == Outstanding(s, c);
    assert t.w.channels[c] == s.w.channels[c] && t.floors == s.floors && t.w.gap == s.w.gap;
    if s.w.channels[c].phase.Pending? {
      assert s.w.channels[c].phase.ticket in s.issued;
    }
  }

  lemma RegisterMakesSound(s: World, channel: string)
    requires Ordered(s) && Begins(s.w, channel) && s.box.sock.queue == []
    ensures channel in Registered(s, channel).w.channels && Sound(Registered(s, channel), channel)
  {
    var t := Registered(s, channel);
    assert History(t, channel) == History(s, channel);
    assert Events([]) + s.wire == s.wire;
    WireIsASuffix(s, channel);
    assert [] + Changes(channel, s.wire) == Changes(channel, s.wire);
  }

  lemma BeginKeepsInv(s: World, channel: string)
    requires Inv(s)
    ensures Inv(Do(s, Begin(channel)))
  {
    var p := Do(s, Pump);
    PumpKeepsInv(s);
    BeginIsPumpThenRegister(s, channel);
    if Begins(p.w, channel) {
      RegisterKeepsRest(p, channel);
      RegisterKeepsTickets(p, channel);
      var t := Registered(p, channel);
      if Clear(t) {
        forall c | c in t.w.channels ensures Sound(t, c) {
          if c == channel {
            RegisterMakesSound(p, channel);
          } else {
            RegisterKeepsOthersSound(p, channel, c);
          }
        }
      }
    }
  }

  lemma FetchKeepsTickets(s: World, ticket: nat, floor: Key, records: seq<Message>)
    requires Ticketed(s) && Enabled(s, Fetch(ticket, floor, records))
    ensures Ticketed(Do(s, Fetch(ticket, floor, records)))
  {
    var t := Do(s, Fetch(ticket, floor, records));
    assert forall c :: History(t, c) == History(s, c);
    var h := History(s, s.issued[ticket].channel);
    assert h[..|h|] == h;
    forall k | k in t.answers ensures AnswerFits(t, k) {
      if k != ticket {
        assert AnswerFits(s, k);
      }
    }
  }

  // No channel depends on an answer before it is loaded.
  lemma AnswersDoNotMatter(s: World, answers: map<nat, Answer>)
    requires Numbered(s) && Ordered(s) && Based(s)
    ensures var t := s.(answers := answers);
            && Numbered(t) && Ordered(t) && Based(t)
            && forall c :: c in s.w.channels && Sound(s, c) ==> Sound(t, c)
  {
    var t := s.(answers := answers);
    forall c ensures History(t, c) == History(s, c) && Outstanding(t, c) == Outstanding(s, c) {
    }
  }

  lemma FetchKeepsInv(s: World, ticket: nat, floor: Key, records: seq<Message>)
    requires Inv(s) && Enabled(s, Fetch(ticket, floor, records))
    ensures Inv(Do(s, Fetch(ticket, floor, records)))
  {
    var t := Do(s, Fetch(ticket, floor, records));
    FetchKeepsTickets(s, ticket, floor, records);
    assert t == s.(answers := t.answers);
    AnswersDoNotMatter(s, t.answers);
  }

  // ---------------------------------------------------------------- the answer

  /** An answer is kept exactly when it is the channel's pending snapshot, its overlay never overflowed and no gap newer
      than the one read at its begin has been seen or comes with it. */
  lemma KeptExactlyWhenNothingWasLost(s: World, channel: string, ticket: nat, now: Option<Gap>)
    requires Numbered(s)
    ensures Verdict(s.w, channel, ticket, now).Kept? <==>
              && channel in s.w.channels && s.w.channels[channel].phase.Pending?
              && s.w.channels[channel].phase.ticket == ticket
              && !s.w.channels[channel].phase.overflow
              && s.w.channels[channel].phase.read == s.w.gap
              && !Newer(s.w, now)
  {
  }

  // The heart of a load: the page, trimmed, with the overlay and then everything outstanding replayed over it.
  lemma LoadedAgrees(s: World, channel: string, ticket: nat, now: Option<Gap>)
    requires Numbered(s) && Ordered(s) && Ticketed(s) && Enabled(s, Load(channel, ticket, now))
    requires channel in s.w.channels && Sound(s, channel) && Verdict(s.w, channel, ticket, now).Kept?
    ensures var loaded := LoadedAt(s.w, channel, ticket, s.answers[ticket].records, now);
            && channel in loaded.channels
            && Agrees(Replay(loaded.channels[channel].messages, Outstanding(s, channel)), Now(s, channel),
                      s.answers[ticket].floor)
  {
    KeptExactlyWhenNothingWasLost(s, channel, ticket, now);
    assert AnswerFits(s, ticket);
    var p := s.w.channels[channel].phase;
    var answer := s.answers[ticket];
    var h := History(s, channel);
    var from := s.issued[ticket].from;
    CollectedIsThePage(answer.records, channel, Fold(h[..answer.at]), answer.floor);
    ReplayOverSnapshot(h, from, answer.at, answer.floor);
    ReplayConcat(Trim(Page(Fold(h[..answer.at]), answer.floor)), p.overlay, Outstanding(s, channel));
  }

  lemma LoadKeepsTickets(s: World, channel: string, ticket: nat, now: Option<Gap>)
    requires Ticketed(s) && Enabled(s, Load(channel, ticket, now))
    ensures Ticketed(AfterLoad(s, channel, ticket, now))
  {
    var t := AfterLoad(s, channel, ticket, now);
    LoadedShape(s.w, channel, ticket, s.answers[ticket].records, now);
    assert forall c :: History(t, c) == History(s, c);
    forall k | k in t.answers ensures AnswerFits(t, k) {
      assert AnswerFits(s, k);
    }
  }

  // A kept answer's ticket was issued for this channel, at a begin that had taken the very gap the reader still has.
  lemma KeptWasBegunAfterTheGap(s: World, channel: string, ticket: nat, now: Option<Gap>)
    requires Numbered(s) && Ticketed(s) && Verdict(s.w, channel, ticket, now).Kept?
    ensures ticket in s.issued && s.issued[ticket].channel == channel && s.issued[ticket].read == s.w.gap
  {
    KeptExactlyWhenNothingWasLost(s, channel, ticket, now);
  }

  lemma LoadKeepsBased(s: World, channel: string, ticket: nat, now: Option<Gap>)
    requires Numbered(s) && Ticketed(s) && Based(s) && Enabled(s, Load(channel, ticket, now))
    ensures Based(AfterLoad(s, channel, ticket, now))
  {
    var t := AfterLoad(s, channel, ticket, now);
    LoadedShape(s.w, channel, ticket, s.answers[ticket].records, now);
    if Verdict(s.w, channel, ticket, now).Kept? {
      KeptExactlyWhenNothingWasLost(s, channel, ticket, now);
      KeptWasBegunAfterTheGap(s, channel, ticket, now);
      assert t.basis == s.basis[channel := s.w.gap] && t.w.gap == s.w.gap;
    }
  }

  lemma LoadKeepsRest(s: World, channel: string, ticket: nat, now: Option<Gap>)
    requires Numbered(s) && Ordered(s) && Enabled(s, Load(channel, ticket, now))
    ensures Numbered(AfterLoad(s, channel, ticket, now)) && Ordered(AfterLoad(s, channel, ticket, now))
  {
    var t := AfterLoad(s, channel, ticket, now);
    LoadedShape(s.w, channel, ticket, s.answers[ticket].records, now);
    assert forall c :: History(t, c) == History(s, c);
  }

  // A load that brings a newer gap leaves no channel with a claim.
  lemma LoadOverANewerGap(s: World, channel: string, ticket: nat, now: Option<Gap>, c: string)
    requires Numbered(s) && Enabled(s, Load(channel, ticket, now)) && Newer(s.w, now) && c in s.w.channels
    ensures var t := AfterLoad(s, channel, ticket, now);
            c in t.w.channels && !t.w.channels[c].phase.Complete?
            && (t.w.channels[c].phase.Pending? ==> t.w.channels[c].phase.read != t.w.gap)
  {
    LoadedShape(s.w, channel, ticket, s.answers[ticket].records, now);
    if Verdict(s.w, channel, ticket, now).Kept? {
      KeptExactlyWhenNothingWasLost(s, channel, ticket, now);
    }
  }

  lemma LoadKeepsOthersSound(s: World, channel: string, ticket: nat, now: Option<Gap>, c: string)
    requires Enabled(s, Load(channel, ticket, now)) && !Newer(s.w, now)
    requires c in s.w.channels && Sound(s, c)
    requires c == channel ==> !Verdict(s.w, channel, ticket, now).Kept?
    ensures c in AfterLoad(s, channel, ticket, now).w.channels && Sound(AfterLoad(s, channel, ticket, now), c)
  {
    var t := AfterLoad(s, channel, ticket, now);
    LoadedShape(s.w, channel, ticket, s.answers[ticket].records, now);
    assert History(t, c) == History(s, c);
    assert Outstanding(t, c) == Outstanding(s, c);
  }

  lemma LoadKeepsSound(s: World, channel: string, ticket: nat, now: Option<Gap>, c: string)
    requires Inv(s) && Enabled(s, Load(channel, ticket, now))
    requires Clear(AfterLoad(s, channel, ticket, now)) && c in s.w.channels
    ensures c in AfterLoad(s, channel, ticket, now).w.channels && Sound(AfterLoad(s, channel, ticket, now), c)
  {
    if Newer(s.w, now) {
      LoadOverANewerGap(s, channel, ticket, now, c);
    } else {
      LoadedShape(s.w, channel, ticket, s.answers[ticket].records, now);
      assert Clear(s) && Sound(s, c);
      if Verdict(s.w, channel, ticket, now).Kept? && c == channel {
        LoadedAgrees(s, channel, ticket, now);
        KeptExactlyWhenNothingWasLost(s, channel, ticket, now);
        AnsweredIsSound(s, channel, ticket, now);
      } else {
        LoadKeepsOthersSound(s, channel, ticket, now, c);
      }
    }
  }

  lemma AnsweredIsSound(s: World, channel: string, ticket: nat, now: Option<Gap>)
    requires Enabled(s, Load(channel, ticket, now)) && Verdict(s.w, channel, ticket, now).Kept?
    requires var held := LoadedAt(s.w, channel, ticket, s.answers[ticket].records, now).channels[channel].messages;
             Agrees(Replay(held, Outstanding(s, channel)), Now(s, channel), s.answers[ticket].floor)
    ensures channel in AfterLoad(s, channel, ticket, now).w.channels
    ensures Sound(AfterLoad(s, channel, ticket, now), channel)
  {
    var t := AfterLoad(s, channel, ticket, now);
    assert t.w.channels[channel].phase.Complete?;
    assert t.floors[channel] == s.answers[ticket].floor;
    assert Outstanding(t, channel) == Outstanding(s, channel);
    assert Now(t, channel) == Now(s, channel);
  }

  lemma LoadKeepsInv(s: World, channel: string, ticket: nat, now: Option<Gap>)
    requires Inv(s) && Enabled(s, Load(channel, ticket, now))
    ensures Inv(Do(s, Load(channel, ticket, now)))
  {
    var t := AfterLoad(s, channel, ticket, now);
    LoadKeepsRest(s, channel, ticket, now);
    LoadKeepsBased(s, channel, ticket, now);
    LoadKeepsTickets(s, channel, ticket, now);
    LoadedShape(s.w, channel, ticket, s.answers[ticket].records, now);
    if Clear(t) {
      forall c | c in t.w.channels ensures Sound(t, c) {
        LoadKeepsSound(s, channel, ticket, now, c);
      }
    }
  }

  // ---------------------------------------------------------------- the rest

  // `t` is `s` with channels forgotten, demoted or newly owing, and perhaps a gap cleared.
  ghost predicate Relaxed(s: World, t: World) {
    && t == s.(w := t.w, box := t.box)
    && t.box.last == s.box.last && t.box.latest == s.box.latest
    && t.box.sock.queue == s.box.sock.queue
    && (t.box.sock.gap == s.box.sock.gap || t.box.sock.gap == None)
    && t.w.seen == s.w.seen && t.w.tickets == s.w.tickets
    && (forall c :: c in t.w.channels && !t.w.channels[c].phase.Needed? ==>
          c in s.w.channels && t.w.channels[c] == s.w.channels[c])
    && (t.w.gap == s.w.gap
        || (t.w.gap == None && forall c :: c in t.w.channels ==> t.w.channels[c].phase.Complete?))
    && (t.box.sock.gap != s.box.sock.gap ==> AtMost(s.box.sock.gap, s.w.seen))
  }

  lemma OtherStepsRelax(s: World, a: Act)
    requires Numbered(s) && Enabled(s, a)
    requires a.Watch? || a.Unwatch? || a.Fail?
    ensures Relaxed(s, Do(s, a))
  {
  }

  lemma ReconcileRelaxes(s: World)
    requires Numbered(s)
    ensures Relaxed(s, AfterReconcile(s))
  {
  }

  lemma RelaxedKeepsRest(s: World, t: World)
    requires Numbered(s) && Ordered(s) && Ticketed(s) && Based(s) && Relaxed(s, t)
    ensures Numbered(t) && Ordered(t) && Ticketed(t) && Based(t)
  {
    assert forall c :: History(t, c) == History(s, c);
    forall k | k in t.answers ensures AnswerFits(t, k) {
      assert AnswerFits(s, k);
    }
  }

  lemma RelaxedKeepsSound(s: World, t: World, c: string)
    requires Relaxed(s, t) && c in t.w.channels
    requires c in s.w.channels ==> Sound(s, c)
    ensures Sound(t, c)
  {
    assert History(t, c) == History(s, c);
    assert Outstanding(t, c) == Outstanding(s, c);
  }

  // Watching, forgetting, a failed snapshot and a reconcile: no channel gains a claim.
  lemma RelaxedKeepsInv(s: World, t: World)
    requires Inv(s) && Relaxed(s, t)
    ensures Inv(t)
  {
    RelaxedKeepsRest(s, t);
    if Clear(t) {
      assert Clear(s);
      forall c | c in t.w.channels ensures Sound(t, c) {
        RelaxedKeepsSound(s, t, c);
      }
    }
  }

  lemma RenewKeepsInv(s: World)
    requires Inv(s) && Enabled(s, Renew)
    ensures Inv(Do(s, Renew))
  {
    assert forall c :: History(Do(s, Renew), c) == History(s, c);
  }

  lemma StepKeepsInv(s: World, a: Act)
    requires Inv(s) && Enabled(s, a)
    ensures Inv(Do(s, a))
  {
    match a
    case Post(e) => PostKeepsInv(s, e);
    case Deliver(cost, readable) => DeliverKeepsInv(s, cost, readable);
    case Pump => PumpKeepsInv(s);
    case Begin(channel) => BeginKeepsInv(s, channel);
    case Fetch(ticket, floor, records) => FetchKeepsInv(s, ticket, floor, records);
    case Load(channel, ticket, now) => LoadKeepsInv(s, channel, ticket, now);
    case Renew => RenewKeepsInv(s);
    case Watch(_) => OtherStepsRelax(s, a); RelaxedKeepsInv(s, Do(s, a));
    case Unwatch(_) => OtherStepsRelax(s, a); RelaxedKeepsInv(s, Do(s, a));
    case Fail(_, _) => OtherStepsRelax(s, a); RelaxedKeepsInv(s, Do(s, a));
    case Reconcile => ReconcileRelaxes(s); RelaxedKeepsInv(s, Do(s, a));
    case _ => WireKeepsInv(s, a);
  }

  lemma {:induction false} RunKeepsInv(run: seq<World>, i: nat)
    requires Run(run) && i < |run|
    ensures Inv(run[i])
  {
    if i == 0 {
      assert BEGINNING.log[0..] == [];
    } else {
      RunKeepsInv(run, i - 1);
      assert Next(run[i - 1], run[i - 1 + 1]);
      var a :| Enabled(run[i - 1], a) && run[i] == Do(run[i - 1], a);
      StepKeepsInv(run[i - 1], a);
    }
  }

  // ---------------------------------------------------------------- what an overlay holds

  // The changes of a ticket's channel among the events taken since its begin.
  ghost function Since(s: World, ticket: nat): seq<Change>
    requires ticket in s.issued && s.issued[ticket].heard <= |s.heard|
  {
    Changes(s.issued[ticket].channel, s.heard[s.issued[ticket].heard..])
  }

  // A pending channel's overlay holds exactly those, or has overflowed because they were too many.
  ghost predicate Overlaid(s: World, c: string)
    requires c in s.w.channels
  {
    var p := s.w.channels[c].phase;
    p.Pending? ==>
      && p.ticket in s.issued && s.issued[p.ticket].channel == c && s.issued[p.ticket].heard <= |s.heard|
      && |p.overlay| <= MAX_OVERLAY
      && (p.overflow <==> |Since(s, p.ticket)| > MAX_OVERLAY)
      && (!p.overflow ==> p.overlay == Since(s, p.ticket))
  }

  ghost predicate AllOverlaid(s: World) { forall c :: c in s.w.channels ==> Overlaid(s, c) }

  lemma PumpKeepsOverlaid(s: World, c: string)
    requires c in s.w.channels && Overlaid(s, c)
    ensures c in Do(s, Pump).w.channels && Overlaid(Do(s, Pump), c)
  {
    var t, taken := Do(s, Pump), TakenNow(s);
    PumpedChannel(s.w, taken, c);
    PumpedShape(s.w, taken);
    if t.w.channels[c].phase.Pending? {
      var p := s.w.channels[c].phase;
      var n := s.issued[p.ticket].heard;
      assert t.heard[n..] == s.heard[n..] + taken.events;
      ChangesConcat(c, s.heard[n..], taken.events);
      OverflowsExactly(s.w.channels[c], Changes(c, taken.events));
    }
  }

  lemma RegisterKeepsOverlaid(s: World, channel: string, c: string)
    requires Ticketed(s) && Begins(s.w, channel) && c in s.w.channels && Overlaid(s, c)
    ensures c in Registered(s, channel).w.channels && Overlaid(Registered(s, channel), c)
  {
    var t := Registered(s, channel);
    assert s.w.tickets + 1 !in s.issued;
    if c == channel {
      assert s.heard[|s.heard|..] == [];
    }
  }

  lemma BeginKeepsOverlaid(s: World, channel: string)
    requires Inv(s) && AllOverlaid(s)
    ensures AllOverlaid(Do(s, Begin(channel)))
  {
    var p := Do(s, Pump);
    PumpedShape(s.w, TakenNow(s));
    PumpKeepsInv(s);
    BeginIsPumpThenRegister(s, channel);
    forall c | c in p.w.channels ensures Overlaid(p, c) {
      PumpKeepsOverlaid(s, c);
    }
    if Begins(p.w, channel) {
      forall c | c in p.w.channels ensures Overlaid(Registered(p, channel), c) {
        RegisterKeepsOverlaid(p, channel, c);
      }
    }
  }

  lemma LoadKeepsOverlaid(s: World, channel: string, ticket: nat, now: Option<Gap>)
    requires AllOverlaid(s) && Enabled(s, Load(channel, ticket, now))
    ensures AllOverlaid(AfterLoad(s, channel, ticket, now))
  {
    LoadedShape(s.w, channel, ticket, s.answers[ticket].records, now);
    var t := AfterLoad(s, channel, ticket, now);
    forall c | c in t.w.channels ensures Overlaid(t, c) {
      assert Overlaid(s, c);
    }
  }

  // Pending channels, tickets and what was heard stay: so do the overlays.
  lemma SamePendingStaysOverlaid(s: World, t: World)
    requires AllOverlaid(s) && t.heard == s.heard && t.issued == s.issued
    requires forall c :: c in t.w.channels && t.w.channels[c].phase.Pending? ==>
               c in s.w.channels && t.w.channels[c] == s.w.channels[c]
    ensures AllOverlaid(t)
  {
    forall c | c in t.w.channels ensures Overlaid(t, c) {
      if t.w.channels[c].phase.Pending? {
        assert Overlaid(s, c);
      }
    }
  }

  lemma StepKeepsOverlaid(s: World, a: Act)
    requires Inv(s) && AllOverlaid(s) && Enabled(s, a)
    ensures AllOverlaid(Do(s, a))
  {
    if a.Pump? {
      PumpedShape(s.w, TakenNow(s));
      forall c | c in s.w.channels ensures Overlaid(Do(s, a), c) {
        PumpKeepsOverlaid(s, c);
      }
    } else if a.Begin? {
      BeginKeepsOverlaid(s, a.channel);
    } else if a.Load? {
      LoadKeepsOverlaid(s, a.channel, a.ticket, a.now);
    } else if a.Renew? {
      assert Do(s, a).w == FRESH;
    } else {
      OtherStepsKeepOverlaid(s, a);
    }
  }

  lemma OtherStepsKeepOverlaid(s: World, a: Act)
    requires Numbered(s) && AllOverlaid(s) && Enabled(s, a)
    requires !a.Pump? && !a.Begin? && !a.Load? && !a.Renew?
    ensures AllOverlaid(Do(s, a))
  {
    if a.Reconcile? {
      ReconcileRelaxes(s);
    } else if a.Watch? || a.Unwatch? || a.Fail? {
      OtherStepsRelax(s, a);
    }
    SamePendingStaysOverlaid(s, Do(s, a));
  }

  lemma NextKeepsOverlaid(s: World, t: World)
    requires Inv(s) && AllOverlaid(s) && Next(s, t)
    ensures AllOverlaid(t)
  {
    var a :| Enabled(s, a) && t == Do(s, a);
    StepKeepsOverlaid(s, a);
  }

  lemma {:induction false} RunKeepsOverlaid(run: seq<World>, i: nat)
    requires Run(run) && i < |run|
    ensures AllOverlaid(run[i])
  {
    if i == 0 {
      assert run[0].w.channels == map[];
    } else {
      RunKeepsOverlaid(run, i - 1);
      RunKeepsInv(run, i - 1);
      assert Next(run[i - 1], run[i - 1 + 1]);
      NextKeepsOverlaid(run[i - 1], run[i]);
    }
  }

  /** In every run, the answer to a channel's pending ticket is kept, and so completes it, exactly when the reader's gap is
      still the one it had at the ticket's begin, none newer comes with the answer, and of the events taken since the begin
      no more than an overlay holds changed the channel. */
  lemma AnAnswerIsKeptExactly(run: seq<World>, i: nat, channel: string, ticket: nat, now: Option<Gap>)
    requires Run(run) && i < |run| && Enabled(run[i], Load(channel, ticket, now))
    requires channel in run[i].w.channels && run[i].w.channels[channel].phase.Pending?
    requires run[i].w.channels[channel].phase.ticket == ticket
    ensures var s, t := run[i], Do(run[i], Load(channel, ticket, now));
            && ticket in s.issued && s.issued[ticket].channel == channel && s.issued[ticket].heard <= |s.heard|
            && channel in t.w.channels
            && (t.w.channels[channel].phase.Complete? <==>
                  && s.issued[ticket].read == s.w.gap
                  && (now.Some? ==> now.value.number <= s.w.seen)
                  && |Changes(channel, s.heard[s.issued[ticket].heard..])| <= MAX_OVERLAY)
            && (!t.w.channels[channel].phase.Complete? ==> t.w.channels[channel].phase.Needed?)
  {
    RunKeepsInv(run, i);
    RunKeepsOverlaid(run, i);
    var s := run[i];
    assert Overlaid(s, channel);
    KeptExactlyWhenNothingWasLost(s, channel, ticket, now);
    LoadedShape(s.w, channel, ticket, s.answers[ticket].records, now);
    ResyncMeans(s.w, channel, ticket, s.answers[ticket].records, now);
  }

  // ---------------------------------------------------------------- what every run keeps

  // A channel a caller sees as current.
  ghost predicate Shown(s: World, c: string) { StandingOf(s.w, c, !s.running) == Some(Current) }

  /** In every run, a channel that reads current, while the listener is past its hello and no gap it holds is news to
      the reader, holds the channel's own messages as soon as what was delivered is pumped: each held message is the
      current version, none deleted is held, there is no hole, and from the page's start on only messages with
      `MAX_KEPT` newer posts are missing. */
  lemma CurrentMeansTheChannelsOwn(run: seq<World>, i: nat, c: string)
    requires Run(run) && i < |run|
    requires Clear(run[i]) && Shown(run[i], c)
    requires run[i].box.sock.queue == [] && run[i].wire == []
    ensures c in run[i].floors
    ensures Agrees(run[i].w.channels[c].messages, Now(run[i], c), run[i].floors[c])
  {
    RunKeepsInv(run, i);
    assert Sound(run[i], c);
    assert Outstanding(run[i], c) == [];
  }

  /** And with events still queued or on the wire: whatever stale version is held, the events on their way heal it. */
  lemma OutstandingEventsHeal(run: seq<World>, i: nat, c: string)
    requires Run(run) && i < |run|
    requires Clear(run[i]) && Shown(run[i], c)
    ensures c in run[i].floors
    ensures Agrees(Replay(run[i].w.channels[c].messages, Outstanding(run[i], c)), Now(run[i], c), run[i].floors[c])
  {
    RunKeepsInv(run, i);
    assert Sound(run[i], c);
  }

  /** A reconcile never hides a loss. When it clears, the gap it clears is the last one this socket latched, and every
      watched channel is complete from a snapshot whose begin had already taken that very gap; in every other case the
      service's gap stays as it was. */
  lemma ReconcileNeverHidesALoss(run: seq<World>, i: nat)
    requires Run(run) && i < |run|
    ensures ClearsOnlyTheLast(run[i], Do(run[i], Reconcile))
  {
    RunKeepsInv(run, i);
    ReconcileClearsOnlyTheLast(run[i]);
  }

  ghost predicate ClearsOnlyTheLast(s: World, t: World) {
    if t.box.sock.gap == s.box.sock.gap then t == s
    else
      && t.box.sock.gap == None && s.running
      && s.w.gap.Some? && s.w.gap.value.number == s.box.latest
      && forall c :: c in s.w.channels ==>
           s.w.channels[c].phase.Complete? && c in s.basis && s.basis[c] == s.w.gap
  }

  lemma ReconcileClearsOnlyTheLast(s: World)
    requires Numbered(s) && Based(s)
    ensures ClearsOnlyTheLast(s, Do(s, Reconcile))
  {
    if s.running && MayClear(s.w) && Clears(s.box.sock, s.w.gap.value) {
      assert s.w.gap.value.number == s.box.latest;
    }
  }

  /** A reconcile clears whenever it may: exactly when the service runs, every watched channel is complete, and the gap the
      service holds is the reader's. Otherwise it does nothing. */
  lemma ReconcileClearsExactly(s: World)
    ensures var t := Do(s, Reconcile);
            if && s.running && (forall c :: c in s.w.channels ==> s.w.channels[c].phase.Complete?)
               && s.w.gap.Some? && s.box.sock.gap.Some? && s.box.sock.gap.value.number == s.w.gap.value.number
            then t.w == s.w.(gap := None) && t.box.sock == s.box.sock.(gap := None)
            else t == s
  {
  }

  // A loss the model has not seen, and a channel still owing a snapshot, each make the clear refuse.
  lemma ANewerLossIsNotCleared(s: World)
    requires s.box.sock.gap.Some? && (s.w.gap.Some? ==> s.w.gap.value.number < s.box.sock.gap.value.number)
    ensures Do(s, Reconcile) == s
  {
  }
}
