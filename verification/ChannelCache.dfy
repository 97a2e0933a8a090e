/** One watched channel's held messages, against the channel they mirror.

    `Apply`, `Trim` and `Replay` are what `Channel::apply`, `Channel::trim` and the overlay's replay do to the held
    messages. `Source` is the channel itself: the current top-level messages after a prefix of its changes. The main
    result, `ReplayOverSnapshot`, says that replaying every change since a snapshot was begun over a page read at some
    later instant ends with the channel's own messages, although the replay applies changes the page already holds. */
module ChannelCache {
  import opened Wrappers
  import Records

  // The size beyond which `Trim` cuts a channel's held messages back.
  const MAX_KEPT: nat := 100

  // A timestamp as the number it spells (seconds, then microseconds).
  type Key = nat

  // `content` is the wire's record; the rest is what the cache reads of it (`Intake.MessageOf`).
  datatype Message = Message(channel: string, key: Key, thread: Key, content: Records.Record) {
    predicate TopLevel() { thread == key }
  }

  type Messages = map<Key, Message>

  datatype Change = Put(record: Message, edited: bool) | Delete(key: Key)

  // ---------------------------------------------------------------- what the code does to the held messages

  lemma OldestExists(keys: set<Key>)
    requires keys != {}
    ensures exists k :: k in keys && forall j :: j in keys ==> k <= j
  {
    var x :| x in keys;
    if y :| y in keys && y < x {
      OldestBelow(keys, x);
    }
  }

  lemma OldestBelow(keys: set<Key>, x: Key)
    requires x in keys
    ensures exists k :: k in keys && forall j :: j in keys ==> k <= j
    decreases x
  {
    if y :| y in keys && y < x {
      OldestBelow(keys, y);
    }
  }

  ghost function Oldest(m: Messages): (k: Key)
    requires m != map[]
    ensures k in m && forall j :: j in m ==> k <= j
  {
    OldestExists(m.Keys);
    var k :| k in m.Keys && forall j :: j in m.Keys ==> k <= j;
    k
  }

  ghost function Trim(m: Messages): (t: Messages)
    decreases |m|
  {
    if |m| <= MAX_KEPT then m
    else
      var k := Oldest(m);
      assert |(m - {k}).Keys| < |m.Keys| by { assert (m - {k}).Keys == m.Keys - {k}; }
      Trim(m - {k})
  }

  ghost function Apply(m: Messages, change: Change): Messages {
    match change
    case Delete(k) => m - {k}
    case Put(record, edited) =>
      if edited then
        (if record.key in m then m[record.key := record] else m)
      else
        Trim(if record.key in m then m else m[record.key := record])
  }

  ghost function Replay(m: Messages, changes: seq<Change>): Messages {
    if changes == [] then m
    else Apply(Replay(m, changes[..|changes| - 1]), changes[|changes| - 1])
  }

  lemma ReplaySnoc(m: Messages, rest: seq<Change>, change: Change)
    ensures Replay(m, rest + [change]) == Apply(Replay(m, rest), change)
  {
    assert (rest + [change])[..|rest|] == rest;
  }

  lemma {:induction false} ReplayConcat(m: Messages, a: seq<Change>, b: seq<Change>)
    ensures Replay(m, a + b) == Replay(Replay(m, a), b)
    decreases |b|
  {
    if b == [] {
      assert a + b == a;
    } else {
      var rest := b[..|b| - 1];
      assert (a + b)[..|a + b| - 1] == a + rest;
      ReplayConcat(m, a, rest);
    }
  }

  // The oldest leave, and only once the bound is exceeded.
  lemma {:induction false} TrimDropsTheOldest(m: Messages)
    ensures Trim(m).Keys <= m.Keys
    ensures forall k :: k in Trim(m) ==> Trim(m)[k] == m[k]
    ensures |Trim(m)| <= MAX_KEPT
    ensures |m| <= MAX_KEPT ==> Trim(m) == m
    ensures forall d, s :: d in m && d !in Trim(m) && s in Trim(m) ==> d < s
    ensures |m| > MAX_KEPT ==> |Trim(m)| == MAX_KEPT
    decreases |m|
  {
    if |m| > MAX_KEPT {
      var k := Oldest(m);
      var less := m - {k};
      assert less.Keys == m.Keys - {k};
      assert |less.Keys| == |m.Keys| - 1;
      assert |less| == |m| - 1;
      TrimDropsTheOldest(less);
      assert Trim(m) == Trim(less);
    }
  }

  // ---------------------------------------------------------------- the channel itself

  /** The channel after some of its changes: its current top-level messages, every key a message was ever posted
      under, and the highest key any change named. */
  datatype Source = Source(cur: Messages, posted: set<Key>, last: int)

  const EMPTY: Source := Source(map[], {}, -1)

  function Step(s: Source, change: Change): Source {
    match change
    case Delete(k) => Source(s.cur - {k}, s.posted, if s.last < k then k else s.last)
    case Put(r, true) => s.(cur := s.cur[r.key := r])
    case Put(r, false) => Source(s.cur[r.key := r], s.posted + {r.key}, r.key)
  }

  // New messages carry increasing keys; an edit names a current message. A delete names any key, and is never followed
  // by a new message under or below it.
  predicate LegalStep(s: Source, change: Change) {
    match change
    case Delete(_) => true
    case Put(r, edited) => if edited then r.key in s.cur else s.last < r.key
  }

  function Fold(log: seq<Change>): Source {
    if log == [] then EMPTY
    else Step(Fold(log[..|log| - 1]), log[|log| - 1])
  }

  ghost predicate Legal(log: seq<Change>) {
    log == [] || (Legal(log[..|log| - 1]) && LegalStep(Fold(log[..|log| - 1]), log[|log| - 1]))
  }

  ghost predicate WellKept(s: Source) {
    && s.cur.Keys <= s.posted
    && forall k :: k in s.posted ==> k <= s.last
  }

  // `later` comes after `early`: posts accumulate, and a message gone by then never returns.
  ghost predicate Leads(early: Source, later: Source) {
    && early.posted <= later.posted
    && early.last <= later.last
    && forall k :: k in later.cur && k <= early.last ==> k in early.cur
  }

  lemma FoldSnoc(log: seq<Change>, change: Change)
    ensures Fold(log + [change]) == Step(Fold(log), change)
    ensures Legal(log + [change]) <==> Legal(log) && LegalStep(Fold(log), change)
  {
    assert (log + [change])[..|log|] == log;
  }

  lemma {:induction false} FoldWellKept(log: seq<Change>)
    requires Legal(log)
    ensures WellKept(Fold(log))
  {
    if log != [] {
      FoldWellKept(log[..|log| - 1]);
    }
  }

  lemma {:induction false} LegalPrefix(log: seq<Change>, more: seq<Change>)
    requires Legal(log + more)
    ensures Legal(log)
    decreases |more|
  {
    if more == [] {
      assert log + more == log;
    } else {
      var rest, change := more[..|more| - 1], more[|more| - 1];
      LastApart(more);
      Regrouped(log, rest, change, []);
      FoldSnoc(log + rest, change);
      LegalPrefix(log, rest);
    }
  }

  // One change keeps the order of what was with what is.
  lemma StepLeads(early: Source, s: Source, change: Change)
    requires WellKept(early) && WellKept(s) && LegalStep(s, change) && Leads(early, s)
    ensures Leads(early, Step(s, change))
  {
  }

  lemma {:induction false} FoldLeads(log: seq<Change>, more: seq<Change>)
    requires Legal(log + more)
    ensures Leads(Fold(log), Fold(log + more))
    decreases |more|
  {
    LegalPrefix(log, more);
    FoldWellKept(log);
    if more == [] {
      assert log + more == log;
    } else {
      var rest, change := more[..|more| - 1], more[|more| - 1];
      LastApart(more);
      Regrouped(log, rest, change, []);
      FoldSnoc(log + rest, change);
      FoldLeads(log, rest);
      FoldWellKept(log + rest);
      StepLeads(Fold(log), Fold(log + rest), change);
    }
  }

  // ---------------------------------------------------------------- agreement

  ghost function NewerPosts(s: Source, k: Key): set<Key> {
    set j | j in s.posted && k < j
  }

  /** What is held is the channel's own: each held message is the channel's current version, no current message newer
      than the oldest held one is missing, the bound holds, and a current message from the page's start (`floor`) on is
      missing only when `MAX_KEPT` messages were posted after it. */
  ghost predicate Agrees(held: Messages, s: Source, floor: Key) {
    && (forall k :: k in held ==> k in s.cur && held[k] == s.cur[k])
    && (forall o, k :: o in held && k in s.cur && o < k ==> k in held)
    && |held| <= MAX_KEPT
    && (forall k :: k in s.cur && floor <= k && |NewerPosts(s, k)| < MAX_KEPT ==> k in held)
  }

  /** The invariant of a replay that lags: `held` was seeded from the channel at `target` and has replayed the changes
      up to `at`. A held message is the target's version or the version at the replay's own position; a message the
      target has and `held` lacks is still to be replayed, or is older than everything held. */
  ghost predicate CatchingUp(held: Messages, at: Source, target: Source, floor: Key) {
    && (forall k :: k in held ==>
          (k in target.cur && held[k] == target.cur[k]) || (k in at.cur && held[k] == at.cur[k]))
    && (forall o, k :: o in held && k in target.cur && o < k ==> k in held || k !in at.posted)
    && |held| <= MAX_KEPT
    && held.Keys <= target.posted
    && (forall k :: k in target.cur && floor <= k && |NewerPosts(target, k)| < MAX_KEPT ==>
          k in held || k !in at.posted)
  }

  lemma CaughtUp(held: Messages, s: Source, floor: Key)
    requires WellKept(s)
    ensures CatchingUp(held, s, s, floor) <==> Agrees(held, s, floor)
  {
  }

  // One eviction: everything that stays is newer than what leaves, and was posted.
  lemma EvictedIsOld(m: Messages, target: Source, k: Key)
    requires m.Keys <= target.posted
    requires k in m && k !in Trim(m)
    ensures |NewerPosts(target, k)| >= MAX_KEPT
  {
    TrimDropsTheOldest(m);
    var kept := Trim(m).Keys;
    assert kept <= NewerPosts(target, k);
    SubsetIsNoLarger(kept, NewerPosts(target, k));
    assert |kept| == |Trim(m)|;
  }

  lemma CatchUpDelete(held: Messages, at: Source, k: Key, target: Source, floor: Key)
    requires Leads(Step(at, Delete(k)), target)
    requires CatchingUp(held, at, target, floor)
    ensures CatchingUp(Apply(held, Delete(k)), Step(at, Delete(k)), target, floor)
  {
    var held' := Apply(held, Delete(k));
    assert k !in target.cur;
    assert held'.Keys <= held.Keys;
    SubsetIsNoLarger(held'.Keys, held.Keys);
    assert |held'| == |held'.Keys| && |held| == |held.Keys|;
  }

  lemma CatchUpEdit(held: Messages, at: Source, r: Message, target: Source, floor: Key)
    requires r.key in at.cur
    requires CatchingUp(held, at, target, floor)
    ensures CatchingUp(Apply(held, Put(r, true)), Step(at, Put(r, true)), target, floor)
  {
    var held' := Apply(held, Put(r, true));
    assert held'.Keys == held.Keys;
    assert |held'| == |held'.Keys| && |held| == |held.Keys|;
  }

  // Of what a post leaves held: no page message that is recent enough for the target is missing.
  lemma PostKeepsRecent(grown: Messages, posted: set<Key>, target: Source, floor: Key)
    requires grown.Keys <= target.posted
    requires forall k :: k in target.cur && floor <= k && |NewerPosts(target, k)| < MAX_KEPT ==> k in grown || k !in posted
    ensures forall k :: k in target.cur && floor <= k && |NewerPosts(target, k)| < MAX_KEPT ==>
              k in Trim(grown) || k !in posted
  {
    forall k | k in target.cur && floor <= k && |NewerPosts(target, k)| < MAX_KEPT
      ensures k in Trim(grown) || k !in posted
    {
      if k in grown && k !in Trim(grown) {
        EvictedIsOld(grown, target, k);
      }
    }
  }

  // Nor is any that is newer than something held.
  lemma PostLeavesNoHole(grown: Messages, posted: set<Key>, target: Source)
    requires forall o, k :: o in grown && k in target.cur && o < k ==> k in grown || k !in posted
    ensures forall o, k :: o in Trim(grown) && k in target.cur && o < k ==> k in Trim(grown) || k !in posted
  {
    TrimDropsTheOldest(grown);
  }

  lemma CatchUpPost(held: Messages, at: Source, r: Message, target: Source, floor: Key)
    requires WellKept(at) && at.last < r.key
    requires Leads(Step(at, Put(r, false)), target)
    requires CatchingUp(held, at, target, floor)
    ensures CatchingUp(Apply(held, Put(r, false)), Step(at, Put(r, false)), target, floor)
  {
    var at' := Step(at, Put(r, false));
    var grown := if r.key in held then held else held[r.key := r];
    assert Trim(grown) == Apply(held, Put(r, false));
    assert grown.Keys <= target.posted;
    forall o, k | o in grown && k in target.cur && o < k ensures k in grown || k !in at'.posted {
      if o == r.key && k !in grown {
        assert k !in at.posted;
      }
    }
    TrimDropsTheOldest(grown);
    PostLeavesNoHole(grown, at'.posted, target);
    PostKeepsRecent(grown, at'.posted, target, floor);
  }

  // Replaying one more change the target already went through.
  lemma CatchUpStep(held: Messages, at: Source, change: Change, target: Source, floor: Key)
    requires WellKept(at) && LegalStep(at, change)
    requires Leads(Step(at, change), target)
    requires CatchingUp(held, at, target, floor)
    ensures CatchingUp(Apply(held, change), Step(at, change), target, floor)
  {
    match change
    case Delete(k) => CatchUpDelete(held, at, k, target, floor);
    case Put(r, true) => CatchUpEdit(held, at, r, target, floor);
    case Put(r, false) => CatchUpPost(held, at, r, target, floor);
  }

  // The channel moves on while nothing is replayed: the change is now one to replay.
  lemma SourceMovesOn(held: Messages, s: Source, change: Change, floor: Key)
    requires WellKept(s) && LegalStep(s, change)
    requires Agrees(held, s, floor)
    ensures CatchingUp(held, s, Step(s, change), floor)
  {
    var s' := Step(s, change);
    forall k | k in s'.cur && floor <= k && |NewerPosts(s', k)| < MAX_KEPT
      ensures k in held || k !in s.posted
    {
      SubsetIsNoLarger(NewerPosts(s, k), NewerPosts(s', k));
    }
  }

  // A change applied to both sides keeps them in agreement.
  lemma AgreesStep(held: Messages, s: Source, change: Change, floor: Key)
    requires WellKept(s) && LegalStep(s, change)
    requires Agrees(held, s, floor)
    ensures Agrees(Apply(held, change), Step(s, change), floor)
  {
    var s' := Step(s, change);
    SourceMovesOn(held, s, change, floor);
    CatchUpStep(held, s, change, s', floor);
    CaughtUp(Apply(held, change), s', floor);
  }

  // The channel gains a change, and so does what is still to be replayed.
  lemma GrowTogether(held: Messages, rest: seq<Change>, log: seq<Change>, change: Change, floor: Key)
    requires Legal(log) && LegalStep(Fold(log), change)
    requires Agrees(Replay(held, rest), Fold(log), floor)
    ensures Agrees(Replay(held, rest + [change]), Fold(log + [change]), floor)
  {
    FoldSnoc(log, change);
    FoldWellKept(log);
    ReplaySnoc(held, rest, change);
    AgreesStep(Replay(held, rest), Fold(log), change, floor);
  }

  // ---------------------------------------------------------------- the snapshot

  // The latest page: every current message from `floor` on.
  ghost function Page(s: Source, floor: Key): Messages {
    map k | k in s.cur && floor <= k :: s.cur[k]
  }

  lemma PageStartsTheCatchUp(at: Source, target: Source, floor: Key)
    requires WellKept(target)
    ensures CatchingUp(Trim(Page(target, floor)), at, target, floor)
  {
    var page := Page(target, floor);
    TrimDropsTheOldest(page);
    forall k | k in target.cur && floor <= k && |NewerPosts(target, k)| < MAX_KEPT
      ensures k in Trim(page)
    {
      if k !in Trim(page) {
        EvictedIsOld(page, target, k);
      }
    }
  }

  // One change more, of the changes `rest + [change] + ahead` that led from `log` to the target.
  lemma CatchUpByOne(held: Messages, log: seq<Change>, change: Change, ahead: seq<Change>, floor: Key)
    requires Legal(log + [change] + ahead)
    requires CatchingUp(held, Fold(log), Fold(log + [change] + ahead), floor)
    ensures CatchingUp(Apply(held, change), Fold(log + [change]), Fold(log + [change] + ahead), floor)
  {
    LegalPrefix(log + [change], ahead);
    FoldSnoc(log, change);
    FoldWellKept(log);
    FoldLeads(log + [change], ahead);
    CatchUpStep(held, Fold(log), change, Fold(log + [change] + ahead), floor);
  }

  // Replaying the changes one by one brings it all the way.
  lemma {:induction false} CatchUp(held: Messages, log: seq<Change>, done: seq<Change>, ahead: seq<Change>, floor: Key)
    requires Legal(log + done + ahead)
    requires CatchingUp(held, Fold(log), Fold(log + done + ahead), floor)
    ensures CatchingUp(Replay(held, done), Fold(log + done), Fold(log + done + ahead), floor)
    decreases |done|
  {
    if done == [] {
      assert log + done == log;
    } else {
      var rest, change := done[..|done| - 1], done[|done| - 1];
      LastApart(done);
      Regrouped(log, rest, change, ahead);
      CatchUp(held, log, rest, [change] + ahead, floor);
      CatchUpByOne(Replay(held, rest), log + rest, change, ahead, floor);
      ReplaySnoc(held, rest, change);
    }
  }

  // Regrouping, apart from what the sequences mean.
  lemma Regrouped<T>(a: seq<T>, rest: seq<T>, x: T, ahead: seq<T>)
    ensures a + (rest + [x]) == a + rest + [x]
    ensures a + (rest + [x]) + ahead == a + rest + ([x] + ahead) == a + rest + [x] + ahead
  {
  }

  lemma ThreeParts<T>(log: seq<T>, b: nat, f: nat)
    requires b <= f <= |log|
    ensures log[..b] + log[b..f] == log[..f] && log[b..f] + log[f..] == log[b..]
    ensures log[..b] + log[b..f] + log[f..] == log
  {
  }

  lemma LastApart<T>(d: seq<T>)
    requires d != []
    ensures d == d[..|d| - 1] + [d[|d| - 1]]
  {
  }

  // And then every later change keeps it there.
  lemma {:induction false} StayCaughtUp(held: Messages, log: seq<Change>, more: seq<Change>, floor: Key)
    requires Legal(log + more)
    requires Agrees(held, Fold(log), floor)
    ensures Agrees(Replay(held, more), Fold(log + more), floor)
    decreases |more|
  {
    if more == [] {
      assert log + more == log;
    } else {
      var rest, change := more[..|more| - 1], more[|more| - 1];
      LastApart(more);
      Regrouped(log, rest, change, []);
      FoldSnoc(log + rest, change);
      StayCaughtUp(held, log, rest, floor);
      GrowTogether(held, rest, log + rest, change, floor);
    }
  }

  // A page read after `done`, with `done` replayed over it.
  lemma PageCatchesUp(log: seq<Change>, done: seq<Change>, floor: Key)
    requires Legal(log + done)
    ensures Agrees(Replay(Trim(Page(Fold(log + done), floor)), done), Fold(log + done), floor)
  {
    var target := Fold(log + done);
    var page := Trim(Page(target, floor));
    FoldWellKept(log + done);
    PageStartsTheCatchUp(Fold(log), target, floor);
    assert log + done + [] == log + done;
    CatchUp(page, log, done, [], floor);
    CaughtUp(Replay(page, done), target, floor);
  }

  lemma ReplayOverPage(log: seq<Change>, done: seq<Change>, more: seq<Change>, floor: Key)
    requires Legal(log + done + more)
    ensures Agrees(Replay(Trim(Page(Fold(log + done), floor)), done + more), Fold(log + done + more), floor)
  {
    var page := Trim(Page(Fold(log + done), floor));
    LegalPrefix(log + done, more);
    PageCatchesUp(log, done, floor);
    StayCaughtUp(Replay(page, done), log + done, more, floor);
    ReplayConcat(page, done, more);
  }

  /** The overlay is right: whatever instant `f` the page was read at, replaying all changes since an earlier instant
      `b` over it ends in agreement with the channel. */
  lemma ReplayOverSnapshot(log: seq<Change>, b: nat, f: nat, floor: Key)
    requires Legal(log) && b <= f <= |log|
    ensures Agrees(Replay(Trim(Page(Fold(log[..f]), floor)), log[b..]), Fold(log), floor)
  {
    ThreeParts(log, b, f);
    ReplayOverPage(log[..b], log[b..f], log[f..], floor);
  }
}
