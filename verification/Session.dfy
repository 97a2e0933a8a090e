/** The bounded replay ring of a session, against the whole log of its events (rust/backend/src/session.rs). */
module Session {
  import opened Wrappers

  const RING_CAPACITY: nat := 256

  datatype Event<+P> = Event(op: string, payload: P)

  datatype Entry<+P> = Entry(revision: nat, event: Event<P>)

  // The events after the first `since`, each under its revision: the first event ever is revision 1.
  function Since<P>(log: seq<Event<P>>, since: nat): (r: seq<Entry<P>>)
    ensures |r| == if since < |log| then |log| - since else 0
    ensures forall i :: 0 <= i < |r| ==> r[i] == Entry(since + i + 1, log[since + i])
  {
    if since < |log| then seq(|log| - since, i requires 0 <= i < |log| - since => Entry(since + i + 1, log[since + i]))
    else []
  }

  // How many of the oldest events the ring no longer holds.
  function Dropped<P>(log: seq<Event<P>>): nat {
    if |log| > RING_CAPACITY then |log| - RING_CAPACITY else 0
  }

  // What a client that has seen every revision up to `since` is answered.
  function Replay<P>(log: seq<Event<P>>, since: nat): Option<seq<Entry<P>>> {
    if since == 0 then Some(Since(log, Dropped(log)))
    else if since < Dropped(log) then None
    else Some(Since(log, since))
  }

  class Session<P> {
    var revision: nat
    var ring: seq<Entry<P>>
    var lowWater: nat
    ghost var log: seq<Event<P>>

    ghost predicate Valid()
      reads this
    {
      && revision == |log|
      && ring == Since(log, Dropped(log))
      && lowWater == (if Dropped(log) == 0 then 0 else Dropped(log) + 1)
    }

    constructor ()
      ensures Valid() && log == []
    {
      revision, ring, lowWater, log := 0, [], 0, [];
    }

    // Record an event that may later be replayed.
    method Bump(op: string, payload: P) returns (now: nat)
      requires Valid()
      modifies this
      ensures Valid() && log == old(log) + [Event(op, payload)] && now == |log|
    {
      revision := revision + 1;
      now := revision;
      ring := ring + [Entry(now, Event(op, payload))];
      log := log + [Event(op, payload)];
      if |ring| > RING_CAPACITY {
        lowWater := ring[0].revision + 1;
        ring := ring[1..];
      }
    }

    // The events strictly newer than `since`; none of them when one was dropped.
    method ReplayAfter(since: nat) returns (r: Option<seq<Entry<P>>>)
      requires Valid()
      ensures since != 0 ==> (r.None? <==> since + RING_CAPACITY < |log|)
      ensures since != 0 && r.Some? ==>
                && |r.value| == (if since < |log| then |log| - since else 0)
                && forall i :: 0 <= i < |r.value| ==> r.value[i] == Entry(since + i + 1, log[since + i])
      ensures r == Replay(log, since)
    {
      var low := if lowWater > 0 then lowWater - 1 else 0;
      if since < low && since != 0 {
        return None;
      }
      var newer := [];
      ghost var from := if since > Dropped(log) then since else Dropped(log);
      for i := 0 to |ring|
        invariant |newer| == if Dropped(log) + i > from then Dropped(log) + i - from else 0
        invariant forall k :: 0 <= k < |newer| ==> newer[k] == Entry(from + k + 1, log[from + k])
      {
        if ring[i].revision > since {
          newer := newer + [ring[i]];
        }
      }
      assert newer == Since(log, from);
      r := Some(newer);
    }
  }

  // Whether an event of this revision is one the ring still holds.
  predicate Holds<P>(log: seq<Event<P>>, revision: nat) {
    exists i :: 0 <= i < |Since(log, Dropped(log))| && Since(log, Dropped(log))[i].revision == revision
  }

  // The ring holds exactly the latest revisions, as many as it has room for.
  lemma HoldsExactly<P>(log: seq<Event<P>>, revision: nat)
    ensures Holds(log, revision) <==> 0 < revision <= |log| && |log| < revision + RING_CAPACITY
  {
    if Dropped(log) < revision <= |log| {
      assert Since(log, Dropped(log))[revision - 1 - Dropped(log)].revision == revision;
    }
  }

  /** For a client that has seen something, a snapshot is called for exactly when an event it has not seen is no longer
      held. */
  lemma RefusedExactlyWhenAnEventIsGone<P>(log: seq<Event<P>>, since: nat)
    requires since != 0
    ensures Replay(log, since).None? <==> exists k :: since < k <= |log| && !Holds(log, k)
  {
    forall k: nat ensures Holds(log, k) <==> Dropped(log) < k <= |log| {
      HoldsExactly(log, k);
    }
    if since < Dropped(log) {
      assert !Holds(log, since + 1);
    }
  }

  // The events of an answer.
  function Events<P>(entries: seq<Entry<P>>): seq<Event<P>> {
    seq(|entries|, i requires 0 <= i < |entries| => entries[i].event)
  }

  // A client that resumed at each of these lengths of the log, each time from the revision it had reached.
  ghost predicate Resumptions<P>(log: seq<Event<P>>, reached: seq<nat>) {
    && |reached| > 0 && 0 < reached[0] && reached[|reached| - 1] <= |log|
    && forall i, j :: 0 <= i <= j < |reached| ==> reached[i] <= reached[j]
  }

  // What such a client holds: what it had and each answer after it, or the snapshot it was sent instead.
  ghost function Resumed<P>(log: seq<Event<P>>, reached: seq<nat>): seq<Event<P>>
    requires Resumptions(log, reached)
  {
    var last := |reached| - 1;
    if last == 0 then log[..reached[0]]
    else
      match Replay(log[..reached[last]], reached[last - 1])
      case Some(entries) => Resumed(log, reached[..last]) + Events(entries)
      case None => log[..reached[last]]
  }

  /** A client that always resumes from the revision it has reached ends with the whole log, each event once and in order,
      whatever happened between two resumptions and however many there are. */
  lemma {:induction false} ResumingRebuildsTheLog<P>(log: seq<Event<P>>, reached: seq<nat>)
    requires Resumptions(log, reached)
    ensures Resumed(log, reached) == log[..reached[|reached| - 1]]
  {
    var last := |reached| - 1;
    if last > 0 {
      var a, b := reached[last - 1], reached[last];
      ResumingRebuildsTheLog(log, reached[..last]);
      assert reached[0] <= a <= b;
      assert Events(Since(log[..b], a)) == log[a..b];
      assert log[..a] + log[a..b] == log[..b];
    }
  }
}
