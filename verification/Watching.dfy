/** The service, its claim and its `Watches`: the objects whose fields change in place, proved against the values of
    `WatchModel` and `SocketQueue`. */
module Watching {
  import opened Wrappers
  import opened ChannelCache
  import opened SocketQueue
  import opened WatchModel
  import opened Ids

  // ---------------------------------------------------------------- one channel's messages, step by step

  method PopFirst(m: Messages) returns (rest: Messages)
    requires m != map[]
    ensures rest == m - {Oldest(m)}
  {
    var keys := m.Keys;
    assert Oldest(m) in keys;
    var first :| first in keys;
    while keys != {}
      invariant keys <= m.Keys && first in m
      invariant forall k :: k in m && k !in keys ==> first <= k
      decreases keys
    {
      var k :| k in keys;
      if k < first {
        first := k;
      }
      keys := keys - {k};
    }
    assert first == Oldest(m);
    rest := m - {first};
  }

  method TrimMessages(m: Messages) returns (kept: Messages)
    ensures kept == Trim(m)
  {
    kept := m;
    while |kept| > MAX_KEPT
      invariant Trim(kept) == Trim(m)
      decreases |kept|
    {
      var rest := PopFirst(kept);
      assert rest.Keys == kept.Keys - {Oldest(kept)};
      assert |rest.Keys| == |kept.Keys| - 1;
      kept := rest;
    }
  }

  method ApplyChange(m: Messages, change: Change) returns (after: Messages)
    ensures after == Apply(m, change)
  {
    match change
    case Delete(k) => after := m - {k};
    case Put(record, edited) =>
      if edited {
        after := if record.key in m then m[record.key := record] else m;
      } else {
        after := if record.key in m then m else m[record.key := record];
        after := TrimMessages(after);
      }
  }

  method Collect(records: seq<Message>, channel: string) returns (m: Messages)
    ensures m == Collected(records, channel)
  {
    m := map[];
    for i := 0 to |records|
      invariant m == Collected(records[..i], channel)
    {
      assert records[..i + 1][..i] == records[..i];
      if TopOf(records[i], channel) {
        m := m[records[i].key := records[i]];
      }
    }
    assert records[..|records|] == records;
  }

  method ReplayOverlay(m: Messages, overlay: seq<Change>) returns (after: Messages)
    ensures after == Replay(m, overlay)
  {
    after := m;
    for i := 0 to |overlay|
      invariant after == Replay(m, overlay[..i])
    {
      assert overlay[..i + 1][..i] == overlay[..i];
      after := ApplyChange(after, overlay[i]);
    }
    assert overlay[..|overlay|] == overlay;
  }

  // ---------------------------------------------------------------- the claim and the service

  datatype ClaimState = Free | Held | Ended

  // Shared by a service and the one `Watches` it gave out.
  class Claim {
    var state: ClaimState

    constructor ()
      ensures state == Free
    {
      state := Free;
    }

    method CompareExchange(from: ClaimState, to: ClaimState) returns (done: bool)
      modifies this
      ensures done == (old(state) == from)
      ensures state == if done then to else old(state)
    {
      done := state == from;
      if done {
        state := to;
      }
    }
  }

  datatype ServicePhase = Running(shared: Shared) | Stopping | Stopped

  class Service {
    var phase: ServicePhase
    const claim: Claim

    constructor (shared: Shared)
      ensures phase == Running(shared) && fresh(claim) && claim.state == Free
    {
      phase := Running(shared);
      claim := new Claim();
    }

    // The one `Watches`, or none while another is alive or once the service has ended.
    method GiveWatches() returns (given: Watches?)
      modifies claim
      ensures given != null <==> old(claim.state) == Free
      ensures claim.state == if given != null then Held else old(claim.state)
      ensures given != null ==> fresh(given) && given.claim == claim && given.Value() == FRESH
    {
      var free := claim.CompareExchange(Free, Held);
      if free {
        given := new Watches(claim);
      } else {
        given := null;
      }
    }

    predicate Owns(reader: Watches) { reader.claim == claim }

    // What a take by `reader` hands over: nothing to a stranger, nor once the service no longer runs.
    ghost function TakenBy(reader: Watches): Taken
      reads this, if phase.Running? then {phase.shared} else {}
    {
      if Owns(reader) && phase.Running? then Taken(phase.shared.gap, Events(phase.shared.queue)) else Taken(None, [])
    }

    method Take(reader: Watches) returns (taken: Taken)
      modifies if phase.Running? then {phase.shared} else {}
      ensures taken == old(TakenBy(reader))
      ensures Owns(reader) && phase.Running? ==> phase.shared.Value() == Drained(old(phase.shared.Value()))
      ensures !Owns(reader) && phase.Running? ==> phase.shared.Value() == old(phase.shared.Value())
    {
      taken := Taken(None, []);
      if Owns(reader) {
        match phase
        case Running(s) => taken := s.Take();
        case _ =>
      }
    }

    method Gap() returns (gap: Option<Gap>)
      ensures gap == if phase.Running? then phase.shared.gap else None
    {
      gap := if phase.Running? then phase.shared.gap else None;
    }

    method Reconciled(gap: Gap) returns (cleared: bool)
      modifies if phase.Running? then {phase.shared} else {}
      ensures cleared == (phase.Running? && old(phase.Running? && Clears(phase.shared.Value(), gap)))
      ensures phase.Running? ==> phase.shared.Value() == Cleared(old(phase.shared.Value()), gap)
    {
      match phase
      case Running(s) => cleared := s.Reconciled(gap);
      case _ => cleared := false;
    }

    // The whole of a stop that nothing interrupts; `ServiceRuns` takes it apart.
    method Stop()
      modifies this, claim
      ensures phase == if old(phase).Running? then Stopped else old(phase)
      ensures claim.state == if old(phase).Running? then Ended else old(claim.state)
    {
      var was := phase;
      phase := Stopping;
      match was {
        case Running(_) =>
        case other =>
          phase := other;
          return;
      }
      claim.state := Ended;
      phase := Stopped;
    }
  }

  // ---------------------------------------------------------------- the watched channels

  class Watches {
    const claim: Claim
    var gap: Option<Gap>
    var seen: nat
    var tickets: nat
    var channels: map<string, Channel>

    ghost function Value(): Model
      reads this
    {
      Model(gap, seen, tickets, channels)
    }

    constructor (claim: Claim)
      ensures this.claim == claim && Value() == FRESH
    {
      this.claim := claim;
      gap, seen, tickets, channels := None, 0, 0, map[];
    }

    method Watch(channel: string) returns (refused: Option<WatchError>)
      modifies this
      ensures refused == WatchOutcome(old(Value()), channel)
      ensures Value() == Watched(old(Value()), channel)
    {
      if !ValidId(channel) {
        return Some(Invalid);
      }
      if channel !in channels {
        if |channels| >= MAX_CHANNELS {
          return Some(Full);
        }
        channels := channels[channel := Channel(Needed, map[])];
      }
      refused := None;
    }

    method Unwatch(channel: string)
      modifies this
      ensures Value() == Unwatched(old(Value()), channel)
      ensures channels == old(channels) - {channel} && gap == old(gap) && seen == old(seen) && tickets == old(tickets)
    {
      channels := channels - {channel};
    }

    method State(channel: string) returns (standing: Option<Standing>)
      ensures standing == StandingOf(Value(), channel, claim.state == Ended)
    {
      if channel !in channels {
        return None;
      }
      if claim.state == Ended {
        return Some(Owed);
      }
      match channels[channel].phase
      case Needed => standing := Some(Owed);
      case Pending(_, _, _, _) => standing := Some(Fetching);
      case Complete => standing := Some(Current);
    }

    method Sync(current: Option<Gap>)
      modifies this
      ensures Value() == Synced(old(Value()), current)
    {
      if current.Some? && current.value.number > seen {
        seen := current.value.number;
        gap := current;
        var left := channels.Keys;
        while left != {}
          invariant left <= channels.Keys == old(channels).Keys
          invariant forall c :: c in channels ==>
                      channels[c] == if c in left then old(channels)[c] else Demoted(old(channels)[c])
          invariant gap == current && seen == current.value.number && tickets == old(tickets)
          decreases left
        {
          var c :| c in left;
          if channels[c].phase.Complete? {
            channels := channels[c := channels[c].(phase := Needed)];
          }
          left := left - {c};
        }
        assert channels == Synced(old(Value()), current).channels;
      }
    }

    // `took`: the event was some watched channel's, kept or not.
    method ApplyEvent(e: Event) returns (took: bool)
      modifies this
      ensures Value() == Applied(old(Value()), e)
      ensures took == (ChangeOf(e).Some? && ChangeOf(e).value.0 in old(channels))
    {
      match ChangeOf(e) {
        case None => return false;
        case Some((channel, change)) =>
          if channel !in channels {
            return false;
          }
          var c := channels[channel];
          match c.phase {
            case Pending(ticket, read, overlay, overflow) =>
              if |overlay| >= MAX_OVERLAY {
                c := c.(phase := Pending(ticket, read, [], true));
              } else if !overflow {
                c := c.(phase := Pending(ticket, read, overlay + [change], false));
              }
            case _ =>
              var messages := ApplyChange(c.messages, change);
              c := c.(messages := messages);
          }
          channels := channels[channel := c];
          took := true;
      }
    }

    method ApplyTaken(taken: Taken)
      modifies this
      ensures Value() == Pumped(old(Value()), taken)
    {
      Sync(taken.gap);
      ghost var synced := Value();
      for i := 0 to |taken.events|
        invariant Value() == AppliedAll(synced, taken.events[..i])
      {
        assert taken.events[..i + 1][..i] == taken.events[..i];
        var _ := ApplyEvent(taken.events[i]);
      }
      assert taken.events[..|taken.events|] == taken.events;
    }

    method BeginTaken(channel: string, taken: Taken) returns (ticket: Option<nat>)
      modifies this
      ensures Value() == Begun(old(Value()), channel, taken)
      ensures ticket == if Begins(Pumped(old(Value()), taken), channel) then Some(tickets) else None
    {
      ApplyTaken(taken);
      if channel !in channels || !channels[channel].phase.Needed? {
        return None;
      }
      tickets := tickets + 1;
      channels := channels[channel := channels[channel].(phase := Pending(tickets, gap, [], false))];
      ticket := Some(tickets);
    }

    // With the claim not ended, a take always precedes the registration, even when no ticket comes of it.
    method Begin(channel: string, service: Service) returns (ticket: Option<nat>)
      modifies this, if service.phase.Running? then {service.phase.shared} else {}
      ensures claim.state == Ended ==> ticket == None && Value() == old(Value())
      ensures claim.state != Ended ==>
                var taken := old(service.TakenBy(this));
                && Value() == Begun(old(Value()), channel, taken)
                && ticket == if Begins(Pumped(old(Value()), taken), channel) then Some(tickets) else None
      ensures service.phase.Running? ==>
                service.phase.shared.Value() ==
                if claim.state != Ended && service.Owns(this) then Drained(old(service.phase.shared.Value()))
                else old(service.phase.shared.Value())
    {
      if claim.state == Ended {
        return None;
      }
      var taken := service.Take(this);
      ticket := BeginTaken(channel, taken);
    }

    method Pump(service: Service)
      modifies this, if service.phase.Running? then {service.phase.shared} else {}
      ensures Value() == Pumped(old(Value()), old(service.TakenBy(this)))
      ensures service.phase.Running? ==>
                service.phase.shared.Value() ==
                if service.Owns(this) then Drained(old(service.phase.shared.Value()))
                else old(service.phase.shared.Value())
    {
      var taken := service.Take(this);
      ApplyTaken(taken);
    }

    method LoadAt(channel: string, ticket: nat, records: seq<Message>, now: Option<Gap>) returns (loaded: Loaded)
      modifies this
      ensures loaded == Verdict(old(Value()), channel, ticket, now)
      ensures Value() == LoadedAt(old(Value()), channel, ticket, records, now)
    {
      Sync(now);
      if channel !in channels || !channels[channel].phase.Pending? {
        return Stale;
      }
      var c := channels[channel];
      if c.phase.ticket != ticket {
        return Stale;
      }
      if c.phase.overflow || c.phase.read != gap {
        channels := channels[channel := c.(phase := Needed)];
        return Resync;
      }
      var messages := Collect(records, channel);
      messages := TrimMessages(messages);
      messages := ReplayOverlay(messages, c.phase.overlay);
      channels := channels[channel := Channel(Complete, messages)];
      loaded := Kept;
    }

    // `now` is read after the claim was looked at.
    method Load(channel: string, ticket: nat, records: seq<Message>, service: Service) returns (loaded: Loaded)
      modifies this
      ensures !service.Owns(this) || claim.state == Ended ==> loaded == Stale && Value() == old(Value())
      ensures service.Owns(this) && claim.state != Ended ==>
                var now := old(if service.phase.Running? then service.phase.shared.gap else None);
                && loaded == Verdict(old(Value()), channel, ticket, now)
                && Value() == LoadedAt(old(Value()), channel, ticket, records, now)
    {
      if !service.Owns(this) || claim.state == Ended {
        return Stale;
      }
      var now := service.Gap();
      loaded := LoadAt(channel, ticket, records, now);
    }

    method Fail(channel: string, ticket: nat)
      modifies this
      ensures Value() == FailedAt(old(Value()), channel, ticket)
    {
      if channel in channels {
        match channels[channel].phase
        case Pending(t, _, _, _) =>
          if t == ticket {
            channels := channels[channel := channels[channel].(phase := Needed)];
          }
        case _ =>
      }
    }

    // Clear the socket's gap when every watch has resynced; refused when something was lost since.
    method Reconcile(service: Service) returns (cleared: bool)
      modifies this, if service.phase.Running? then {service.phase.shared} else {}
      ensures cleared <==> old(&& gap.Some? && (forall c :: c in channels ==> channels[c].phase.Complete?)
                               && service.phase.Running? && service.phase.shared.gap.Some?
                               && service.phase.shared.gap.value.number == gap.value.number)
      ensures Value() == if cleared then old(Value()).(gap := None) else old(Value())
      ensures service.phase.Running? ==>
                service.phase.shared.Value() ==
                if cleared then old(service.phase.shared.Value()).(gap := None) else old(service.phase.shared.Value())
    {
      if gap.None? {
        return false;
      }
      var all := forall c :: c in channels ==> channels[c].phase.Complete?;
      if all {
        cleared := service.Reconciled(gap.value);
        if cleared {
          gap := None;
        }
      } else {
        cleared := false;
      }
    }

    // Dropping a `Watches` frees the claim of a running service; a stop's end stays.
    method Drop()
      modifies claim
      ensures claim.state == if old(claim.state) == Held then Free else old(claim.state)
    {
      var _ := claim.CompareExchange(Held, Free);
    }
  }
}
