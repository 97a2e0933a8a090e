/** How what normalization yields reaches the queue and the cache: a record as the cache's message, a result as the queue's
    event. The cache compares timestamps by the number they spell, so two spellings of one instant are one message. */
module Intake {
  import opened Wrappers
  import opened Ids
  import opened Timestamps
  import Records
  import Normalizing
  import ChannelCache
  import SocketQueue
  import WatchModel

  predicate Dated(r: Records.Record) { IsTs(r.ts) && IsTs(r.threadTs) }

  function MessageOf(r: Records.Record): ChannelCache.Message
    requires Dated(r)
  {
    ChannelCache.Message(r.channel, Micros(r.ts), Micros(r.threadTs), r)
  }

  predicate Readable(n: Normalizing.Normalized) {
    match n
    case New(r) => Dated(r)
    case Edited(r) => Dated(r)
    case Deleted(_, _, ts) => IsTs(ts)
    case _ => true
  }

  function EventOf(n: Normalizing.Normalized): SocketQueue.Event
    requires Readable(n)
  {
    match n
    case New(r) => SocketQueue.New(MessageOf(r))
    case Edited(r) => SocketQueue.Edited(MessageOf(r))
    case Deleted(_, channel, ts) => SocketQueue.Deleted(channel, Micros(ts))
    case Unsupported => SocketQueue.Unsupported
    case Unrepresentable(_) => SocketQueue.Unrepresentable
  }

  // A message is top-level exactly when its two timestamps have one key, however they are spelled.
  lemma TopLevelIsOneKey(r: Records.Record)
    requires Dated(r)
    ensures MessageOf(r).TopLevel() <==> Key(r.ts) == Key(r.threadTs)
  {
    KeysOrderAsNumbers(r.ts, r.threadTs);
  }

  // The cache's keys are those of the timestamps: equal together, and in the same order.
  lemma KeysAreTheTimestamps(a: Records.Record, b: Records.Record)
    requires Dated(a) && Dated(b)
    ensures MessageOf(a).key == MessageOf(b).key <==> Key(a.ts) == Key(b.ts)
    ensures MessageOf(a).key < MessageOf(b).key <==> KeyPrecedes(Key(a.ts), Key(b.ts))
  {
    KeysOrderAsNumbers(a.ts, b.ts);
  }

  // ---------------------------------------------------------------- every result is an event

  lemma ReadTsIsTs(o: Normalizing.Fields, k: Normalizing.Key)
    ensures Normalizing.Lenient(Normalizing.OptTs(o, k)).Some? ==> IsTs(Normalizing.Lenient(Normalizing.OptTs(o, k)).value)
  {
  }

  lemma RecordIsDated(ctx: Normalizing.Context, channel: string, raw: Normalizing.Json)
    requires Normalizing.HasRecord(Normalizing.Normalize(ctx, channel, raw))
    ensures var r := Normalizing.Normalize(ctx, channel, raw).record;
            Dated(r) && r.channel == channel
  {
    Normalizing.RecordIsBuilt(ctx, channel, raw);
    Normalizing.NoMessageIsDropped(ctx, channel, raw);
    var o := Normalizing.SubjectOf(ctx, channel, raw).o;
    ReadTsIsTs(o, Normalizing.Key.Ts);
    ReadTsIsTs(o, Normalizing.Key.ThreadTs);
  }

  lemma DeletedIsDated(ctx: Normalizing.Context, channel: string, raw: Normalizing.Json)
    requires Normalizing.Normalize(ctx, channel, raw).Deleted?
    ensures IsTs(Normalizing.Normalize(ctx, channel, raw).ts) && Normalizing.Normalize(ctx, channel, raw).channel == channel
  {
  }

  lemma EveryResultIsReadable(ctx: Normalizing.Context, channel: string, raw: Normalizing.Json)
    ensures Readable(Normalizing.Normalize(ctx, channel, raw))
  {
    var n := Normalizing.Normalize(ctx, channel, raw);
    if Normalizing.HasRecord(n) {
      RecordIsDated(ctx, channel, raw);
    } else if n.Deleted? {
      DeletedIsDated(ctx, channel, raw);
    }
  }

  // What an event of a record does: it is put in its own channel at the key of its own timestamp, unless it is a reply.
  lemma RecordChanges(r: Records.Record, edited: bool)
    requires Dated(r)
    ensures var e := if edited then SocketQueue.Edited(MessageOf(r)) else SocketQueue.New(MessageOf(r));
            WatchModel.ChangeOf(e) ==
            if Micros(r.ts) == Micros(r.threadTs) then Some((r.channel, ChannelCache.Put(MessageOf(r), edited))) else None
    ensures MessageOf(r).key == Micros(r.ts) && MessageOf(r).content == r
  {
  }

  /** What every message does to the cache, from its own fields. A message with a readable timestamp is put as new, and a
      changed one as an edit, at the key of its own timestamp in the channel it was posted in, unless its thread is another
      message's; a delete with a readable timestamp removes that key; nothing else changes any channel. */
  lemma AnEventChangesItsOwnChannel(ctx: Normalizing.Context, channel: string, o: Normalizing.Fields)
    requires ValidId(ctx.workspace) && ValidId(channel)
    ensures var n := Normalizing.Normalize(ctx, channel, Normalizing.Obj(o));
            var subtype, inner := Normalizing.Get(o, Normalizing.Key.Subtype), Normalizing.Get(o, Normalizing.Key.Message);
            && Readable(n)
            && var change := WatchModel.ChangeOf(EventOf(n));
               if Normalizing.OfAMessage(subtype) && Normalizing.ReadableTs(o, Normalizing.Key.Ts) then
                 && n.New?
                 && change == (if Micros(Normalizing.TsIn(o)) == Micros(Normalizing.ThreadIn(o))
                               then Some((channel, ChannelCache.Put(MessageOf(n.record), false))) else None)
                 && MessageOf(n.record).key == Micros(Normalizing.TsIn(o))
               else if && subtype == Normalizing.Str("message_changed") && inner.Obj?
                       && Normalizing.OfAMessage(Normalizing.Get(inner.fields, Normalizing.Key.Subtype))
                       && Normalizing.ReadableTs(inner.fields, Normalizing.Key.Ts) then
                 && n.Edited?
                 && change == (if Micros(Normalizing.TsIn(inner.fields)) == Micros(Normalizing.ThreadIn(inner.fields))
                               then Some((channel, ChannelCache.Put(MessageOf(n.record), true))) else None)
                 && MessageOf(n.record).key == Micros(Normalizing.TsIn(inner.fields))
               else if subtype == Normalizing.Str("message_deleted")
                       && Normalizing.ReadableTs(o, Normalizing.Key.DeletedTs) then
                 change == Some((channel, ChannelCache.Delete(Micros(Normalizing.Get(o, Normalizing.Key.DeletedTs).text))))
               else change == None
  {
    var raw := Normalizing.Obj(o);
    EveryResultIsReadable(ctx, channel, raw);
    var n := Normalizing.Normalize(ctx, channel, raw);
    Normalizing.NewExactly(ctx, channel, o);
    Normalizing.EditedExactly(ctx, channel, o);
    Normalizing.DeletedExactly(ctx, channel, o);
    Normalizing.OfAMessageMeans(Normalizing.Get(o, Normalizing.Key.Subtype));
    Normalizing.RecordIsOf(ctx, channel, o);
    if Normalizing.HasRecord(n) {
      RecordIsDated(ctx, channel, raw);
      RecordChanges(n.record, n.Edited?);
    }
  }

  // A record in a page is one the cache keeps exactly when it is the channel's and not a reply.
  lemma PageKeepsTopLevel(r: Records.Record, channel: string)
    requires Dated(r)
    ensures WatchModel.TopOf(MessageOf(r), channel) <==> r.channel == channel && Key(r.threadTs) == Key(r.ts)
  {
    TopLevelIsOneKey(r);
  }
}
