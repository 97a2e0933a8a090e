/** A record as the JSON text that goes over the wire. What `Records` counts field by field is this text's length. */
module Wire {
  import opened Wrappers
  import opened Utf8
  import opened Timestamps
  import opened Records

  function HexDigit(n: nat): char
    requires n < 16
  {
    "0123456789abcdef"[n]
  }

  function EscapedChar(c: char): string {
    var n := c as int;
    if c == '"' then "\\\""
    else if c == '\\' then "\\\\"
    else if n == 8 then "\\b"
    else if n == 9 then "\\t"
    else if n == 10 then "\\n"
    else if n == 12 then "\\f"
    else if n == 13 then "\\r"
    else if n < 0x20 then "\\u00" + [HexDigit(n / 16), HexDigit(n % 16)]
    else [c]
  }

  function Escaped(s: string): string { if s == "" then "" else EscapedChar(s[0]) + Escaped(s[1..]) }

  function Quoted(s: string): string { "\"" + Escaped(s) + "\"" }

  function Decimal(n: nat): string {
    if n < 10 then ["0123456789"[n]] else Decimal(n / 10) + ["0123456789"[n % 10]]
  }

  function NamesJson(f: File): string {
    "{\"id\":" + Quoted(f.id) + ",\"name\":" + Quoted(f.name) + ",\"mime\":" + Quoted(f.mime)
  }

  function BytesJson(bytes: Option<U64>): string { match bytes case Some(n) => Decimal(n) case None => "null" }

  function TruthJson(on: bool): string { if on then "true" else "false" }

  function FileJson(f: File): string {
    NamesJson(f) + ",\"bytes\":" + BytesJson(f.bytes) + ",\"thumbnail\":" + TruthJson(f.thumbnail) + "}"
  }

  function FilesJson(files: seq<File>): string {
    if files == [] then ""
    else FilesJson(files[..|files| - 1]) + (if |files| > 1 then "," else "") + FileJson(files[|files| - 1])
  }

  function OriginJson(o: Origin): string {
    match o case Member => "\"member\"" case Drawer => "\"drawer\"" case Row => "\"row\"" case Bot => "\"bot\""
  }

  function PlaceJson(r: Record): string {
    "{\"workspace\":" + Quoted(r.workspace) + ",\"channel\":" + Quoted(r.channel) +
    ",\"ts\":" + Quoted(r.ts) + ",\"thread_ts\":" + Quoted(r.threadTs)
  }

  function AuthorJson(a: Author): string { ",\"author\":{\"id\":" + Quoted(a.id) + ",\"name\":" + Quoted(a.name) + "}" }

  function FlagJson(on: bool, text: string): string { if on then text else "" }

  function TextJson(r: Record): string {
    ",\"text\":" + Quoted(r.text) + FlagJson(r.truncated, ",\"truncated\":true")
  }

  function ReplyJson(latest: Option<string>): string {
    match latest case Some(ts) => ",\"latest_reply\":" + Quoted(ts) case None => ""
  }

  function OmittedJson(n: nat): string { if n == 0 then "" else ",\"files_omitted\":" + Decimal(n) }

  function CountsJson(r: Record): string {
    ",\"reply_count\":" + Decimal(r.replyCount) + ",\"files\":[" + FilesJson(r.files) + "]"
  }

  // The last fields are written only when they say something.
  function TailJson(r: Record): string {
    CountsJson(r) + ReplyJson(r.latestReply) + FlagJson(r.limited, ",\"limited\":true") +
    FlagJson(r.omitted, ",\"omitted\":true") + OmittedJson(r.filesOmitted) + "}"
  }

  function RecordJson(r: Record): string {
    PlaceJson(r) + AuthorJson(r.author) + ",\"origin\":" + OriginJson(r.origin) + TextJson(r) + TailJson(r)
  }

  // ---------------------------------------------------------------- lengths

  lemma {:induction false} LengthOfTwo(a: string, b: string)
    ensures Length(a + b) == Length(a) + Length(b)
  {
    if a == "" {
      assert a + b == b;
    } else {
      assert (a + b)[1..] == a[1..] + b;
      LengthOfTwo(a[1..], b);
    }
  }

  predicate Ascii(s: string) { forall i :: 0 <= i < |s| ==> (s[i] as int) < 0x80 }

  lemma AsciiIsBytes(s: string)
    requires Ascii(s)
    ensures Length(s) == |s|
  {
    NarrowIsBytes(s);
  }

  lemma EscapedCharLength(c: char)
    ensures Length(EscapedChar(c)) == JsonWidth(c)
  {
    var e := EscapedChar(c);
    if |e| == 1 {
      assert e == [c] && e[1..] == "";
    } else {
      AsciiIsBytes(e);
    }
  }

  lemma {:induction false} EscapedLength(s: string)
    ensures Length(Escaped(s)) == JsonBody(s)
  {
    if s != "" {
      EscapedCharLength(s[0]);
      EscapedLength(s[1..]);
      LengthOfTwo(EscapedChar(s[0]), Escaped(s[1..]));
    }
  }

  lemma QuotedLength(s: string)
    ensures Length(Quoted(s)) == JsonLength(s)
  {
    EscapedLength(s);
    LengthOfTwo("\"" + Escaped(s), "\"");
    LengthOfTwo("\"", Escaped(s));
    AsciiIsBytes("\"");
  }

  lemma {:induction false} DecimalLength(n: nat)
    ensures Length(Decimal(n)) == Digits(n) && Ascii(Decimal(n))
  {
    if n >= 10 {
      DecimalLength(n / 10);
      LengthOfTwo(Decimal(n / 10), ["0123456789"[n % 10]]);
      AsciiIsBytes(["0123456789"[n % 10]]);
    } else {
      AsciiIsBytes(Decimal(n));
    }
  }

  // Each piece of the text, after what came before it.

  lemma Ended(before: string, text: string)
    requires Ascii(text)
    ensures Length(before + text) == Length(before) + |text|
  {
    AsciiIsBytes(text);
    LengthOfTwo(before, text);
  }

  lemma Keyed(before: string, key: string, value: string)
    requires Ascii(key)
    ensures Length(before + key + value) == Length(before) + |key| + Length(value)
  {
    Ended(before, key);
    LengthOfTwo(before + key, value);
  }

  lemma Bracketed(before: string, key: string, value: string, end: string)
    requires Ascii(key) && Ascii(end)
    ensures Length(before + key + value + end) == Length(before) + |key| + Length(value) + |end|
  {
    Keyed(before, key, value);
    Ended(before + key + value, end);
  }

  lemma KeyedFirst(key: string, value: string)
    requires Ascii(key)
    ensures Length(key + value) == |key| + Length(value)
  {
    AsciiIsBytes(key);
    LengthOfTwo(key, value);
  }

  lemma Flagged(before: string, on: bool, text: string)
    requires Ascii(text)
    ensures Length(before + FlagJson(on, text)) == Length(before) + Flag(on, text)
  {
    if on {
      Ended(before, text);
    } else {
      assert before + "" == before;
    }
  }

  lemma QuotedAfter(before: string, key: string, s: string)
    requires Ascii(key)
    ensures Length(before + key + Quoted(s)) == Length(before) + |key| + JsonLength(s)
  {
    QuotedLength(s);
    Keyed(before, key, Quoted(s));
  }

  lemma QuotedFirst(key: string, s: string)
    requires Ascii(key)
    ensures Length(key + Quoted(s)) == |key| + JsonLength(s)
  {
    QuotedLength(s);
    KeyedFirst(key, Quoted(s));
  }

  lemma PlaceStart(r: Record)
    ensures var a := "{\"workspace\":" + Quoted(r.workspace) + ",\"channel\":" + Quoted(r.channel);
            Length(a) == |"{\"workspace\":"| + JsonLength(r.workspace) + |",\"channel\":"| + JsonLength(r.channel)
  {
    QuotedFirst("{\"workspace\":", r.workspace);
    QuotedAfter("{\"workspace\":" + Quoted(r.workspace), ",\"channel\":", r.channel);
  }

  lemma TimesAfter(before: string, ts: string, thread: string)
    ensures Length(before + ",\"ts\":" + Quoted(ts) + ",\"thread_ts\":" + Quoted(thread)) ==
            Length(before) + |",\"ts\":"| + JsonLength(ts) + |",\"thread_ts\":"| + JsonLength(thread)
  {
    QuotedAfter(before, ",\"ts\":", ts);
    QuotedAfter(before + ",\"ts\":" + Quoted(ts), ",\"thread_ts\":", thread);
  }

  lemma PlaceLength(r: Record)
    ensures Length(PlaceJson(r)) == PlaceSize(r)
  {
    PlaceStart(r);
    TimesAfter("{\"workspace\":" + Quoted(r.workspace) + ",\"channel\":" + Quoted(r.channel), r.ts, r.threadTs);
  }

  lemma AuthorLength(a: Author)
    ensures Length(AuthorJson(a)) == AuthorSize(a)
  {
    QuotedFirst(",\"author\":{\"id\":", a.id);
    var id := ",\"author\":{\"id\":" + Quoted(a.id);
    QuotedAfter(id, ",\"name\":", a.name);
    Ended(id + ",\"name\":" + Quoted(a.name), "}");
  }

  lemma NamesLength(f: File)
    ensures Length(NamesJson(f)) ==
            |"{\"id\":"| + JsonLength(f.id) + |",\"name\":"| + JsonLength(f.name) + |",\"mime\":"| + JsonLength(f.mime)
  {
    QuotedFirst("{\"id\":", f.id);
    var id := "{\"id\":" + Quoted(f.id);
    QuotedAfter(id, ",\"name\":", f.name);
    QuotedAfter(id + ",\"name\":" + Quoted(f.name), ",\"mime\":", f.mime);
  }

  lemma BytesAfter(before: string, bytes: Option<U64>)
    ensures Length(before + ",\"bytes\":" + BytesJson(bytes)) ==
            Length(before) + |",\"bytes\":"| + match bytes case Some(n) => Digits(n) case None => |"null"|
  {
    Ended(before, ",\"bytes\":");
    match bytes
    case Some(n) =>
      DecimalLength(n);
      LengthOfTwo(before + ",\"bytes\":", Decimal(n));
    case None => Ended(before + ",\"bytes\":", "null");
  }

  lemma TruthAfter(before: string, on: bool)
    ensures Length(before + ",\"thumbnail\":" + TruthJson(on)) ==
            Length(before) + |",\"thumbnail\":"| + if on then |"true"| else |"false"|
  {
    var key := ",\"thumbnail\":";
    TruthEnds(before + key, on);
    Ended(before, key);
  }

  lemma TruthEnds(before: string, on: bool)
    ensures Length(before + TruthJson(on)) == Length(before) + if on then |"true"| else |"false"|
  {
    Ended(before, TruthJson(on));
  }

  lemma FileLength(f: File)
    ensures Length(FileJson(f)) == FileSize(f)
  {
    NamesLength(f);
    var names, bytes := NamesJson(f), BytesJson(f.bytes);
    BytesAfter(names, f.bytes);
    TruthAfter(names + ",\"bytes\":" + bytes, f.thumbnail);
    Ended(names + ",\"bytes\":" + bytes + ",\"thumbnail\":" + TruthJson(f.thumbnail), "}");
  }

  lemma CommaAfter(before: string, more: bool)
    ensures Length(before + if more then "," else "") == Length(before) + if more then 1 else 0
  {
    if more {
      Ended(before, ",");
    } else {
      assert before + "" == before;
    }
  }

  lemma {:induction false} FilesLength(files: seq<File>)
    ensures Length(FilesJson(files)) == FilesSize(files)
  {
    if files != [] {
      var before, last := files[..|files| - 1], files[|files| - 1];
      FilesLength(before);
      FileLength(last);
      CommaAfter(FilesJson(before), |files| > 1);
      LengthOfTwo(FilesJson(before) + (if |files| > 1 then "," else ""), FileJson(last));
    }
  }

  lemma TextLength(r: Record)
    ensures Length(TextJson(r)) == |",\"text\":"| + JsonLength(r.text) + Flag(r.truncated, ",\"truncated\":true")
  {
    QuotedFirst(",\"text\":", r.text);
    Flagged(",\"text\":" + Quoted(r.text), r.truncated, ",\"truncated\":true");
  }

  lemma ReplyAfter(before: string, latest: Option<string>)
    ensures Length(before + ReplyJson(latest)) ==
            Length(before) + match latest case Some(ts) => |",\"latest_reply\":"| + JsonLength(ts) case None => 0
  {
    if latest.Some? {
      QuotedFirst(",\"latest_reply\":", latest.value);
      LengthOfTwo(before, ",\"latest_reply\":" + Quoted(latest.value));
    } else {
      assert before + "" == before;
    }
  }

  lemma OmittedAfter(before: string, n: nat)
    ensures Length(before + OmittedJson(n)) ==
            Length(before) + if n == 0 then 0 else |",\"files_omitted\":"| + Digits(n)
  {
    if n == 0 {
      assert before + "" == before;
    } else {
      DecimalLength(n);
      KeyedFirst(",\"files_omitted\":", Decimal(n));
      LengthOfTwo(before, ",\"files_omitted\":" + Decimal(n));
    }
  }

  lemma FlagsAfter(before: string, limited: bool, omitted: bool)
    ensures Length(before + FlagJson(limited, ",\"limited\":true") + FlagJson(omitted, ",\"omitted\":true")) ==
            Length(before) + Flag(limited, ",\"limited\":true") + Flag(omitted, ",\"omitted\":true")
  {
    Flagged(before, limited, ",\"limited\":true");
    Flagged(before + FlagJson(limited, ",\"limited\":true"), omitted, ",\"omitted\":true");
  }

  lemma CountFirst(n: nat)
    ensures Length(",\"reply_count\":" + Decimal(n)) == |",\"reply_count\":"| + Digits(n)
  {
    DecimalLength(n);
    KeyedFirst(",\"reply_count\":", Decimal(n));
  }

  lemma BracketsAfter(before: string, files: string)
    ensures Length(before + ",\"files\":[" + files + "]") == Length(before) + |",\"files\":["| + Length(files) + |"]"|
  {
    Bracketed(before, ",\"files\":[", files, "]");
  }

  lemma FilesAfter(before: string, files: seq<File>)
    ensures Length(before + ",\"files\":[" + FilesJson(files) + "]") ==
            Length(before) + |",\"files\":["| + FilesSize(files) + |"]"|
  {
    FilesLength(files);
    BracketsAfter(before, FilesJson(files));
  }

  lemma CountsLength(r: Record)
    ensures Length(CountsJson(r)) ==
            |",\"reply_count\":"| + Digits(r.replyCount) + |",\"files\":["| + FilesSize(r.files) + |"]"|
  {
    CountFirst(r.replyCount);
    FilesAfter(",\"reply_count\":" + Decimal(r.replyCount), r.files);
  }

  lemma TailLength(r: Record)
    ensures Length(TailJson(r)) == TailSize(r)
  {
    CountsLength(r);
    var a := CountsJson(r);
    ReplyAfter(a, r.latestReply);
    var b := a + ReplyJson(r.latestReply);
    FlagsAfter(b, r.limited, r.omitted);
    var c := b + FlagJson(r.limited, ",\"limited\":true") + FlagJson(r.omitted, ",\"omitted\":true");
    OmittedAfter(c, r.filesOmitted);
    Ended(c + OmittedJson(r.filesOmitted), "}");
  }

  lemma OriginAfter(before: string, o: Origin)
    ensures Length(before + ",\"origin\":" + OriginJson(o)) == Length(before) + |",\"origin\":"| + OriginSize(o)
  {
    Ended(before, ",\"origin\":");
    Ended(before + ",\"origin\":", OriginJson(o));
  }

  /** The size the fitting loop compares with the cap is the length of the text that is sent. */
  lemma TheSizeIsTheTexts(r: Record)
    ensures Length(RecordJson(r)) == EncodedSize(r)
  {
    PlaceLength(r);
    AuthorLength(r.author);
    TextLength(r);
    TailLength(r);
    var a := PlaceJson(r) + AuthorJson(r.author);
    LengthOfTwo(PlaceJson(r), AuthorJson(r.author));
    OriginAfter(a, r.origin);
    var b := a + ",\"origin\":" + OriginJson(r.origin);
    LengthOfTwo(b, TextJson(r));
    LengthOfTwo(b + TextJson(r), TailJson(r));
  }

  /** So every record within the wire's bounds, once fitted, is sent as at most 32 KiB. */
  lemma AFittedRecordIsSent(r: Record)
    requires Within(r)
    ensures Length(RecordJson(Fitted(r))) <= 32 * 1024
  {
    WithinBoundsFits(r);
    TheSizeIsTheTexts(Fitted(r));
  }
}
