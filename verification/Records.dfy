/** The one chat record of the wire, its encoded size, and how its text is cut until it fits. */
module Records {
  import opened Wrappers
  import opened Utf8
  import opened Timestamps
  import opened Ids

  const MAX_RECORD_BYTES: nat := 32 * 1024
  const MAX_TEXT: nat := 8 * 1024
  const MAX_FILES: nat := 8
  const MAX_NAME: nat := 160
  const MAX_FILENAME: nat := 256
  const MAX_MIME: nat := 128
  const MAX_TS: nat := 27
  const MAX_U32: nat := 0xFFFF_FFFF

  type U64 = n: nat | n < 0x1_0000_0000_0000_0000

  datatype Origin = Member | Drawer | Row | Bot

  datatype Author = Author(id: string, name: string)

  datatype File = File(id: string, name: string, mime: string, bytes: Option<U64>, thumbnail: bool)

  datatype Record = Record(
    workspace: string,
    channel: string,
    ts: string,
    threadTs: string,
    author: Author,
    origin: Origin,
    text: string,
    truncated: bool,
    replyCount: nat,
    files: seq<File>,
    latestReply: Option<string>,
    limited: bool,
    omitted: bool,
    filesOmitted: nat)

  // ---------------------------------------------------------------- the encoded size

  function Digits(n: nat): nat { if n < 10 then 1 else 1 + Digits(n / 10) }

  function Flag(on: bool, text: string): nat { if on then |text| else 0 }

  function FileSize(f: File): nat {
    |"{\"id\":"| + JsonLength(f.id) + |",\"name\":"| + JsonLength(f.name) + |",\"mime\":"| + JsonLength(f.mime) +
    |",\"bytes\":"| + (match f.bytes case Some(n) => Digits(n) case None => |"null"|) +
    |",\"thumbnail\":"| + (if f.thumbnail then |"true"| else |"false"|) + |"}"|
  }

  function FilesSize(files: seq<File>): nat {
    if files == [] then 0
    else FilesSize(files[..|files| - 1]) + FileSize(files[|files| - 1]) + (if |files| > 1 then |","| else 0)
  }

  function OriginSize(o: Origin): nat {
    2 + match o case Member => |"member"| case Drawer => |"drawer"| case Row => |"row"| case Bot => |"bot"|
  }

  function PlaceSize(r: Record): nat {
    |"{\"workspace\":"| + JsonLength(r.workspace) + |",\"channel\":"| + JsonLength(r.channel) +
    |",\"ts\":"| + JsonLength(r.ts) + |",\"thread_ts\":"| + JsonLength(r.threadTs)
  }

  function AuthorSize(a: Author): nat {
    |",\"author\":{\"id\":"| + JsonLength(a.id) + |",\"name\":"| + JsonLength(a.name) + |"}"|
  }

  function HeadSize(r: Record): nat {
    PlaceSize(r) + AuthorSize(r.author) + |",\"origin\":"| + OriginSize(r.origin)
  }

  function TailSize(r: Record): nat {
    |",\"reply_count\":"| + Digits(r.replyCount) + |",\"files\":["| + FilesSize(r.files) + |"]"| +
    (match r.latestReply case Some(ts) => |",\"latest_reply\":"| + JsonLength(ts) case None => 0) +
    Flag(r.limited, ",\"limited\":true") + Flag(r.omitted, ",\"omitted\":true") +
    (if r.filesOmitted == 0 then 0 else |",\"files_omitted\":"| + Digits(r.filesOmitted)) + |"}"|
  }

  // Bytes of the record as JSON; a flag that is not set, no latest reply and no omitted file are not written.
  function EncodedSize(r: Record): nat {
    HeadSize(r) + |",\"text\":"| + JsonLength(r.text) + Flag(r.truncated, ",\"truncated\":true") + TailSize(r)
  }

  // ---------------------------------------------------------------- fitting

  // The record whose text has been cut in half until the record fits, or until no text is left.
  function Fitted(r: Record): Record
    decreases Length(r.text)
  {
    if r.text == "" || EncodedSize(r) <= MAX_RECORD_BYTES then r
    else
      CutFits(r.text, Length(r.text) / 2);
      Fitted(Halved(r))
  }

  function Halved(r: Record): Record { r.(text := Cut(r.text, Length(r.text) / 2), truncated := true) }

  function WithoutText(r: Record): Record { r.(text := "", truncated := true) }

  method Fit(r: Record) returns (fit: Record)
    ensures fit == Fitted(r)
  {
    fit := r;
    while fit.text != "" && EncodedSize(fit) > MAX_RECORD_BYTES
      invariant Fitted(fit) == Fitted(r)
      decreases Length(fit.text)
    {
      CutFits(fit.text, Length(fit.text) / 2);
      var t, _ := CutTo(fit.text, Length(fit.text) / 2);
      fit := fit.(text := t, truncated := true);
    }
  }

  /** The fitted record is the same message: its text is a beginning of the text, in whole characters, and whatever was
      cut is marked. */
  lemma {:induction false} FittedIsABeginning(r: Record)
    ensures Fitted(r).text <= r.text
    ensures Fitted(r) == r.(text := Fitted(r).text, truncated := Fitted(r).truncated)
    ensures Fitted(r).truncated <==> r.truncated || Fitted(r).text != r.text
    decreases Length(r.text)
  {
    if r.text != "" && EncodedSize(r) > MAX_RECORD_BYTES {
      CutFits(r.text, Length(r.text) / 2);
      FittedIsABeginning(Halved(r));
    }
  }

  // Of the marked forms, the one without text is the smallest.
  lemma WithoutTextIsSmallest(r: Record)
    ensures EncodedSize(WithoutText(r)) <= EncodedSize(r.(truncated := true))
  {
    var marked := r.(truncated := true);
    assert HeadSize(marked) == HeadSize(WithoutText(r)) && TailSize(marked) == TailSize(WithoutText(r));
    assert JsonBody("") == 0;
  }

  /** The fitted record fits exactly when the record did or when it does with no text at all. The form without text is the
      marked one: a record whose unmarked form alone fits is not helped. */
  lemma {:induction false} FitsExactlyWhen(r: Record)
    ensures EncodedSize(Fitted(r)) <= MAX_RECORD_BYTES <==>
            EncodedSize(r) <= MAX_RECORD_BYTES || (r.text != "" && EncodedSize(WithoutText(r)) <= MAX_RECORD_BYTES)
    decreases Length(r.text)
  {
    if r.text != "" && EncodedSize(r) > MAX_RECORD_BYTES {
      CutFits(r.text, Length(r.text) / 2);
      var h := Halved(r);
      FitsExactlyWhen(h);
      WithoutTextIsSmallest(h);
      assert WithoutText(h) == WithoutText(r) && h.(truncated := true) == h;
      if h.text == "" {
        assert h == WithoutText(r);
      }
    }
  }

  // ---------------------------------------------------------------- within the wire's bounds

  predicate Bounded(s: string, max: nat) { Plain(s) && Length(s) <= max }

  // What the wire's decoder takes, and what is known of the names beside.
  predicate FileWithin(f: File) { Bounded(f.id, MAX_ID) && Bounded(f.name, MAX_FILENAME) && Bounded(f.mime, MAX_MIME) }

  predicate Within(r: Record) {
    && Bounded(r.workspace, MAX_ID) && Bounded(r.channel, MAX_ID)
    && Bounded(r.ts, MAX_TS) && Bounded(r.threadTs, MAX_TS) && (r.latestReply.Some? ==> Bounded(r.latestReply.value, MAX_TS))
    && Bounded(r.author.id, MAX_ID) && Bounded(r.author.name, MAX_NAME)
    && Length(r.text) <= MAX_TEXT
    && r.replyCount <= MAX_U32 && r.filesOmitted <= MAX_U32
    && |r.files| <= MAX_FILES && forall i :: 0 <= i < |r.files| ==> FileWithin(r.files[i])
  }

  lemma {:induction false} DigitsBound(n: nat, k: nat)
    requires k > 0 && n < Power(k)
    ensures Digits(n) <= k
  {
    if n >= 10 {
      assert k != 1;
      DigitsBound(n / 10, k - 1);
    }
  }

  lemma DigitsOfWords(n: nat)
    ensures n <= MAX_U32 ==> Digits(n) <= 10
    ensures n < 0x1_0000_0000_0000_0000 ==> Digits(n) <= 20
  {
    assert Power(10) == 10_000_000_000;
    assert Power(15) == 100000 * Power(10);
    assert Power(20) == 100000 * Power(15);
    if n <= MAX_U32 {
      DigitsBound(n, 10);
    }
    if n < 0x1_0000_0000_0000_0000 {
      DigitsBound(n, 20);
    }
  }

  lemma FileBound(f: File)
    requires FileWithin(f)
    ensures FileSize(f) <= 1000
  {
    EscapingGrows(f.id);
    EscapingGrows(f.name);
    EscapingGrows(f.mime);
    if f.bytes.Some? {
      DigitsOfWords(f.bytes.value);
    }
  }

  lemma {:induction false} FilesBound(files: seq<File>)
    requires forall i :: 0 <= i < |files| ==> FileWithin(files[i])
    ensures FilesSize(files) <= 1001 * |files|
  {
    if files != [] {
      FilesBound(files[..|files| - 1]);
      FileBound(files[|files| - 1]);
    }
  }

  lemma PlaceBound(r: Record)
    requires Within(r)
    ensures PlaceSize(r) <= 500
  {
    EscapingGrows(r.workspace);
    EscapingGrows(r.channel);
    EscapingGrows(r.ts);
    EscapingGrows(r.threadTs);
  }

  lemma AuthorBound(a: Author)
    requires Bounded(a.id, MAX_ID) && Bounded(a.name, MAX_NAME)
    ensures AuthorSize(a) <= 480
  {
    EscapingGrows(a.id);
    EscapingGrows(a.name);
  }

  lemma HeadBound(r: Record)
    requires Within(r)
    ensures HeadSize(r) <= 1000
  {
    PlaceBound(r);
    AuthorBound(r.author);
  }

  lemma TailBound(r: Record)
    requires Within(r)
    ensures TailSize(r) <= 8300
  {
    FilesBound(r.files);
    DigitsOfWords(r.replyCount);
    DigitsOfWords(r.filesOmitted);
    if r.latestReply.Some? {
      EscapingGrows(r.latestReply.value);
    }
  }

  /** Every record within the wire's bounds is fitted, and one whose text must be cut keeps at least 1900 bytes of it. */
  lemma {:induction false} WithinBoundsFits(r: Record)
    requires Within(r)
    ensures EncodedSize(Fitted(r)) <= MAX_RECORD_BYTES && Within(Fitted(r))
    ensures Fitted(r).text != r.text ==> Length(Fitted(r).text) >= 1900
    decreases Length(r.text)
  {
    HeadBound(r);
    TailBound(r);
    EscapingGrows(r.text);
    if r.text == "" {
      assert JsonBody("") == 0;
    } else if EncodedSize(r) > MAX_RECORD_BYTES {
      CutFits(r.text, Length(r.text) / 2);
      CutIsTight(r.text, Length(r.text) / 2);
      WithinBoundsFits(Halved(r));
      FittedIsABeginning(Halved(r));
    }
  }
}
