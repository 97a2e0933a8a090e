/** From a JSON value to a record, an identity to delete, or a reason why there is neither.

    A record is made in two steps. `ViewOf` reads each field by itself; everything after works on that view, so what is
    proved of a record needs no JSON, and what is proved of a view needs one field at a time. */
module Normalizing {
  import opened Wrappers
  import opened Utf8
  import opened Timestamps
  import opened Records
  import opened Ids

  // The names of the fields that are read here, and any other name.
  datatype Key =
    | Subtype | Message | Ts | ThreadTs | LatestReply | DeletedTs | User | BotId | Text | ReplyCount | Files
    | Metadata | EventType | EventPayload | Kind | Name | Username | BotProfile | UserProfile | DisplayName | RealName
    | Id | FileAccess | Title | Mimetype | Size | Thumb160 | Thumb360 | Thumb480 | Thumb720
    | Other(name: string)

  datatype Json =
    | Null
    | Bool(on: bool)
    | Number(asU64: Option<U64>)
    | Str(text: string)
    | Arr(items: seq<Json>)
    | Obj(fields: map<Key, Json>)

  type Fields = map<Key, Json>

  // What comes from outside the message: where it was posted, and who this app is.
  datatype Context = Context(workspace: string, ownBot: Option<string>, ownUser: Option<string>, limited: bool)

  datatype Reason = NotAnObject | Workspace | Channel | Timestamp | Shape

  datatype Normalized =
    | New(record: Record)
    | Edited(record: Record)
    | Deleted(workspace: string, channel: string, ts: string)
    | Unsupported
    | Unrepresentable(why: Reason)

  // A field that cannot be read.
  datatype Unreadable = Unreadable

  type Read<+T> = Result<T, Unreadable>

  // ---------------------------------------------------------------- fields

  // An absent field and a null one are read alike.
  function Get(o: Fields, k: Key): Json { if k in o then o[k] else Null }

  function AsStr(j: Json): Option<string> { if j.Str? then Some(j.text) else None }

  function AsObj(j: Json): Option<Fields> { if j.Obj? then Some(j.fields) else None }

  function AsU64(j: Json): Option<U64> { if j.Number? then j.asU64 else None }

  function OptStr(o: Fields, k: Key): Read<Option<string>> {
    match Get(o, k)
    case Null => Ok(None)
    case Str(s) => Ok(Some(s))
    case _ => Err(Unreadable)
  }

  function OptTs(o: Fields, k: Key): Read<Option<string>> {
    var s :- OptStr(o, k);
    if s.Some? && !IsTs(s.value) then Err(Unreadable) else Ok(s)
  }

  function OptId(o: Fields, k: Key): Read<Option<string>> {
    var s :- OptStr(o, k);
    if s.Some? && !ValidId(s.value) then Err(Unreadable) else Ok(s)
  }

  // ---------------------------------------------------------------- names

  predicate IsSpace(c: char) {
    var n := c as int;
    || 9 <= n <= 13 || n == 0x20 || n == 0x85 || n == 0xA0 || n == 0x1680 || 0x2000 <= n <= 0x200A
    || n == 0x2028 || n == 0x2029 || n == 0x202F || n == 0x205F || n == 0x3000
  }

  function WithoutControls(s: string): (r: string)
    ensures Plain(r)
  {
    if s == "" then ""
    else if IsControl(s[0]) then WithoutControls(s[1..])
    else [s[0]] + WithoutControls(s[1..])
  }

  function TrimStart(s: string): (r: string)
    ensures Plain(s) ==> Plain(r)
    ensures r == "" || !IsSpace(r[0])
  {
    if s != "" && IsSpace(s[0]) then TrimStart(s[1..]) else s
  }

  function TrimEnd(s: string): (r: string)
    ensures Plain(s) ==> Plain(r)
    ensures r <= s && (r == "" || !IsSpace(r[|r| - 1]))
  {
    if s != "" && IsSpace(s[|s| - 1]) then TrimEnd(s[..|s| - 1]) else s
  }

  datatype Cleaned = Cleaned(text: string, cut: bool)

  // A name-like field: no controls, trimmed, cut to `max` bytes, with whether it was cut.
  function Clean(s: string, max: nat): (r: Cleaned)
    ensures Bounded(r.text, max)
  {
    var plain := TrimEnd(TrimStart(WithoutControls(s)));
    CutFits(plain, max);
    Cleaned(Cut(plain, max), Length(plain) > max)
  }

  // A name that needs no cleaning is left as it is.
  lemma CleanKeepsAName(s: string, max: nat)
    requires Bounded(s, max) && (s == "" || (!IsSpace(s[0]) && !IsSpace(s[|s| - 1])))
    ensures Clean(s, max) == Cleaned(s, false)
  {
    PlainHasNoControls(s);
    CutFits(s, max);
  }

  // A cleaned name is a beginning of the trimmed text without controls, and is marked exactly when it is not all of it.
  lemma CleanMarksCuts(s: string, max: nat)
    ensures var whole := TrimEnd(TrimStart(WithoutControls(s)));
            Clean(s, max).text <= whole && (Clean(s, max).cut <==> Clean(s, max).text != whole)
  {
    CutFits(TrimEnd(TrimStart(WithoutControls(s))), max);
  }

  // Exactly the controls go.
  lemma {:induction false} OnlyControlsGo(s: string, t: string)
    ensures WithoutControls(s + t) == WithoutControls(s) + WithoutControls(t)
    ensures forall c :: WithoutControls([c]) == if c as int < 0x20 || 0x7F <= c as int <= 0x9F then "" else [c]
  {
    forall c ensures WithoutControls([c]) == if c as int < 0x20 || 0x7F <= c as int <= 0x9F then "" else [c] {
      assert [c][1..] == "";
    }
    if s == "" {
      assert s + t == t;
    } else {
      assert (s + t)[1..] == s[1..] + t;
      OnlyControlsGo(s[1..], t);
    }
  }

  lemma {:induction false} PlainHasNoControls(s: string)
    requires Plain(s)
    ensures WithoutControls(s) == s
  {
    if s != "" {
      assert !IsControl(s[0]);
      PlainHasNoControls(s[1..]);
      assert [s[0]] + s[1..] == s;
    }
  }

  // The first of these that leaves a name once cleaned.
  function FirstName(candidates: seq<Option<string>>): (r: Option<Cleaned>)
    ensures r.Some? ==> Bounded(r.value.text, MAX_NAME) && r.value.text != ""
  {
    if candidates == [] then None
    else if candidates[0].Some? && Clean(candidates[0].value, MAX_NAME).text != "" then
      Some(Clean(candidates[0].value, MAX_NAME))
    else FirstName(candidates[1..])
  }

  function BotName(o: Fields): (r: Read<Cleaned>)
    ensures r.Ok? ==> Bounded(r.value.text, MAX_NAME)
  {
    var profile := match AsObj(Get(o, Key.BotProfile)) case Some(p) => AsStr(Get(p, Key.Name)) case None => None;
    var username :- OptStr(o, Key.Username);
    match FirstName([username, profile])
    case Some(n) => Ok(n)
    case None =>
      assert Length("bot"[1..][1..][1..]) == 0;
      Ok(Cleaned("bot", false))
  }

  // A member's name when the message carries a profile; otherwise empty.
  function MemberName(o: Fields): (r: Cleaned)
    ensures Bounded(r.text, MAX_NAME)
  {
    match AsObj(Get(o, Key.UserProfile))
    case None => Cleaned("", false)
    case Some(p) =>
      match FirstName([AsStr(Get(p, Key.DisplayName)), AsStr(Get(p, Key.RealName))])
      case Some(n) => n
      case None => Cleaned("", false)
  }

  // ---------------------------------------------------------------- origin

  // Either identity is enough, and `None` equals nothing here, not even a field that is absent.
  predicate IsOwn(ctx: Context, user: Option<string>, bot: Option<string>) {
    (ctx.ownBot.Some? && bot == ctx.ownBot) || (ctx.ownUser.Some? && user == ctx.ownUser)
  }

  function KindOrigin(kind: string): Option<Origin> {
    if kind == "person" then Some(Drawer) else if kind == "row" then Some(Row) else None
  }

  datatype Recovered = Recovered(origin: Origin, name: Cleaned)

  function FromMetadata(o: Fields): Option<Recovered> {
    match AsObj(Get(o, Key.Metadata))
    case None => None
    case Some(m) =>
      if AsStr(Get(m, Key.EventType)) != Some("sot_chat_post") then None
      else
        match AsObj(Get(m, Key.EventPayload))
        case None => None
        case Some(p) =>
          var kind := match AsStr(Get(p, Key.Kind)) case Some(k) => KindOrigin(k) case None => None;
          var name := FirstName([AsStr(Get(p, Key.Name))]);
          if kind.Some? && name.Some? then Some(Recovered(kind.value, name.value)) else None
  }

  function StripSuffix(s: string, suffix: string): Option<string> {
    if |suffix| <= |s| && s[|s| - |suffix|..] == suffix then Some(s[..|s| - |suffix|]) else None
  }

  function Suffix(kind: string): string { " (" + kind + " via Ship of Tools)" }

  function FromUsername(u: string): Option<Recovered> {
    var person := FirstName([StripSuffix(u, Suffix("person"))]);
    if person.Some? then Some(Recovered(Drawer, person.value))
    else
      match FirstName([StripSuffix(u, Suffix("row"))])
      case Some(n) => Some(Recovered(Row, n))
      case None => None
  }

  // Only called for a message that the identity has marked as the app's own.
  function OwnOrigin(o: Fields): (r: Read<Option<Recovered>>)
    ensures r.Ok? && r.value.Some? ==> Bounded(r.value.value.name.text, MAX_NAME) && r.value.value.origin in {Drawer, Row}
  {
    var m := FromMetadata(o);
    if m.Some? then Ok(m)
    else
      var u :- OptStr(o, Key.Username);
      Ok(if u.Some? then FromUsername(u.value) else None)
  }

  // What the app's own metadata says of kind and name comes first.
  lemma MetadataDecides(o: Fields, m: Fields, p: Fields, name: string)
    requires Get(o, Key.Metadata) == Obj(m) && Get(m, Key.EventType) == Str("sot_chat_post")
    requires Get(m, Key.EventPayload) == Obj(p) && Get(p, Key.Name) == Str(name) && Clean(name, MAX_NAME).text != ""
    ensures Get(p, Key.Kind) == Str("person") ==> OwnOrigin(o) == Ok(Some(Recovered(Drawer, Clean(name, MAX_NAME))))
    ensures Get(p, Key.Kind) == Str("row") ==> OwnOrigin(o) == Ok(Some(Recovered(Row, Clean(name, MAX_NAME))))
  {
    FirstNameOfOne(Some(name));
    assert "person"[0] == 'p' && "row"[0] == 'r';
  }

  lemma FirstNameOfTwo(a: Option<string>, b: Option<string>)
    ensures FirstName([a, b]) ==
            if a.Some? && Clean(a.value, MAX_NAME).text != "" then Some(Clean(a.value, MAX_NAME))
            else if b.Some? && Clean(b.value, MAX_NAME).text != "" then Some(Clean(b.value, MAX_NAME)) else None
  {
    assert [a, b][1..] == [b];
    FirstNameOfOne(b);
  }

  lemma SuffixIsStripped(name: string, suffix: string)
    ensures StripSuffix(name + suffix, suffix) == Some(name)
  {
    var s := name + suffix;
    assert s[|s| - |suffix|..] == suffix && s[..|s| - |suffix|] == name;
  }

  lemma FirstNameOfOne(s: Option<string>)
    ensures FirstName([s]) ==
            if s.Some? && Clean(s.value, MAX_NAME).text != "" then Some(Clean(s.value, MAX_NAME)) else None
  {
    assert [s][1..] == [];
  }

  // The two suffixes differ before their common end, so a row's name is not taken for a person's.
  lemma RowIsNoPerson(name: string)
    ensures StripSuffix(name + Suffix("row"), Suffix("person")) == None
  {
    var s, person := name + Suffix("row"), Suffix("person");
    if |person| <= |s| {
      assert |person| == 27 && |Suffix("row")| == 24;
      assert Suffix("row")[4] == 'w' && person[7] == 'n';
      assert s[|s| - 27..][7] == s[|s| - 20] == 'w';
    }
  }

  /** The name a person or a row was posted under, as the customized username spells it, is recovered with its kind. */
  lemma PostedNameIsRecovered(o: Fields, kind: string, name: string)
    requires KindOrigin(kind).Some? && Clean(name, MAX_NAME).text != ""
    requires FromMetadata(o).None? && Get(o, Key.Username) == Str(name + Suffix(kind))
    ensures OwnOrigin(o) == Ok(Some(Recovered(KindOrigin(kind).value, Clean(name, MAX_NAME))))
  {
    SuffixIsStripped(name, Suffix(kind));
    FirstNameOfOne(Some(name));
    if kind == "row" {
      RowIsNoPerson(name);
      FirstNameOfOne(None);
    }
  }

  // ---------------------------------------------------------------- files

  datatype Listed = Listed(file: File, cut: bool)

  function Field(f: Fields, k: Key, max: nat): (r: Cleaned)
    ensures Bounded(r.text, max)
  {
    Clean(match AsStr(Get(f, k)) case Some(s) => s case None => "", max)
  }

  predicate HasThumbnail(f: Fields) {
    Get(f, Key.Thumb160).Str? || Get(f, Key.Thumb360).Str? || Get(f, Key.Thumb480).Str? || Get(f, Key.Thumb720).Str?
  }

  // One entry by itself; `None` when nothing of it could be listed.
  function Listing(e: Json): (r: Option<Listed>)
    ensures r.Some? ==> FileWithin(r.value.file)
  {
    match AsObj(e)
    case None => None
    case Some(f) =>
      match OptId(f, Key.Id)
      case Ok(Some(id)) =>
        IdIsAName(id);
        if AsStr(Get(f, Key.FileAccess)) == Some("check_file_info") then Some(Listed(File(id, "", "", None, false), false))
        else
          var named := Field(f, Key.Name, MAX_FILENAME);
          var name := if named.text == "" then Field(f, Key.Title, MAX_FILENAME) else named;
          var mime := Field(f, Key.Mimetype, MAX_MIME);
          Some(Listed(File(id, name.text, mime.text, AsU64(Get(f, Key.Size)), HasThumbnail(f)), name.cut || mime.cut))
      case _ => None
  }

  // What is present of a list, in order.
  function Present<T>(list: seq<Option<T>>): seq<T> {
    if list == [] then []
    else Present(list[..|list| - 1]) + (match list[|list| - 1] case Some(l) => [l] case None => [])
  }

  lemma {:induction false} PresentIsOfTheList<T>(list: seq<Option<T>>)
    ensures |Present(list)| <= |list|
    ensures forall i :: 0 <= i < |Present(list)| ==> Some(Present(list)[i]) in list
  {
    if list != [] {
      var before := list[..|list| - 1];
      PresentIsOfTheList(before);
      forall i | 0 <= i < |Present(list)| ensures Some(Present(list)[i]) in list {
        if i < |Present(before)| {
          assert Present(list)[i] == Present(before)[i];
        } else {
          assert list[|list| - 1] == Some(Present(list)[i]);
        }
      }
    }
  }

  lemma {:induction false} PresentHasAll<T>(list: seq<Option<T>>, k: nat)
    requires k < |list| && list[k].Some?
    ensures list[k].value in Present(list)
  {
    if k < |list| - 1 {
      PresentHasAll(list[..|list| - 1], k);
    }
  }

  function Listings(entries: seq<Json>): seq<Option<Listed>> {
    seq(|entries|, i requires 0 <= i < |entries| => Listing(entries[i]))
  }

  // The first eight that can be summarized.
  function Kept(list: seq<Option<Listed>>): seq<Listed> {
    if |Present(list)| > MAX_FILES then Present(list)[..MAX_FILES] else Present(list)
  }

  datatype Summary = Summary(files: seq<File>, omitted: nat, cut: bool)

  function FilesOf(kept: seq<Listed>): seq<File> { seq(|kept|, i requires 0 <= i < |kept| => kept[i].file) }

  predicate AnyCut(kept: seq<Listed>) { exists i :: 0 <= i < |kept| && kept[i].cut }

  function Capped(n: nat): nat { if n > MAX_U32 then MAX_U32 else n }

  function SummaryOf(list: seq<Option<Listed>>): Summary {
    PresentIsOfTheList(list);
    Summary(FilesOf(Kept(list)), Capped(|list| - |Kept(list)|), AnyCut(Kept(list)))
  }

  function Summarized(entries: seq<Json>): Summary { SummaryOf(Listings(entries)) }

  // The loop over the entries, each already read by itself.
  method Summarize(list: seq<Option<Listed>>) returns (s: Summary)
    ensures s == SummaryOf(list)
  {
    s := Summary([], 0, false);
    for i := 0 to |list|
      invariant s == SummaryOf(list[..i])
    {
      SummaryGrows(list, i);
      match list[i] {
        case Some(l) =>
          if |s.files| < MAX_FILES {
            s := Summary(s.files + [l.file], s.omitted, s.cut || l.cut);
          } else {
            s := s.(omitted := Capped(s.omitted + 1));
          }
        case None =>
          s := s.(omitted := Capped(s.omitted + 1));
      }
    }
    assert list[..|list|] == list;
  }

  lemma SummaryGrows(list: seq<Option<Listed>>, i: nat)
    requires i < |list|
    ensures var s := SummaryOf(list[..i]);
            SummaryOf(list[..i + 1]) ==
            match list[i]
            case Some(l) =>
              if |s.files| < MAX_FILES then Summary(s.files + [l.file], s.omitted, s.cut || l.cut)
              else s.(omitted := Capped(s.omitted + 1))
            case None => s.(omitted := Capped(s.omitted + 1))
  {
    assert list[..i + 1][..i] == list[..i];
    PresentIsOfTheList(list[..i]);
    var kept := Kept(list[..i]);
    if list[i].Some? && |kept| < MAX_FILES {
      var l := list[i].value;
      assert Kept(list[..i + 1]) == kept + [l];
      AnyCutOfMore(kept, l);
      assert FilesOf(kept + [l]) == FilesOf(kept) + [l.file];
    } else {
      assert Kept(list[..i + 1]) == kept;
    }
  }

  lemma AnyCutOfMore(kept: seq<Listed>, l: Listed)
    ensures AnyCut(kept + [l]) <==> AnyCut(kept) || l.cut
  {
    var more := kept + [l];
    if AnyCut(kept) {
      var i :| 0 <= i < |kept| && kept[i].cut;
      assert more[i].cut;
    }
    if l.cut {
      assert more[|kept|].cut;
    }
  }

  // A summary of this file is made of one of these entries.
  ghost predicate Describes(entries: seq<Json>, f: File) {
    exists k :: 0 <= k < |entries| && Listing(entries[k]).Some? && Listing(entries[k]).value.file == f
  }

  /** Every entry is either summarized or counted, no more than eight are summarized, and each summary is of an entry. */
  lemma FilesAreAccountedFor(entries: seq<Json>)
    requires |entries| <= MAX_U32
    ensures var s := Summarized(entries);
            && |s.files| + s.omitted == |entries| && |s.files| <= MAX_FILES
            && forall i :: 0 <= i < |s.files| ==> Describes(entries, s.files[i])
  {
    PresentIsOfTheList(Listings(entries));
    var s, kept := Summarized(entries), Kept(Listings(entries));
    forall i | 0 <= i < |s.files| ensures Describes(entries, s.files[i]) {
      var k :| 0 <= k < |entries| && Listings(entries)[k] == Some(kept[i]);
      assert Listing(entries[k]).value.file == s.files[i];
    }
  }

  /** An entry that could be summarized is left out only when there are eight summaries already. */
  lemma FilesAreListed(entries: seq<Json>, k: nat)
    requires k < |entries| && Listing(entries[k]).Some?
    ensures var s := Summarized(entries);
            |s.files| < MAX_FILES ==> Listing(entries[k]).value.file in s.files
  {
    var s, all := Summarized(entries), Present(Listings(entries));
    if |s.files| < MAX_FILES {
      PresentHasAll(Listings(entries), k);
      var i :| 0 <= i < |all| && all[i] == Listing(entries[k]).value;
      assert s.files[i] == Listing(entries[k]).value.file;
    }
  }

  function FilesIn(j: Json): Read<Summary> {
    match j
    case Null => Ok(Summary([], 0, false))
    case Arr(entries) => Ok(Summarized(entries))
    case _ => Err(Unreadable)
  }

  /** One entry: it has a summary exactly when it is an object with a valid id. A file shared as an id alone keeps that; any
      other has its name, or its title when that leaves none, its type, its size and whether it has a thumbnail; and it is
      marked exactly when the name or the type it shows was cut. */
  lemma ListingMeans(f: Fields)
    ensures Listing(Obj(f)).Some? <==> Get(f, Key.Id).Str? && ValidId(Get(f, Key.Id).text)
    ensures Listing(Obj(f)).Some? ==>
            var l, name, mime := Listing(Obj(f)).value, Field(f, Key.Name, MAX_FILENAME), Field(f, Key.Mimetype, MAX_MIME);
            var shown := if name.text != "" then name else Field(f, Key.Title, MAX_FILENAME);
            && l.file.id == Get(f, Key.Id).text
            && if Get(f, Key.FileAccess) == Str("check_file_info") then l == Listed(File(l.file.id, "", "", None, false), false)
               else
                 && l.file.name == shown.text && l.file.mime == mime.text
                 && l.file.bytes == (if Get(f, Key.Size).Number? then Get(f, Key.Size).asU64 else None)
                 && (l.file.thumbnail <==> Get(f, Key.Thumb160).Str? || Get(f, Key.Thumb360).Str? ||
                                           Get(f, Key.Thumb480).Str? || Get(f, Key.Thumb720).Str?)
                 && (l.cut <==> shown.cut || mime.cut)
  {
  }

  lemma {:induction false} PresentInOrder<T>(list: seq<Option<T>>) returns (at: seq<nat>)
    ensures |at| == |Present(list)|
    ensures forall i :: 0 <= i < |at| ==> at[i] < |list| && list[at[i]] == Some(Present(list)[i])
    ensures forall i, j :: 0 <= i < j < |at| ==> at[i] < at[j]
  {
    if list == [] {
      at := [];
    } else {
      var n := |list| - 1;
      at := PresentInOrder(list[..n]);
      if list[n].Some? {
        at := at + [n];
      }
    }
  }

  lemma KeptInOrder(list: seq<Option<Listed>>) returns (at: seq<nat>)
    ensures |at| == |Kept(list)|
    ensures forall i :: 0 <= i < |at| ==> at[i] < |list| && list[at[i]] == Some(Kept(list)[i])
    ensures forall i, j :: 0 <= i < j < |at| ==> at[i] < at[j]
  {
    var all := PresentInOrder(list);
    at := all[..|Kept(list)|];
    forall i | 0 <= i < |at| ensures list[at[i]] == Some(Kept(list)[i]) {
      assert at[i] == all[i] && Kept(list)[i] == Present(list)[i];
    }
  }

  /** The summaries are of the first entries that have one, in their order, and a cut is marked exactly when one of those
      was cut. */
  lemma FilesAreInOrder(entries: seq<Json>) returns (at: seq<nat>)
    ensures var s := Summarized(entries);
            && |at| == |s.files|
            && (forall i :: 0 <= i < |at| ==>
                  at[i] < |entries| && Listing(entries[at[i]]).Some? && Listing(entries[at[i]]).value.file == s.files[i])
            && (forall i, j :: 0 <= i < j < |at| ==> at[i] < at[j])
            && (s.cut <==> exists i :: 0 <= i < |at| && Listing(entries[at[i]]).value.cut)
  {
    var list := Listings(entries);
    at := KeptInOrder(list);
    SummaryInOrder(list, at, entries);
  }

  lemma SummaryInOrder(list: seq<Option<Listed>>, at: seq<nat>, entries: seq<Json>)
    requires |list| == |entries| && forall k :: 0 <= k < |list| ==> list[k] == Listing(entries[k])
    requires |at| == |Kept(list)| && forall i :: 0 <= i < |at| ==> at[i] < |list| && list[at[i]] == Some(Kept(list)[i])
    ensures var s := SummaryOf(list);
            && (forall i :: 0 <= i < |at| ==>
                  Listing(entries[at[i]]).Some? && Listing(entries[at[i]]).value.file == s.files[i])
            && (s.cut <==> exists i :: 0 <= i < |at| && Listing(entries[at[i]]).value.cut)
  {
    var kept := Kept(list);
    assert forall i :: 0 <= i < |at| ==> Listing(entries[at[i]]) == Some(kept[i]);
    if AnyCut(kept) {
      var i :| 0 <= i < |kept| && kept[i].cut;
      assert Listing(entries[at[i]]).value.cut;
    }
  }

  // ---------------------------------------------------------------- the record

  function ReplyCount(j: Json): Read<nat> {
    match j
    case Null => Ok(0)
    case Number(Some(n)) => Ok(Capped(n))
    case _ => Err(Unreadable)
  }

  // The fields a record is made of, each read or not.
  datatype View = View(
    ts: Read<Option<string>>,
    threadTs: Read<Option<string>>,
    latestReply: Read<Option<string>>,
    user: Read<Option<string>>,
    bot: Read<Option<string>>,
    botKey: bool,
    subtype: Read<Option<string>>,
    text: Read<Option<string>>,
    replies: Read<nat>,
    files: Read<Summary>,
    own: Read<Option<Recovered>>,
    botName: Read<Cleaned>,
    memberName: Cleaned)

  function ViewOf(o: Fields): View {
    View(OptTs(o, Key.Ts), OptTs(o, Key.ThreadTs), OptTs(o, Key.LatestReply), OptId(o, Key.User), OptId(o, Key.BotId),
         Get(o, Key.BotId) != Null, OptStr(o, Key.Subtype), OptStr(o, Key.Text), ReplyCount(Get(o, Key.ReplyCount)),
         FilesIn(Get(o, Key.Files)), OwnOrigin(o), BotName(o), MemberName(o))
  }

  // What a field says by itself, so that an unreadable one does not lose it.
  function Lenient(r: Read<Option<string>>): Option<string> { if r.Ok? then r.value else None }

  function Or(a: Option<string>, other: string): string { if a.Some? then a.value else other }

  predicate SaysBot(subtype: Option<string>) { subtype == Some("bot_message") }

  // An own post's origin is the one it recovers, or a bot's; another bot's is a bot's; everyone else is a member.
  function OriginAndName(ctx: Context, v: View): Read<Recovered> {
    var user :- v.user;
    var bot :- v.bot;
    var subtype :- v.subtype;
    if IsOwn(ctx, user, bot) then
      var found :- v.own;
      if found.Some? then Ok(found.value) else var n :- v.botName; Ok(Recovered(Bot, n))
    else if bot.Some? || SaysBot(subtype) then
      var n :- v.botName; Ok(Recovered(Bot, n))
    else Ok(Recovered(Member, v.memberName))
  }

  function Content(ctx: Context, channel: string, ts: string, v: View): Read<Record> {
    var threadTs :- v.threadTs;
    var latestReply :- v.latestReply;
    var user :- v.user;
    var bot :- v.bot;
    var text :- v.text;
    var replyCount :- v.replies;
    var files :- v.files;
    var found :- OriginAndName(ctx, v);
    var whole := Or(text, "");
    Ok(Record(ctx.workspace, channel, ts, Or(threadTs, ts), Author(Or(user, Or(bot, "")), found.name.text), found.origin,
              Cut(whole, MAX_TEXT), files.cut || found.name.cut || Length(whole) > MAX_TEXT,
              replyCount, files.files, latestReply, false, false, files.omitted))
  }

  // The record of a view with an unreadable field: the fields that can be read by themselves, and nothing else.
  function IdentityOnly(ctx: Context, channel: string, ts: string, v: View): Record {
    var user, bot := Lenient(v.user), Lenient(v.bot);
    var isBot := IsOwn(ctx, user, bot) || v.botKey || SaysBot(Lenient(v.subtype));
    Record(ctx.workspace, channel, ts, Or(Lenient(v.threadTs), ts), Author(Or(user, Or(bot, "")), ""),
           if isBot then Bot else Member, "", false, 0, [], None, false, true, 0)
  }

  // The record before it is fitted.
  function Drafted(ctx: Context, channel: string, ts: string, v: View): Record {
    match Content(ctx, channel, ts, v)
    case Ok(r) => r.(limited := ctx.limited)
    case Err(_) => IdentityOnly(ctx, channel, ts, v).(limited := ctx.limited)
  }

  function Built(ctx: Context, channel: string, v: View): Result<Record, Reason> {
    match v.ts
    case Ok(Some(ts)) => Ok(Fitted(Drafted(ctx, channel, ts, v)))
    case _ => Err(Timestamp)
  }

  method Build(ctx: Context, channel: string, o: Fields) returns (r: Result<Record, Reason>)
    ensures r == Built(ctx, channel, ViewOf(o))
  {
    var v := ViewOf(o);
    match v.ts {
      case Ok(Some(ts)) =>
        var fit := Fit(Drafted(ctx, channel, ts, v));
        return Ok(fit);
      case _ =>
        return Err(Timestamp);
    }
  }

  // ---------------------------------------------------------------- the message

  predicate IsMessage(subtype: string) {
    subtype == "thread_broadcast" || subtype == "file_share" || subtype == "bot_message" || subtype == "me_message"
  }

  function Wrapped(r: Result<Record, Reason>, edit: bool): Normalized {
    match r
    case Ok(record) => if edit then Edited(record) else New(record)
    case Err(why) => Unrepresentable(why)
  }

  // What is made of a message: a record of one object, new or edited, or at once a result without a record.
  datatype Subject = Of(o: Fields, edit: bool) | At(result: Normalized)

  function EditSubject(o: Fields): Subject {
    match AsObj(Get(o, Key.Message))
    case None => At(Unrepresentable(Shape))
    case Some(inner) =>
      match Get(inner, Key.Subtype)
      case Null => Of(inner, true)
      case Str(s) => if IsMessage(s) then Of(inner, true) else At(Unsupported)
      case _ => At(Unrepresentable(Shape))
  }

  function SubjectOf(ctx: Context, channel: string, raw: Json): Subject {
    if !raw.Obj? then At(Unrepresentable(NotAnObject))
    else if !ValidId(ctx.workspace) then At(Unrepresentable(Workspace))
    else if !ValidId(channel) then At(Unrepresentable(Channel))
    else
      var o := raw.fields;
      match Get(o, Key.Subtype)
      case Null => Of(o, false)
      case Str(s) =>
        if IsMessage(s) then Of(o, false)
        else if s == "message_changed" then EditSubject(o)
        else if s == "message_deleted" then
          match Lenient(OptTs(o, Key.DeletedTs))
          case Some(ts) => At(Deleted(ctx.workspace, channel, ts))
          case None => At(Unrepresentable(Timestamp))
        else At(Unsupported)
      case _ => At(Unrepresentable(Shape))
  }

  function Normalize(ctx: Context, channel: string, raw: Json): Normalized {
    match SubjectOf(ctx, channel, raw)
    case Of(o, edit) => Wrapped(Built(ctx, channel, ViewOf(o)), edit)
    case At(result) => result
  }

  // ---------------------------------------------------------------- what a draft says

  // A record that is built has its draft's fields, but for the text and its mark.
  lemma BuiltOfDraft(ctx: Context, channel: string, v: View)
    ensures Built(ctx, channel, v).Ok? <==> Lenient(v.ts).Some?
    ensures Built(ctx, channel, v).Ok? ==>
            var d, r := Drafted(ctx, channel, Lenient(v.ts).value, v), Built(ctx, channel, v).value;
            r == Fitted(d) && r == d.(text := r.text, truncated := r.truncated)
  {
    if Lenient(v.ts).Some? {
      FittedIsABeginning(Drafted(ctx, channel, Lenient(v.ts).value, v));
    }
  }

  // Read whole or by its identity alone, a message keeps its place, its thread and its author's id.
  lemma DraftKeepsIdentity(ctx: Context, channel: string, ts: string, v: View)
    ensures var d := Drafted(ctx, channel, ts, v);
            && d.workspace == ctx.workspace && d.channel == channel && d.ts == ts && d.limited == ctx.limited
            && d.threadTs == Or(Lenient(v.threadTs), ts)
            && d.author.id == Or(Lenient(v.user), Or(Lenient(v.bot), ""))
  {
  }

  // An own post's origin is recovered only when the identity matches and everything can be read.
  predicate Recovers(v: View) { v.own.Ok? && v.own.value.Some? ==> v.own.value.value.origin in {Drawer, Row} }

  lemma DraftedOrigin(ctx: Context, channel: string, ts: string, v: View)
    requires Recovers(v) && (Lenient(v.bot).Some? ==> v.botKey)
    ensures var d := Drafted(ctx, channel, ts, v);
            && (d.origin in {Drawer, Row} <==>
                  !d.omitted && IsOwn(ctx, Lenient(v.user), Lenient(v.bot)) && v.own.Ok? && v.own.value.Some?)
            && (d.origin == Member ==> !IsOwn(ctx, Lenient(v.user), Lenient(v.bot)) && (!d.omitted ==> Lenient(v.bot).None?))
            && (d.omitted ==> (d.origin == Member <==>
                  !IsOwn(ctx, Lenient(v.user), Lenient(v.bot)) && !v.botKey && !SaysBot(Lenient(v.subtype))))
  {
  }

  // The text has no part in the origin.
  lemma SameDraftedOrigin(ctx: Context, channel: string, ts: string, v: View, text: Read<Option<string>>)
    requires v.text.Ok? <==> text.Ok?
    ensures Drafted(ctx, channel, ts, v).origin == Drafted(ctx, channel, ts, v.(text := text)).origin
  {
  }

  // Whether a name or a file's field was cut.
  predicate FieldCut(ctx: Context, v: View) {
    || (OriginAndName(ctx, v).Ok? && OriginAndName(ctx, v).value.name.cut)
    || (v.files.Ok? && v.files.value.cut)
  }

  lemma DraftMarksCuts(ctx: Context, channel: string, ts: string, v: View)
    requires !Drafted(ctx, channel, ts, v).omitted
    ensures var d, text := Drafted(ctx, channel, ts, v), Or(Lenient(v.text), "");
            d.text == Cut(text, MAX_TEXT) && (d.truncated <==> d.text != text || FieldCut(ctx, v))
  {
    CutFits(Or(Lenient(v.text), ""), MAX_TEXT);
  }

  predicate Readings(a: Read<Option<string>>, max: nat) { Lenient(a).Some? ==> Bounded(Lenient(a).value, max) }

  predicate WithinSummary(s: Summary) {
    s.omitted <= MAX_U32 && |s.files| <= MAX_FILES && forall i :: 0 <= i < |s.files| ==> FileWithin(s.files[i])
  }

  // The view's own bounds.
  predicate WithinView(v: View) {
    && Readings(v.threadTs, MAX_TS) && Readings(v.latestReply, MAX_TS) && Readings(v.user, MAX_ID) && Readings(v.bot, MAX_ID)
    && (v.replies.Ok? ==> v.replies.value <= MAX_U32)
    && (v.files.Ok? ==> WithinSummary(v.files.value))
    && (v.own.Ok? && v.own.value.Some? ==> Bounded(v.own.value.value.name.text, MAX_NAME))
    && (v.botName.Ok? ==> Bounded(v.botName.value.text, MAX_NAME)) && Bounded(v.memberName.text, MAX_NAME)
  }

  lemma DraftWithin(ctx: Context, channel: string, ts: string, v: View)
    requires Bounded(ctx.workspace, MAX_ID) && Bounded(channel, MAX_ID) && Bounded(ts, MAX_TS) && WithinView(v)
    ensures Within(Drafted(ctx, channel, ts, v))
  {
    CutFits(Or(Lenient(v.text), ""), MAX_TEXT);
  }

  // ---------------------------------------------------------------- what a view is

  lemma IdIsAName(s: string)
    requires ValidId(s)
    ensures Bounded(s, MAX_ID)
  {
    forall i | 0 <= i < |s| ensures !IsControl(s[i]) {
      assert IdChar(s[i]);
    }
    NarrowIsBytes(s);
  }

  lemma ReadTsIsShort(o: Fields, k: Key)
    ensures Readings(OptTs(o, k), MAX_TS)
  {
    if Lenient(OptTs(o, k)).Some? {
      TsIsShort(Lenient(OptTs(o, k)).value);
    }
  }

  lemma ReadIdIsAName(o: Fields, k: Key)
    ensures Readings(OptId(o, k), MAX_ID)
  {
    if Lenient(OptId(o, k)).Some? {
      IdIsAName(Lenient(OptId(o, k)).value);
    }
  }

  lemma SummaryWithin(list: seq<Option<Listed>>)
    requires forall i :: 0 <= i < |list| && list[i].Some? ==> FileWithin(list[i].value.file)
    ensures WithinSummary(SummaryOf(list))
  {
    PresentIsOfTheList(list);
    var s := SummaryOf(list);
    forall i | 0 <= i < |s.files| ensures FileWithin(s.files[i]) {
      assert Some(Kept(list)[i]) in list;
    }
  }

  lemma ListingsWithin(entries: seq<Json>)
    ensures forall i :: 0 <= i < |entries| && Listings(entries)[i].Some? ==> FileWithin(Listings(entries)[i].value.file)
  {
  }

  lemma FilesWithin(j: Json)
    ensures FilesIn(j).Ok? ==> WithinSummary(FilesIn(j).value)
  {
    if j.Arr? {
      ListingsWithin(j.items);
      SummaryWithin(Listings(j.items));
    }
  }

  lemma ViewWithin(o: Fields)
    ensures WithinView(ViewOf(o)) && Recovers(ViewOf(o)) && Readings(ViewOf(o).ts, MAX_TS)
    ensures Lenient(ViewOf(o).bot).Some? ==> ViewOf(o).botKey
  {
    ReadTsIsShort(o, Key.Ts);
    ReadTsIsShort(o, Key.ThreadTs);
    ReadTsIsShort(o, Key.LatestReply);
    ReadIdIsAName(o, Key.User);
    ReadIdIsAName(o, Key.BotId);
    FilesWithin(Get(o, Key.Files));
  }

  // Two messages with the same fields but for their text, which both can read.
  ghost predicate SameButText(a: Fields, b: Fields) {
    && (forall k: Key :: k != Key.Text ==> Get(a, k) == Get(b, k))
    && (OptStr(a, Key.Text).Ok? <==> OptStr(b, Key.Text).Ok?)
  }

  lemma SameField(a: Fields, b: Fields, k: Key)
    requires Get(a, k) == Get(b, k)
    ensures OptStr(a, k) == OptStr(b, k) && OptTs(a, k) == OptTs(b, k) && OptId(a, k) == OptId(b, k)
  {
  }

  lemma SameNames(a: Fields, b: Fields)
    requires Get(a, Key.Metadata) == Get(b, Key.Metadata) && Get(a, Key.Username) == Get(b, Key.Username)
    requires Get(a, Key.BotProfile) == Get(b, Key.BotProfile) && Get(a, Key.UserProfile) == Get(b, Key.UserProfile)
    ensures OwnOrigin(a) == OwnOrigin(b) && BotName(a) == BotName(b) && MemberName(a) == MemberName(b)
  {
    SameField(a, b, Key.Username);
  }

  lemma SameView(a: Fields, b: Fields)
    requires SameButText(a, b)
    ensures ViewOf(b) == ViewOf(a).(text := ViewOf(b).text)
  {
    SameField(a, b, Key.Ts);
    SameField(a, b, Key.ThreadTs);
    SameField(a, b, Key.LatestReply);
    SameField(a, b, Key.User);
    SameField(a, b, Key.BotId);
    SameField(a, b, Key.Subtype);
    assert Get(a, Key.Files) == Get(b, Key.Files) && Get(a, Key.ReplyCount) == Get(b, Key.ReplyCount);
    SameNames(a, b);
  }

  // ---------------------------------------------------------------- what a record says of its message

  predicate HasRecord(n: Normalized) { n.New? || n.Edited? }

  // A record is made from the message, or from the message inside an edit, and never for an invalid place.
  lemma SubjectIsTheMessage(ctx: Context, channel: string, raw: Json)
    requires SubjectOf(ctx, channel, raw).Of?
    ensures ValidId(ctx.workspace) && ValidId(channel) && raw.Obj?
    ensures var s := SubjectOf(ctx, channel, raw);
            if s.edit then Get(raw.fields, Key.Message) == Obj(s.o) else raw.fields == s.o
  {
  }

  lemma RecordIsBuilt(ctx: Context, channel: string, raw: Json)
    requires HasRecord(Normalize(ctx, channel, raw))
    ensures SubjectOf(ctx, channel, raw).Of?
    ensures Built(ctx, channel, ViewOf(SubjectOf(ctx, channel, raw).o)) == Ok(Normalize(ctx, channel, raw).record)
  {
    var s := SubjectOf(ctx, channel, raw);
    if s.At? {
      SubjectHasNoRecord(ctx, channel, raw);
    }
  }

  lemma SubjectHasNoRecord(ctx: Context, channel: string, raw: Json)
    ensures SubjectOf(ctx, channel, raw).At? ==> !HasRecord(SubjectOf(ctx, channel, raw).result)
  {
  }

  /** A message is shown whenever its identity can be read, whatever its other fields hold; its workspace, channel and
      timestamp are its identity, and a reply whose thread can be read stays in it. */
  lemma NoMessageIsDropped(ctx: Context, channel: string, raw: Json)
    requires SubjectOf(ctx, channel, raw).Of?
    ensures var ts, n := Lenient(OptTs(SubjectOf(ctx, channel, raw).o, Key.Ts)), Normalize(ctx, channel, raw);
            && (HasRecord(n) <==> ts.Some?) && (!HasRecord(n) ==> n == Unrepresentable(Timestamp))
            && (HasRecord(n) ==>
                  n.record.workspace == ctx.workspace && n.record.channel == channel && n.record.ts == ts.value &&
                  n.record.limited == ctx.limited &&
                  n.record.threadTs == Or(Lenient(OptTs(SubjectOf(ctx, channel, raw).o, Key.ThreadTs)), ts.value))
  {
    var v := ViewOf(SubjectOf(ctx, channel, raw).o);
    assert v.threadTs == OptTs(SubjectOf(ctx, channel, raw).o, Key.ThreadTs);
    BuiltOfDraft(ctx, channel, v);
    if Lenient(v.ts).Some? {
      DraftKeepsIdentity(ctx, channel, Lenient(v.ts).value, v);
    }
  }

  // ---------------------------------------------------------------- what a message becomes

  predicate ReadableTs(o: Fields, k: Key) { Get(o, k).Str? && IsTs(Get(o, k).text) }

  // No subtype, or one of the four that are messages of people, apps and files.
  predicate OfAMessage(subtype: Json) {
    || subtype == Null || subtype == Str("thread_broadcast") || subtype == Str("file_share")
    || subtype == Str("bot_message") || subtype == Str("me_message")
  }

  lemma OfAMessageMeans(subtype: Json)
    ensures OfAMessage(subtype) <==> subtype == Null || (subtype.Str? && IsMessage(subtype.text))
    ensures OfAMessage(subtype) ==> subtype != Str("message_changed") && subtype != Str("message_deleted")
  {
    assert "message_changed"[8] == 'c' && "message_deleted"[8] == 'd';
  }

  lemma BuiltReads(ctx: Context, channel: string, o: Fields)
    ensures Built(ctx, channel, ViewOf(o)).Ok? <==> ReadableTs(o, Key.Ts)
    ensures Built(ctx, channel, ViewOf(o)).Err? ==> Built(ctx, channel, ViewOf(o)).error == Timestamp
  {
    var v := ViewOf(o);
    assert v.ts == OptTs(o, Key.Ts);
    BuiltOfDraft(ctx, channel, v);
  }

  lemma WrappedMeans(r: Result<Record, Reason>, edit: bool)
    ensures Wrapped(r, edit).New? <==> r.Ok? && !edit
    ensures Wrapped(r, edit).Edited? <==> r.Ok? && edit
    ensures r.Err? ==> Wrapped(r, edit) == Unrepresentable(r.error)
    ensures r.Ok? ==> Wrapped(r, edit).record == r.value
  {
  }

  /** A message is new exactly when its subtype says so and its timestamp can be read. */
  lemma NewExactly(ctx: Context, channel: string, o: Fields)
    requires ValidId(ctx.workspace) && ValidId(channel)
    ensures Normalize(ctx, channel, Obj(o)).New? <==> OfAMessage(Get(o, Key.Subtype)) && ReadableTs(o, Key.Ts)
    ensures OfAMessage(Get(o, Key.Subtype)) && !ReadableTs(o, Key.Ts) ==>
              Normalize(ctx, channel, Obj(o)) == Unrepresentable(Timestamp)
  {
    OfAMessageMeans(Get(o, Key.Subtype));
    var s := SubjectOf(ctx, channel, Obj(o));
    if s.Of? {
      BuiltReads(ctx, channel, s.o);
      WrappedMeans(Built(ctx, channel, ViewOf(s.o)), s.edit);
    } else {
      SubjectHasNoRecord(ctx, channel, Obj(o));
    }
  }

  /** It is an edit exactly when it says that a message changed, and the message inside is one and has its timestamp. */
  lemma EditedExactly(ctx: Context, channel: string, o: Fields)
    requires ValidId(ctx.workspace) && ValidId(channel)
    ensures Normalize(ctx, channel, Obj(o)).Edited? <==>
              && Get(o, Key.Subtype) == Str("message_changed") && Get(o, Key.Message).Obj?
              && OfAMessage(Get(Get(o, Key.Message).fields, Key.Subtype))
              && ReadableTs(Get(o, Key.Message).fields, Key.Ts)
  {
    OfAMessageMeans(Get(o, Key.Subtype));
    if Get(o, Key.Message).Obj? {
      OfAMessageMeans(Get(Get(o, Key.Message).fields, Key.Subtype));
    }
    var s := SubjectOf(ctx, channel, Obj(o));
    if s.Of? {
      BuiltReads(ctx, channel, s.o);
      WrappedMeans(Built(ctx, channel, ViewOf(s.o)), s.edit);
    } else {
      SubjectHasNoRecord(ctx, channel, Obj(o));
    }
  }

  /** It is a delete exactly when it says so with a readable timestamp, and then of the message at that timestamp. */
  lemma DeletedExactly(ctx: Context, channel: string, o: Fields)
    requires ValidId(ctx.workspace) && ValidId(channel)
    ensures Normalize(ctx, channel, Obj(o)).Deleted? <==>
              Get(o, Key.Subtype) == Str("message_deleted") && ReadableTs(o, Key.DeletedTs)
    ensures Normalize(ctx, channel, Obj(o)).Deleted? ==>
              Normalize(ctx, channel, Obj(o)) == Deleted(ctx.workspace, channel, Get(o, Key.DeletedTs).text)
  {
    OfAMessageMeans(Get(o, Key.Subtype));
    assert "message_changed"[8] == 'c' && "message_deleted"[8] == 'd';
    var s := SubjectOf(ctx, channel, Obj(o));
    if s.Of? {
      WrappedMeans(Built(ctx, channel, ViewOf(s.o)), s.edit);
    } else {
      SubjectHasNoRecord(ctx, channel, Obj(o));
    }
  }

  /** And it is ignored exactly when its subtype, or that of the message inside an edit, is a text that names no message. */
  lemma UnsupportedExactly(ctx: Context, channel: string, o: Fields)
    requires ValidId(ctx.workspace) && ValidId(channel)
    ensures var subtype, inner := Get(o, Key.Subtype), Get(o, Key.Message);
            Normalize(ctx, channel, Obj(o)) == Unsupported <==>
              || (&& subtype.Str? && !OfAMessage(subtype)
                  && subtype != Str("message_changed") && subtype != Str("message_deleted"))
              || (&& subtype == Str("message_changed") && inner.Obj?
                  && Get(inner.fields, Key.Subtype).Str? && !OfAMessage(Get(inner.fields, Key.Subtype)))
  {
    OfAMessageMeans(Get(o, Key.Subtype));
    assert "message_changed"[8] == 'c' && "message_deleted"[8] == 'd';
    if Get(o, Key.Message).Obj? {
      OfAMessageMeans(Get(Get(o, Key.Message).fields, Key.Subtype));
    }
    var s := SubjectOf(ctx, channel, Obj(o));
    if s.Of? {
      WrappedMeans(Built(ctx, channel, ViewOf(s.o)), s.edit);
    }
  }

  // Nothing else is possible in an invalid place.
  lemma InvalidPlaces(ctx: Context, channel: string, raw: Json)
    ensures !raw.Obj? ==> Normalize(ctx, channel, raw) == Unrepresentable(NotAnObject)
    ensures raw.Obj? && !ValidId(ctx.workspace) ==> Normalize(ctx, channel, raw) == Unrepresentable(Workspace)
    ensures raw.Obj? && ValidId(ctx.workspace) && !ValidId(channel) ==>
              Normalize(ctx, channel, raw) == Unrepresentable(Channel)
  {
  }

  // ---------------------------------------------------------------- what a record's fields are

  lemma ContentFields(ctx: Context, channel: string, ts: string, v: View)
    requires !Drafted(ctx, channel, ts, v).omitted
    ensures var d := Drafted(ctx, channel, ts, v);
            && v.replies == Ok(d.replyCount) && v.latestReply == Ok(d.latestReply)
            && v.files.Ok? && d.files == v.files.value.files && d.filesOmitted == v.files.value.omitted
            && v.user.Ok? && v.bot.Ok? && d.author.id == Or(v.user.value, Or(v.bot.value, ""))
  {
  }

  lemma ViewReads(o: Fields)
    ensures var v := ViewOf(o);
            && (v.replies.Ok? ==>
                  || (Get(o, Key.ReplyCount) == Null && v.replies.value == 0)
                  || (&& Get(o, Key.ReplyCount).Number? && Get(o, Key.ReplyCount).asU64.Some?
                      && v.replies.value == if Get(o, Key.ReplyCount).asU64.value > 0xFFFF_FFFF then 0xFFFF_FFFF
                                            else Get(o, Key.ReplyCount).asU64.value))
            && (v.latestReply.Ok? ==>
                  v.latestReply.value == if Get(o, Key.LatestReply).Str? then Some(Get(o, Key.LatestReply).text) else None)
            && (v.user.Ok? ==> v.user.value == if Get(o, Key.User).Str? then Some(Get(o, Key.User).text) else None)
            && (v.bot.Ok? ==> v.bot.value == if Get(o, Key.BotId).Str? then Some(Get(o, Key.BotId).text) else None)
            && (v.files.Ok? ==>
                  if Get(o, Key.Files).Arr? then v.files.value == Summarized(Get(o, Key.Files).items)
                  else v.files.value == Summary([], 0, false))
  {
  }

  /** A readable record's counts, latest reply, author and files are the message's own fields. */
  lemma ARecordHasItsMessagesFields(ctx: Context, channel: string, raw: Json)
    requires HasRecord(Normalize(ctx, channel, raw)) && !Normalize(ctx, channel, raw).record.omitted
    ensures SubjectOf(ctx, channel, raw).Of?
    ensures var o, r := SubjectOf(ctx, channel, raw).o, Normalize(ctx, channel, raw).record;
            && (Get(o, Key.ReplyCount) == Null ==> r.replyCount == 0)
            && (Get(o, Key.ReplyCount) != Null ==>
                  && Get(o, Key.ReplyCount).Number? && Get(o, Key.ReplyCount).asU64.Some?
                  && r.replyCount == if Get(o, Key.ReplyCount).asU64.value > 0xFFFF_FFFF then 0xFFFF_FFFF
                                     else Get(o, Key.ReplyCount).asU64.value)
            && r.latestReply == (if Get(o, Key.LatestReply).Str? then Some(Get(o, Key.LatestReply).text) else None)
            && r.author.id == (if Get(o, Key.User).Str? then Get(o, Key.User).text
                               else if Get(o, Key.BotId).Str? then Get(o, Key.BotId).text else "")
            && (if Get(o, Key.Files).Arr?
                then r.files == Summarized(Get(o, Key.Files).items).files &&
                     r.filesOmitted == Summarized(Get(o, Key.Files).items).omitted
                else r.files == [] && r.filesOmitted == 0)
  {
    RecordIsBuilt(ctx, channel, raw);
    var o := SubjectOf(ctx, channel, raw).o;
    var v := ViewOf(o);
    BuiltOfDraft(ctx, channel, v);
    ContentFields(ctx, channel, Lenient(v.ts).value, v);
    ViewReads(o);
  }

  // The message carries the identity the caller supplied.
  predicate CarriesOwnIdentity(ctx: Context, o: Fields) {
    || (ctx.ownBot.Some? && Get(o, Key.BotId) == Str(ctx.ownBot.value))
    || (ctx.ownUser.Some? && Get(o, Key.User) == Str(ctx.ownUser.value))
  }

  lemma OwnIsCarried(ctx: Context, o: Fields)
    ensures var v := ViewOf(o);
            && (IsOwn(ctx, Lenient(v.user), Lenient(v.bot)) ==> CarriesOwnIdentity(ctx, o))
            && (CarriesOwnIdentity(ctx, o) && !IsOwn(ctx, Lenient(v.user), Lenient(v.bot)) ==> v.bot.Err? || v.user.Err?)
  {
    var v := ViewOf(o);
    assert v.user == OptId(o, Key.User) && v.bot == OptId(o, Key.BotId);
  }

  // ---------------------------------------------------------------- when a record leaves its content out

  predicate TextOrNone(o: Fields, k: Key) { Get(o, k) == Null || Get(o, k).Str? }

  predicate TsOrNone(o: Fields, k: Key) { Get(o, k) == Null || ReadableTs(o, k) }

  predicate IdOrNone(o: Fields, k: Key) { Get(o, k) == Null || (Get(o, k).Str? && ValidId(Get(o, k).text)) }

  predicate CountOrNone(j: Json) { j == Null || (j.Number? && j.asU64.Some?) }

  // The username is looked at for an own post whose metadata names nobody, and for another bot's post.
  predicate LooksAtUsername(ctx: Context, o: Fields) {
    if CarriesOwnIdentity(ctx, o) then FromMetadata(o).None?
    else Get(o, Key.BotId) != Null || Get(o, Key.Subtype) == Str("bot_message")
  }

  predicate Readable(ctx: Context, o: Fields) {
    && TsOrNone(o, Key.ThreadTs) && TsOrNone(o, Key.LatestReply) && IdOrNone(o, Key.User) && IdOrNone(o, Key.BotId)
    && TextOrNone(o, Key.Subtype) && TextOrNone(o, Key.Text)
    && CountOrNone(Get(o, Key.ReplyCount)) && (Get(o, Key.Files) == Null || Get(o, Key.Files).Arr?)
    && (LooksAtUsername(ctx, o) ==> TextOrNone(o, Key.Username))
  }

  lemma FieldsRead(o: Fields, k: Key)
    ensures OptStr(o, k).Ok? <==> TextOrNone(o, k)
    ensures OptTs(o, k).Ok? <==> TsOrNone(o, k)
    ensures OptId(o, k).Ok? <==> IdOrNone(o, k)
  {
  }

  lemma NameIsRead(ctx: Context, o: Fields)
    requires IdOrNone(o, Key.User) && IdOrNone(o, Key.BotId) && TextOrNone(o, Key.Subtype)
    ensures OriginAndName(ctx, ViewOf(o)).Ok? <==> LooksAtUsername(ctx, o) ==> TextOrNone(o, Key.Username)
  {
    OwnIsCarried(ctx, o);
    FieldsRead(o, Key.Username);
  }

  lemma OmittedMeansUnread(ctx: Context, channel: string, ts: string, v: View)
    ensures !Drafted(ctx, channel, ts, v).omitted <==>
              && v.threadTs.Ok? && v.latestReply.Ok? && v.user.Ok? && v.bot.Ok? && v.subtype.Ok? && v.text.Ok?
              && v.replies.Ok? && v.files.Ok? && OriginAndName(ctx, v).Ok?
  {
  }

  /** A record leaves its content out exactly when a field it would be made of cannot be read; the username counts only
      where the author's name is taken from it. */
  lemma OmittedExactly(ctx: Context, channel: string, raw: Json)
    requires HasRecord(Normalize(ctx, channel, raw))
    ensures SubjectOf(ctx, channel, raw).Of?
    ensures Normalize(ctx, channel, raw).record.omitted <==> !Readable(ctx, SubjectOf(ctx, channel, raw).o)
  {
    RecordIsBuilt(ctx, channel, raw);
    var o := SubjectOf(ctx, channel, raw).o;
    var v := ViewOf(o);
    BuiltOfDraft(ctx, channel, v);
    OmittedMeansUnread(ctx, channel, Lenient(v.ts).value, v);
    FieldsRead(o, Key.ThreadTs);
    FieldsRead(o, Key.LatestReply);
    FieldsRead(o, Key.User);
    FieldsRead(o, Key.BotId);
    FieldsRead(o, Key.Subtype);
    FieldsRead(o, Key.Text);
    if v.user.Ok? && v.bot.Ok? && v.subtype.Ok? {
      NameIsRead(ctx, o);
    }
  }

  // ---------------------------------------------------------------- whose name a record shows

  predicate Names(j: Json) { j.Str? && Clean(j.text, MAX_NAME).text != "" }

  // A member goes by the name the profile displays, then by the real one; without either the name is empty.
  lemma MemberNameMeans(o: Fields)
    ensures var profile := if Get(o, Key.UserProfile).Obj? then Get(o, Key.UserProfile).fields else map[];
            MemberName(o) ==
              if Names(Get(profile, Key.DisplayName)) then Clean(Get(profile, Key.DisplayName).text, MAX_NAME)
              else if Names(Get(profile, Key.RealName)) then Clean(Get(profile, Key.RealName).text, MAX_NAME)
              else Cleaned("", false)
  {
    if Get(o, Key.UserProfile).Obj? {
      var p := Get(o, Key.UserProfile).fields;
      FirstNameOfTwo(AsStr(Get(p, Key.DisplayName)), AsStr(Get(p, Key.RealName)));
    }
  }

  // A bot goes by the name the post was customized with, then by its profile's, then by a word.
  lemma BotNameMeans(o: Fields)
    requires TextOrNone(o, Key.Username)
    ensures var profile := if Get(o, Key.BotProfile).Obj? then Get(o, Key.BotProfile).fields else map[];
            BotName(o) ==
              Ok(if Names(Get(o, Key.Username)) then Clean(Get(o, Key.Username).text, MAX_NAME)
                 else if Names(Get(profile, Key.Name)) then Clean(Get(profile, Key.Name).text, MAX_NAME)
                 else Cleaned("bot", false))
  {
    var profile := if Get(o, Key.BotProfile).Obj? then AsStr(Get(Get(o, Key.BotProfile).fields, Key.Name)) else None;
    FieldsRead(o, Key.Username);
    FirstNameOfTwo(OptStr(o, Key.Username).value, profile);
  }

  lemma ContentName(ctx: Context, channel: string, ts: string, v: View)
    requires Recovers(v) && !Drafted(ctx, channel, ts, v).omitted
    ensures var d := Drafted(ctx, channel, ts, v);
            && (d.origin == Member ==> d.author.name == v.memberName.text)
            && (d.origin == Bot ==> v.botName.Ok? && d.author.name == v.botName.value.text)
            && (d.origin in {Drawer, Row} ==>
                  v.own.Ok? && v.own.value.Some? && v.own.value.value.origin == d.origin &&
                  d.author.name == v.own.value.value.name.text)
  {
  }

  /** A readable record shows a member under the member's name, a bot under the bot's, and an own post under the name it
      was posted for. */
  lemma TheAuthorIsNamed(ctx: Context, channel: string, raw: Json)
    requires HasRecord(Normalize(ctx, channel, raw)) && !Normalize(ctx, channel, raw).record.omitted
    ensures SubjectOf(ctx, channel, raw).Of?
    ensures var o, r := SubjectOf(ctx, channel, raw).o, Normalize(ctx, channel, raw).record;
            && (r.origin == Member ==> r.author.name == MemberName(o).text)
            && (r.origin == Bot ==> BotName(o).Ok? && r.author.name == BotName(o).value.text)
            && (r.origin in {Drawer, Row} ==>
                  OwnOrigin(o).Ok? && OwnOrigin(o).value.Some? && OwnOrigin(o).value.value.origin == r.origin &&
                  r.author.name == OwnOrigin(o).value.value.name.text)
  {
    RecordIsBuilt(ctx, channel, raw);
    var v := ViewOf(SubjectOf(ctx, channel, raw).o);
    BuiltOfDraft(ctx, channel, v);
    ContentName(ctx, channel, Lenient(v.ts).value, v);
  }

  /** A message is taken for the app's own post only when it carries the app's own identity, and only when it could be
      read. */
  lemma OwnOriginNeedsTheOwnIdentity(ctx: Context, channel: string, raw: Json)
    requires HasRecord(Normalize(ctx, channel, raw))
    requires Normalize(ctx, channel, raw).record.origin in {Drawer, Row}
    ensures SubjectOf(ctx, channel, raw).Of?
    ensures CarriesOwnIdentity(ctx, SubjectOf(ctx, channel, raw).o) && !Normalize(ctx, channel, raw).record.omitted
  {
    RecordIsBuilt(ctx, channel, raw);
    var o := SubjectOf(ctx, channel, raw).o;
    var v := ViewOf(o);
    BuiltOfDraft(ctx, channel, v);
    ViewWithin(o);
    DraftedOrigin(ctx, channel, Lenient(v.ts).value, v);
    OwnIsCarried(ctx, o);
  }

  // The only own post that is not recognized: its user identity is no id, and nothing else says it is a bot's.
  predicate Unrecognized(ctx: Context, o: Fields) {
    && ctx.ownUser.Some? && !ValidId(ctx.ownUser.value)
    && Get(o, Key.BotId) == Null && Get(o, Key.Subtype) != Str("bot_message")
  }

  /** A message that carries the app's own identity is never taken for a member's, readable or not, unless that identity
      is a user identity which is no id. */
  lemma OwnPostIsNeverAMembers(ctx: Context, channel: string, raw: Json)
    requires HasRecord(Normalize(ctx, channel, raw)) && SubjectOf(ctx, channel, raw).Of?
    requires CarriesOwnIdentity(ctx, SubjectOf(ctx, channel, raw).o)
    ensures Normalize(ctx, channel, raw).record.origin == Member <==> Unrecognized(ctx, SubjectOf(ctx, channel, raw).o)
  {
    RecordIsBuilt(ctx, channel, raw);
    var o := SubjectOf(ctx, channel, raw).o;
    var v := ViewOf(o);
    var ts := Lenient(v.ts).value;
    BuiltOfDraft(ctx, channel, v);
    ViewWithin(o);
    OwnIsCarried(ctx, o);
    if v.bot.Err? || v.user.Err? {
      UnreadableIsOmitted(ctx, channel, ts, v);
    }
    DraftedOrigin(ctx, channel, ts, v);
    UnrecognizedExactly(ctx, o);
  }

  lemma UnreadableIsOmitted(ctx: Context, channel: string, ts: string, v: View)
    requires v.bot.Err? || v.user.Err?
    ensures Drafted(ctx, channel, ts, v).omitted
  {
  }

  lemma UnrecognizedExactly(ctx: Context, o: Fields)
    requires CarriesOwnIdentity(ctx, o)
    ensures var v := ViewOf(o);
            && (Unrecognized(ctx, o) ==>
                  v.user.Err? && !IsOwn(ctx, Lenient(v.user), Lenient(v.bot)) && !v.botKey && !SaysBot(Lenient(v.subtype)))
            && (!IsOwn(ctx, Lenient(v.user), Lenient(v.bot)) && !v.botKey && !SaysBot(Lenient(v.subtype)) ==>
                  Unrecognized(ctx, o))
  {
    var v := ViewOf(o);
    assert v.user == OptId(o, Key.User) && v.bot == OptId(o, Key.BotId) && v.botKey == (Get(o, Key.BotId) != Null);
    assert v.subtype == OptStr(o, Key.Subtype);
  }

  /** What a member types never decides the origin: with any other text, the message has the same. */
  lemma TextNeverDecidesTheOrigin(ctx: Context, channel: string, a: Fields, b: Fields)
    requires SameButText(a, b) && Built(ctx, channel, ViewOf(a)).Ok?
    ensures Built(ctx, channel, ViewOf(b)).Ok?
    ensures Built(ctx, channel, ViewOf(b)).value.origin == Built(ctx, channel, ViewOf(a)).value.origin
  {
    var v, w := ViewOf(a), ViewOf(b);
    SameView(a, b);
    BuiltOfDraft(ctx, channel, v);
    BuiltOfDraft(ctx, channel, w);
    SameDraftedOrigin(ctx, channel, Lenient(v.ts).value, v, w.text);
  }

  function TextOf(o: Fields): string { if Get(o, Key.Text).Str? then Get(o, Key.Text).text else "" }

  lemma TextIsRead(o: Fields)
    ensures Or(Lenient(ViewOf(o).text), "") == TextOf(o)
  {
    assert ViewOf(o).text == OptStr(o, Key.Text);
  }

  /** A readable record's text is a beginning of the message's, in whole characters, and the record is marked exactly when
      its text, its author's name or a file's field was cut. */
  lemma CutsAreMarked(ctx: Context, channel: string, raw: Json)
    requires HasRecord(Normalize(ctx, channel, raw)) && !Normalize(ctx, channel, raw).record.omitted
    ensures SubjectOf(ctx, channel, raw).Of?
    ensures var o, r := SubjectOf(ctx, channel, raw).o, Normalize(ctx, channel, raw).record;
            r.text <= TextOf(o) && (r.truncated <==> r.text != TextOf(o) || FieldCut(ctx, ViewOf(o)))
  {
    RecordIsBuilt(ctx, channel, raw);
    var o := SubjectOf(ctx, channel, raw).o;
    var v := ViewOf(o);
    BuiltOfDraft(ctx, channel, v);
    var d := Drafted(ctx, channel, Lenient(v.ts).value, v);
    DraftMarksCuts(ctx, channel, Lenient(v.ts).value, v);
    FittedIsABeginning(d);
    CutFits(TextOf(o), MAX_TEXT);
    TextIsRead(o);
  }

  /** Every record is within what the wire's decoder takes and within the byte cap, whatever the message held. A readable
      message's text is given up only as far as the cap asks: the record has the longest beginning of 8 KiB, or at least
      1900 bytes of it. */
  lemma EveryRecordFits(ctx: Context, channel: string, raw: Json)
    requires HasRecord(Normalize(ctx, channel, raw))
    ensures SubjectOf(ctx, channel, raw).Of?
    ensures var r := Normalize(ctx, channel, raw).record;
            && Within(r) && EncodedSize(r) <= MAX_RECORD_BYTES
            && (!r.omitted ==>
                  r.text == Cut(TextOf(SubjectOf(ctx, channel, raw).o), MAX_TEXT) || Length(r.text) >= 1900)
  {
    RecordIsBuilt(ctx, channel, raw);
    SubjectIsTheMessage(ctx, channel, raw);
    IdIsAName(ctx.workspace);
    IdIsAName(channel);
    var o := SubjectOf(ctx, channel, raw).o;
    var v := ViewOf(o);
    TextIsRead(o);
    BuiltOfDraft(ctx, channel, v);
    ViewWithin(o);
    var ts := Lenient(v.ts).value;
    DraftWithin(ctx, channel, ts, v);
    var d := Drafted(ctx, channel, ts, v);
    WithinBoundsFits(d);
    if !d.omitted {
      DraftMarksCuts(ctx, channel, ts, v);
    }
  }

  // ---------------------------------------------------------------- when a record is of

  function TsIn(o: Fields): string
    requires ReadableTs(o, Key.Ts)
  {
    Get(o, Key.Ts).text
  }

  // The thread the message names, or its own timestamp.
  function ThreadIn(o: Fields): string
    requires ReadableTs(o, Key.Ts)
  {
    if ReadableTs(o, Key.ThreadTs) then Get(o, Key.ThreadTs).text else TsIn(o)
  }

  /** A new record is the message's, and an edit's is that of the message inside it: place, timestamp and thread. */
  lemma RecordIsOf(ctx: Context, channel: string, o: Fields)
    requires ValidId(ctx.workspace) && ValidId(channel)
    ensures var n := Normalize(ctx, channel, Obj(o));
            n.New? ==>
              && ReadableTs(o, Key.Ts) && n.record.ts == TsIn(o) && n.record.threadTs == ThreadIn(o)
              && n.record.workspace == ctx.workspace && n.record.channel == channel
    ensures var n := Normalize(ctx, channel, Obj(o));
            n.Edited? ==>
              && Get(o, Key.Message).Obj?
              && var inner := Get(o, Key.Message).fields;
                 && ReadableTs(inner, Key.Ts) && n.record.ts == TsIn(inner) && n.record.threadTs == ThreadIn(inner)
                 && n.record.workspace == ctx.workspace && n.record.channel == channel
  {
    var n := Normalize(ctx, channel, Obj(o));
    if HasRecord(n) {
      var s := SubjectOf(ctx, channel, Obj(o));
      RecordIsBuilt(ctx, channel, Obj(o));
      SubjectIsTheMessage(ctx, channel, Obj(o));
      WrappedMeans(Built(ctx, channel, ViewOf(s.o)), s.edit);
      NoMessageIsDropped(ctx, channel, Obj(o));
      TimesRead(s.o);
    }
  }

  lemma TimesRead(o: Fields)
    ensures Lenient(OptTs(o, Key.Ts)).Some? ==> ReadableTs(o, Key.Ts) && Lenient(OptTs(o, Key.Ts)).value == TsIn(o)
    ensures Lenient(OptTs(o, Key.Ts)).Some? ==>
              Or(Lenient(OptTs(o, Key.ThreadTs)), Lenient(OptTs(o, Key.Ts)).value) == ThreadIn(o)
  {
  }
}
