/** Text as UTF-8 bytes: where a character may be cut, and how long text is once it is written as JSON. */
module Utf8 {
  type byte = b: int | 0 <= b < 256

  // Bytes of one character.
  function Width(c: char): nat {
    if c as int < 0x80 then 1 else if c as int < 0x800 then 2 else if c as int < 0x1_0000 then 3 else 4
  }

  function Length(s: string): nat {
    if s == "" then 0 else Width(s[0]) + Length(s[1..])
  }

  predicate Continues(b: byte) { 0x80 <= b < 0xC0 }

  function Encoded(c: char): (bs: seq<byte>)
    ensures |bs| == Width(c)
    ensures forall i :: 0 <= i < |bs| ==> (Continues(bs[i]) <==> i > 0)
  {
    var n := c as int;
    if n < 0x80 then [n]
    else if n < 0x800 then [0xC0 + n / 64, 0x80 + n % 64]
    else if n < 0x1_0000 then [0xE0 + n / 4096, 0x80 + n / 64 % 64, 0x80 + n % 64]
    else [0xF0 + n / 26_2144, 0x80 + n / 4096 % 64, 0x80 + n / 64 % 64, 0x80 + n % 64]
  }

  function Bytes(s: string): (bs: seq<byte>)
    ensures |bs| == Length(s)
  {
    if s == "" then [] else Encoded(s[0]) + Bytes(s[1..])
  }

  // A byte index at which the text may be cut: its ends, and wherever a character begins.
  predicate IsBoundary(bs: seq<byte>, i: nat)
    requires i <= |bs|
  {
    i == 0 || i == |bs| || !Continues(bs[i])
  }

  // ---------------------------------------------------------------- cutting

  // How many whole characters fit into `max` bytes.
  function Fitting(s: string, max: nat): (k: nat)
    ensures k <= |s|
  {
    if s == "" || Width(s[0]) > max then 0 else 1 + Fitting(s[1..], max - Width(s[0]))
  }

  function Cut(s: string, max: nat): string { s[..Fitting(s, max)] }

  // A cut is the longest beginning, in whole characters, that fits; text that fits is not cut.
  lemma {:induction false} CutIsLongest(s: string, max: nat, k: nat)
    requires k <= |s|
    ensures Length(s[..k]) <= max <==> k <= Fitting(s, max)
  {
    if s != "" && k > 0 {
      assert s[..k][0] == s[0] && s[..k][1..] == s[1..][..k - 1];
      if Width(s[0]) <= max {
        CutIsLongest(s[1..], max - Width(s[0]), k - 1);
      }
    } else {
      assert s[..k] == "";
    }
  }

  lemma CutFits(s: string, max: nat)
    ensures Length(Cut(s, max)) <= max && Cut(s, max) <= s
    ensures Length(s) <= max <==> Cut(s, max) == s
  {
    CutIsLongest(s, max, Fitting(s, max));
    CutIsLongest(s, max, |s|);
    assert s[..|s|] == s;
  }

  // At most three bytes short of `max` are given up.
  lemma {:induction false} CutIsTight(s: string, max: nat)
    requires Length(s) > max
    ensures max <= Length(Cut(s, max)) + 3
  {
    if Width(s[0]) <= max {
      CutIsTight(s[1..], max - Width(s[0]));
      assert Cut(s, max)[0] == s[0] && Cut(s, max)[1..] == Cut(s[1..], max - Width(s[0]));
    }
  }

  // The bytes at which a cut may end are exactly those that whole characters end at.
  lemma {:induction false} BoundariesAreCharacters(s: string, i: nat)
    requires i <= Length(s)
    ensures IsBoundary(Bytes(s), i) <==> Length(s[..Fitting(s, i)]) == i
  {
    if s != "" {
      var w := Width(s[0]);
      if i < w {
        assert s[..Fitting(s, i)] == "";
        assert Bytes(s)[i] == Encoded(s[0])[i];
      } else {
        BoundariesAreCharacters(s[1..], i - w);
        assert s[..Fitting(s, i)][1..] == s[1..][..Fitting(s[1..], i - w)];
        assert i < |Bytes(s)| ==> Bytes(s)[i] == Bytes(s[1..])[i - w];
        assert i == w < |Bytes(s)| ==> !Continues(Encoded(s[1])[0]);
        if i == w && i < |Bytes(s)| {
          assert s[1..] != "";
          assert Bytes(s[1..])[0] == Encoded(s[1..][0])[0];
        }
      }
    }
  }

  // With no boundary after `i` and up to `j`, as many whole characters fit into either.
  lemma {:induction false} NoCharacterEndsBetween(s: string, i: nat, j: nat)
    requires i <= j <= Length(s)
    requires forall k: nat :: i < k <= j ==> !IsBoundary(Bytes(s), k)
    ensures Fitting(s, i) == Fitting(s, j)
    decreases j - i
  {
    if i < j {
      assert !IsBoundary(Bytes(s), j);
      BoundariesAreCharacters(s, j);
      CutFits(s, j);
      CutIsLongest(s, j - 1, Fitting(s, j));
      CutIsLongest(s, j, Fitting(s, j - 1));
      CutIsLongest(s, j - 1, Fitting(s, j - 1));
      NoCharacterEndsBetween(s, i, j - 1);
    }
  }

  // The text before a byte at which it may be cut.
  function Before(s: string, i: nat): (r: string)
    requires i <= Length(s) && IsBoundary(Bytes(s), i)
    ensures Bytes(r) == Bytes(s)[..i] && r == s[..Fitting(s, i)]
  {
    if i == 0 then ""
    else
      assert s != "";
      FirstCharacterIsWhole(s, i);
      var rest := Before(s[1..], i - Width(s[0]));
      assert Bytes(s)[..i] == Encoded(s[0]) + Bytes(s[1..])[..i - Width(s[0])];
      assert ([s[0]] + rest)[1..] == rest;
      [s[0]] + rest
  }

  lemma FirstCharacterIsWhole(s: string, i: nat)
    requires 0 < i <= Length(s) && IsBoundary(Bytes(s), i)
    ensures s != "" && Width(s[0]) <= i && IsBoundary(Bytes(s[1..]), i - Width(s[0]))
  {
    assert Bytes(s) == Encoded(s[0]) + Bytes(s[1..]);
  }

  // The walk back from byte `max` to a boundary ends where `Cut` does.
  method CutTo(s: string, max: nat) returns (t: string, was: bool)
    ensures t == Cut(s, max) && was == (t != s)
  {
    CutFits(s, max);
    var bs := Bytes(s);
    if |bs| <= max {
      return s, false;
    }
    var i: nat := max;
    while !IsBoundary(bs, i)
      invariant i <= max
      invariant forall k: nat :: i < k <= max ==> !IsBoundary(bs, k)
      decreases i
    {
      i := i - 1;
    }
    NoCharacterEndsBetween(s, i, max);
    t, was := Before(s, i), true;
  }

  // ---------------------------------------------------------------- as JSON

  // A character between quotes: the two that are escaped by themselves, the controls with a short escape, the others.
  function JsonWidth(c: char): nat {
    if c == '"' || c == '\\' then 2
    else if 8 <= c as int <= 10 || 12 <= c as int <= 13 then 2
    else if c as int < 0x20 then 6
    else Width(c)
  }

  function JsonBody(s: string): nat {
    if s == "" then 0 else JsonWidth(s[0]) + JsonBody(s[1..])
  }

  function JsonLength(s: string): nat { 2 + JsonBody(s) }

  predicate IsControl(c: char) { c as int < 0x20 || 0x7F <= c as int <= 0x9F }

  predicate Plain(s: string) { forall i :: 0 <= i < |s| ==> !IsControl(s[i]) }

  // Escaping grows text at most six-fold, and text without controls at most two-fold.
  lemma {:induction false} EscapingGrows(s: string)
    ensures Length(s) <= JsonBody(s) <= 6 * Length(s)
    ensures Plain(s) ==> JsonBody(s) <= 2 * Length(s)
  {
    if s != "" {
      EscapingGrows(s[1..]);
      assert Plain(s) ==> Plain(s[1..]) && !IsControl(s[0]);
    }
  }
}
