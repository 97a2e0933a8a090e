/** Slack's timestamps: decimal seconds and six digits of microseconds, kept as text and ordered as numbers. */
module Timestamps {
  import opened Wrappers
  import opened Utf8

  predicate IsDigit(c: char) { '0' <= c <= '9' }

  predicate AllDigits(s: string) { forall i :: 0 <= i < |s| ==> IsDigit(s[i]) }

  // The text before and after the first dot.
  function SplitOnce(s: string): (r: Option<(string, string)>)
    ensures r.Some? ==> s == r.value.0 + "." + r.value.1
    ensures r.None? ==> '.' !in s
  {
    if s == "" then None
    else if s[0] == '.' then Some(("", s[1..]))
    else
      match SplitOnce(s[1..])
      case Some((a, b)) => Some(([s[0]] + a, b))
      case None => None
  }

  predicate IsTs(s: string) {
    match SplitOnce(s)
    case Some((secs, frac)) => 1 <= Length(secs) <= 20 && AllDigits(secs) && Length(frac) == 6 && AllDigits(frac)
    case None => false
  }

  function Value(s: string): nat
    requires AllDigits(s)
  {
    if s == "" then 0 else 10 * Value(s[..|s| - 1]) + (s[|s| - 1] as int - '0' as int)
  }

  function Seconds(ts: string): string
    requires IsTs(ts)
  {
    SplitOnce(ts).value.0
  }

  function Fraction(ts: string): string
    requires IsTs(ts)
  {
    SplitOnce(ts).value.1
  }

  // The key by which timestamps are ordered: seconds first, then microseconds.
  function Key(ts: string): (nat, nat)
    requires IsTs(ts)
  {
    (Value(Seconds(ts)), Value(Fraction(ts)))
  }

  predicate KeyPrecedes(a: (nat, nat), b: (nat, nat)) { a.0 < b.0 || (a.0 == b.0 && a.1 < b.1) }

  // The one number a timestamp spells, in microseconds: all its digits read together.
  function Micros(ts: string): nat
    requires IsTs(ts)
  {
    Value(Seconds(ts) + Fraction(ts))
  }

  function Power(k: nat): nat { if k == 0 then 1 else 10 * Power(k - 1) }

  lemma {:induction false} ValueOfTwo(a: string, b: string)
    requires AllDigits(a) && AllDigits(b)
    ensures Value(a + b) == Value(a) * Power(|b|) + Value(b)
  {
    if b == "" {
      assert a + b == a;
    } else {
      var c := b[..|b| - 1];
      ValueOfTwo(a, c);
      assert (a + b)[..|a + b| - 1] == a + c;
      assert Value(a) * (10 * Power(|c|)) == 10 * (Value(a) * Power(|c|));
    }
  }

  lemma {:induction false} ValueBound(s: string)
    requires AllDigits(s)
    ensures Value(s) < Power(|s|)
  {
    if s != "" {
      ValueBound(s[..|s| - 1]);
    }
  }

  lemma {:induction false} DigitsAreBytes(s: string)
    requires AllDigits(s)
    ensures Length(s) == |s|
  {
    if s != "" {
      assert IsDigit(s[0]);
      DigitsAreBytes(s[1..]);
    }
  }

  /** Timestamps are ordered by their keys exactly as by the numbers they spell, however many zeros they begin with. */
  lemma KeysOrderAsNumbers(a: string, b: string)
    requires IsTs(a) && IsTs(b)
    ensures KeyPrecedes(Key(a), Key(b)) <==> Micros(a) < Micros(b)
    ensures Key(a) == Key(b) <==> Micros(a) == Micros(b)
  {
    assert Power(6) == 1_000_000;
    KeyOfMicros(a);
    KeyOfMicros(b);
  }

  lemma KeyOfMicros(a: string)
    requires IsTs(a)
    ensures Micros(a) == Key(a).0 * 1_000_000 + Key(a).1 && Key(a).1 < 1_000_000
  {
    assert Power(6) == 1_000_000;
    DigitsAreBytes(Fraction(a));
    ValueOfTwo(Seconds(a), Fraction(a));
    ValueBound(Fraction(a));
  }

  /** Neither part can be too large for the integers it is read into, 128 and 32 bits. */
  lemma PartsAreReadable(ts: string)
    requires IsTs(ts)
    ensures Key(ts).0 < 0x1_0000_0000_0000_0000_0000_0000_0000_0000 && Key(ts).1 < 0x1_0000_0000
  {
    KeyOfMicros(ts);
    DigitsAreBytes(Seconds(ts));
    ValueBound(Seconds(ts));
    PowerRises(|Seconds(ts)|, 20);
    assert Power(10) == 10_000_000_000;
    assert Power(15) == 100000 * Power(10);
    assert Power(20) == 100000 * Power(15);
  }

  lemma {:induction false} PowerRises(a: nat, b: nat)
    requires a <= b
    ensures Power(a) <= Power(b)
    decreases b - a
  {
    if a < b {
      PowerRises(a, b - 1);
    }
  }

  lemma {:induction false} SplitAtTheFirst(a: string, b: string)
    requires '.' !in a
    ensures SplitOnce(a + "." + b) == Some((a, b))
  {
    var s := a + "." + b;
    if a == "" {
      assert s[1..] == b;
    } else {
      assert s[0] == a[0] && s[1..] == a[1..] + "." + b;
      SplitAtTheFirst(a[1..], b);
      assert [a[0]] + a[1..] == a;
    }
  }

  // A zero before the seconds changes nothing in the order.
  lemma LeadingZerosDoNotCount(secs: string, frac: string)
    requires '.' !in secs && IsTs(secs + "." + frac) && IsTs("0" + secs + "." + frac)
    ensures Key("0" + secs + "." + frac) == Key(secs + "." + frac)
  {
    SplitAtTheFirst(secs, frac);
    SplitAtTheFirst("0" + secs, frac);
    ValueOfTwo("0", secs);
    assert Value("0") == 0;
  }

  // A timestamp is at most 27 bytes, none of them a control.
  lemma TsIsShort(ts: string)
    requires IsTs(ts)
    ensures Plain(ts) && Length(ts) <= 27
  {
    var a, b := Seconds(ts), Fraction(ts);
    DigitsAreBytes(a);
    DigitsAreBytes(b);
    forall i | 0 <= i < |ts| ensures ts[i] == '.' || IsDigit(ts[i]) {
      if i < |a| {
        assert ts[i] == a[i];
      } else if i > |a| {
        assert ts[i] == b[i - |a| - 1];
      }
    }
    NarrowIsBytes(ts);
  }

  lemma {:induction false} NarrowIsBytes(s: string)
    requires forall i :: 0 <= i < |s| ==> (s[i] as int) < 0x80
    ensures Length(s) == |s|
  {
    if s != "" {
      NarrowIsBytes(s[1..]);
    }
  }
}
