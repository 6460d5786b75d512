/** Decimal rendering of integers as Rust's `format!` does it: `{}` writes the
    shortest decimal form, `{:0N}` pads it with leading zeros to at least N
    characters and never truncates. A digit parser and a split on a separator
    character are the inverses used to state what the renderings contain. */
module Decimal {

  predicate IsDigit(c: char) { '0' <= c <= '9' }

  predicate AllDigits(s: string) { forall i :: 0 <= i < |s| ==> IsDigit(s[i]) }

  function DigitChar(d: nat): (c: char)
    requires d < 10
    ensures IsDigit(c) && c as int - '0' as int == d
  {
    ('0' as int + d) as char
  }

  function DigitValue(c: char): nat
    requires IsDigit(c)
  {
    c as int - '0' as int
  }

  /** `{}` on an unsigned integer: the shortest decimal form. */
  function NatToString(n: nat): (s: string)
    ensures 1 <= |s|
    ensures AllDigits(s)
    ensures |s| > 1 ==> s[0] != '0'
    ensures n < 10 <==> |s| == 1
  {
    if n < 10 then [DigitChar(n)] else NatToString(n / 10) + [DigitChar(n % 10)]
  }

  /** `{}` on a signed integer: a minus sign before the magnitude when negative. */
  function IntToString(n: int): (s: string)
    ensures 1 <= |s|
    ensures forall i :: 0 < i < |s| ==> IsDigit(s[i])
    ensures IsDigit(s[0]) <==> n >= 0
    ensures n >= 0 ==> AllDigits(s) && ParseDigits(s) == n && (|s| > 1 ==> s[0] != '0')
    ensures n < 0 ==> |s| >= 2 && s[0] == '-' && AllDigits(s[1..])
                      && ParseDigits(s[1..]) == -n && (|s| > 2 ==> s[1] != '0')
  {
    if n < 0 then
      var d := NatToString(-n);
      ParseNatToString(-n);
      assert ("-" + d)[1..] == d;
      "-" + d
    else
      ParseNatToString(n);
      NatToString(n)
  }

  function Zeros(k: nat): (z: string)
    ensures |z| == k
    ensures forall i :: 0 <= i < k ==> z[i] == '0'
  {
    if k == 0 then "" else Zeros(k - 1) + "0"
  }

  /** `{:0w}` on an unsigned integer. */
  function PadZero(n: nat, w: nat): (s: string)
    ensures AllDigits(s)
    ensures |s| == if |NatToString(n)| < w then w else |NatToString(n)|
  {
    var d := NatToString(n);
    if |d| < w then Zeros(w - |d|) + d else d
  }

  /** `{:02}`, the width every two-digit field of a cue sheet uses. */
  function Pad2(n: nat): (s: string)
    ensures AllDigits(s) && 2 <= |s|
    ensures n < 100 <==> |s| == 2
  {
    NatLengthBound(n);
    PadZero(n, 2)
  }

  /** The value a string of decimal digits denotes (leading zeros allowed). */
  function ParseDigits(s: string): nat
    requires AllDigits(s)
  {
    if s == [] then 0 else 10 * ParseDigits(s[..|s| - 1]) + DigitValue(s[|s| - 1])
  }

  /** The pieces of `s` between occurrences of `sep`, in order. */
  function Split(s: string, sep: char): (parts: seq<string>)
    ensures |parts| >= 1
  {
    if s == [] then [""]
    else if s[0] == sep then [""] + Split(s[1..], sep)
    else
      var rest := Split(s[1..], sep);
      [[s[0]] + rest[0]] + rest[1..]
  }

  lemma {:induction false} NatLengthBound(n: nat)
    ensures n < 100 <==> |NatToString(n)| <= 2
  {
    if n >= 10 { NatLengthBound(n / 10); }
  }

  /** Reading back the shortest decimal form gives the number. */
  lemma {:induction false} ParseNatToString(n: nat)
    ensures ParseDigits(NatToString(n)) == n
  {
    if n >= 10 {
      var s := NatToString(n);
      assert s[..|s| - 1] == NatToString(n / 10);
      ParseNatToString(n / 10);
    }
  }

  /** Reading a concatenation: the left part is shifted by the right part's width. */
  lemma {:induction false} ParseAppend(a: string, b: string)
    requires AllDigits(a) && AllDigits(b)
    ensures AllDigits(a + b)
    ensures ParseDigits(a + b) == ParseDigits(a) * Power10(|b|) + ParseDigits(b)
  {
    assert AllDigits(a + b) by {
      forall i | 0 <= i < |a + b| ensures IsDigit((a + b)[i]) {
        if i < |a| { assert (a + b)[i] == a[i]; } else { assert (a + b)[i] == b[i - |a|]; }
      }
    }
    if b == [] {
      assert a + b == a;
    } else {
      var b' := b[..|b| - 1];
      var c := b[|b| - 1];
      ParseAppend(a, b');
      assert (a + b)[..|a + b| - 1] == a + b';
      assert (a + b)[|a + b| - 1] == c;
      var pa, pb' := ParseDigits(a), ParseDigits(b');
      assert ParseDigits(a + b) == 10 * ParseDigits(a + b') + DigitValue(c);
      assert ParseDigits(b) == 10 * pb' + DigitValue(c);
      ShiftDecimal(pa, Power10(|b'|), pb');
    }
  }

  lemma ShiftDecimal(x: nat, p: nat, y: nat)
    ensures 10 * (x * p + y) == x * (10 * p) + 10 * y
  {
  }

  lemma {:induction false} ParseZeros(k: nat)
    ensures ParseDigits(Zeros(k)) == 0
  {
    if k > 0 {
      assert Zeros(k)[..k - 1] == Zeros(k - 1);
      ParseZeros(k - 1);
    }
  }

  function Power10(e: nat): nat { if e == 0 then 1 else 10 * Power10(e - 1) }

  /** Leading zeros do not change the value read. */
  lemma ParseLeadingZeros(k: nat, d: string, p: string)
    requires AllDigits(d) && p == Zeros(k) + d
    ensures AllDigits(p)
    ensures ParseDigits(p) == ParseDigits(d)
  {
    ParseAppend(Zeros(k), d);
    ParseZeros(k);
  }

  /** A zero-padded field reads back as the number it renders. */
  lemma PadZeroRoundTrip(n: nat, w: nat)
    ensures ParseDigits(PadZero(n, w)) == n
  {
    var d, p := NatToString(n), PadZero(n, w);
    ParseNatToString(n);
    if |d| < w {
      assert p == Zeros(w - |d|) + d;
      ParseLeadingZeros(w - |d|, d, p);
    } else {
      assert p == d;
    }
  }

  /** A piece without the separator stays whole. */
  lemma {:induction false} SplitNoSep(a: string, sep: char)
    requires forall i :: 0 <= i < |a| ==> a[i] != sep
    ensures Split(a, sep) == [a]
  {
    if a != [] {
      SplitNoSep(a[1..], sep);
      assert a[0] != sep;
      assert [a[0]] + a[1..] == a;
    }
  }

  /** Splitting at the first separator peels off the piece before it. */
  lemma {:induction false} SplitAt(a: string, sep: char, b: string)
    requires forall i :: 0 <= i < |a| ==> a[i] != sep
    ensures Split(a + [sep] + b, sep) == [a] + Split(b, sep)
  {
    if a == [] {
      assert a + [sep] + b == [sep] + b;
      assert ([sep] + b)[1..] == b;
    } else {
      assert (a + [sep] + b)[1..] == a[1..] + [sep] + b;
      SplitAt(a[1..], sep, b);
      assert [a[0]] + a[1..] == a;
    }
  }
}
