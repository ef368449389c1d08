/** The byte lengths that budgets and `measure` count are those of UTF-8 (RFC 3629, section 3): an
    encoding with exactly these lengths, from which every text can be read back. */
module Utf8 {
  import opened Base

  /** The bytes of one scalar value. */
  function Encode1(c: char): (bs: seq<int>)
    ensures |bs| == Utf8Width(c) && forall i | 0 <= i < |bs| :: 0 <= bs[i] < 0x100
  {
    var x := c as int;
    if x < 0x80 then [x]
    else if x < 0x800 then [0xC0 + x / 0x40, Tail(x)]
    else if x < 0x10000 then [0xE0 + x / 0x1000, Tail(x / 0x40), Tail(x)]
    else [0xF0 + x / 0x40000, Tail(x / 0x1000), Tail(x / 0x40), Tail(x)]
  }

  /** A continuation byte with the six lowest bits of `x`. */
  function Tail(x: nat): nat { 0x80 + x % 0x40 }

  function Encode(s: string): seq<int> {
    if s == [] then [] else Encode(s[..|s| - 1]) + Encode1(s[|s| - 1])
  }

  /** How many bytes the last scalar value of an encoded text takes: back to its first byte, which is
      the last that does not continue another. */
  function LastWidth(bs: seq<int>): nat {
    if bs == [] then 0
    else if 0x80 <= bs[|bs| - 1] < 0xC0 then 1 + LastWidth(bs[..|bs| - 1])
    else 1
  }

  function Value1(bs: seq<int>): int {
    match |bs|
    case 1 => bs[0]
    case 2 => (bs[0] - 0xC0) * 0x40 + (bs[1] - 0x80)
    case 3 => (bs[0] - 0xE0) * 0x1000 + (bs[1] - 0x80) * 0x40 + (bs[2] - 0x80)
    case 4 => (bs[0] - 0xF0) * 0x40000 + (bs[1] - 0x80) * 0x1000 + (bs[2] - 0x80) * 0x40 + (bs[3] - 0x80)
    case _ => 0
  }

  /** Six bits at a time. */
  lemma Digits(x: nat)
    ensures x == x / 0x40 * 0x40 + x % 0x40
    ensures x / 0x1000 == x / 0x40 / 0x40 && x / 0x40000 == x / 0x40 / 0x40 / 0x40
  {
  }

  lemma Value1Returns(c: char)
    ensures Value1(Encode1(c)) == c as int
  {
    var x := c as int;
    Digits(x);
    Digits(x / 0x40);
    Digits(x / 0x40 / 0x40);
  }

  lemma TailContinues(bs: seq<int>, b: int)
    requires 0x80 <= b < 0xC0
    ensures LastWidth(bs + [b]) == 1 + LastWidth(bs)
  {
    assert (bs + [b])[..|bs|] == bs;
  }

  /** The first byte of a text does not continue another, the others do. */
  lemma LastIsWhole(before: seq<int>, c: char)
    ensures LastWidth(before + Encode1(c)) == Utf8Width(c)
  {
    var e := Encode1(c);
    var head := before + [e[0]];
    assert LastWidth(head) == 1;
    if |e| > 1 { TailContinues(head, e[1]); }
    if |e| > 2 { TailContinues(head + [e[1]], e[2]); }
    if |e| > 3 { TailContinues(head + [e[1]] + [e[2]], e[3]); }
    assert before + e == if |e| == 1 then head else if |e| == 2 then head + [e[1]]
      else if |e| == 3 then head + [e[1]] + [e[2]] else head + [e[1]] + [e[2]] + [e[3]];
  }

  lemma LastIsOne(a: seq<int>, c: char, b: seq<int>, d: char)
    requires a + Encode1(c) == b + Encode1(d)
    ensures a == b && c == d
  {
    LastIsWhole(a, c);
    LastIsWhole(b, d);
    var x, y := a + Encode1(c), b + Encode1(d);
    assert a == x[..|a|] && b == y[..|b|] && Encode1(c) == x[|a|..] && Encode1(d) == y[|b|..];
    Value1Returns(c);
    Value1Returns(d);
  }

  lemma {:induction false} EncodeLength(s: string)
    ensures |Encode(s)| == Utf8Len(s)
  {
    if s != [] { EncodeLength(s[..|s| - 1]); }
  }

  lemma {:induction false} EncodeInjective(s: string, t: string)
    requires Encode(s) == Encode(t)
    ensures s == t
  {
    if s != [] && t != [] {
      var m, n := |s| - 1, |t| - 1;
      LastIsOne(Encode(s[..m]), s[m], Encode(t[..n]), t[n]);
      EncodeInjective(s[..m], t[..n]);
      assert s == s[..m] + [s[m]] && t == t[..n] + [t[n]];
    }
  }

  /** The counted length is that of the encoding, and no two texts have the same encoding. */
  lemma Utf8LenCounts(s: string, t: string)
    ensures |Encode(s)| == Utf8Len(s)
    ensures Encode(s) == Encode(t) <==> s == t
  {
    EncodeLength(s);
    if Encode(s) == Encode(t) { EncodeInjective(s, t); }
  }
}
