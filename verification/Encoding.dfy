/** The UTF-8 bytes of a string, which is what a Go string holds. */
module Encoding {
  function Utf8(c: char): (bytes: seq<int>)
    ensures bytes != []
  {
    var n := c as int;
    if n < 0x80 then [n]
    else if n < 0x800 then [0xC0 + n / 64, 0x80 + n % 64]
    else if n < 0x10000 then [0xE0 + n / 4096, 0x80 + n / 64 % 64, 0x80 + n % 64]
    else [0xF0 + n / 262144, 0x80 + n / 4096 % 64, 0x80 + n / 64 % 64, 0x80 + n % 64]
  }

  function Bytes(s: string): seq<int> {
    if s == [] then [] else Utf8(s[0]) + Bytes(s[1..])
  }

  // ---------- the encoding is undone by decoding ----------

  /** The bytes that a first byte announces, by section 3 of RFC 3629. */
  function Length(first: int): nat {
    if 0 <= first < 0x80 then 1
    else if 0xC2 <= first < 0xE0 then 2
    else if 0xE0 <= first < 0xF0 then 3
    else if 0xF0 <= first < 0xF5 then 4
    else 0
  }

  predicate Continues(byte: int) {
    0x80 <= byte < 0xC0
  }

  /** The code point that the first bytes stand for: the low bits of the first byte, and six
      bits of each byte that continues it. */
  function CodePoint(bytes: seq<int>): int
    requires bytes != [] && 1 <= Length(bytes[0]) <= |bytes|
  {
    match Length(bytes[0])
    case 1 => bytes[0]
    case 2 => (bytes[0] - 0xC0) * 64 + (bytes[1] - 0x80)
    case 3 => ((bytes[0] - 0xE0) * 64 + (bytes[1] - 0x80)) * 64 + (bytes[2] - 0x80)
    case _ => (((bytes[0] - 0xF0) * 64 + (bytes[1] - 0x80)) * 64 + (bytes[2] - 0x80)) * 64 + (bytes[3] - 0x80)
  }

  lemma Sixes(n: nat)
    ensures n / 4096 == n / 64 / 64 && n / 262144 == n / 64 / 64 / 64
  {
    var q, r := n / 64, n % 64;
    var q1, r1 := q / 64, q % 64;
    var q2, r2 := q1 / 64, q1 % 64;
    Quotient(n, 4096, q1, 64 * r1 + r);
    Quotient(n, 262144, q2, 4096 * r2 + 64 * r1 + r);
  }

  lemma Quotient(n: nat, d: nat, q: nat, r: nat)
    requires d in {4096, 262144} && n == d * q + r && r < d
    ensures n / d == q
  {
  }

  /** The bytes of a character announce their number, go on as announced and stand for it. */
  lemma Utf8Exact(c: char)
    ensures Length(Utf8(c)[0]) == |Utf8(c)| && CodePoint(Utf8(c)) == c as int
    ensures forall i | 0 < i < |Utf8(c)| :: Continues(Utf8(c)[i])
  {
    var n := c as int;
    Sixes(n);
    assert n < 0x110000 && n == n / 64 * 64 + n % 64 && n / 64 == n / 64 / 64 * 64 + n / 64 % 64;
    assert n / 64 / 64 == n / 64 / 64 / 64 * 64 + n / 64 / 64 % 64;
  }

  // ---------- the bytes are ordered as the characters are ----------

  /** `bytes.Compare`. */
  function CompareBytes(a: seq<int>, b: seq<int>): int {
    if a == [] then (if b == [] then 0 else -1)
    else if b == [] then 1
    else if a[0] < b[0] then -1
    else if a[0] > b[0] then 1
    else CompareBytes(a[1..], b[1..])
  }

  lemma {:induction false} CompareAfter(p: seq<int>, x: seq<int>, y: seq<int>)
    ensures CompareBytes(p + x, p + y) == CompareBytes(x, y)
  {
    if p == [] {
      assert p + x == x && p + y == y;
    } else {
      assert (p + x)[1..] == p[1..] + x && (p + y)[1..] == p[1..] + y;
      CompareAfter(p[1..], x, y);
    }
  }

  /** The bytes in terms of the four digits of the code point to base 64. */
  lemma Utf8Digits(c: char) returns (i: nat, j: nat, k: nat, l: nat)
    ensures i < 5 && j < 64 && k < 64 && l < 64 && c as int == 262144 * i + 4096 * j + 64 * k + l
    ensures var n := c as int;
            Utf8(c) == if n < 0x80 then [n]
                       else if n < 0x800 then [0xC0 + k, 0x80 + l]
                       else if n < 0x10000 then [0xE0 + j, 0x80 + k, 0x80 + l]
                       else [0xF0 + i, 0x80 + j, 0x80 + k, 0x80 + l]
  {
    var n := c as int;
    Sixes(n);
    l, k, j, i := n % 64, n / 64 % 64, n / 64 / 64 % 64, n / 64 / 64 / 64;
  }

  /** The first byte in which the lower of two characters has the lower byte. */
  lemma FirstLower(c: char, d: char) returns (at: nat)
    requires c < d
    ensures at < |Utf8(c)| && at < |Utf8(d)| && Utf8(c)[..at] == Utf8(d)[..at] && Utf8(c)[at] < Utf8(d)[at]
  {
    var i, j, k, l := Utf8Digits(c);
    var i', j', k', l' := Utf8Digits(d);
    var x, y := Utf8(c), Utf8(d);
    hide Utf8;
    at := if x[0] != y[0] then 0 else if x[1] != y[1] then 1 else if x[2] != y[2] then 2 else 3;
  }

  lemma {:induction false} CompareFlipsBytes(a: seq<int>, b: seq<int>)
    ensures CompareBytes(b, a) == -CompareBytes(a, b)
  {
    if a != [] && b != [] && a[0] == b[0] {
      CompareFlipsBytes(a[1..], b[1..]);
    }
  }

  lemma LowerFirst(c: char, d: char, x: seq<int>, y: seq<int>)
    requires c < d
    ensures CompareBytes(Utf8(c) + x, Utf8(d) + y) == -1 && CompareBytes(Utf8(d) + y, Utf8(c) + x) == 1
  {
    var k := FirstLower(c, d);
    var a, b := Utf8(c) + x, Utf8(d) + y;
    hide Utf8;
    assert a == Utf8(c)[..k] + a[k..] && b == Utf8(d)[..k] + b[k..];
    CompareAfter(Utf8(c)[..k], a[k..], b[k..]);
    CompareFlipsBytes(a, b);
  }
}
