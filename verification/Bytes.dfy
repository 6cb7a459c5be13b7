/** Little-endian words. */
module Bytes {
  import opened Words
  import opened Arith

  /** 256^width. */
  function Span(width: nat): nat {
    if width == 0 then 1 else 256 * Span(width - 1)
  }

  function ToLE(n: nat, width: nat): (b: seq<u8>)
    ensures |b| == width
    decreases width
  {
    if width == 0 then [] else [n % 256] + ToLE(n / 256, width - 1)
  }

  lemma NestedQuotient(n: nat, s: nat)
    requires s > 0
    ensures n / 256 / s == n / (256 * s)
  {
    var q, r := n / 256, n % 256;
    var k, m := q / s, q % s;
    QuotientBounds(q, s);
    assert q == k * s + m;
    assert n == 256 * q + r == k * (256 * s) + (256 * m + r);
    QuotientIs(n, 256 * s, k);
  }

  /** The bytes come least significant first: byte `i` is the digit of 256^i. */
  lemma {:induction false} ByteAt(n: nat, width: nat, i: nat)
    requires i < width
    ensures Span(i) > 0 && ToLE(n, width)[i] == n / Span(i) % 256
    decreases i
  {
    if i > 0 {
      ByteAt(n / 256, width - 1, i - 1);
      NestedQuotient(n, Span(i - 1));
      assert ToLE(n, width)[1..] == ToLE(n / 256, width - 1);
    }
  }

  function FromLE(b: seq<u8>): nat
    decreases |b|
  {
    if b == [] then 0 else b[0] + 256 * FromLE(b[1..])
  }

  lemma {:induction false} FromLEBelow(b: seq<u8>)
    ensures FromLE(b) < Span(|b|)
    decreases |b|
  {
    if b != [] {
      FromLEBelow(b[1..]);
    }
  }

  lemma {:induction false} ReadWritten(n: nat, width: nat)
    requires n < Span(width)
    ensures FromLE(ToLE(n, width)) == n
    decreases width
  {
    if width > 0 {
      ReadWritten(n / 256, width - 1);
      assert ToLE(n, width)[1..] == ToLE(n / 256, width - 1);
    }
  }

  lemma {:induction false} WrittenRead(b: seq<u8>)
    ensures ToLE(FromLE(b), |b|) == b
    decreases |b|
  {
    if b != [] {
      WrittenRead(b[1..]);
      assert FromLE(b) % 256 == b[0] && FromLE(b) / 256 == FromLE(b[1..]);
      assert b == [b[0]] + b[1..];
    }
  }

  lemma {:induction false} SpanAdds(a: nat, b: nat)
    ensures Span(a + b) == Span(a) * Span(b)
  {
    if a > 0 {
      SpanAdds(a - 1, b);
      assert Span(a + b) == 256 * (Span(a - 1) * Span(b));
    }
  }

  lemma WordSpans()
    ensures Span(8) == TWO_64 && Span(32) == TWO_256
  {
    assert Span(2) == 0x1_0000 by { assert Span(1) == 256; }
    SpanAdds(2, 2);
    SpanAdds(4, 4);
    SpanAdds(8, 8);
    SpanAdds(16, 16);
  }

  function Read64(b: seq<u8>): u64
    requires |b| == 8
  {
    WordSpans();
    FromLEBelow(b);
    FromLE(b)
  }

  function Read256(b: seq<u8>): u256
    requires |b| == 32
  {
    WordSpans();
    FromLEBelow(b);
    FromLE(b)
  }

  lemma ReadBack64(n: u64)
    ensures Read64(ToLE(n, 8)) == n
  {
    WordSpans();
    ReadWritten(n, 8);
  }

  lemma ReadBack256(n: u256)
    ensures Read256(ToLE(n, 32)) == n
  {
    WordSpans();
    ReadWritten(n, 32);
  }

  /** `to_little_endian` into the first half of a zeroed 64-byte buffer. */
  function Buffer256(n: u256): (b: seq<u8>)
    ensures |b| == 64 && b[..32] == ToLE(n, 32)
  {
    ToLE(n, 32) + seq(32, _ => 0)
  }

  /** `for i in from..to { res.push(bytes[i - from]) }` */
  method PushRange(start: seq<u8>, bytes: seq<u8>, from: nat, to: nat) returns (res: seq<u8>)
    requires from <= to && to - from <= |bytes|
    ensures res == start + bytes[..to - from]
  {
    res := start;
    for i := from to to
      invariant res == start + bytes[..i - from]
    {
      res := res + [bytes[i - from]];
    }
  }
}
