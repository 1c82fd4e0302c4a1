// Values shared by every component: options, octets and big-endian integers.

module Basics {
  datatype Option<+T> = None | Some(value: T)

  type byte = b: int | 0 <= b < 256

  const TWO_32 := 0x1_0000_0000

  /** The value of two big-endian octets. */
  function U16(hi: byte, lo: byte): nat {
    hi * 256 + lo
  }

  /** Two big-endian octets; Go's uint16 conversion keeps the low sixteen bits. */
  function PutU16(n: nat): seq<byte> {
    [n / 256 % 256, n % 256]
  }

  /** The value of big-endian octets. */
  function BigEndian(s: seq<byte>): nat {
    if s == [] then 0 else BigEndian(s[..|s| - 1]) * 256 + s[|s| - 1]
  }

  /** The low width octets of n, most significant first, as Go's unsigned conversions keep them. */
  function PutBigEndian(n: nat, width: nat): (s: seq<byte>)
    ensures |s| == width
  {
    if width == 0 then [] else PutBigEndian(n / 256, width - 1) + [n % 256]
  }

  lemma U16RoundTrip(n: nat)
    ensures U16(PutU16(n)[0], PutU16(n)[1]) == n % 0x1_0000
  {
    var h := n / 256;
    assert n % 0x1_0000 == h % 256 * 256 + n % 256 by {
      var q := h / 256;
      assert h == q * 256 + h % 256;
      assert n == h * 256 + n % 256;
      assert n == q * 0x1_0000 + (h % 256 * 256 + n % 256);
    }
  }

  function Power256(width: nat): nat {
    if width == 0 then 1 else 256 * Power256(width - 1)
  }

  lemma ModStep(n: nat, q: nat)
    requires q > 0
    ensures n % (256 * q) == n / 256 % q * 256 + n % 256
  {
    var h := n / 256;
    assert h == h / q * q + h % q;
    assert n == h * 256 + n % 256;
    var r := h % q * 256 + n % 256;
    assert n == h / q * (256 * q) + r by {
      assert h / q * q * 256 == h / q * (256 * q);
    }
    assert 0 <= r < 256 * q;
    UniqueMod(n, 256 * q, h / q, r);
  }

  lemma {:induction false} MulMonotone(a: nat, b: nat, d: nat)
    requires a < b
    ensures a * d + d <= b * d
  {
    assert b * d == (b - 1) * d + d;
    if a < b - 1 { MulMonotone(a, b - 1, d); }
  }

  /** Quotient and remainder are determined by n == q * d + r with a small remainder. */
  lemma UniqueMod(n: nat, d: nat, q: nat, r: nat)
    requires r < d && n == q * d + r
    ensures n / d == q && n % d == r
  {
    var q', r' := n / d, n % d;
    assert n == q' * d + r';
    if q < q' { MulMonotone(q, q', d); }
    if q' < q { MulMonotone(q', q, d); }
  }

  lemma {:induction false} BigEndianRoundTrip(n: nat, width: nat)
    ensures Power256(width) > 0
    ensures BigEndian(PutBigEndian(n, width)) == n % Power256(width)
  {
    if width > 0 {
      BigEndianRoundTrip(n / 256, width - 1);
      ModStep(n, Power256(width - 1));
      var s := PutBigEndian(n, width);
      assert s[..width - 1] == PutBigEndian(n / 256, width - 1);
    }
  }

  /** Concatenation of a sequence of byte strings. */
  function Flat(parts: seq<seq<byte>>): seq<byte> {
    if parts == [] then [] else parts[0] + Flat(parts[1..])
  }

  lemma {:induction false} FlatAppend(xs: seq<seq<byte>>, ys: seq<seq<byte>>)
    ensures Flat(xs + ys) == Flat(xs) + Flat(ys)
  {
    if xs == [] {
      assert xs + ys == ys;
    } else {
      assert (xs + ys)[1..] == xs[1..] + ys;
      FlatAppend(xs[1..], ys);
    }
  }

  lemma SliceOfSlice<T>(s: seq<T>, a: nat, b: nat, i: nat, j: nat)
    requires a <= b <= |s| && i <= j <= b - a
    ensures s[a..b][i..j] == s[a + i..a + j]
  {
    var l, r := s[a..b][i..j], s[a + i..a + j];
    assert forall k | 0 <= k < |l| :: l[k] == r[k];
  }

  lemma TailOfTail<T>(s: seq<T>, a: nat, i: nat)
    requires a + i <= |s|
    ensures s[a..][i..] == s[a + i..]
  {
  }
}
