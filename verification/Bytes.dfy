/** Bytes, and the fixed-width unsigned integers that headers carry. */
module Bytes {

  type byte = x: int | 0 <= x < 256

  /** One more than the largest unsigned integer of `width` bytes. */
  function Limit(width: nat): (n: nat)
    ensures n > 0
  {
    if width == 0 then 1 else 256 * Limit(width - 1)
  }

  /** `width` big-endian bytes of `n`; higher bits are dropped, as a truncating cast does. */
  function BigEndian(n: nat, width: nat): (s: seq<byte>)
    ensures |s| == width
  {
    if width == 0 then [] else BigEndian(n / 256, width - 1) + [n % 256]
  }

  /** The unsigned integer that big-endian bytes spell. */
  function FromBigEndian(s: seq<byte>): (n: nat)
    ensures n < Limit(|s|)
  {
    if s == [] then 0 else FromBigEndian(s[..|s| - 1]) * 256 + s[|s| - 1]
  }

  /** `width` little-endian bytes of `n`. */
  function LittleEndian(n: nat, width: nat): (s: seq<byte>)
    ensures |s| == width
  {
    if width == 0 then [] else [n % 256] + LittleEndian(n / 256, width - 1)
  }

  /** Reading back what was written gives the number modulo the width. */
  lemma {:induction false} BigEndianRoundTrip(n: nat, width: nat)
    ensures FromBigEndian(BigEndian(n, width)) == n % Limit(width)
  {
    if width > 0 {
      var s := BigEndian(n, width);
      assert s[..|s| - 1] == BigEndian(n / 256, width - 1);
      BigEndianRoundTrip(n / 256, width - 1);
      DivMod(n, Limit(width - 1));
    }
  }

  lemma DivMod(n: nat, m: nat)
    requires m > 0
    ensures (n / 256) % m * 256 + n % 256 == n % (256 * m)
  {
    var q, r := (n / 256) / m, (n / 256) % m;
    assert n == (q * m + r) * 256 + n % 256;
    assert n == q * (256 * m) + (r * 256 + n % 256);
    assert 0 <= r * 256 + n % 256 < 256 * m by {
      assert r <= m - 1;
      assert r * 256 <= (m - 1) * 256;
    }
    Remainder(n, q, 256 * m, r * 256 + n % 256);
  }

  lemma Remainder(n: nat, q: nat, m: nat, r: nat)
    requires n == q * m + r && r < m
    ensures n % m == r
  {
    var d := n / m - q;
    Apart(d, m, r - n % m);
  }

  /** A multiple of `m` that is closer to zero than `m` is zero. */
  lemma Apart(d: int, m: int, e: int)
    requires m > 0 && d * m == e && -m < e < m
    ensures d == 0 && e == 0
  {
    AtLeast(d, m);
    AtLeast(-d, m);
  }

  lemma AtLeast(d: int, m: int)
    requires m > 0
    ensures d >= 1 ==> d * m >= m
  {
    if d >= 1 {
      assert (d - 1) * m >= 0;
    }
  }

  lemma {:induction false} FromBigEndianThenBack(s: seq<byte>)
    ensures BigEndian(FromBigEndian(s), |s|) == s
  {
    if s != [] {
      FromBigEndianThenBack(s[..|s| - 1]);
      assert s == s[..|s| - 1] + [s[|s| - 1]];
    }
  }

  /** Appending one byte shifts the number left by eight bits. */
  lemma ShiftIn(s: seq<byte>, b: byte)
    ensures FromBigEndian(s + [b]) == FromBigEndian(s) * 256 + b
  {
    assert (s + [b])[..|s|] == s;
  }

  lemma Limits()
    ensures Limit(1) == 0x100
    ensures Limit(2) == 0x1_0000
    ensures Limit(4) == 0x1_0000_0000
    ensures Limit(8) == 0x1_0000_0000_0000_0000
  {
    assert Limit(2) == 256 * Limit(1);
    assert Limit(3) == 256 * Limit(2);
    assert Limit(4) == 256 * Limit(3);
    assert Limit(5) == 256 * Limit(4);
    assert Limit(6) == 256 * Limit(5);
    assert Limit(7) == 256 * Limit(6);
    assert Limit(8) == 256 * Limit(7);
  }

  // ---------------------------------------------------------------------------
  // The widths in use, byte by byte
  // ---------------------------------------------------------------------------

  lemma TwoBigEndian(n: nat)
    ensures BigEndian(n, 1) == [n % 0x100]
    ensures BigEndian(n, 2) == [n / 0x100 % 0x100, n % 0x100]
  {
    var a := n / 256;
    assert BigEndian(a / 256, 0) == [] && BigEndian(a, 0) == [];
    assert BigEndian(n, 1) == BigEndian(a, 0) + [n % 256];
    assert BigEndian(a, 1) == BigEndian(a / 256, 0) + [a % 256];
    assert BigEndian(n, 2) == BigEndian(a, 1) + [n % 256];
  }

  lemma FourBigEndian(n: nat)
    ensures BigEndian(n, 4) == [n / 0x100_0000 % 0x100, n / 0x1_0000 % 0x100, n / 0x100 % 0x100, n % 0x100]
  {
    var a, b, d := n / 256, n / 256 / 256, n / 256 / 256 / 256;
    TwoBigEndian(b);
    assert BigEndian(a, 3) == BigEndian(b, 2) + [a % 256];
    assert BigEndian(n, 4) == BigEndian(a, 3) + [n % 256];
    assert b == n / 0x1_0000 && d == n / 0x100_0000;
  }

  lemma FromBigEndianSpelled(s: seq<byte>)
    ensures |s| == 1 ==> FromBigEndian(s) == s[0]
    ensures |s| == 2 ==> FromBigEndian(s) == s[0] as nat * 0x100 + s[1]
    ensures |s| == 4 ==> FromBigEndian(s) == s[0] as nat * 0x100_0000 + s[1] as nat * 0x1_0000 + s[2] as nat * 0x100 + s[3]
  {
    if |s| == 1 {
      assert s[..0] == [];
    } else if |s| == 2 {
      FromBigEndianSpelled(s[..1]);
    } else if |s| == 4 {
      assert s[..3][..2] == s[..2];
      FromBigEndianSpelled(s[..2]);
    }
  }

  lemma FourLittleEndian(n: nat)
    ensures LittleEndian(n, 4) == [n % 0x100, n / 0x100 % 0x100, n / 0x1_0000 % 0x100, n / 0x100_0000 % 0x100]
  {
    var a, b, d := n / 256, n / 256 / 256, n / 256 / 256 / 256;
    assert LittleEndian(d / 256, 0) == [];
    assert LittleEndian(d, 1) == [d % 256];
    assert LittleEndian(b, 2) == [b % 256] + LittleEndian(d, 1);
    assert LittleEndian(a, 3) == [a % 256] + LittleEndian(b, 2);
    assert b == n / 0x1_0000 && d == n / 0x100_0000;
  }

  lemma EightLittleEndian(n: nat)
    ensures LittleEndian(n, 8) == [n % 0x100, n / 0x100 % 0x100, n / 0x1_0000 % 0x100, n / 0x100_0000 % 0x100,
                                   n / 0x1_0000_0000 % 0x100, n / 0x100_0000_0000 % 0x100, n / 0x1_0000_0000_0000 % 0x100,
                                   n / 0x100_0000_0000_0000 % 0x100]
  {
    hide LittleEndian;
    FirstFour(n, 4);
    FourLittleEndian(n);
    var m := n / 0x1_0000_0000;
    FourLittleEndian(m);
    assert m / 0x100 == n / 0x100_0000_0000 && m / 0x1_0000 == n / 0x1_0000_0000_0000 && m / 0x100_0000 == n / 0x100_0000_0000_0000;
  }

  lemma FirstFour(n: nat, more: nat)
    ensures LittleEndian(n, 4 + more) == LittleEndian(n, 4) + LittleEndian(n / 0x1_0000_0000, more)
  {
    var a, b, d := n / 256, n / 256 / 256, n / 256 / 256 / 256;
    assert d / 256 == n / 0x1_0000_0000;
    assert LittleEndian(n, 4 + more) == [n % 256] + LittleEndian(a, 3 + more);
    assert LittleEndian(a, 3 + more) == [a % 256] + LittleEndian(b, 2 + more);
    assert LittleEndian(b, 2 + more) == [b % 256] + LittleEndian(d, 1 + more);
    assert LittleEndian(d, 1 + more) == [d % 256] + LittleEndian(d / 256, more);
    assert LittleEndian(n, 4) == [n % 256] + LittleEndian(a, 3) && LittleEndian(a, 3) == [a % 256] + LittleEndian(b, 2);
    assert LittleEndian(b, 2) == [b % 256] + LittleEndian(d, 1) && LittleEndian(d, 1) == [d % 256] + LittleEndian(d / 256, 0);
  }
}
