/** Byte strings, fixed-width big-endian numbers and 32-byte field elements. */
module Bytes {

  type Byte = x: int | 0 <= x < 256
  type Bytes32 = s: seq<Byte> | |s| == 32 witness seq(32, i => 0)

  function Zeros(n: nat): (s: seq<Byte>)
    ensures |s| == n
  {
    seq(n, i => 0)
  }

  const ZERO32: Bytes32 := Zeros(32)

  function Pow256(n: nat): (p: nat)
    ensures p > 0
  {
    if n == 0 then 1 else 256 * Pow256(n - 1)
  }

  /** The `n` low-order bytes of `v`, most significant first. */
  function ToBE(v: nat, n: nat): (s: seq<Byte>)
    ensures |s| == n
  {
    if n == 0 then [] else ToBE(v / 256, n - 1) + [v % 256]
  }

  /** The number a big-endian byte string stands for. */
  function FromBE(s: seq<Byte>): nat {
    if s == [] then 0 else 256 * FromBE(s[..|s| - 1]) + s[|s| - 1]
  }

  lemma {:induction false} FromBEBound(s: seq<Byte>)
    ensures FromBE(s) < Pow256(|s|)
  {
    if s != [] {
      FromBEBound(s[..|s| - 1]);
    }
  }

  /** Decoding the encoding gives the number back, for every number that fits. */
  lemma {:induction false} DecodeEncode(v: nat, n: nat)
    requires v < Pow256(n)
    ensures FromBE(ToBE(v, n)) == v
  {
    if n > 0 {
      DecodeEncode(v / 256, n - 1);
      assert ToBE(v, n)[..n - 1] == ToBE(v / 256, n - 1);
    }
  }

  /** Encoding the decoding gives the bytes back. */
  lemma {:induction false} EncodeDecode(s: seq<Byte>)
    ensures ToBE(FromBE(s), |s|) == s
  {
    if s != [] {
      EncodeDecode(s[..|s| - 1]);
    }
  }

  /** Splitting a fixed-width number into a high part and a low part splits its bytes. */
  lemma {:induction false} SplitBE(hi: nat, lo: nat, n: nat, m: nat)
    requires lo < Pow256(m)
    ensures ToBE(hi * Pow256(m) + lo, n + m) == ToBE(hi, n) + ToBE(lo, m)
  {
    if m == 0 {
      assert ToBE(lo, 0) == [];
      assert ToBE(hi, n) + [] == ToBE(hi, n);
    } else {
      var q := hi * Pow256(m - 1) + lo / 256;
      assert hi * Pow256(m) + lo == 256 * q + lo % 256 by {
        assert hi * (256 * Pow256(m - 1)) == 256 * (hi * Pow256(m - 1));
      }
      SplitBE(hi, lo / 256, n, m - 1);
      assert ToBE(hi * Pow256(m) + lo, n + m) == ToBE(q, n + m - 1) + [lo % 256];
    }
  }

  lemma PowerValues()
    ensures Pow256(4) == 0x1_0000_0000
    ensures Pow256(8) == 0x1_0000_0000_0000_0000
    ensures Pow256(16) == 0x1_0000_0000_0000_0000_0000_0000_0000_0000
  {
    assert Pow256(4) == 256 * (256 * (256 * (256 * Pow256(0))));
    assert Pow256(8) == 256 * (256 * (256 * (256 * Pow256(4))));
    assert Pow256(12) == 256 * (256 * (256 * (256 * Pow256(8))));
    assert Pow256(16) == 256 * (256 * (256 * (256 * Pow256(12))));
  }

  /** Leading zero bytes do not change the number. */
  lemma {:induction false} LeadingZeros(n: nat, s: seq<Byte>)
    ensures FromBE(Zeros(n) + s) == FromBE(s)
  {
    if s != [] {
      LeadingZeros(n, s[..|s| - 1]);
      assert (Zeros(n) + s)[..n + |s| - 1] == Zeros(n) + s[..|s| - 1];
    } else {
      AllZeros(n);
      assert Zeros(n) + s == Zeros(n);
    }
  }

  lemma {:induction false} AllZeros(n: nat)
    ensures FromBE(Zeros(n)) == 0
  {
    if n > 0 {
      AllZeros(n - 1);
      assert Zeros(n)[..n - 1] == Zeros(n - 1);
    }
  }

  lemma Grows(n: nat, a: nat, b: nat)
    requires a < b
    ensures n * a + n <= n * b
  {
    assert n * b == n * a + n * (b - a);
    assert n * (b - a) == n + n * (b - a - 1);
  }

  /** Quotient and remainder are unique. */
  lemma ModUnique(n: nat, q: nat, r: nat, x: nat)
    requires r < n && x == n * q + r
    ensures x % n == r
  {
    var q', r' := x / n, x % n;
    assert x == n * q' + r';
    if q < q' {
      Grows(n, q, q');
    } else if q' < q {
      Grows(n, q', q);
    }
  }
}
