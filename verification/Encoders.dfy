/**
 * The client's encoders of field elements. They write the same bytes as the
 * contracts, on every value both accept, and refuse the values that do not fit.
 */
module Encoders {
  import opened Base
  import opened Bytes
  import S = Signals
  import P = PolicyVerifier

  datatype EncodeError = Not32Bytes | NotPositive | ExceedsU128 | Negative | ExceedsField | ExceedsWidth | TooFewSignals

  // ---- Hexadecimal --------------------------------------------------------

  type Nibble = x: int | 0 <= x < 16

  /** The digits of a number, most significant first; zero has one digit. */
  function Hex(v: nat): (digits: seq<Nibble>)
    ensures |digits| >= 1
  {
    if v < 16 then [v] else Hex(v / 16) + [v % 16]
  }

  function PadStart(digits: seq<Nibble>, width: nat): seq<Nibble> {
    if |digits| >= width then digits else seq(width - |digits|, i => 0) + digits
  }

  /** The `n` low-order digits of `v`. */
  function Digits(v: nat, n: nat): (digits: seq<Nibble>)
    ensures |digits| == n
  {
    if n == 0 then [] else Digits(v / 16, n - 1) + [v % 16]
  }

  /** Pairs of digits are bytes. */
  function FromHex(digits: seq<Nibble>): seq<Byte> {
    if |digits| < 2 then []
    else
      var high: int, low: int := digits[|digits| - 2], digits[|digits| - 1];
      FromHex(digits[..|digits| - 2]) + [16 * high + low]
  }

  function Pow16(n: nat): (p: nat)
    ensures p > 0
  {
    if n == 0 then 1 else 16 * Pow16(n - 1)
  }

  lemma {:induction false} Pow16Pairs(n: nat)
    ensures Pow16(2 * n) == Pow256(n)
  {
    if n > 0 {
      Pow16Pairs(n - 1);
      assert Pow16(2 * n) == 16 * Pow16(2 * n - 1) == 256 * Pow16(2 * n - 2);
    }
  }

  /** A number's digits fit a width exactly when the number does. */
  lemma {:induction false} HexFits(v: nat, n: nat)
    requires n >= 1
    ensures |Hex(v)| <= n <==> v < Pow16(n)
  {
    if v < 16 {
      assert Pow16(n) >= 16 by {
        assert Pow16(n) == 16 * Pow16(n - 1);
      }
    } else if n == 1 {
      assert Pow16(1) == 16 * Pow16(0);
    } else {
      HexFits(v / 16, n - 1);
    }
  }

  lemma {:induction false} PaddedHex(v: nat, n: nat)
    requires |Hex(v)| <= n
    ensures PadStart(Hex(v), n) == Digits(v, n)
  {
    if v < 16 {
      ZeroDigits(n - 1);
      assert v / 16 == 0;
      assert seq(n - 1, i => 0) + [v] == Digits(0, n - 1) + [v];
      if n == 1 {
        assert Digits(0, 0) + [v] == [v];
      }
    } else {
      PaddedHex(v / 16, n - 1);
      assert PadStart(Hex(v), n) == PadStart(Hex(v / 16), n - 1) + [v % 16];
    }
  }

  lemma {:induction false} ZeroDigits(n: nat)
    ensures Digits(0, n) == seq(n, i => 0)
  {
    if n > 0 {
      ZeroDigits(n - 1);
    }
  }

  lemma {:induction false} DigitsToBytes(v: nat, n: nat)
    ensures FromHex(Digits(v, 2 * n)) == ToBE(v, n)
  {
    if n > 0 {
      var d := Digits(v, 2 * n);
      DigitsToBytes(v / 256, n - 1);
      assert d == Digits(v / 16 / 16, 2 * n - 2) + [v / 16 % 16] + [v % 16];
      assert d[..2 * n - 2] == Digits(v / 256, 2 * n - 2);
    }
  }

  // ---- Field elements -----------------------------------------------------

  /** Through hexadecimal text, as the client does it. */
  function FeBytes(v: int, n: nat): Result<seq<Byte>, EncodeError> {
    if v < 0 then Err(Negative)
    else
      var hex := Hex(v);
      if |hex| > 2 * n then Err(ExceedsWidth) else Ok(FromHex(PadStart(hex, 2 * n)))
  }

  /** The text detour writes the big-endian bytes, and refuses exactly what does not fit. */
  lemma FeBytesExact(v: int, n: nat)
    requires n >= 1
    ensures FeBytes(v, n) ==
      if v < 0 then Err(Negative) else if v >= Pow256(n) then Err(ExceedsWidth) else Ok(ToBE(v, n))
  {
    if v >= 0 {
      HexFits(v, 2 * n);
      Pow16Pairs(n);
      if v < Pow256(n) {
        PaddedHex(v, 2 * n);
        DigitsToBytes(v, n);
      }
    }
  }

  const FIELD_CAPACITY: nat := 0x2000_0000_0000_0000_0000_0000_0000_0000_0000_0000_0000_0000_0000_0000_0000_0000

  function FeScalar(v: int): Result<seq<Byte>, EncodeError> {
    if v < 0 then Err(Negative)
    else if v >= FIELD_CAPACITY then Err(ExceedsField)
    else Ok(FromHex(PadStart(Hex(v), 64)))
  }

  lemma CapacityFits()
    ensures FIELD_CAPACITY < Pow256(32)
  {
    PowerValues();
    assert Pow256(20) == 256 * (256 * (256 * (256 * Pow256(16))));
    assert Pow256(24) == 256 * (256 * (256 * (256 * Pow256(20))));
    assert Pow256(28) == 256 * (256 * (256 * (256 * Pow256(24))));
    assert Pow256(32) == 256 * (256 * (256 * (256 * Pow256(28))));
  }

  /** A scalar within capacity is its 32 big-endian bytes. */
  lemma FeScalarExact(v: nat)
    requires v < FIELD_CAPACITY
    ensures FeScalar(v) == Ok(ToBE(v, 32))
  {
    CapacityFits();
    HexFits(v, 64);
    Pow16Pairs(32);
    PaddedHex(v, 64);
    DigitsToBytes(v, 32);
  }

  /** The scalars the contract makes of 64- and 128-bit numbers are the client's. */
  lemma FeScalarAgrees(v: U128)
    ensures FeScalar(v) == Ok(S.Scalar128(v))
    ensures v <= U64_MAX ==> S.Scalar128(v) == S.Scalar64(v)
  {
    FeScalarExact(v);
    WideScalar(v);
    if v <= U64_MAX {
      NarrowScalar(v);
    }
  }

  lemma WideScalar(v: U128)
    ensures S.Scalar128(v) == ToBE(v, 32)
  {
    PowerValues();
    SplitBE(0, v, 16, 16);
    ZeroBytes(16);
  }

  lemma NarrowScalar(v: U64)
    ensures S.Scalar128(v) == S.Scalar64(v)
  {
    PowerValues();
    SplitBE(0, v, 8, 8);
    ZeroBytes(8);
    assert Zeros(16) + (Zeros(8) + ToBE(v, 8)) == Zeros(24) + ToBE(v, 8);
  }

  lemma {:induction false} ZeroBytes(n: nat)
    ensures ToBE(0, n) == Zeros(n)
  {
    if n > 0 {
      ZeroBytes(n - 1);
    }
  }

  const TWO64: nat := 0x1_0000_0000_0000_0000
  const TWO128: nat := 0x1_0000_0000_0000_0000_0000_0000_0000_0000

  /** The client's amount encoder: two 64-bit words written into a zeroed buffer. */
  method AmountScalar(amount: int) returns (r: Result<Bytes32, EncodeError>)
    ensures amount <= 0 ==> r == Err(NotPositive)
    ensures amount >= TWO128 ==> r == Err(ExceedsU128)
    ensures 0 < amount < TWO128 ==> r == Ok(S.Scalar128(amount)) && FromBE(r.value) == amount
    ensures 0 < amount <= I128_MAX ==> r == Ok(S.AmountScalar(amount))
  {
    if amount <= 0 {
      return Err(NotPositive);
    }
    if amount >= TWO128 {
      return Err(ExceedsU128);
    }
    var out := new Byte[32](_ => 0);
    assert out[..] == Zeros(32) && out[..16] == Zeros(16);
    P.CopyInto(out, 16, ToBE(amount / TWO64, 8));
    assert out[..24] == Zeros(16) + ToBE(amount / TWO64, 8);
    P.CopyInto(out, 24, ToBE(amount % TWO64, 8));
    PowerValues();
    SplitBE(amount / TWO64, amount % TWO64, 8, 8);
    assert out[..] == Zeros(16) + (ToBE(amount / TWO64, 8) + ToBE(amount % TWO64, 8));
    LeadingZeros(16, ToBE(amount, 16));
    DecodeEncode(amount, 16);
    return Ok(out[..]);
  }

  /** The payee's hash with its top three bits cleared, byte by byte. */
  method PayeeField(payeeHash: Bytes32) returns (field: Bytes32)
    ensures field == S.ClearTopBits(payeeHash)
  {
    var out := new Byte[32](_ => 0);
    P.CopyInto(out, 0, payeeHash);
    assert out[..] == payeeHash;
    LowFiveBits(payeeHash[0]);
    out[0] := P.And(out[0], 0x1f);
    assert out[..] == [payeeHash[0] % 32] + payeeHash[1..];
    field := out[..];
  }

  lemma LowFiveBits(b: Byte)
    ensures P.And(b, 0x1f) == b % 32
  {
    OneBit(b, 15);
    LowFourBits(b / 2);
    LowBitApart(b, 16);
  }

  lemma LowFourBits(b: nat)
    ensures P.And(b, 15) == b % 16
  {
    OneBit(b, 7);
    LowThreeBits(b / 2);
    LowBitApart(b, 8);
  }

  lemma LowThreeBits(b: nat)
    ensures P.And(b, 7) == b % 8
  {
    OneBit(b, 3);
    LowTwoBits(b / 2);
    LowBitApart(b, 4);
  }

  lemma LowTwoBits(b: nat)
    ensures P.And(b, 3) == b % 4
  {
    OneBit(b, 1);
    OneBit(b / 2, 0);
    assert P.And(b / 2 / 2, 0) == 0;
    LowBitApart(b, 2);
  }

  lemma LowBitApart(b: nat, d: nat)
    requires d > 0
    ensures b % (2 * d) == b % 2 + 2 * (b / 2 % d)
  {
    var half := b / 2;
    var q, r := half / d, half % d;
    assert half == d * q + r;
    assert 2 * d * q == 2 * (d * q);
    ModUnique(2 * d, q, b % 2 + 2 * r, b);
  }

  /** A low one in the mask keeps the lowest bit. */
  lemma OneBit(x: nat, mask: nat)
    ensures P.And(x, 2 * mask + 1) == x % 2 + 2 * P.And(x / 2, mask)
  {
    if x == 0 {
      assert P.And(0, mask) == 0;
    } else {
      assert (2 * mask + 1) / 2 == mask && (2 * mask + 1) % 2 == 1;
    }
  }

  // ---- Reading a batch proof's outputs ------------------------------------

  datatype BatchOutputs = BatchOutputs(commitment: seq<Byte>, nullifiers: seq<seq<Byte>>, activeNullifiers: seq<seq<Byte>>)

  function EncodeAll(signals: seq<int>): Result<seq<seq<Byte>>, EncodeError> {
    if signals == [] then Ok([])
    else
      var first :- FeBytes(signals[0], 32);
      var rest :- EncodeAll(signals[1..]);
      Ok([first] + rest)
  }

  predicate IsZero(bytes: seq<Byte>) {
    forall i | 0 <= i < |bytes| :: bytes[i] == 0
  }

  function NonZero(items: seq<seq<Byte>>): seq<seq<Byte>> {
    if items == [] then []
    else (if IsZero(items[0]) then [] else [items[0]]) + NonZero(items[1..])
  }

  /** Outputs come first: the commitment, then one nullifier a slot; zero slots are not releases. */
  function ExtractBatchOutputs(signals: seq<int>, n: nat): Result<BatchOutputs, EncodeError> {
    if |signals| < 1 + n then Err(TooFewSignals)
    else
      var commitment :- FeBytes(signals[0], 32);
      var nullifiers :- EncodeAll(signals[1..1 + n]);
      Ok(BatchOutputs(commitment, nullifiers, NonZero(nullifiers)))
  }

  /** The numbers a vector of field elements stands for. */
  function Values(v: seq<Bytes32>): (r: seq<int>)
    ensures |r| == |v|
  {
    seq(|v|, i requires 0 <= i < |v| => FromBE(v[i]))
  }

  lemma ElementBack(e: Bytes32)
    ensures FeBytes(FromBE(e), 32) == Ok(e)
  {
    FromBEBound(e);
    FeBytesExact(FromBE(e), 32);
    EncodeDecode(e);
  }

  lemma {:induction false} AllBack(v: seq<Bytes32>)
    ensures EncodeAll(Values(v)) == Ok(v)
  {
    if v != [] {
      ElementBack(v[0]);
      AllBack(v[1..]);
      assert Values(v)[1..] == Values(v[1..]) && v == [v[0]] + v[1..];
    }
  }

  lemma ZeroElement(e: Bytes32)
    ensures IsZero(e) ==> e == ZERO32
  {
    assert ZERO32 == Zeros(32);
  }

  lemma {:induction false} NonZeroOfPadded(active: seq<Bytes32>, n: nat)
    requires forall i | 0 <= i < |active| :: active[i] != ZERO32
    ensures NonZero(active + seq(n, i => ZERO32)) == active
  {
    var items := active + seq(n, i => ZERO32);
    if active == [] {
      if n > 0 {
        assert items[1..] == [] + seq(n - 1, i => ZERO32);
        NonZeroOfPadded([], n - 1);
      }
    } else {
      ZeroElement(active[0]);
      assert items[1..] == active[1..] + seq(n, i => ZERO32);
      NonZeroOfPadded(active[1..], n);
    }
  }

  /** The client reads back from the signals exactly the commitment and the nullifiers the vault consumes. */
  lemma OutputsRecovered(hash: S.Address -> Bytes32, commitment: Bytes32, q: S.Batch, acc: S.Accumulator)
    requires S.WellFormed(q) && forall i | 0 <= i < |q.nullifiers| :: q.nullifiers[i] != ZERO32
    ensures ExtractBatchOutputs(Values(S.PublicSignals(hash, commitment, q, acc)), S.BATCH_N)
      == Ok(BatchOutputs(commitment, S.Padded(q.nullifiers), q.nullifiers))
  {
    var v := S.PublicSignals(hash, commitment, q, acc);
    S.Layout(hash, commitment, q, acc);
    RecoveredFrom(v, commitment, q.nullifiers);
  }

  lemma RecoveredFrom(v: seq<Bytes32>, commitment: Bytes32, nullifiers: seq<Bytes32>)
    requires |v| == 21 && v[0] == commitment && |nullifiers| <= S.BATCH_N && v[1..5] == S.Padded(nullifiers)
    requires forall i | 0 <= i < |nullifiers| :: nullifiers[i] != ZERO32
    ensures ExtractBatchOutputs(Values(v), S.BATCH_N) == Ok(BatchOutputs(commitment, S.Padded(nullifiers), nullifiers))
  {
    ElementBack(commitment);
    AllBack(S.Padded(nullifiers));
    assert Values(v)[1..5] == Values(S.Padded(nullifiers));
    NonZeroOfPadded(nullifiers, S.BATCH_N - |nullifiers|);
  }
}
