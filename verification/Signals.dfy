/**
 * The 21 public signals that bind a batch proof to what the vault settles:
 * outputs first (commitment, nullifiers, reset flags), then inputs (payees,
 * amounts, window, accumulator). Slots after the active ones hold zero.
 */
module Signals {
  import opened Base
  import opened Bytes

  type Address = nat

  const BATCH_N: nat := 4

  /** Running totals of one commitment's current windows. */
  datatype Accumulator = Accumulator(anchorR2: U64, windowSpent: U128, anchorR7: U64, windowCount: U64)

  const FreshAccumulator := Accumulator(0, 0, 0, 0)

  /** The releases one batch proof covers, their validity window, and the proven reset flags. */
  datatype Batch = Batch(
    payees: seq<Address>,
    amounts: seq<I128>,
    nullifiers: seq<Bytes32>,
    validAfter: U64,
    validBefore: U64,
    resetR2: bool,
    resetR7: bool)

  /** The shape the vault has checked before it asks the verifier. */
  predicate WellFormed(q: Batch) {
    && 1 <= |q.payees| <= BATCH_N
    && |q.amounts| == |q.payees| == |q.nullifiers|
    && forall i | 0 <= i < |q.amounts| :: q.amounts[i] > 0
  }

  function Scalar64(v: U64): Bytes32 {
    Zeros(24) + ToBE(v, 8)
  }

  function Scalar128(v: U128): Bytes32 {
    Zeros(16) + ToBE(v, 16)
  }

  /** `amount as u128`: two's complement for a negative amount. */
  function AsU128(amount: I128): U128 {
    if amount >= 0 then amount else amount + 0x1_0000_0000_0000_0000_0000_0000_0000_0000
  }

  function AmountScalar(amount: I128): Bytes32 {
    Scalar128(AsU128(amount))
  }

  function FlagScalar(flag: bool): Bytes32 {
    Scalar64(if flag then 1 else 0)
  }

  /** The address hash with its top three bits cleared. */
  function ClearTopBits(hash: Bytes32): Bytes32 {
    [hash[0] % 32] + hash[1..]
  }

  function Padded(s: seq<Bytes32>): (r: seq<Bytes32>)
    requires |s| <= BATCH_N
    ensures |r| == BATCH_N
  {
    s + seq(BATCH_N - |s|, i => ZERO32)
  }

  function PayeeFields(hash: Address -> Bytes32, payees: seq<Address>): (r: seq<Bytes32>)
    ensures |r| == |payees|
  {
    seq(|payees|, i requires 0 <= i < |payees| => ClearTopBits(hash(payees[i])))
  }

  function AmountScalars(amounts: seq<I128>): (r: seq<Bytes32>)
    ensures |r| == |amounts|
  {
    seq(|amounts|, i requires 0 <= i < |amounts| => AmountScalar(amounts[i]))
  }

  function PublicSignals(hash: Address -> Bytes32, commitment: Bytes32, q: Batch, acc: Accumulator): (pis: seq<Bytes32>)
    requires WellFormed(q)
    ensures |pis| == 21
  {
    [commitment]
    + Padded(q.nullifiers)
    + [FlagScalar(q.resetR2), FlagScalar(q.resetR7)]
    + Padded(PayeeFields(hash, q.payees))
    + Padded(AmountScalars(q.amounts))
    + [Scalar64(q.validAfter), Scalar64(q.validBefore), Scalar128(acc.windowSpent),
       Scalar64(acc.windowCount), Scalar64(acc.anchorR2), Scalar64(acc.anchorR7)]
  }

  /** The sum of the batch's amounts. */
  function SumAmounts(amounts: seq<I128>): int {
    if amounts == [] then 0 else SumAmounts(amounts[..|amounts| - 1]) + amounts[|amounts| - 1]
  }

  lemma {:induction false} SumPositive(amounts: seq<I128>)
    requires forall i | 0 <= i < |amounts| :: amounts[i] > 0
    ensures SumAmounts(amounts) >= |amounts|
    ensures forall i | 0 <= i < |amounts| :: amounts[i] <= SumAmounts(amounts)
  {
    if amounts != [] {
      SumPositive(amounts[..|amounts| - 1]);
      forall i | 0 <= i < |amounts| ensures amounts[i] <= SumAmounts(amounts) {
        if i < |amounts| - 1 {
          assert amounts[i] == amounts[..|amounts| - 1][i];
        }
      }
    }
  }

  /** The total of a well-formed batch. */
  function BatchSum(q: Batch): (total: nat)
    requires WellFormed(q)
    ensures total == SumAmounts(q.amounts) > 0
  {
    SumPositive(q.amounts);
    SumAmounts(q.amounts)
  }

  /** The accumulator after an accepted batch: restarted where a reset flag is proven, else added to. */
  function Roll(acc: Accumulator, total: nat, m: nat, resetR2: bool, resetR7: bool, validAfter: U64): Accumulator
    requires total <= U128_MAX && m <= U64_MAX
  {
    Accumulator(
      if resetR2 then validAfter else acc.anchorR2,
      if resetR2 then total else SatAdd(acc.windowSpent, total, U128_MAX),
      if resetR7 then validAfter else acc.anchorR7,
      if resetR7 then m else SatAdd(acc.windowCount, m, U64_MAX))
  }

  // ---- Decoding -----------------------------------------------------------

  lemma Scalar64Value(v: U64)
    ensures FromBE(Scalar64(v)) == v
  {
    PowerValues();
    DecodeEncode(v, 8);
    LeadingZeros(24, ToBE(v, 8));
  }

  lemma Scalar128Value(v: U128)
    ensures FromBE(Scalar128(v)) == v
  {
    PowerValues();
    DecodeEncode(v, 16);
    LeadingZeros(16, ToBE(v, 16));
  }

  lemma AmountScalarValue(a: I128)
    requires a > 0
    ensures FromBE(AmountScalar(a)) == a
    ensures AmountScalar(a) != ZERO32
  {
    Scalar128Value(AsU128(a));
    assert ZERO32 == Zeros(32);
    AllZeros(32);
  }

  /** No two of these payees share a field element. */
  ghost predicate DistinctFields(hash: Address -> Bytes32, payees: seq<Address>) {
    forall p, q | p in payees && q in payees && ClearTopBits(hash(p)) == ClearTopBits(hash(q)) :: p == q
  }

  /** Where each part of the statement sits in the vector. */
  lemma Layout(hash: Address -> Bytes32, commitment: Bytes32, q: Batch, acc: Accumulator)
    requires WellFormed(q)
    ensures var pis := PublicSignals(hash, commitment, q, acc);
      && pis[0] == commitment
      && pis[1..5] == Padded(q.nullifiers)
      && pis[5] == FlagScalar(q.resetR2) && pis[6] == FlagScalar(q.resetR7)
      && pis[7..11] == Padded(PayeeFields(hash, q.payees))
      && pis[11..15] == Padded(AmountScalars(q.amounts))
      && pis[15] == Scalar64(q.validAfter) && pis[16] == Scalar64(q.validBefore)
      && pis[17] == Scalar128(acc.windowSpent) && pis[18] == Scalar64(acc.windowCount)
      && pis[19] == Scalar64(acc.anchorR2) && pis[20] == Scalar64(acc.anchorR7)
  {
  }

  lemma ActiveSlots(amounts: seq<I128>)
    requires |amounts| <= BATCH_N
    requires forall i | 0 <= i < |amounts| :: amounts[i] > 0
    ensures forall i | 0 <= i < BATCH_N :: Padded(AmountScalars(amounts))[i] == ZERO32 <==> i >= |amounts|
  {
    forall i | 0 <= i < |amounts| ensures AmountScalars(amounts)[i] != ZERO32 {
      AmountScalarValue(amounts[i]);
    }
  }

  /** The batch's size can be read off the amounts: an active amount is never the zero element. */
  lemma SameSize(p: Batch, q: Batch)
    requires WellFormed(p) && WellFormed(q)
    requires Padded(AmountScalars(p.amounts)) == Padded(AmountScalars(q.amounts))
    ensures p.amounts == q.amounts
  {
    var m, n := |p.amounts|, |q.amounts|;
    ActiveSlots(p.amounts);
    ActiveSlots(q.amounts);
    var v := Padded(AmountScalars(p.amounts));
    assert m < BATCH_N ==> v[m] == ZERO32;
    assert n < BATCH_N ==> v[n] == ZERO32;
    forall i | 0 <= i < m ensures p.amounts[i] == q.amounts[i] {
      assert Padded(AmountScalars(p.amounts))[i] == AmountScalar(p.amounts[i]);
      assert Padded(AmountScalars(q.amounts))[i] == AmountScalar(q.amounts[i]);
      AmountScalarValue(p.amounts[i]);
      AmountScalarValue(q.amounts[i]);
    }
  }

  /** Equal vectors are equal statements under equal accumulators. */
  lemma SignalsInjective(hash: Address -> Bytes32, c: Bytes32, p: Batch, a: Accumulator, d: Bytes32, q: Batch, b: Accumulator)
    requires WellFormed(p) && WellFormed(q) && DistinctFields(hash, p.payees + q.payees)
    ensures PublicSignals(hash, c, p, a) == PublicSignals(hash, d, q, b) <==> c == d && p == q && a == b
  {
    var v, w := PublicSignals(hash, c, p, a), PublicSignals(hash, d, q, b);
    if v == w {
      Layout(hash, c, p, a);
      Layout(hash, d, q, b);
      SameSize(p, q);
      assert p.nullifiers == v[1..5][..|p.nullifiers|];
      assert q.nullifiers == w[1..5][..|q.nullifiers|];
      forall i | 0 <= i < |p.payees| ensures p.payees[i] == q.payees[i] {
        assert v[7..11][i] == ClearTopBits(hash(p.payees[i]));
        assert w[7..11][i] == ClearTopBits(hash(q.payees[i]));
      }
      Scalar64Value(if p.resetR2 then 1 else 0);
      Scalar64Value(if q.resetR2 then 1 else 0);
      Scalar64Value(if p.resetR7 then 1 else 0);
      Scalar64Value(if q.resetR7 then 1 else 0);
      Scalar64Value(p.validAfter);
      Scalar64Value(q.validAfter);
      Scalar64Value(p.validBefore);
      Scalar64Value(q.validBefore);
      Scalar128Value(a.windowSpent);
      Scalar128Value(b.windowSpent);
      Scalar64Value(a.windowCount);
      Scalar64Value(b.windowCount);
      Scalar64Value(a.anchorR2);
      Scalar64Value(b.anchorR2);
      Scalar64Value(a.anchorR7);
      Scalar64Value(b.anchorR7);
    }
  }
}
