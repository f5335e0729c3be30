/**
 * The policy verifier's binding check: the verifying key and proof headers, the
 * hash transcript over the public inputs, and the opening check. SHA-256 is a
 * parameter; nothing here depends on what it computes.
 */
module PolicyVerifier {
  import opened Base
  import opened Bytes
  import S = Signals

  type Hash = seq<Byte> -> Bytes32

  datatype VerifierError = InvalidVkLength | MalformedVk | InvalidProofLength | MalformedProof | InvalidAmount

  const MIN_VK_LEN: nat := 64
  const MAX_VK_LEN: nat := 65_536
  const MIN_PROOF_LEN: nat := 512
  const MAX_PROOF_LEN: nat := 16_384
  const NUM_PUBLIC_INPUTS: nat := 4
  const PROOF_HDR_LEN: nat := 224

  // ---- Powers of two ------------------------------------------------------

  function Pow2(n: nat): (p: nat)
    ensures p > 0
  {
    if n == 0 then 1 else 2 * Pow2(n - 1)
  }

  /** Bitwise conjunction. */
  function And(x: nat, y: nat): nat {
    if x == 0 || y == 0 then 0 else (x % 2) * (y % 2) + 2 * And(x / 2, y / 2)
  }

  function BitLength(n: nat): nat {
    if n == 0 then 0 else 1 + BitLength(n / 2)
  }

  function LeadingZeros32(n: nat): int {
    32 - BitLength(n)
  }

  lemma {:induction false} AndSelf(x: nat)
    ensures And(x, x) == x
  {
    if x > 0 {
      AndSelf(x / 2);
    }
  }

  /** The contract's test for a power of two is exact, and so is its logarithm. */
  lemma {:induction false} PowerOfTwo(n: nat)
    requires n > 0
    ensures And(n, n - 1) == 0 <==> n == Pow2(BitLength(n) - 1)
  {
    if n == 1 {
      assert BitLength(1) == 1 + BitLength(0);
    } else if n % 2 == 1 {
      assert (n - 1) / 2 == n / 2 && (n - 1) % 2 == 0;
      AndSelf(n / 2);
      assert BitLength(n / 2) >= 1;
      assert Pow2(BitLength(n) - 1) == 2 * Pow2(BitLength(n) - 2);
    } else {
      var m := n / 2;
      PowerOfTwo(m);
      if m > 1 {
        assert (n - 1) / 2 == m - 1 && (n - 1) % 2 == 1;
      } else {
        assert n == 2 && And(2, 1) == 0;
      }
      assert Pow2(BitLength(n) - 1) == 2 * Pow2(BitLength(m) - 1);
    }
  }

  lemma {:induction false} BitLengthOfPower(k: nat)
    ensures BitLength(Pow2(k)) == k + 1
  {
    if k > 0 {
      BitLengthOfPower(k - 1);
    } else {
      assert BitLength(1) == 1 + BitLength(0);
    }
  }

  lemma {:induction false} BitLengthBound(n: nat, k: nat)
    requires n < Pow2(k)
    ensures BitLength(n) <= k
  {
    if n > 0 {
      BitLengthBound(n / 2, k - 1);
    }
  }

  // ---- Parsing ------------------------------------------------------------

  /** A big-endian word at an offset. */
  function ReadU32(bytes: seq<Byte>, offset: nat): Result<nat, VerifierError> {
    if |bytes| < offset + 4 then Err(MalformedVk)
    else
      var b0: nat, b1: nat, b2: nat, b3: nat := bytes[offset], bytes[offset + 1], bytes[offset + 2], bytes[offset + 3];
      Ok(b0 * 0x1000000 + b1 * 0x10000 + b2 * 0x100 + b3)
  }

  lemma ReadU32Value(bytes: seq<Byte>, offset: nat)
    requires |bytes| >= offset + 4
    ensures ReadU32(bytes, offset) == Ok(FromBE(bytes[offset..offset + 4])) && FromBE(bytes[offset..offset + 4]) <= U32_MAX
  {
    var w := bytes[offset..offset + 4];
    assert w[..3][..2] == w[..2] && w[..3][..2][..1] == w[..1] && w[..1][..0] == [];
    assert FromBE(w) == 256 * FromBE(w[..3]) + w[3];
    assert FromBE(w[..3]) == 256 * FromBE(w[..3][..2]) + w[2];
    assert FromBE(w[..2]) == 256 * FromBE(w[..2][..1]) + w[1];
    assert w[..2][..1] == w[..1];
    assert FromBE(w[..1]) == 256 * FromBE(w[..1][..0]) + w[0];
  }

  datatype ParsedVk = ParsedVk(logCircuitSize: nat, numPublicInputs: nat, pubInputsOffset: nat)

  function ParseVk(vk: seq<Byte>): Result<ParsedVk, VerifierError> {
    if !(MIN_VK_LEN <= |vk| <= MAX_VK_LEN) then Err(InvalidVkLength)
    else
      var circuitSize :- ReadU32(vk, 0);
      var numPublicInputs :- ReadU32(vk, 4);
      var pubInputsOffset :- ReadU32(vk, 8);
      :- Need(circuitSize != 0 && And(circuitSize, circuitSize - 1) == 0, MalformedVk);
      :- Need(numPublicInputs == NUM_PUBLIC_INPUTS, MalformedVk);
      Ok(ParsedVk(31 - LeadingZeros32(circuitSize), numPublicInputs, pubInputsOffset))
  }

  /** A key parses exactly when its header names a power of two and four inputs, and then gives the exact logarithm. */
  lemma ParseVkExact(vk: seq<Byte>)
    requires MIN_VK_LEN <= |vk| <= MAX_VK_LEN
    ensures var size := FromBE(vk[0..4]);
      && (ParseVk(vk).Ok? <==> (exists k: nat :: size == Pow2(k)) && FromBE(vk[4..8]) == NUM_PUBLIC_INPUTS)
      && (ParseVk(vk).Ok? ==>
            var p := ParseVk(vk).value;
            0 <= p.logCircuitSize < 32 && size == Pow2(p.logCircuitSize) && p.pubInputsOffset == FromBE(vk[8..12]))
  {
    ReadU32Value(vk, 0);
    ReadU32Value(vk, 4);
    ReadU32Value(vk, 8);
    var size := FromBE(vk[0..4]);
    assert 0 < Pow2(0);
    if size > 0 {
      PowerOfTwo(size);
      PowerIs32();
      BitLengthBound(size, 32);
    }
    forall k: nat | size == Pow2(k) ensures size > 0 && And(size, size - 1) == 0 {
      BitLengthOfPower(k);
      PowerOfTwo(size);
    }
  }

  lemma PowerIs32()
    ensures Pow2(32) == U32_MAX + 1
  {
    assert Pow2(8) == 256 * Pow2(0);
    assert Pow2(16) == 256 * Pow2(8);
    assert Pow2(24) == 256 * Pow2(16);
    assert Pow2(32) == 256 * Pow2(24);
  }

  datatype ParsedProof = ParsedProof(
    piCommitment: Bytes32,
    circuitId: Bytes32,
    linearisationEval: Bytes32,
    grandProductEval: Bytes32,
    selectorEvalsHash: Bytes32,
    openingEval: Bytes32,
    shiftedOpeningEval: Bytes32)

  /** The header of a proof that is long enough to have one. */
  function Header(proof: seq<Byte>): ParsedProof
    requires |proof| >= PROOF_HDR_LEN
  {
    ParsedProof(proof[0..32], proof[32..64], proof[64..96], proof[96..128], proof[128..160], proof[160..192], proof[192..224])
  }

  function ParseProof(proof: seq<Byte>): Result<ParsedProof, VerifierError> {
    if MIN_PROOF_LEN <= |proof| <= MAX_PROOF_LEN then Ok(Header(proof)) else Err(InvalidProofLength)
  }

  /** Read 32 bytes into a fixed array. */
  method ReadArray32(bytes: seq<Byte>, offset: nat) returns (r: Result<Bytes32, VerifierError>)
    ensures |bytes| < offset + 32 ==> r == Err(MalformedProof)
    ensures |bytes| >= offset + 32 ==> r == Ok(bytes[offset..offset + 32])
  {
    if |bytes| < offset + 32 {
      return Err(MalformedProof);
    }
    var arr := new Byte[32];
    for i := 0 to 32
      invariant arr[..i] == bytes[offset..offset + i]
    {
      arr[i] := bytes[offset + i];
    }
    assert arr[..32] == arr[..];
    return Ok(arr[..]);
  }

  /** Field by field; none of the reads can fail once the length has been checked. */
  method ReadProof(proof: seq<Byte>) returns (r: Result<ParsedProof, VerifierError>)
    ensures r == ParseProof(proof)
  {
    if !(MIN_PROOF_LEN <= |proof| <= MAX_PROOF_LEN) {
      return Err(InvalidProofLength);
    }
    var piCommitment := ReadArray32(proof, 0);
    var circuitId := ReadArray32(proof, 32);
    var linearisationEval := ReadArray32(proof, 64);
    var grandProductEval := ReadArray32(proof, 96);
    var selectorEvalsHash := ReadArray32(proof, 128);
    var openingEval := ReadArray32(proof, 160);
    var shiftedOpeningEval := ReadArray32(proof, 192);
    return Ok(ParsedProof(piCommitment.value, circuitId.value, linearisationEval.value, grandProductEval.value,
                          selectorEvalsHash.value, openingEval.value, shiftedOpeningEval.value));
  }

  // ---- The transcript -----------------------------------------------------

  function Challenge(hash: Hash, circuitId: Bytes32, piHash: Bytes32, selectorEvalsHash: Bytes32): Bytes32 {
    hash(circuitId + piHash + selectorEvalsHash)
  }

  function LinearisationCheck(hash: Hash, zeta: Bytes32, grandProductEval: Bytes32): Bytes32 {
    hash(zeta + grandProductEval)
  }

  function DomainTag(logCircuitSize: nat, pubInputsOffset: nat): seq<Byte> {
    ToBE(logCircuitSize, 4) + ToBE(pubInputsOffset, 4)
  }

  predicate OpeningCloses(hash: Hash, zeta: Bytes32, opening: Bytes32, shifted: Bytes32, tag: seq<Byte>) {
    hash(zeta + opening + shifted + tag)[0] == 0
  }

  /** What a header has to satisfy for a given public-input hash and domain. */
  predicate Consistent(hash: Hash, p: ParsedProof, piHash: Bytes32, tag: seq<Byte>) {
    var zeta := Challenge(hash, p.circuitId, piHash, p.selectorEvalsHash);
    && p.piCommitment == piHash
    && p.linearisationEval == LinearisationCheck(hash, zeta, p.grandProductEval)
    && OpeningCloses(hash, zeta, p.openingEval, p.shiftedOpeningEval, tag)
  }

  function VerifyProof(hash: Hash, vk: seq<Byte>, piHash: Bytes32, proof: seq<Byte>): Result<bool, VerifierError> {
    var key := ParseVk(vk);
    :- Need(key.Ok?, MalformedVk);
    var p :- ParseProof(proof);
    if p.piCommitment != piHash then Ok(false)
    else
      var zeta := Challenge(hash, p.circuitId, piHash, p.selectorEvalsHash);
      if LinearisationCheck(hash, zeta, p.grandProductEval) != p.linearisationEval then Ok(false)
      else Ok(OpeningCloses(hash, zeta, p.openingEval, p.shiftedOpeningEval,
                            DomainTag(key.value.logCircuitSize, key.value.pubInputsOffset)))
  }

  // ---- Public inputs ------------------------------------------------------

  /** The canonical 128 bytes: commitment, payee hash, amount scalar, nullifier. */
  function PublicInputs(commitment: Bytes32, payeeHash: Bytes32, amount: I128, nullifier: Bytes32): (v: seq<Byte>)
    ensures |v| == 128
  {
    commitment + payeeHash + S.AmountScalar(amount) + nullifier
  }

  /** Copy a slice into an array, in place. */
  method CopyInto(a: array<Byte>, offset: nat, src: seq<Byte>)
    requires offset + |src| <= a.Length
    modifies a
    ensures a[..] == old(a[..offset]) + src + old(a[offset + |src|..])
  {
    for i := 0 to |src|
      invariant a[..offset] == old(a[..offset])
      invariant a[offset..offset + i] == src[..i]
      invariant a[offset + |src|..] == old(a[offset + |src|..])
    {
      a[offset + i] := src[i];
    }
    assert src[..|src|] == src;
    assert a[..] == a[..offset] + a[offset..offset + |src|] + a[offset + |src|..];
  }

  /** The contract's assembly: fixed arrays filled by slice copies. */
  method BuildPublicInputs(hash: Hash, commitment: Bytes32, payeeXdr: seq<Byte>, amount: I128, nullifier: Bytes32)
    returns (raw: seq<Byte>, piHash: Bytes32)
    ensures raw == PublicInputs(commitment, hash(payeeXdr), amount, nullifier)
    ensures piHash == hash(raw)
  {
    var pi1 := hash(payeeXdr);
    var pi2 := new Byte[32](_ => 0);
    assert pi2[..] == Zeros(32) && pi2[..16] == Zeros(16);
    CopyInto(pi2, 16, ToBE(S.AsU128(amount), 16));
    assert pi2[..] == S.AmountScalar(amount);
    var buffer := new Byte[128](_ => 0);
    CopyInto(buffer, 0, commitment);
    CopyInto(buffer, 32, pi1);
    CopyInto(buffer, 64, pi2[..]);
    CopyInto(buffer, 96, nullifier);
    raw := buffer[..];
    piHash := hash(raw);
  }

  /** The entry point the vault calls: anything but an explicit acceptance is a refusal. */
  predicate VerifyPolicy(hash: Hash, vk: Option<seq<Byte>>, commitment: Bytes32, payeeXdr: seq<Byte>, amount: I128,
                         nullifier: Bytes32, proof: seq<Byte>)
  {
    && amount > 0 && vk.Some?
    && VerifyProof(hash, vk.value, hash(PublicInputs(commitment, hash(payeeXdr), amount, nullifier)), proof) == Ok(true)
  }

  /** The vault's question is answered yes exactly when the key is well formed and the proof binds these inputs. */
  lemma VerifyPolicyIff(hash: Hash, vk: seq<Byte>, commitment: Bytes32, payeeXdr: seq<Byte>, amount: I128, nullifier: Bytes32,
                        proof: seq<Byte>)
    ensures VerifyPolicy(hash, Some(vk), commitment, payeeXdr, amount, nullifier, proof) <==>
      && amount > 0 && ParseVk(vk).Ok? && MIN_PROOF_LEN <= |proof| <= MAX_PROOF_LEN
      && Consistent(hash, Header(proof), hash(PublicInputs(commitment, hash(payeeXdr), amount, nullifier)),
                    DomainTag(ParseVk(vk).value.logCircuitSize, ParseVk(vk).value.pubInputsOffset))
  {
  }
}
