/**
 * The client's prover for the binding check, and its local pre-check. What the
 * prover returns is accepted by the contract, and the pre-check gives the
 * contract's own verdict on every proof of admissible length.
 */
module BindingProver {
  import opened Base
  import opened Bytes
  import opened PolicyVerifier
  import E = Encoders
  import S = Signals

  const CIRCUIT_SIZE: nat := 16_384
  const LOG_CIRCUIT_SIZE: nat := 14
  const PUB_INPUTS_OFFSET: nat := 1
  const PROOF_LEN: nat := 512
  const HEADER_LEN: nat := 224
  const MAX_COUNTER: nat := 1_000_000

  const CIRCUIT_DOMAIN_SEP := "clevercon-spend-policy-v1"

  datatype ProverError = BadInput(error: E.EncodeError) | NoOpening

  /** The free parameters of a proof; those left out get a placeholder. */
  datatype Evaluations = Evaluations(grandProduct: Option<Bytes32>, selectors: Option<Bytes32>, shifted: Option<Bytes32>)

  datatype BindingProof = BindingProof(proof: seq<Byte>, piHash: Bytes32)

  // ---- The client's own bytes ---------------------------------------------

  function Joined(parts: seq<seq<Byte>>): seq<Byte> {
    if parts == [] then [] else parts[0] + Joined(parts[1..])
  }

  /** The client hashes part after part. */
  function Sha256(hash: Hash, parts: seq<seq<Byte>>): Bytes32 {
    hash(Joined(parts))
  }

  /** A 32-bit word, byte by byte. */
  function U32be(n: nat): seq<Byte> {
    [n / 0x100_0000 % 256, n / 0x1_0000 % 256, n / 0x100 % 256, n % 256]
  }

  function Ascii(text: string): seq<Byte> {
    seq(|text|, i requires 0 <= i < |text| => text[i] as int % 256)
  }

  function CircuitId(hash: Hash): Bytes32 {
    Sha256(hash, [Ascii(CIRCUIT_DOMAIN_SEP)])
  }

  function OrPlaceholder(hash: Hash, given: Option<Bytes32>, placeholder: string): Bytes32 {
    if given.Some? then given.value else Sha256(hash, [Ascii(placeholder)])
  }

  function Tag(): seq<Byte> {
    U32be(LOG_CIRCUIT_SIZE) + U32be(PUB_INPUTS_OFFSET)
  }

  /** The opening value for a counter: 28 zero bytes, then the counter. */
  function Opening(c: nat): (o: Bytes32) {
    Zeros(28) + U32be(c)
  }

  lemma U32beIsBigEndian(n: nat)
    ensures U32be(n) == ToBE(n, 4)
  {
    assert ToBE(n, 4) == ToBE(n / 256, 3) + [n % 256];
    assert ToBE(n / 256, 3) == ToBE(n / 256 / 256, 2) + [n / 256 % 256];
    assert ToBE(n / 256 / 256, 2) == ToBE(n / 256 / 256 / 256, 1) + [n / 256 / 256 % 256];
    assert ToBE(n / 256 / 256 / 256, 1) == ToBE(n / 256 / 256 / 256 / 256, 0) + [n / 256 / 256 / 256 % 256];
    ShiftTwice(n);
  }

  lemma ShiftTwice(n: nat)
    ensures n / 256 / 256 == n / 0x1_0000 && n / 256 / 256 / 256 == n / 0x100_0000
  {
  }

  /** The two domain words are the contract's tag. */
  lemma TagIsDomainTag()
    ensures Tag() == DomainTag(LOG_CIRCUIT_SIZE, PUB_INPUTS_OFFSET)
  {
    U32beIsBigEndian(LOG_CIRCUIT_SIZE);
    U32beIsBigEndian(PUB_INPUTS_OFFSET);
  }

  lemma JoinedTwo(a: seq<Byte>, b: seq<Byte>)
    ensures Joined([a, b]) == a + b
  {
    assert [a, b][1..] == [b] && [b][1..] == [];
    assert Joined([b]) == b + Joined([]);
  }

  lemma JoinedThree(a: seq<Byte>, b: seq<Byte>, c: seq<Byte>)
    ensures Joined([a, b, c]) == a + b + c
  {
    assert [a, b, c][1..] == [b, c];
    JoinedTwo(b, c);
    assert a + (b + c) == a + b + c;
  }

  lemma JoinedFour(a: seq<Byte>, b: seq<Byte>, c: seq<Byte>, d: seq<Byte>)
    ensures Joined([a, b, c, d]) == a + b + c + d
  {
    assert [a, b, c, d][1..] == [b, c, d];
    JoinedThree(b, c, d);
    assert a + (b + c + d) == a + b + c + d;
  }

  /** The client's three transcript hashes are the contract's. */
  lemma TranscriptsAgree(hash: Hash, circuitId: Bytes32, piHash: Bytes32, selectors: Bytes32, grandProduct: Bytes32,
                         opening: Bytes32, shifted: Bytes32)
    ensures var zeta := Sha256(hash, [circuitId, piHash, selectors]);
      && zeta == Challenge(hash, circuitId, piHash, selectors)
      && Sha256(hash, [zeta, grandProduct]) == LinearisationCheck(hash, zeta, grandProduct)
      && (Sha256(hash, [zeta, opening, shifted, Tag()])[0] == 0
          <==> OpeningCloses(hash, zeta, opening, shifted, DomainTag(LOG_CIRCUIT_SIZE, PUB_INPUTS_OFFSET)))
  {
    JoinedThree(circuitId, piHash, selectors);
    var zeta := Sha256(hash, [circuitId, piHash, selectors]);
    JoinedTwo(zeta, grandProduct);
    JoinedFour(zeta, opening, shifted, Tag());
    TagIsDomainTag();
  }

  // ---- Keys ---------------------------------------------------------------

  /** A verifying key this prover is made for. */
  predicate FitsKey(vk: seq<Byte>) {
    ParseVk(vk) == Ok(ParsedVk(LOG_CIRCUIT_SIZE, NUM_PUBLIC_INPUTS, PUB_INPUTS_OFFSET))
  }

  lemma CircuitSizeLog()
    ensures CIRCUIT_SIZE == Pow2(LOG_CIRCUIT_SIZE)
  {
    assert Pow2(8) == 256 * Pow2(0);
    assert Pow2(14) == 64 * Pow2(8);
  }

  /** Exactly the keys of the right size, with four inputs at offset one. */
  lemma KeyFits(vk: seq<Byte>)
    requires MIN_VK_LEN <= |vk| <= MAX_VK_LEN
    ensures FitsKey(vk) <==>
      FromBE(vk[0..4]) == CIRCUIT_SIZE && FromBE(vk[4..8]) == NUM_PUBLIC_INPUTS && FromBE(vk[8..12]) == PUB_INPUTS_OFFSET
  {
    ParseVkExact(vk);
    CircuitSizeLog();
    if FromBE(vk[0..4]) == CIRCUIT_SIZE && FromBE(vk[4..8]) == NUM_PUBLIC_INPUTS {
      BitLengthOfPower(LOG_CIRCUIT_SIZE);
      BitLengthOfPower(ParseVk(vk).value.logCircuitSize);
    }
    ReadU32Value(vk, 4);
  }

  // ---- The prover ---------------------------------------------------------

  predicate ClosesAt(hash: Hash, zeta: Bytes32, shifted: Bytes32, c: nat) {
    Sha256(hash, [zeta, Opening(c), shifted, Tag()])[0] == 0
  }

  /** Walk the counter until the opening check closes. */
  method FindOpening(hash: Hash, zeta: Bytes32, shifted: Bytes32) returns (r: Option<Bytes32>)
    ensures r.None? <==> forall c | 0 <= c < MAX_COUNTER :: !ClosesAt(hash, zeta, shifted, c)
    ensures r.Some? ==> exists c ::
      && 0 <= c < MAX_COUNTER && ClosesAt(hash, zeta, shifted, c) && r.value == Opening(c)
      && forall d | 0 <= d < c :: !ClosesAt(hash, zeta, shifted, d)
  {
    var opening := new Byte[32](_ => 0);
    assert opening[..28] == Zeros(28);
    for c := 0 to MAX_COUNTER
      invariant opening[..28] == Zeros(28)
      invariant forall d | 0 <= d < c :: !ClosesAt(hash, zeta, shifted, d)
    {
      CopyInto(opening, 28, U32be(c));
      assert opening[..] == Opening(c);
      if Sha256(hash, [zeta, opening[..], shifted, Tag()])[0] == 0 {
        assert ClosesAt(hash, zeta, shifted, c);
        return Some(opening[..]);
      }
      assert opening[..28] == Opening(c)[..28];
    }
    return None;
  }

  /** The proof's bytes: seven fields, then zeros. */
  function ProofBytes(p: ParsedProof): (proof: seq<Byte>)
    ensures |proof| == PROOF_LEN
  {
    p.piCommitment + p.circuitId + p.linearisationEval + p.grandProductEval + p.selectorEvalsHash + p.openingEval
    + p.shiftedOpeningEval + Zeros(288)
  }

  /** Writing the fields and reading the header are inverse. */
  lemma HeaderOfProofBytes(p: ParsedProof)
    ensures Header(ProofBytes(p)) == p
  {
  }

  /** Copy one field behind those already in the buffer. */
  method CopyField(buffer: array<Byte>, offset: nat, field: Bytes32, ghost done: seq<Byte>)
    requires |done| == offset && offset + 32 <= buffer.Length
    requires buffer[..offset] == done && buffer[offset..] == Zeros(buffer.Length - offset)
    modifies buffer
    ensures buffer[..offset + 32] == done + field && buffer[offset + 32..] == Zeros(buffer.Length - offset - 32)
  {
    CopyInto(buffer, offset, field);
    assert buffer[..offset + 32] == done + field;
    assert buffer[offset + 32..] == old(buffer[offset..])[32..];
  }

  /** Copy the fields into a zeroed buffer. */
  method WriteProof(p: ParsedProof) returns (proof: seq<Byte>)
    ensures proof == ProofBytes(p)
  {
    var buffer := new Byte[512](_ => 0);
    assert buffer[0..] == Zeros(512);
    CopyField(buffer, 0, p.piCommitment, []);
    CopyField(buffer, 32, p.circuitId, [] + p.piCommitment);
    CopyField(buffer, 64, p.linearisationEval, [] + p.piCommitment + p.circuitId);
    ghost var half := [] + p.piCommitment + p.circuitId + p.linearisationEval;
    CopyField(buffer, 96, p.grandProductEval, half);
    CopyField(buffer, 128, p.selectorEvalsHash, half + p.grandProductEval);
    CopyField(buffer, 160, p.openingEval, half + p.grandProductEval + p.selectorEvalsHash);
    CopyField(buffer, 192, p.shiftedOpeningEval, half + p.grandProductEval + p.selectorEvalsHash + p.openingEval);
    assert [] + p.piCommitment == p.piCommitment;
    proof := buffer[..224] + buffer[224..];
    assert proof == buffer[..];
  }

  /** The client's public-input hash; on the contract's amounts it is the contract's. */
  method EncodePublicInputs(hash: Hash, commitment: seq<Byte>, payeeXdr: seq<Byte>, amount: int, nullifier: seq<Byte>)
    returns (r: Result<Bytes32, E.EncodeError>)
    ensures r.Ok? <==> |commitment| == 32 && 0 < amount < E.TWO128 && |nullifier| == 32
    ensures r.Ok? ==> r.value == hash(commitment + hash(payeeXdr) + S.Scalar128(amount) + nullifier)
    ensures r.Ok? && amount <= I128_MAX ==> r.value == hash(PublicInputs(commitment, hash(payeeXdr), amount, nullifier))
  {
    if |commitment| != 32 {
      return Err(E.Not32Bytes);
    }
    var payeeHash := hash(payeeXdr);
    var scalar := E.AmountScalar(amount);
    if scalar.Err? {
      return Err(scalar.error);
    }
    if |nullifier| != 32 {
      return Err(E.Not32Bytes);
    }
    var vector := Joined([commitment, payeeHash, scalar.value, nullifier]);
    JoinedFour(commitment, payeeHash, scalar.value, nullifier);
    return Ok(hash(vector));
  }

  /**
   * The round trip. Whatever the prover returns, the contract accepts under
   * every key it fits, for the release it was built for; so does the pre-check.
   * It gives up exactly when no counter closes the opening check.
   */
  method BuildBindingProof(hash: Hash, commitment: seq<Byte>, payeeXdr: seq<Byte>, amount: int, nullifier: seq<Byte>,
                           ev: Evaluations) returns (r: Result<BindingProof, ProverError>)
    ensures r.Ok? || r == Err(NoOpening) ==> |commitment| == 32 && 0 < amount < E.TWO128 && |nullifier| == 32
    ensures r.Ok? ==> VerifyBindingProofLocally(hash, r.value.proof, r.value.piHash)
    ensures r.Ok? ==> forall vk | FitsKey(vk) :: VerifyProof(hash, vk, r.value.piHash, r.value.proof) == Ok(true)
    ensures r.Ok? && amount <= I128_MAX ==> forall vk | FitsKey(vk) ::
      VerifyPolicy(hash, Some(vk), commitment, payeeXdr, amount, nullifier, r.value.proof)
    ensures r.Ok? || r == Err(NoOpening) ==>
      (r.Ok? <==> !NoneCloses(hash, hash(commitment + hash(payeeXdr) + S.Scalar128(amount) + nullifier), ev))
  {
    var encoded := EncodePublicInputs(hash, commitment, payeeXdr, amount, nullifier);
    if encoded.Err? {
      return Err(BadInput(encoded.error));
    }
    var piHash := encoded.value;
    var cid := CircuitId(hash);
    var selectors := OrPlaceholder(hash, ev.selectors, "sel-evals-placeholder");
    var zeta := Sha256(hash, [cid, piHash, selectors]);
    var grandProduct := OrPlaceholder(hash, ev.grandProduct, "gp-eval-placeholder");
    var linearisation := Sha256(hash, [zeta, grandProduct]);
    var shifted := OrPlaceholder(hash, ev.shifted, "shifted-eval-placeholder");
    var opening := FindOpening(hash, zeta, shifted);
    if opening.None? {
      assert NoneCloses(hash, piHash, ev);
      return Err(NoOpening);
    }
    var fields := ParsedProof(piHash, cid, linearisation, grandProduct, selectors, opening.value, shifted);
    var proof := WriteProof(fields);
    TranscriptsAgree(hash, cid, piHash, selectors, grandProduct, opening.value, shifted);
    forall vk | FitsKey(vk) ensures VerifyProof(hash, vk, piHash, proof) == Ok(true) {
      WrittenProofAccepted(hash, vk, fields, piHash);
    }
    LocalCheckOfWritten(hash, fields, piHash);
    return Ok(BindingProof(proof, piHash));
  }

  /** No counter within reach closes the opening check of this release. */
  predicate NoneCloses(hash: Hash, piHash: Bytes32, ev: Evaluations) {
    var zeta := Sha256(hash, [CircuitId(hash), piHash, OrPlaceholder(hash, ev.selectors, "sel-evals-placeholder")]);
    forall c | 0 <= c < MAX_COUNTER :: !ClosesAt(hash, zeta, OrPlaceholder(hash, ev.shifted, "shifted-eval-placeholder"), c)
  }

  /** The bytes of consistent fields are accepted under every fitting key. */
  lemma WrittenProofAccepted(hash: Hash, vk: seq<Byte>, p: ParsedProof, piHash: Bytes32)
    requires FitsKey(vk) && Consistent(hash, p, piHash, DomainTag(LOG_CIRCUIT_SIZE, PUB_INPUTS_OFFSET))
    ensures VerifyProof(hash, vk, piHash, ProofBytes(p)) == Ok(true)
  {
    HeaderOfProofBytes(p);
  }

  /** A proof accepted for two different releases exhibits a hash collision. */
  lemma ProofBindsRelease(hash: Hash, vk: seq<Byte>, proof: seq<Byte>, c: Bytes32, xdr: seq<Byte>, a: I128, n: Bytes32,
                          c': Bytes32, xdr': seq<Byte>, a': I128, n': Bytes32)
    requires VerifyPolicy(hash, Some(vk), c, xdr, a, n, proof) && VerifyPolicy(hash, Some(vk), c', xdr', a', n', proof)
    ensures var v, v' := PublicInputs(c, hash(xdr), a, n), PublicInputs(c', hash(xdr'), a', n');
      || (c == c' && xdr == xdr' && a == a' && n == n')
      || (v != v' && hash(v) == hash(v')) || (xdr != xdr' && hash(xdr) == hash(xdr'))
  {
    VerifyPolicyIff(hash, vk, c, xdr, a, n, proof);
    VerifyPolicyIff(hash, vk, c', xdr', a', n', proof);
    var v, v' := PublicInputs(c, hash(xdr), a, n), PublicInputs(c', hash(xdr'), a', n');
    assert v[0..32] == c && v[32..64] == hash(xdr) && v[64..96] == S.AmountScalar(a) && v[96..128] == n;
    assert v'[0..32] == c' && v'[32..64] == hash(xdr') && v'[64..96] == S.AmountScalar(a') && v'[96..128] == n';
    S.AmountScalarValue(a);
    S.AmountScalarValue(a');
  }

  // ---- The client's pre-check ---------------------------------------------

  /** The pre-check, as the client does it: its own slices, hashes and words, in its order. */
  function VerifyBindingProofLocally(hash: Hash, proof: seq<Byte>, piHash: seq<Byte>): bool {
    if |proof| < HEADER_LEN then false
    else
      var piCommitment, cid, linearisationEval := proof[0..32], proof[32..64], proof[64..96];
      var grandProductEval, selectorEvalsHash := proof[96..128], proof[128..160];
      var openingEval, shiftedOpeningEval := proof[160..192], proof[192..224];
      if piCommitment != piHash then false
      else
        var zeta := Sha256(hash, [cid, piHash, selectorEvalsHash]);
        if Sha256(hash, [zeta, grandProductEval]) != linearisationEval then false
        else
          var domainTag := U32be(LOG_CIRCUIT_SIZE) + U32be(PUB_INPUTS_OFFSET);
          Sha256(hash, [zeta, openingEval, shiftedOpeningEval, domainTag])[0] == 0
  }

  /** The client's checks of a header are the contract's. */
  lemma LocalCheckOfHeader(hash: Hash, proof: seq<Byte>, piHash: Bytes32)
    requires |proof| >= HEADER_LEN
    ensures VerifyBindingProofLocally(hash, proof, piHash)
      <==> Consistent(hash, Header(proof), piHash, DomainTag(LOG_CIRCUIT_SIZE, PUB_INPUTS_OFFSET))
  {
    var p := Header(proof);
    TranscriptsAgree(hash, p.circuitId, piHash, p.selectorEvalsHash, p.grandProductEval, p.openingEval, p.shiftedOpeningEval);
  }

  lemma LocalCheckOfWritten(hash: Hash, p: ParsedProof, piHash: Bytes32)
    requires Consistent(hash, p, piHash, DomainTag(LOG_CIRCUIT_SIZE, PUB_INPUTS_OFFSET))
    ensures VerifyBindingProofLocally(hash, ProofBytes(p), piHash)
  {
    HeaderOfProofBytes(p);
    LocalCheckOfHeader(hash, ProofBytes(p), piHash);
  }

  /** The pre-check is the contract's verdict, except on proofs the contract finds too short or too long. */
  lemma LocalCheckIsVerdict(hash: Hash, vk: seq<Byte>, proof: seq<Byte>, piHash: Bytes32)
    requires FitsKey(vk)
    ensures MIN_PROOF_LEN <= |proof| <= MAX_PROOF_LEN ==>
      VerifyProof(hash, vk, piHash, proof) == Ok(VerifyBindingProofLocally(hash, proof, piHash))
    ensures VerifyProof(hash, vk, piHash, proof) == Ok(true) <==>
      VerifyBindingProofLocally(hash, proof, piHash) && MIN_PROOF_LEN <= |proof| <= MAX_PROOF_LEN
  {
    if MIN_PROOF_LEN <= |proof| <= MAX_PROOF_LEN {
      LocalCheckOfHeader(hash, proof, piHash);
    }
  }
}
