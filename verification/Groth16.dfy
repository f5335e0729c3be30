/**
 * The collapsed Groth16 check. Over any bilinear groups, the product of four
 * pairings is one exactly when the textbook equation holds, for any number of
 * public inputs; and the constant the contract negates with is minus one.
 */
module Groth16 {
  import opened Bytes

  /** Two groups written additively, a target group written multiplicatively, and a pairing between them. */
  datatype Groups<!G1(!new), !G2(!new), !GT(!new)> = Groups(
    zero: G1,
    add: (G1, G1) -> G1,
    scale: (G1, nat) -> G1,
    one: GT,
    times: (GT, GT) -> GT,
    pair: (G1, G2) -> GT,
    order: nat)

  // Each law is a predicate on its instances, so that it is applied where it is named and nowhere else.

  ghost predicate AddLaws<G1(!new), G2(!new), GT(!new)>(g: Groups<G1, G2, GT>, x: G1, k: nat) {
    && g.add(x, g.zero) == x
    && g.scale(x, 0) == g.zero && g.scale(x, k + 1) == g.add(g.scale(x, k), x) && g.scale(x, g.order) == g.zero
  }

  ghost predicate AddAssociates<G1(!new), G2(!new), GT(!new)>(g: Groups<G1, G2, GT>, x: G1, y: G1, z: G1) {
    g.add(g.add(x, y), z) == g.add(x, g.add(y, z)) && g.add(x, y) == g.add(y, x)
  }

  ghost predicate TimesLaws<G1(!new), G2(!new), GT(!new)>(g: Groups<G1, G2, GT>, a: GT, b: GT) {
    g.times(a, g.one) == a && g.times(a, b) == g.times(b, a)
  }

  ghost predicate TimesAssociates<G1(!new), G2(!new), GT(!new)>(g: Groups<G1, G2, GT>, a: GT, b: GT, c: GT) {
    g.times(g.times(a, b), c) == g.times(a, g.times(b, c))
  }

  ghost predicate TimesCancels<G1(!new), G2(!new), GT(!new)>(g: Groups<G1, G2, GT>, a: GT, b: GT, c: GT) {
    g.times(a, b) == g.times(a, c) ==> b == c
  }

  ghost predicate Bilinear<G1(!new), G2(!new), GT(!new)>(g: Groups<G1, G2, GT>, x: G1, y: G1, q: G2) {
    g.pair(g.add(x, y), q) == g.times(g.pair(x, q), g.pair(y, q))
  }

  ghost predicate Laws<G1(!new), G2(!new), GT(!new)>(g: Groups<G1, G2, GT>) {
    && g.order > 0
    && (forall x, k: nat :: AddLaws(g, x, k)) && (forall x, y, z :: AddAssociates(g, x, y, z))
    && (forall a, b :: TimesLaws(g, a, b)) && (forall a, b, c :: TimesAssociates(g, a, b, c))
    && (forall a, b, c :: TimesCancels(g, a, b, c)) && (forall x, y, q :: Bilinear(g, x, y, q))
  }

  // ---- Negation by scalar multiplication ----------------------------------

  /** The field's minus one, as the contract spells it. */
  const NEG_ONE_BE: seq<Byte> := [
    0x73, 0xed, 0xa7, 0x53, 0x29, 0x9d, 0x7d, 0x48, 0x33, 0x39, 0xd8, 0x08, 0x09, 0xa1, 0xd8, 0x05,
    0x53, 0xbd, 0xa4, 0x02, 0xff, 0xfe, 0x5b, 0xfe, 0xff, 0xff, 0xff, 0xff, 0x00, 0x00, 0x00, 0x00]

  /** The order of the BLS12-381 scalar field. */
  const R_ORDER: nat := 0x73eda753299d7d483339d80809a1d80553bda402fffe5bfeffffffff00000001

  lemma {:induction false} JoinBE(a: seq<Byte>, b: seq<Byte>)
    ensures FromBE(a + b) == FromBE(a) * Pow256(|b|) + FromBE(b)
  {
    if b == [] {
      assert a + b == a;
    } else {
      var init := b[..|b| - 1];
      JoinBE(a, init);
      assert (a + b)[..|a + b| - 1] == a + init;
      assert 256 * (FromBE(a) * Pow256(|init|)) == FromBE(a) * (256 * Pow256(|init|));
    }
  }

  lemma Word(b0: Byte, b1: Byte, b2: Byte, b3: Byte)
    ensures FromBE([b0, b1, b2, b3]) == ((b0 as int * 256 + b1) * 256 + b2) * 256 + b3
  {
    var w: seq<Byte> := [b0, b1, b2, b3];
    assert w[..3] == [b0, b1, b2] && w[..3][..2] == [b0, b1] && [b0, b1][..1] == [b0] && [b0][..0] == [];
    assert FromBE([b0]) == b0 as int;
    assert FromBE([b0, b1]) == 256 * FromBE([b0]) + b1;
    assert FromBE([b0, b1, b2]) == 256 * FromBE([b0, b1]) + b2;
  }

  lemma AppendDouble(a: seq<Byte>, b: seq<Byte>)
    requires |b| == 8
    ensures FromBE(a + b) == FromBE(a) * 0x1_0000_0000_0000_0000 + FromBE(b)
  {
    PowerValues();
    JoinBE(a, b);
  }

  /** Four double words make a number. */
  lemma FourDoubles(a: seq<Byte>, b: seq<Byte>, c: seq<Byte>, d: seq<Byte>, x: nat, y: nat, z: nat, w: nat)
    requires |b| == |c| == |d| == 8 && FromBE(a) == x && FromBE(b) == y && FromBE(c) == z && FromBE(d) == w
    ensures FromBE(a + b + c + d)
      == ((x * 0x1_0000_0000_0000_0000 + y) * 0x1_0000_0000_0000_0000 + z) * 0x1_0000_0000_0000_0000 + w
  {
    AppendDouble(a, b);
    AppendDouble(a + b, c);
    AppendDouble(a + b + c, d);
  }

  lemma DoubleWord(a: seq<Byte>, b: seq<Byte>)
    requires |a| == |b| == 4
    ensures FromBE(a + b) == FromBE(a) * 0x1_0000_0000 + FromBE(b)
  {
    PowerValues();
    JoinBE(a, b);
  }

  lemma TwoWords(b0: Byte, b1: Byte, b2: Byte, b3: Byte, c0: Byte, c1: Byte, c2: Byte, c3: Byte)
    ensures FromBE([b0, b1, b2, b3] + [c0, c1, c2, c3])
      == (((b0 as int * 256 + b1) * 256 + b2) * 256 + b3) * 0x1_0000_0000 + ((c0 as int * 256 + c1) * 256 + c2) * 256 + c3
  {
    Word(b0, b1, b2, b3);
    Word(c0, c1, c2, c3);
    DoubleWord([b0, b1, b2, b3], [c0, c1, c2, c3]);
  }

  const HIGH: seq<Byte> := [0x73, 0xed, 0xa7, 0x53] + [0x29, 0x9d, 0x7d, 0x48]
  const UPPER: seq<Byte> := [0x33, 0x39, 0xd8, 0x08] + [0x09, 0xa1, 0xd8, 0x05]
  const LOWER: seq<Byte> := [0x53, 0xbd, 0xa4, 0x02] + [0xff, 0xfe, 0x5b, 0xfe]
  const LOW: seq<Byte> := [0xff, 0xff, 0xff, 0xff] + [0x00, 0x00, 0x00, 0x00]

  lemma ConstantSplit()
    ensures NEG_ONE_BE == HIGH + UPPER + LOWER + LOW && |NEG_ONE_BE| == 32
  {
  }

  lemma ConstantValue()
    ensures FromBE(HIGH + UPPER + LOWER + LOW) == R_ORDER - 1
  {
    TwoWords(0x73, 0xed, 0xa7, 0x53, 0x29, 0x9d, 0x7d, 0x48);
    TwoWords(0x33, 0x39, 0xd8, 0x08, 0x09, 0xa1, 0xd8, 0x05);
    TwoWords(0x53, 0xbd, 0xa4, 0x02, 0xff, 0xfe, 0x5b, 0xfe);
    TwoWords(0xff, 0xff, 0xff, 0xff, 0x00, 0x00, 0x00, 0x00);
    FourDoubles(HIGH, UPPER, LOWER, LOW, 0x73eda753_299d7d48, 0x3339d808_09a1d805, 0x53bda402_fffe5bfe, 0xffffffff_00000000);
  }

  /** The constant decodes to the order less one. */
  lemma NegOneDecodes()
    ensures |NEG_ONE_BE| == 32 && FromBE(NEG_ONE_BE) == R_ORDER - 1
  {
    ConstantSplit();
    ConstantValue();
  }

  /** Scaling by the order less one negates. */
  lemma ScaleNegates<G1(!new), G2(!new), GT(!new)>(g: Groups<G1, G2, GT>, x: G1)
    requires Laws(g)
    ensures g.add(g.scale(x, g.order - 1), x) == g.zero
  {
    assert AddLaws(g, x, g.order - 1);
  }

  lemma PairZero<G1(!new), G2(!new), GT(!new)>(g: Groups<G1, G2, GT>, q: G2)
    requires Laws(g)
    ensures g.pair(g.zero, q) == g.one
  {
    var z := g.pair(g.zero, q);
    assert AddLaws(g, g.zero, 0) && Bilinear(g, g.zero, g.zero, q);
    assert TimesLaws(g, z, z) && TimesCancels(g, z, z, g.one);
  }

  /** The pairing of a negated point is the inverse. */
  lemma PairNegated<G1(!new), G2(!new), GT(!new)>(g: Groups<G1, G2, GT>, x: G1, q: G2)
    requires Laws(g)
    ensures g.times(g.pair(g.scale(x, g.order - 1), q), g.pair(x, q)) == g.one
  {
    ScaleNegates(g, x);
    PairZero(g, q);
    assert Bilinear(g, g.scale(x, g.order - 1), x, q);
  }

  /** Reducing a scalar by the order changes nothing, so it does not matter whether the host reduces it. */
  lemma {:induction false} ScaleReduces<G1(!new), G2(!new), GT(!new)>(g: Groups<G1, G2, GT>, x: G1, k: nat)
    requires Laws(g)
    ensures g.scale(x, k + g.order) == g.scale(x, k)
  {
    if k == 0 {
      assert AddLaws(g, x, 0);
    } else {
      ScaleReduces(g, x, k - 1);
      assert AddLaws(g, x, k - 1 + g.order) && AddLaws(g, x, k - 1);
    }
  }

  lemma {:induction false} ScaleModulo<G1(!new), G2(!new), GT(!new)>(g: Groups<G1, G2, GT>, x: G1, k: nat)
    requires Laws(g)
    ensures g.scale(x, k) == g.scale(x, k % g.order)
  {
    if k >= g.order {
      ScaleModulo(g, x, k - g.order);
      ScaleReduces(g, x, k - g.order);
      ModShift(g.order, 1, k - g.order);
    } else {
      SmallMod(g.order, k);
    }
  }

  // ---- Verification -------------------------------------------------------

  datatype Key<G1, G2> = Key(alpha: G1, beta: G2, gamma: G2, delta: G2, ic: seq<G1>)

  datatype Proof<G1, G2> = Proof(a: G1, b: G2, c: G1)

  /** A multi-scalar multiplication, as the host computes it. */
  function Msm<G1(!new), G2(!new), GT(!new)>(g: Groups<G1, G2, GT>, points: seq<G1>, scalars: seq<nat>): G1
    requires |points| == |scalars|
  {
    if points == [] then g.zero
    else
      var n := |points| - 1;
      g.add(Msm(g, points[..n], scalars[..n]), g.scale(points[n], scalars[n]))
  }

  /** The product of pairings the host tests against one. */
  function PairingProduct<G1(!new), G2(!new), GT(!new)>(g: Groups<G1, G2, GT>, xs: seq<G1>, qs: seq<G2>): GT
    requires |xs| == |qs|
  {
    if xs == [] then g.one
    else
      var n := |xs| - 1;
      g.times(PairingProduct(g, xs[..n], qs[..n]), g.pair(xs[n], qs[n]))
  }

  function Scalars(inputs: seq<Bytes32>): (r: seq<nat>)
    ensures |r| == |inputs|
  {
    seq(|inputs|, i requires 0 <= i < |inputs| => FromBE(inputs[i]))
  }

  /** The textbook definition: IC[0] and each input's multiple of its own point. */
  function InputPoint<G1(!new), G2(!new), GT(!new)>(g: Groups<G1, G2, GT>, ic: seq<G1>, inputs: seq<Bytes32>): G1
    requires |ic| == |inputs| + 1
  {
    if inputs == [] then ic[0]
    else
      var n := |inputs| - 1;
      g.add(InputPoint(g, ic[..n + 1], inputs[..n]), g.scale(ic[n + 1], FromBE(inputs[n])))
  }

  /** The textbook equation. */
  predicate Equation<G1(!new), G2(!new), GT(!new, ==)>(g: Groups<G1, G2, GT>, vk: Key<G1, G2>, proof: Proof<G1, G2>, x: G1) {
    g.pair(proof.a, proof.b)
      == g.times(g.times(g.pair(vk.alpha, vk.beta), g.pair(x, vk.gamma)), g.pair(proof.c, vk.delta))
  }

  lemma {:induction false} MsmIsInputPoint<G1(!new), G2(!new), GT(!new)>(g: Groups<G1, G2, GT>, ic: seq<G1>, inputs: seq<Bytes32>)
    requires Laws(g) && |ic| == |inputs| + 1
    ensures g.add(ic[0], Msm(g, ic[1..], Scalars(inputs))) == InputPoint(g, ic, inputs)
  {
    if inputs == [] {
      assert AddLaws(g, ic[0], 0);
    } else {
      var n := |inputs| - 1;
      MsmIsInputPoint(g, ic[..n + 1], inputs[..n]);
      assert ic[1..][..n] == ic[..n + 1][1..];
      assert Scalars(inputs)[..n] == Scalars(inputs[..n]);
      assert AddAssociates(g, ic[0], Msm(g, ic[1..][..n], Scalars(inputs)[..n]), g.scale(ic[n + 1], FromBE(inputs[n])));
    }
  }

  /** Inputs that agree modulo the order give the same point, so the verdict does not depend on who reduces them. */
  lemma {:induction false} InputsReduce<G1(!new), G2(!new), GT(!new)>(g: Groups<G1, G2, GT>, ic: seq<G1>, inputs: seq<Bytes32>,
                                                                      reduced: seq<Bytes32>)
    requires Laws(g) && |ic| == |inputs| + 1 == |reduced| + 1
    requires forall i | 0 <= i < |inputs| :: FromBE(inputs[i]) % g.order == FromBE(reduced[i]) % g.order
    ensures InputPoint(g, ic, inputs) == InputPoint(g, ic, reduced)
  {
    if inputs != [] {
      var n := |inputs| - 1;
      InputsReduce(g, ic[..n + 1], inputs[..n], reduced[..n]);
      ScaleModulo(g, ic[n + 1], FromBE(inputs[n]));
      ScaleModulo(g, ic[n + 1], FromBE(reduced[n]));
    }
  }

  lemma FourPairings<G1(!new), G2(!new), GT(!new)>(g: Groups<G1, G2, GT>, xs: seq<G1>, qs: seq<G2>)
    requires Laws(g) && |xs| == |qs| == 4
    ensures PairingProduct(g, xs, qs)
      == g.times(g.times(g.times(g.pair(xs[0], qs[0]), g.pair(xs[1], qs[1])), g.pair(xs[2], qs[2])), g.pair(xs[3], qs[3]))
  {
    assert xs[..3][..2] == xs[..2] && xs[..2][..1] == xs[..1] && xs[..1][..0] == [];
    assert qs[..3][..2] == qs[..2] && qs[..2][..1] == qs[..1] && qs[..1][..0] == [];
    assert TimesLaws(g, g.one, g.pair(xs[0], qs[0])) && TimesLaws(g, g.pair(xs[0], qs[0]), g.one);
    assert PairingProduct(g, xs[..1], qs[..1]) == g.times(g.one, g.pair(xs[0], qs[0]));
    assert PairingProduct(g, xs[..2], qs[..2]) == g.times(PairingProduct(g, xs[..1], qs[..1]), g.pair(xs[1], qs[1]));
    assert PairingProduct(g, xs[..3], qs[..3]) == g.times(PairingProduct(g, xs[..2], qs[..2]), g.pair(xs[2], qs[2]));
  }

  lemma Interchange<G1(!new), G2(!new), GT(!new)>(g: Groups<G1, G2, GT>, a: GT, b: GT, c: GT, d: GT)
    requires Laws(g)
    ensures g.times(g.times(a, b), g.times(c, d)) == g.times(g.times(a, c), g.times(b, d))
  {
    assert TimesAssociates(g, a, b, g.times(c, d)) && TimesAssociates(g, b, c, d) && TimesLaws(g, b, c);
    assert TimesAssociates(g, c, b, d) && TimesAssociates(g, a, c, g.times(b, d));
  }

  /** Two elements whose product with the same element is one are equal. */
  lemma InverseUnique<G1(!new), G2(!new), GT(!new)>(g: Groups<G1, G2, GT>, a: GT, neg: GT, pos: GT)
    requires Laws(g) && g.times(neg, pos) == g.one
    ensures g.times(a, neg) == g.one <==> a == pos
  {
    assert TimesLaws(g, a, neg) && TimesLaws(g, neg, pos) && TimesCancels(g, neg, a, pos) && TimesLaws(g, pos, neg);
  }

  /** In a commutative group: a·p·q·s is one exactly when a = p'·q'·s', for inverses p', q', s'. */
  lemma ProductIsOne<G1(!new), G2(!new), GT(!new)>(g: Groups<G1, G2, GT>, a: GT, p: GT, q: GT, s: GT, p': GT, q': GT, s': GT)
    requires Laws(g) && g.times(p, p') == g.one && g.times(q, q') == g.one && g.times(s, s') == g.one
    ensures g.times(g.times(g.times(a, p), q), s) == g.one <==> a == g.times(g.times(p', q'), s')
  {
    var neg, pos := g.times(g.times(p, q), s), g.times(g.times(p', q'), s');
    assert TimesAssociates(g, a, p, q) && TimesAssociates(g, a, g.times(p, q), s);
    assert g.times(neg, pos) == g.one by {
      Interchange(g, g.times(p, q), s, g.times(p', q'), s');
      Interchange(g, p, q, p', q');
      assert TimesLaws(g, g.one, g.one);
    }
    InverseUnique(g, a, neg, pos);
  }

  /** The collapse: negating three points turns the equation into a product equal to one. */
  lemma Collapse<G1(!new), G2(!new), GT(!new)>(g: Groups<G1, G2, GT>, vk: Key<G1, G2>, proof: Proof<G1, G2>, x: G1)
    requires Laws(g)
    ensures var neg := g.order - 1;
      var xs := [proof.a, g.scale(vk.alpha, neg), g.scale(x, neg), g.scale(proof.c, neg)];
      PairingProduct(g, xs, [proof.b, vk.beta, vk.gamma, vk.delta]) == g.one <==> Equation(g, vk, proof, x)
  {
    var neg := g.order - 1;
    var xs := [proof.a, g.scale(vk.alpha, neg), g.scale(x, neg), g.scale(proof.c, neg)];
    FourPairings(g, xs, [proof.b, vk.beta, vk.gamma, vk.delta]);
    PairNegated(g, vk.alpha, vk.beta);
    PairNegated(g, x, vk.gamma);
    PairNegated(g, proof.c, vk.delta);
    ProductIsOne(g, g.pair(proof.a, proof.b), g.pair(xs[1], vk.beta), g.pair(xs[2], vk.gamma), g.pair(xs[3], vk.delta),
                 g.pair(vk.alpha, vk.beta), g.pair(x, vk.gamma), g.pair(proof.c, vk.delta));
  }

  /** The same field elements, reduced or not. */
  predicate SameResidues(inputs: seq<Bytes32>, reduced: seq<Bytes32>) {
    |inputs| == |reduced| && forall i | 0 <= i < |inputs| :: FromBE(inputs[i]) % R_ORDER == FromBE(reduced[i]) % R_ORDER
  }

  /** The contract's check, step by step. It accepts exactly the proofs the textbook equation accepts. */
  method VerifyGroth16<G1(!new), G2(!new), GT(!new, ==)>(g: Groups<G1, G2, GT>, vk: Key<G1, G2>, proof: Proof<G1, G2>, inputs: seq<Bytes32>)
    returns (ok: bool)
    requires Laws(g) && g.order == R_ORDER
    ensures ok <==> |vk.ic| == |inputs| + 1 && Equation(g, vk, proof, InputPoint(g, vk.ic, inputs))
    ensures forall reduced: seq<Bytes32> | SameResidues(inputs, reduced) :: ok <==>
      |vk.ic| == |reduced| + 1 && Equation(g, vk, proof, InputPoint(g, vk.ic, reduced))
  {
    forall reduced: seq<Bytes32> | SameResidues(inputs, reduced) && |vk.ic| == |inputs| + 1
      ensures InputPoint(g, vk.ic, inputs) == InputPoint(g, vk.ic, reduced)
    {
      InputsReduce(g, vk.ic, inputs, reduced);
    }
    if |vk.ic| != |inputs| + 1 {
      return false;
    }
    var vkX := vk.ic[0];
    if inputs != [] {
      var points: seq<G1>, scalars: seq<nat> := [], [];
      for i := 0 to |inputs|
        invariant points == vk.ic[1..i + 1] && scalars == Scalars(inputs)[..i]
      {
        points := points + [vk.ic[i + 1]];
        scalars := scalars + [FromBE(inputs[i])];
      }
      assert points == vk.ic[1..] && scalars == Scalars(inputs);
      vkX := g.add(vkX, Msm(g, points, scalars));
      MsmIsInputPoint(g, vk.ic, inputs);
    }
    assert vkX == InputPoint(g, vk.ic, inputs);
    NegOneDecodes();
    var negOne := FromBE(NEG_ONE_BE);
    var negAlpha, negVkX, negC := g.scale(vk.alpha, negOne), g.scale(vkX, negOne), g.scale(proof.c, negOne);
    Collapse(g, vk, proof, vkX);
    ok := PairingProduct(g, [proof.a, negAlpha, negVkX, negC], [proof.b, vk.beta, vk.gamma, vk.delta]) == g.one;
  }

  // ---- The laws can be met ------------------------------------------------

  lemma ModShift(n: nat, k: nat, r: nat)
    requires n > 0
    ensures (n * k + r) % n == r % n
  {
    var q := r / n;
    assert n * k + r == n * (k + q) + r % n by {
      assert r == n * q + r % n;
      assert n * (k + q) == n * k + n * q;
    }
    ModUnique(n, k + q, r % n, n * k + r);
  }

  lemma SmallMod(n: nat, r: nat)
    requires r < n
    ensures r % n == r
  {
    ModUnique(n, 0, r, r);
  }

  /** Reducing a summand first changes nothing. */
  lemma ModAdd(n: nat, a: nat, b: nat)
    requires n > 0
    ensures (a % n + b) % n == (a + b) % n
  {
    ModShift(n, a / n, a % n + b);
    assert a + b == n * (a / n) + (a % n + b);
  }

  /** Reducing a factor first changes nothing. */
  lemma ModMul(n: nat, a: nat, q: nat)
    requires n > 0
    ensures ((a % n) * q) % n == (a * q) % n
  {
    ModShift(n, a / n * q, (a % n) * q);
    calc {
      a * q;
      == (n * (a / n) + a % n) * q;
      == n * (a / n) * q + (a % n) * q;
      == n * (a / n * q) + (a % n) * q;
    }
  }

  lemma ModCancels(n: nat, a: nat, b: nat, c: nat)
    requires a < n && b < n && c < n && (a + b) % n == (a + c) % n
    ensures b == c
  {
    Wrapped(n, a + b);
    Wrapped(n, a + c);
  }

  lemma Wrapped(n: nat, x: nat)
    requires x < 2 * n
    ensures x % n == if x < n then x else x - n
  {
    if x >= n {
      ModUnique(n, 1, x - n, x);
    } else {
      SmallMod(n, x);
    }
  }

  type Residue = x: nat | x < R_ORDER

  function Plus(x: Residue, y: Residue): Residue {
    (x + y) % R_ORDER
  }

  function Scaled(x: Residue, k: nat): Residue {
    (x * k) % R_ORDER
  }

  function Product(x: Residue, y: Residue): Residue {
    (x * y) % R_ORDER
  }

  /** The residues modulo the order, with their product as the pairing. */
  function Residues(): Groups<Residue, Residue, Residue> {
    Groups(0, Plus, Scaled, 0, Plus, Product, R_ORDER)
  }

  lemma ScaleStep(n: nat, x: nat, k: nat)
    requires x < n
    ensures (x * (k + 1)) % n == ((x * k) % n + x) % n && (x * n) % n == 0
  {
    ModAdd(n, x * k, x);
    assert x * (k + 1) == x * k + x;
    ModShift(n, x, 0);
    assert n * x + 0 == x * n;
    SmallMod(n, 0);
  }

  lemma Distributes(n: nat, x: nat, y: nat, q: nat)
    requires n > 0
    ensures ((x + y) % n * q) % n == ((x * q) % n + (y * q) % n) % n
  {
    ModMul(n, x + y, q);
    assert (x + y) * q == x * q + y * q;
    ModAdd(n, x * q, y * q);
    ModAdd(n, y * q, (x * q) % n);
  }

  /** A sum of two residues, reduced by at most one subtraction. */
  function Wrap(n: nat, x: nat): nat {
    if x < n then x else x - n
  }

  lemma PlusWraps(x: Residue, y: Residue)
    ensures Plus(x, y) == Wrap(R_ORDER, x + y)
  {
    Wrapped(R_ORDER, x + y);
  }

  lemma WrapAssociates(n: nat, x: nat, y: nat, z: nat)
    requires x < n && y < n && z < n
    ensures Wrap(n, Wrap(n, x + y) + z) == Wrap(n, x + Wrap(n, y + z))
  {
  }

  /** The laws can be met, at the order the contract's constant is made for. */
  lemma LawsAreConsistent()
    ensures Laws(Residues()) && Residues().order == R_ORDER
  {
    var g := Residues();
    forall x: Residue, k: nat ensures AddLaws(g, x, k) {
      ResidueScales(x, k);
    }
    forall x: Residue, y: Residue, z: Residue
      ensures AddAssociates(g, x, y, z) && TimesAssociates(g, x, y, z) && TimesCancels(g, x, y, z)
    {
      ResidueSums(x, y, z);
    }
    forall a: Residue, b: Residue ensures TimesLaws(g, a, b) {
      ResidueZero(a);
    }
    forall x: Residue, y: Residue, q: Residue ensures Bilinear(g, x, y, q) {
      Distributes(R_ORDER, x, y, q);
    }
  }

  lemma ResidueScales(x: Residue, k: nat)
    ensures Plus(x, 0) == x && Scaled(x, 0) == 0 && Scaled(x, k + 1) == Plus(Scaled(x, k), x) && Scaled(x, R_ORDER) == 0
  {
    ResidueZero(x);
    ScaleStep(R_ORDER, x, k);
    SmallMod(R_ORDER, 0);
  }

  lemma ResidueZero(x: Residue)
    ensures Plus(x, 0) == x
  {
    SmallMod(R_ORDER, x);
  }

  lemma ResidueSums(x: Residue, y: Residue, z: Residue)
    ensures Plus(Plus(x, y), z) == Plus(x, Plus(y, z))
    ensures Plus(x, y) == Plus(x, z) ==> y == z
  {
    PlusWraps(x, y);
    PlusWraps(Plus(x, y), z);
    PlusWraps(y, z);
    PlusWraps(x, Plus(y, z));
    WrapAssociates(R_ORDER, x, y, z);
    if Plus(x, y) == Plus(x, z) {
      ModCancels(R_ORDER, x, y, z);
    }
  }
}
