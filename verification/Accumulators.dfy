/**
 * The private lane's cap across tasks, users and entry points: a commitment's
 * accumulator is the fold of every accepted call under it, so whatever bound
 * the verifier enforces on one call holds for all of them together.
 */
module Accumulators {
  import opened Base
  import opened Bytes
  import opened VaultState
  import opened Vault
  import opened OpShapes
  import opened Execution
  import opened LaneSteps
  import S = Signals

  // ---- The history of a commitment ----------------------------------------

  predicate RollsUnder(e: LaneEntry, c: Bytes32) {
    e.Rolled? && e.commitment == c
  }

  /** The accumulator as the history tells it. */
  function Replayed(log: seq<LaneEntry>, c: Bytes32): S.Accumulator {
    if log == [] then S.FreshAccumulator
    else
      var acc := Replayed(log[..|log| - 1], c);
      var e := log[|log| - 1];
      if RollsUnder(e, c) then S.Roll(acc, e.total, e.m, e.resetR2, e.resetR7, e.validAfter) else acc
  }

  /** What has been spent under a commitment since its last proven spend reset, counting that call. */
  function SpentSinceReset(log: seq<LaneEntry>, c: Bytes32): nat {
    if log == [] then 0
    else
      var e := log[|log| - 1];
      var before := SpentSinceReset(log[..|log| - 1], c);
      if !RollsUnder(e, c) then before else if e.resetR2 then e.total else before + e.total
  }

  /** How many releases it has had since its last proven count reset. */
  function CountSinceReset(log: seq<LaneEntry>, c: Bytes32): nat {
    if log == [] then 0
    else
      var e := log[|log| - 1];
      var before := CountSinceReset(log[..|log| - 1], c);
      if !RollsUnder(e, c) then before else if e.resetR7 then e.m else before + e.m
  }

  /** When the window of the last proven spend reset began; zero if there was none. */
  function SpentAnchor(log: seq<LaneEntry>, c: Bytes32): U64 {
    if log == [] then 0
    else
      var e := log[|log| - 1];
      if RollsUnder(e, c) && e.resetR2 then e.validAfter else SpentAnchor(log[..|log| - 1], c)
  }

  /** When the window of the last proven count reset began; zero if there was none. */
  function CountAnchor(log: seq<LaneEntry>, c: Bytes32): U64 {
    if log == [] then 0
    else
      var e := log[|log| - 1];
      if RollsUnder(e, c) && e.resetR7 then e.validAfter else CountAnchor(log[..|log| - 1], c)
  }

  function AtMost(x: nat, max: nat): (r: nat)
    ensures r <= max
  {
    if x <= max then x else max
  }

  /** Where a commitment stands: since when, how much and how often, each since its own last reset and up to its width. */
  function Standing(log: seq<LaneEntry>, c: Bytes32): S.Accumulator {
    S.Accumulator(SpentAnchor(log, c), AtMost(SpentSinceReset(log, c), U128_MAX),
                  CountAnchor(log, c), AtMost(CountSinceReset(log, c), U64_MAX))
  }

  /** The replay of the accepted calls is where the commitment stands: all four values. */
  lemma {:induction false} ReplayedSums(log: seq<LaneEntry>, c: Bytes32)
    ensures Replayed(log, c) == Standing(log, c)
  {
    if log != [] {
      ReplayedSums(log[..|log| - 1], c);
    }
  }

  /** In every reachable state each stored accumulator is where its commitment stands. */
  lemma AccumulatorsExact(h: Host, s0: State, steps: seq<Step>, c: Bytes32)
    requires Initial(h, s0)
    ensures var l := Run(h, s0, steps).s.lanes; AccumOf(l, c) == Standing(l.log, c)
  {
    var anything := Limits(_ => U128_MAX, _ => U64_MAX);
    CapHolds(h, s0, steps, anything, c);
    ReplayedSums(Run(h, s0, steps).s.lanes.log, c);
  }

  lemma ReplayedOne(log: seq<LaneEntry>, e: LaneEntry, c: Bytes32)
    ensures Replayed(log + [e], c) ==
      if RollsUnder(e, c) then S.Roll(Replayed(log, c), e.total, e.m, e.resetR2, e.resetR7, e.validAfter)
      else Replayed(log, c)
  {
    assert (log + [e])[..|log|] == log;
  }

  lemma {:induction false} ReplayedBeside(log: seq<LaneEntry>, more: seq<LaneEntry>, c: Bytes32)
    requires forall i | 0 <= i < |more| :: !RollsUnder(more[i], c)
    ensures Replayed(log + more, c) == Replayed(log, c)
  {
    if more == [] {
      assert log + more == log;
    } else {
      var init := more[..|more| - 1];
      ReplayedBeside(log, init, c);
      ReplayedOne(log + init, more[|more| - 1], c);
      assert log + more == (log + init) + [more[|more| - 1]];
    }
  }

  // ---- The invariant ------------------------------------------------------

  /** What the policy behind each commitment allows within a window. */
  datatype Limits = Limits(spend: Bytes32 -> nat, count: Bytes32 -> nat)

  predicate Within(acc: S.Accumulator, limits: Limits, c: Bytes32) {
    acc.windowSpent <= limits.spend(c) && acc.windowCount <= limits.count(c)
  }

  /** The verifier accepts a statement only if the accumulator it rolls to is within the limits. */
  ghost predicate Sound(h: Host, limits: Limits) {
    forall c: Bytes32, q: S.Batch, acc: S.Accumulator | S.WellFormed(q) && S.BatchSum(q) <= I128_MAX && Accepts(h, c, q, acc) ::
      Within(RollOf(acc, q), limits, c)
  }

  function RollOf(acc: S.Accumulator, q: S.Batch): S.Accumulator
    requires S.WellFormed(q) && S.BatchSum(q) <= I128_MAX
  {
    S.Roll(acc, S.BatchSum(q), |q.payees|, q.resetR2, q.resetR7, q.validAfter)
  }

  ghost predicate Matches(accums: map<Bytes32, S.Accumulator>, log: seq<LaneEntry>, limits: Limits, c: Bytes32) {
    AccumIn(accums, c) == Replayed(log, c) && Within(AccumIn(accums, c), limits, c)
  }

  ghost predicate AccumsMatch(accums: map<Bytes32, S.Accumulator>, log: seq<LaneEntry>, limits: Limits) {
    forall c :: Matches(accums, log, limits, c)
  }

  ghost function Caps(limits: Limits): LaneProperty {
    (l: Lanes, now: U64, ledger: nat) => AccumsMatch(l.accums, l.log, limits)
  }

  lemma MatchBeside(l: Lanes, log1: seq<LaneEntry>, more: seq<LaneEntry>, limits: Limits)
    requires AccumsMatch(l.accums, l.log, limits) && log1 == l.log + more
    requires forall i | 0 <= i < |more| :: !more[i].Rolled?
    ensures AccumsMatch(l.accums, log1, limits)
  {
    forall c ensures Matches(l.accums, log1, limits, c) {
      assert Matches(l.accums, l.log, limits, c);
      ReplayedBeside(l.log, more, c);
    }
  }

  lemma RollKeeps(accums: map<Bytes32, S.Accumulator>, log: seq<LaneEntry>, c: Bytes32, q: S.Batch, limits: Limits)
    requires AccumsMatch(accums, log, limits) && S.WellFormed(q) && S.BatchSum(q) <= I128_MAX
    requires Within(RollOf(AccumIn(accums, c), q), limits, c)
    ensures AccumsMatch(accums[c := RollOf(AccumIn(accums, c), q)], log + [RolledBy(c, q)], limits)
  {
    var accums1, log1 := accums[c := RollOf(AccumIn(accums, c), q)], log + [RolledBy(c, q)];
    forall d ensures Matches(accums1, log1, limits, d) {
      assert Matches(accums, log, limits, d);
      ReplayedOne(log, RolledBy(c, q), d);
    }
  }

  lemma OneProofKeeps(h: Host, l: Lanes, l1: Lanes, now: U64, ledger: nat, c: Bytes32, q: S.Batch, limits: Limits)
    requires Sound(h, limits) && AccumsMatch(l.accums, l.log, limits) && OneProof(h, l, l1, now, ledger, c, q)
    ensures AccumsMatch(l1.accums, l1.log, limits)
  {
    var consumed := Consumed(q.nullifiers, [], q.validBefore, now, ledger);
    MatchBeside(l, l.log + [consumed], [consumed], limits);
    RollKeeps(l.accums, l.log + [consumed], c, q, limits);
  }

  /** Under one commitment the two proofs roll once; under two, each rolls its own. */
  lemma TwoProofsKeep(h: Host, l: Lanes, l1: Lanes, now: U64, ledger: nat, c: Bytes32, q: S.Batch, gc: Bytes32,
                      g: GlobalProof, limits: Limits)
    requires Sound(h, limits) && AccumsMatch(l.accums, l.log, limits) && TwoProofs(h, l, l1, now, ledger, c, q, gc, g)
    ensures AccumsMatch(l1.accums, l1.log, limits)
  {
    var q2 := UnderGlobal(q, g);
    var log := l.log + [Consumed(q.nullifiers, q2.nullifiers, q.validBefore, now, ledger)];
    assert Within(RollOf(AccumIn(l.accums, c), q), limits, c);
    assert Within(RollOf(AccumIn(l.accums, gc), q2), limits, gc);
    MatchBeside(l, log, [Consumed(q.nullifiers, q2.nullifiers, q.validBefore, now, ledger)], limits);
    BothRollsKeep(l.accums, log, c, q, gc, q2, limits);
  }

  lemma BothRollsKeep(accums: map<Bytes32, S.Accumulator>, log: seq<LaneEntry>, c: Bytes32, q: S.Batch, d: Bytes32,
                      r: S.Batch, limits: Limits)
    requires AccumsMatch(accums, log, limits)
    requires S.WellFormed(q) && S.BatchSum(q) <= I128_MAX && Within(RollOf(AccumIn(accums, c), q), limits, c)
    requires S.WellFormed(r) && S.BatchSum(r) <= I128_MAX && Within(RollOf(AccumIn(accums, d), r), limits, d)
    ensures AccumsMatch(accums[c := RollOf(AccumIn(accums, c), q)][d := RollOf(AccumIn(accums, d), r)],
                        log + (if d == c then [RolledBy(d, r)] else [RolledBy(c, q), RolledBy(d, r)]), limits)
  {
    if d == c {
      RollKeeps(accums, log, d, r, limits);
      assert accums[c := RollOf(AccumIn(accums, c), q)][d := RollOf(AccumIn(accums, d), r)]
          == accums[d := RollOf(AccumIn(accums, d), r)];
    } else {
      TwoRollsKeep(accums, log, c, q, d, r, limits);
      assert [RolledBy(c, q)] + [RolledBy(d, r)] == [RolledBy(c, q), RolledBy(d, r)];
    }
  }

  lemma TwoRollsKeep(accums: map<Bytes32, S.Accumulator>, log: seq<LaneEntry>, c: Bytes32, q: S.Batch, d: Bytes32, r: S.Batch,
                     limits: Limits)
    requires AccumsMatch(accums, log, limits) && c != d
    requires S.WellFormed(q) && S.BatchSum(q) <= I128_MAX && Within(RollOf(AccumIn(accums, c), q), limits, c)
    requires S.WellFormed(r) && S.BatchSum(r) <= I128_MAX && Within(RollOf(AccumIn(accums, d), r), limits, d)
    ensures AccumsMatch(accums[c := RollOf(AccumIn(accums, c), q)][d := RollOf(AccumIn(accums, d), r)],
                        log + ([RolledBy(c, q)] + [RolledBy(d, r)]), limits)
  {
    var accums1 := accums[c := RollOf(AccumIn(accums, c), q)];
    RollKeeps(accums, log, c, q, limits);
    assert AccumIn(accums1, d) == AccumIn(accums, d);
    RollKeeps(accums1, log + [RolledBy(c, q)], d, r, limits);
    assert log + [RolledBy(c, q)] + [RolledBy(d, r)] == log + ([RolledBy(c, q)] + [RolledBy(d, r)]);
  }

  lemma CapsKeptByProofs(h: Host, s: State, op: Op, p: Pending, limits: Limits)
    requires Sound(h, limits) && AccumsMatch(s.lanes.accums, s.lanes.log, limits)
    requires (op.ReleaseBatch? || op.ReleaseKeyless?) && Begin(h, s, op) == Ok(p)
    ensures AccumsMatch(p.s.lanes.accums, p.s.lanes.log, limits)
  {
    var settled := ProvenLanes(h, s, op, p);
    match settled
    case Unmoved =>
    case One(c, q) => OneProofKeeps(h, s.lanes, p.s.lanes, s.now, s.ledger, c, q, limits);
    case Two(c, q, gc, g) => TwoProofsKeep(h, s.lanes, p.s.lanes, s.now, s.ledger, c, q, gc, g, limits);
  }

  lemma CapsKeptBySpend(s: State, l1: Lanes, key: Address, chosen: Option<Bytes32>, amount: I128, limits: Limits)
    requires AccumsMatch(s.lanes.accums, s.lanes.log, limits) && Spends(s, l1, key, chosen, amount)
    ensures AccumsMatch(l1.accums, l1.log, limits)
  {
    var more := SpendsLog(s, l1, key, chosen, amount);
    SpendLogsNoProof(more, PaidEntry(s, key, chosen, amount));
    MatchBeside(s.lanes, l1.log, more, limits);
  }

  lemma CapsKept(h: Host, s: State, op: Op, p: Pending, limits: Limits)
    requires Sound(h, limits) && AccumsMatch(s.lanes.accums, s.lanes.log, limits) && Begin(h, s, op) == Ok(p)
    ensures AccumsMatch(p.s.lanes.accums, p.s.lanes.log, limits)
  {
    var l, l1 := s.lanes, p.s.lanes;
    if OffLog(op) {
      OffLogShape(h, s, op, p);
    } else if EditsSession(op) {
      EditsSessionShape(h, s, op, p);
    } else if op.RegisterSession? {
      RegisterSessionShape(h, s, op, p);
      MatchBeside(l, l1.log, [SessionOpened(op.session)], limits);
    } else if op.ReleaseSession? {
      ReleaseSessionLanes(h, s, op.session, op.payee, op.amount, op.chosenRule, p);
      CapsKeptBySpend(s, l1, op.session, op.chosenRule, op.amount, limits);
    } else {
      CapsKeptByProofs(h, s, op, p, limits);
    }
  }

  /** Whatever bound the verifier enforces per statement bounds each commitment's window in every reachable state. */
  lemma CapHolds(h: Host, s0: State, steps: seq<Step>, limits: Limits, c: Bytes32)
    requires Initial(h, s0) && Sound(h, limits)
    ensures var l := Run(h, s0, steps).s.lanes;
      && AccumOf(l, c) == Replayed(l.log, c)
      && (limits.spend(c) < U128_MAX ==> SpentSinceReset(l.log, c) <= limits.spend(c))
      && (limits.count(c) < U64_MAX ==> CountSinceReset(l.log, c) <= limits.count(c))
  {
    var P := Caps(limits);
    forall s: State, op | P(s.lanes, s.now, s.ledger) && Begin(h, s, op).Ok?
      ensures P(Begin(h, s, op).value.s.lanes, s.now, s.ledger)
    {
      CapsKept(h, s, op, Begin(h, s, op).value, limits);
    }
    forall d ensures Matches(s0.lanes.accums, s0.lanes.log, limits, d) {
    }
    LanesKeep(h, P, s0, steps);
    var l := Run(h, s0, steps).s.lanes;
    assert Matches(l.accums, l.log, limits, c);
    ReplayedSums(l.log, c);
  }
}
