/**
 * No replay. While markers persist, no nullifier is consumed by two calls; and
 * even if the host drops markers at the end of their life, a nullifier comes
 * back only long after every statement that used it has expired.
 */
module Nullifiers {
  import opened Base
  import opened Bytes
  import opened VaultState
  import opened Vault
  import opened OpShapes
  import opened Execution
  import opened LaneSteps
  import S = Signals

  /** The time a marker lives at the least, in seconds: longer than any validity window. */
  const MARKER_LIFE_SECS: nat := MIN_SECS_PER_LEDGER * MARKER_LIFE_LEDGERS

  predicate Uses(e: LaneEntry, n: Bytes32) {
    e.Consumed? && (n in e.primary || n in e.global)
  }

  predicate NoTwice(ns: seq<Bytes32>) {
    forall i, j | 0 <= i < j < |ns| :: ns[i] != ns[j]
  }

  /** A call consumed distinct nullifiers, within the validity window of its statement. */
  predicate CallOk(e: LaneEntry, now: U64, ledger: nat) {
    e.Consumed? ==>
      && NoTwice(e.primary) && NoTwice(e.global)
      && e.time <= e.validBefore <= e.time + MAX_VALIDITY_SECS
      && e.ledger <= ledger && now - e.time >= MIN_SECS_PER_LEDGER * (ledger - e.ledger)
  }

  /** A consumed nullifier still has its marker, or has outlived it where markers may lapse. */
  predicate Remembered(e: LaneEntry, n: Bytes32, marks: map<Bytes32, nat>, ledger: nat, lapsing: bool) {
    Uses(e, n) ==>
      (n in marks && marks[n] >= e.ledger) || (lapsing && e.Consumed? && ledger >= e.ledger + MARKER_LIFE_LEDGERS)
  }

  /** Two calls share a nullifier only if markers lapse and a whole marker life lies between them. */
  predicate Apart(e: LaneEntry, f: LaneEntry, n: Bytes32, lapsing: bool) {
    Uses(e, n) && Uses(f, n) ==> lapsing && f.time >= e.time + MARKER_LIFE_SECS
  }

  ghost predicate Unreplayed(marks: map<Bytes32, nat>, log: seq<LaneEntry>, now: U64, ledger: nat, lapsing: bool) {
    && (forall i | 0 <= i < |log| :: CallOk(log[i], now, ledger))
    && (forall i, n | 0 <= i < |log| :: Remembered(log[i], n, marks, ledger, lapsing))
    && (forall i, j, n | 0 <= i < j < |log| :: Apart(log[i], log[j], n, lapsing))
  }

  ghost function NoReplayIn(lapsing: bool): LaneProperty {
    (l: Lanes, now: U64, ledger: nat) => Unreplayed(l.nullifiers, l.log, now, ledger, lapsing)
  }

  // ---- Elementary changes -------------------------------------------------

  lemma {:induction false} FreshMeans(used: map<Bytes32, nat>, ns: seq<Bytes32>, i: nat)
    requires FreshFrom(used, ns, i).Pass?
    ensures forall k | i <= k < |ns| :: ns[k] !in used && !Repeated(ns, k)
    decreases |ns| - i
  {
    if i < |ns| {
      FreshMeans(used, ns, i + 1);
    }
  }

  lemma FreshDistinct(used: map<Bytes32, nat>, ns: seq<Bytes32>)
    requires FreshFrom(used, ns, 0).Pass?
    ensures NoTwice(ns) && forall n | n in ns :: n !in used
  {
    FreshMeans(used, ns, 0);
    forall i, j | 0 <= i < j < |ns| ensures ns[i] != ns[j] {
      assert !Repeated(ns, i);
    }
  }

  /** A log entry that consumes nothing changes nothing here. */
  lemma {:induction false} OtherEntries(marks: map<Bytes32, nat>, log: seq<LaneEntry>, more: seq<LaneEntry>, now: U64, ledger: nat,
                                        lapsing: bool)
    requires Unreplayed(marks, log, now, ledger, lapsing)
    requires forall i | 0 <= i < |more| :: !more[i].Consumed?
    ensures Unreplayed(marks, log + more, now, ledger, lapsing)
  {
    var log1 := log + more;
    forall i | 0 <= i < |log1| ensures CallOk(log1[i], now, ledger) {
      assert i < |log| ==> log1[i] == log[i];
    }
    forall i, n | 0 <= i < |log1| ensures Remembered(log1[i], n, marks, ledger, lapsing) {
      assert i < |log| ==> log1[i] == log[i];
    }
    forall i, j, n | 0 <= i < j < |log1| ensures Apart(log1[i], log1[j], n, lapsing) {
      assert i < |log| ==> log1[i] == log[i];
      assert j < |log| ==> log1[j] == log[j];
    }
  }

  /** A call that consumes fresh nullifiers and marks them. */
  lemma Consuming(marks: map<Bytes32, nat>, marks1: map<Bytes32, nat>, log: seq<LaneEntry>, e: LaneEntry, now: U64,
                  ledger: nat, lapsing: bool)
    requires Unreplayed(marks, log, now, ledger, lapsing)
    requires CallOk(e, now, ledger) && e.Consumed? && e.time == now && e.ledger == ledger
    requires forall n | Uses(e, n) :: n !in marks
    requires forall n :: (n in marks1 <==> n in marks || Uses(e, n)) && (n in marks1 ==> marks1[n] == if Uses(e, n) then ledger else marks[n])
    ensures Unreplayed(marks1, log + [e], now, ledger, lapsing)
  {
    var log1 := log + [e];
    forall i, n | 0 <= i < |log1| ensures Remembered(log1[i], n, marks1, ledger, lapsing) {
      if i < |log| {
        assert Remembered(log[i], n, marks, ledger, lapsing) && CallOk(log[i], now, ledger);
      }
    }
    forall i, j, n | 0 <= i < j < |log1| ensures Apart(log1[i], log1[j], n, lapsing) {
      if j < |log| {
        assert Apart(log[i], log[j], n, lapsing);
      } else {
        assert Remembered(log[i], n, marks, ledger, lapsing) && CallOk(log[i], now, ledger);
      }
    }
  }

  lemma MarkAll(l: Lanes, ns: seq<Bytes32>, ledger: nat)
    ensures var m := MarkNullifiers(l, ns, ledger).nullifiers;
      forall n :: (n in m <==> n in l.nullifiers || n in ns) && (n in m ==> m[n] == if n in ns then ledger else l.nullifiers[n])
  {
  }

  lemma ConsumeBoth(l: Lanes, primary: seq<Bytes32>, global: seq<Bytes32>, validBefore: U64, now: U64, ledger: nat, lapsing: bool)
    requires Unreplayed(l.nullifiers, l.log, now, ledger, lapsing) && now <= validBefore <= now + MAX_VALIDITY_SECS
    requires FreshFrom(l.nullifiers, primary, 0).Pass? && FreshFrom(l.nullifiers, global, 0).Pass?
    ensures Unreplayed(MarkNullifiers(MarkNullifiers(l, primary, ledger), global, ledger).nullifiers,
                       l.log + [Consumed(primary, global, validBefore, now, ledger)], now, ledger, lapsing)
  {
    FreshDistinct(l.nullifiers, primary);
    FreshDistinct(l.nullifiers, global);
    var l1 := MarkNullifiers(l, primary, ledger);
    MarkAll(l, primary, ledger);
    MarkAll(l1, global, ledger);
    Consuming(l.nullifiers, MarkNullifiers(l1, global, ledger).nullifiers, l.log,
              Consumed(primary, global, validBefore, now, ledger), now, ledger, lapsing);
  }

  lemma OneEffectKeeps(l: Lanes, l1: Lanes, now: U64, ledger: nat, c: Bytes32, q: S.Batch, lapsing: bool)
    requires Unreplayed(l.nullifiers, l.log, now, ledger, lapsing)
    requires S.WellFormed(q) && S.BatchSum(q) <= I128_MAX && OneEffect(l, l1, now, ledger, c, q)
    requires Timely(q, now) && FreshFrom(l.nullifiers, q.nullifiers, 0).Pass?
    ensures Unreplayed(l1.nullifiers, l1.log, now, ledger, lapsing)
  {
    var e := Consumed(q.nullifiers, [], q.validBefore, now, ledger);
    ConsumeBoth(l, q.nullifiers, [], q.validBefore, now, ledger, lapsing);
    MarkNone(MarkNullifiers(l, q.nullifiers, ledger), ledger);
    OtherEntries(MarkNullifiers(l, q.nullifiers, ledger).nullifiers, l.log + [e], [RolledBy(c, q)], now, ledger, lapsing);
    OneEffectParts(l, l1, now, ledger, c, q);
  }

  lemma MarkNone(l: Lanes, ledger: nat)
    ensures MarkNullifiers(l, [], ledger).nullifiers == l.nullifiers
  {
  }

  lemma OneEffectParts(l: Lanes, l1: Lanes, now: U64, ledger: nat, c: Bytes32, q: S.Batch)
    requires S.WellFormed(q) && S.BatchSum(q) <= I128_MAX && OneEffect(l, l1, now, ledger, c, q)
    ensures l1.nullifiers == MarkNullifiers(l, q.nullifiers, ledger).nullifiers
    ensures l1.log == l.log + [Consumed(q.nullifiers, [], q.validBefore, now, ledger)] + [RolledBy(c, q)]
  {
  }

  lemma TwoEffectsKeep(l: Lanes, l1: Lanes, now: U64, ledger: nat, c: Bytes32, q: S.Batch, gc: Bytes32, q2: S.Batch,
                       lapsing: bool)
    requires Unreplayed(l.nullifiers, l.log, now, ledger, lapsing)
    requires S.WellFormed(q) && S.BatchSum(q) <= I128_MAX && S.WellFormed(q2) && S.BatchSum(q2) <= I128_MAX
    requires TwoEffects(l, l1, now, ledger, c, q, gc, q2) && Timely(q, now)
    requires FreshFrom(l.nullifiers, q.nullifiers, 0).Pass? && FreshFrom(l.nullifiers, q2.nullifiers, 0).Pass?
    ensures Unreplayed(l1.nullifiers, l1.log, now, ledger, lapsing)
  {
    ConsumeBoth(l, q.nullifiers, q2.nullifiers, q.validBefore, now, ledger, lapsing);
    var rolls := if gc == c then [RolledBy(gc, q2)] else [RolledBy(c, q), RolledBy(gc, q2)];
    var e := Consumed(q.nullifiers, q2.nullifiers, q.validBefore, now, ledger);
    OtherEntries(l1.nullifiers, l.log + [e], rolls, now, ledger, lapsing);
  }

  lemma KeptByProofs(h: Host, s: State, op: Op, p: Pending, lapsing: bool)
    requires Unreplayed(s.lanes.nullifiers, s.lanes.log, s.now, s.ledger, lapsing)
    requires (op.ReleaseBatch? || op.ReleaseKeyless?) && Begin(h, s, op) == Ok(p)
    ensures Unreplayed(p.s.lanes.nullifiers, p.s.lanes.log, s.now, s.ledger, lapsing)
  {
    var settled := ProvenLanes(h, s, op, p);
    match settled
    case Unmoved =>
    case One(c, q) => OneEffectKeeps(s.lanes, p.s.lanes, s.now, s.ledger, c, q, lapsing);
    case Two(c, q, gc, g) => TwoEffectsKeep(s.lanes, p.s.lanes, s.now, s.ledger, c, q, gc, UnderGlobal(q, g), lapsing);
  }

  lemma KeptBySessions(h: Host, s: State, op: Op, p: Pending, lapsing: bool)
    requires Unreplayed(s.lanes.nullifiers, s.lanes.log, s.now, s.ledger, lapsing)
    requires (op.RegisterSession? || op.ReleaseSession?) && Begin(h, s, op) == Ok(p)
    ensures Unreplayed(p.s.lanes.nullifiers, p.s.lanes.log, s.now, s.ledger, lapsing)
  {
    var l, l1 := s.lanes, p.s.lanes;
    if op.RegisterSession? {
      RegisterSessionShape(h, s, op, p);
      OtherEntries(l.nullifiers, l.log, [SessionOpened(op.session)], s.now, s.ledger, lapsing);
    } else {
      ReleaseSessionLanes(h, s, op.session, op.payee, op.amount, op.chosenRule, p);
      KeptBySpend(s, l1, op.session, op.chosenRule, op.amount, lapsing);
    }
  }

  lemma KeptBySpend(s: State, l1: Lanes, key: Address, chosen: Option<Bytes32>, amount: I128, lapsing: bool)
    requires Unreplayed(s.lanes.nullifiers, s.lanes.log, s.now, s.ledger, lapsing) && Spends(s, l1, key, chosen, amount)
    ensures Unreplayed(l1.nullifiers, l1.log, s.now, s.ledger, lapsing)
  {
    var more := SpendsLog(s, l1, key, chosen, amount);
    SpendLogsNoProof(more, PaidEntry(s, key, chosen, amount));
    OtherEntries(s.lanes.nullifiers, s.lanes.log, more, s.now, s.ledger, lapsing);
  }

  lemma Kept(h: Host, s: State, op: Op, p: Pending, lapsing: bool)
    requires Unreplayed(s.lanes.nullifiers, s.lanes.log, s.now, s.ledger, lapsing) && Begin(h, s, op) == Ok(p)
    ensures Unreplayed(p.s.lanes.nullifiers, p.s.lanes.log, s.now, s.ledger, lapsing)
  {
    if OffLog(op) {
      OffLogShape(h, s, op, p);
    } else if EditsSession(op) {
      EditsSessionShape(h, s, op, p);
    } else if op.RegisterSession? || op.ReleaseSession? {
      KeptBySessions(h, s, op, p, lapsing);
    } else {
      KeptByProofs(h, s, op, p, lapsing);
    }
  }

  lemma KeptOverTime(lapsing: bool)
    ensures KeptByTime(NoReplayIn(lapsing))
    ensures lapsing ==> KeptByLapse(NoReplayIn(lapsing))
  {
    forall l: Lanes, now: U64, ledger: nat, now1: U64, ledger1: nat |
      Unreplayed(l.nullifiers, l.log, now, ledger, lapsing) && ledger <= ledger1
      && now1 - now >= MIN_SECS_PER_LEDGER * (ledger1 - ledger)
      ensures Unreplayed(l.nullifiers, l.log, now1, ledger1, lapsing)
    {
      Later(l.nullifiers, l.log, now, ledger, now1, ledger1, lapsing);
    }
    if lapsing {
      forall l: Lanes, now: U64, ledger: nat, n: Bytes32 |
        Unreplayed(l.nullifiers, l.log, now, ledger, true) && n in l.nullifiers
        && ledger >= l.nullifiers[n] + MARKER_LIFE_LEDGERS
        ensures Unreplayed(Dropped(l, n).nullifiers, l.log, now, ledger, true)
      {
        Lapsed(l.nullifiers, l.log, now, ledger, n);
      }
    }
  }

  lemma Later(marks: map<Bytes32, nat>, log: seq<LaneEntry>, now: U64, ledger: nat, now1: U64, ledger1: nat, lapsing: bool)
    requires Unreplayed(marks, log, now, ledger, lapsing) && ledger <= ledger1
    requires now1 - now >= MIN_SECS_PER_LEDGER * (ledger1 - ledger)
    ensures Unreplayed(marks, log, now1, ledger1, lapsing)
  {
    forall i | 0 <= i < |log| ensures CallOk(log[i], now1, ledger1) {
      assert CallOk(log[i], now, ledger);
    }
    forall i, n | 0 <= i < |log| ensures Remembered(log[i], n, marks, ledger1, lapsing) {
      assert Remembered(log[i], n, marks, ledger, lapsing);
    }
  }

  /** Dropping a marker past its life is safe: whatever used it is as old. */
  lemma Lapsed(marks: map<Bytes32, nat>, log: seq<LaneEntry>, now: U64, ledger: nat, n: Bytes32)
    requires Unreplayed(marks, log, now, ledger, true)
    requires n in marks && ledger >= marks[n] + MARKER_LIFE_LEDGERS
    ensures Unreplayed(marks - {n}, log, now, ledger, true)
  {
    forall i, m | 0 <= i < |log| ensures Remembered(log[i], m, marks - {n}, ledger, true) {
      assert Remembered(log[i], m, marks, ledger, true);
    }
  }

  // ---- Main results -------------------------------------------------------

  lemma Holds(h: Host, s0: State, steps: seq<Step>, lapsing: bool)
    requires Initial(h, s0) && (lapsing || NoLapse(steps))
    ensures var r := Run(h, s0, steps).s; Unreplayed(r.lanes.nullifiers, r.lanes.log, r.now, r.ledger, lapsing)
  {
    var P := NoReplayIn(lapsing);
    forall s: State, op | P(s.lanes, s.now, s.ledger) && Begin(h, s, op).Ok?
      ensures P(Begin(h, s, op).value.s.lanes, s.now, s.ledger)
    {
      Kept(h, s, op, Begin(h, s, op).value, lapsing);
    }
    KeptOverTime(lapsing);
    LanesKeep(h, P, s0, steps);
  }

  /** While markers persist, no nullifier is ever consumed by two calls. */
  lemma NoReplay(h: Host, s0: State, steps: seq<Step>, i: nat, j: nat, n: Bytes32)
    requires Initial(h, s0) && NoLapse(steps)
    requires var log := Run(h, s0, steps).s.lanes.log; i < j < |log| && Uses(log[i], n)
    ensures !Uses(Run(h, s0, steps).s.lanes.log[j], n)
  {
    Holds(h, s0, steps, false);
    var log := Run(h, s0, steps).s.lanes.log;
    assert Apart(log[i], log[j], n, false);
  }

  /** If markers may lapse, a nullifier comes back only after the earlier statement has expired: never the same one. */
  lemma NoReplayThoughMarkersLapse(h: Host, s0: State, steps: seq<Step>, i: nat, j: nat, n: Bytes32)
    requires Initial(h, s0)
    requires var log := Run(h, s0, steps).s.lanes.log; i < j < |log| && Uses(log[i], n) && Uses(log[j], n)
    ensures var log := Run(h, s0, steps).s.lanes.log;
      log[i].validBefore < log[j].time <= log[j].validBefore
  {
    Holds(h, s0, steps, true);
    var log := Run(h, s0, steps).s.lanes.log;
    assert Apart(log[i], log[j], n, true);
    assert CallOk(log[i], Run(h, s0, steps).s.now, Run(h, s0, steps).s.ledger);
    assert CallOk(log[j], Run(h, s0, steps).s.now, Run(h, s0, steps).s.ledger);
  }
}
