/**
 * What the entry points do to the spending lanes, and how a property of the
 * lanes that every entry point keeps holds over whole runs.
 */
module LaneSteps {
  import opened Base
  import opened Bytes
  import opened VaultState
  import opened Vault
  import opened OpShapes
  import opened Execution
  import S = Signals
  import R = PublicRules
  import E = EntryPoints

  // ---- Properties of the lanes over runs ----------------------------------

  type LaneProperty = (Lanes, U64, nat) -> bool

  ghost predicate KeptByEntries(h: Host, P: LaneProperty) {
    forall s: State, op | P(s.lanes, s.now, s.ledger) && Begin(h, s, op).Ok? ::
      P(Begin(h, s, op).value.s.lanes, s.now, s.ledger)
  }

  ghost predicate KeptByTime(P: LaneProperty) {
    forall l, now: U64, ledger: nat, now1: U64, ledger1: nat |
      P(l, now, ledger) && ledger <= ledger1 && now1 - now >= MIN_SECS_PER_LEDGER * (ledger1 - ledger) ::
      P(l, now1, ledger1)
  }

  ghost predicate KeptByLapse(P: LaneProperty) {
    forall l: Lanes, now: U64, ledger: nat, n: Bytes32 |
      P(l, now, ledger) && n in l.nullifiers && ledger >= l.nullifiers[n] + MARKER_LIFE_LEDGERS ::
      P(Dropped(l, n), now, ledger)
  }

  function Dropped(l: Lanes, n: Bytes32): Lanes {
    l.(nullifiers := l.nullifiers - {n})
  }

  /** Entry points keep the clock and the history of calls; transfers keep the lanes. */
  lemma ClockKept(h: Host, s: State, op: Op, p: Pending)
    requires Begin(h, s, op) == Ok(p)
    ensures p.s.now == s.now && p.s.ledger == s.ledger && p.s.notes == s.notes
  {
    if OffLog(op) {
      ClockKeptOffLog(h, s, op, p);
    } else if op.ReleaseBatch? {
      ClockKeptByBatch(h, s, op.orchestrator, op.task, op.step, op.asset, op.batch, op.proof, p);
    } else if op.ReleaseKeyless? {
      ClockKeptByKeyless(h, s, op.user, op.asset, op.commitment, op.batch, op.proof, op.global, p);
    }
  }

  lemma ClockKeptByBatch(h: Host, s: State, orch: Address, id: U64, step: U64, asset: Address, q: S.Batch, proof: Proof,
                         p: Pending)
    requires BeginReleaseBatch(h, s, orch, id, step, asset, q, proof) == Ok(p)
    ensures p.s.now == s.now && p.s.ledger == s.ledger && p.s.notes == s.notes
  {
  }

  lemma ClockKeptByKeyless(h: Host, s: State, user: Address, asset: Address, c: Bytes32, q: S.Batch, proof: Proof,
                           global: Option<GlobalProof>, p: Pending)
    requires BeginReleaseKeyless(h, s, user, asset, c, q, proof, global) == Ok(p)
    ensures p.s.now == s.now && p.s.ledger == s.ledger && p.s.notes == s.notes
  {
  }

  lemma ClockKeptOffLog(h: Host, s: State, op: Op, p: Pending)
    requires OffLog(op) && Begin(h, s, op) == Ok(p)
    ensures p.s.now == s.now && p.s.ledger == s.ledger && p.s.notes == s.notes
  {
    if BooksUntouched(op) {
      UntouchedShape(h, s, op, p);
    } else {
      UntouchedLanes(h, s, op, p);
    }
  }

  ghost function OnLanes(P: LaneProperty): (State, seq<Due>) -> bool {
    (s: State, stack: seq<Due>) => P(s.lanes, s.now, s.ledger)
  }

  lemma LanesInductive(h: Host, P: LaneProperty)
    requires KeptByEntries(h, P)
    ensures Inductive(h, OnLanes(P))
  {
    var J := OnLanes(P);
    forall s, stack, op | J(s, stack) && Begin(h, Noted(s, op), op).Ok?
      ensures J(Begin(h, Noted(s, op), op).value.s, stack + [Begin(h, Noted(s, op), op).value.due])
    {
      var s0 := Noted(s, op);
      assert J(s0, stack);
      ClockKept(h, s0, op, Begin(h, s0, op).value);
    }
  }

  predicate NoLapse(steps: seq<Step>) {
    forall i | 0 <= i < |steps| :: !steps[i].Lapse?
  }

  /** A property of the lanes that entry points and the passage of time keep holds after every run. */
  lemma {:induction false} LanesKeep(h: Host, P: LaneProperty, s: State, steps: seq<Step>)
    requires KeptByEntries(h, P) && KeptByTime(P) && (KeptByLapse(P) || NoLapse(steps))
    requires P(s.lanes, s.now, s.ledger)
    ensures var r := Run(h, s, steps).s; P(r.lanes, r.now, r.ledger)
  {
    if steps != [] {
      var init, last := steps[..|steps| - 1], steps[|steps| - 1];
      LanesKeep(h, P, s, init);
      var b := Run(h, s, init).s;
      match last
      case Invoke(c) =>
        LanesInductive(h, P);
        ExecKeeps(h, OnLanes(P), b, [], c);
      case Tick(ledgers, seconds) =>
      case Lapse(n) =>
        assert KeptByLapse(P) by {
          assert !NoLapse(steps);
        }
        assert Next(h, b, last).s.lanes == b.lanes || Next(h, b, last).s.lanes == Dropped(b.lanes, n);
    }
  }

  // ---- What entry points do to the lanes ----------------------------------

  /** Entry points that touch only pins, private-lane pointers, rules and the public pointer, or no lane at all. */
  predicate OffLog(op: Op) {
    !(op.RegisterSession? || op.SetSessionPaused? || op.UpdateSession? || op.RevokeSession? || op.ReleaseSession?
      || op.ReleaseBatch? || op.ReleaseKeyless?)
  }

  lemma OffLogShape(h: Host, s: State, op: Op, p: Pending)
    requires OffLog(op) && Begin(h, s, op) == Ok(p)
    ensures var l, l1 := s.lanes, p.s.lanes;
      && l1 == l.(rules := l1.rules, globalPublic := l1.globalPublic, pinned := l1.pinned, globals := l1.globals)
      && (!EditsRules(op) ==> l1.rules == l.rules && l1.globalPublic == l.globalPublic)
  {
    if BooksUntouched(op) {
      UntouchedShape(h, s, op, p);
    } else {
      UntouchedLanes(h, s, op, p);
    }
  }

  lemma EditsSessionShape(h: Host, s: State, op: Op, p: Pending)
    requires EditsSession(op) && Begin(h, s, op) == Ok(p)
    ensures p.s.lanes == s.lanes.(sessions := p.s.lanes.sessions)
  {
    SessionEditShape(h, s, op, p);
  }

  lemma RegisterSessionShape(h: Host, s: State, op: Op, p: Pending)
    requires op.RegisterSession? && Begin(h, s, op) == Ok(p)
    ensures op.session !in s.lanes.sessions
    ensures op.spendCap >= 0 && (op.spendCap > 0 || op.boundRule.Some?)
    ensures op.serverHeld ==> op.spendCap > 0 && op.expiry > 0
    ensures var info := Session(op.user, op.asset, op.expiry, op.spendCap, op.boundRule, op.serverHeld, false, 0, 0);
      p.s.lanes == s.lanes.(sessions := s.lanes.sessions[op.session := info], log := s.lanes.log + [SessionOpened(op.session)])
  {
  }

  // ---- Proofs accepted by the batch and keyless entry points -------------

  ghost predicate Accepts(h: Host, c: Bytes32, q: S.Batch, acc: S.Accumulator)
    requires S.WellFormed(q)
  {
    exists verifier, proof :: h.verifyGroth16(verifier, proof, S.PublicSignals(h.addressHash, c, q, acc))
  }

  predicate Timely(q: S.Batch, now: U64) {
    q.validAfter <= now <= q.validBefore && q.validBefore - now <= MAX_VALIDITY_SECS
  }

  ghost predicate ProofOk(h: Host, l: Lanes, c: Bytes32, q: S.Batch) {
    && S.WellFormed(q) && S.BatchSum(q) <= I128_MAX
    && FreshFrom(l.nullifiers, q.nullifiers, 0).Pass?
    && Accepts(h, c, q, AccumOf(l, c))
  }

  function RolledAccum(l: Lanes, c: Bytes32, q: S.Batch): S.Accumulator
    requires S.WellFormed(q) && S.BatchSum(q) <= I128_MAX
  {
    S.Roll(AccumOf(l, c), S.BatchSum(q), |q.payees|, q.resetR2, q.resetR7, q.validAfter)
  }

  /** One accepted proof: its nullifiers are consumed and its commitment's accumulator is rolled. */
  ghost predicate OneProof(h: Host, l: Lanes, l1: Lanes, now: U64, ledger: nat, c: Bytes32, q: S.Batch) {
    ProofOk(h, l, c, q) && Timely(q, now) && OneEffect(l, l1, now, ledger, c, q)
  }

  predicate OneEffect(l: Lanes, l1: Lanes, now: U64, ledger: nat, c: Bytes32, q: S.Batch)
    requires S.WellFormed(q) && S.BatchSum(q) <= I128_MAX
  {
    l1 == SetAccum(MarkNullifiers(l, q.nullifiers, ledger), c, RolledAccum(l, c, q)).(
            log := l.log + [Consumed(q.nullifiers, [], q.validBefore, now, ledger)] + [RolledBy(c, q)])
  }

  /** Two accepted proofs of the same releases, both read against the lanes as they were. */
  ghost predicate TwoProofs(h: Host, l: Lanes, l1: Lanes, now: U64, ledger: nat, c: Bytes32, q: S.Batch, gc: Bytes32,
                            g: GlobalProof)
  {
    && ProofOk(h, l, c, q) && ProofOk(h, l, gc, UnderGlobal(q, g)) && Timely(q, now)
    && TwoEffects(l, l1, now, ledger, c, q, gc, UnderGlobal(q, g))
  }

  predicate TwoEffects(l: Lanes, l1: Lanes, now: U64, ledger: nat, c: Bytes32, q: S.Batch, gc: Bytes32, q2: S.Batch)
    requires S.WellFormed(q) && S.BatchSum(q) <= I128_MAX
    requires S.WellFormed(q2) && S.BatchSum(q2) <= I128_MAX
  {
    var rolls := if gc == c then [RolledBy(gc, q2)] else [RolledBy(c, q), RolledBy(gc, q2)];
    l1 == l.(nullifiers := MarkNullifiers(MarkNullifiers(l, q.nullifiers, ledger), q2.nullifiers, ledger).nullifiers,
             accums := l.accums[c := RolledAccum(l, c, q)][gc := RolledAccum(l, gc, q2)],
             log := l.log + [Consumed(q.nullifiers, q2.nullifiers, q.validBefore, now, ledger)] + rolls)
  }

  lemma BatchLanes(h: Host, s: State, op: Op, p: Pending)
    requires op.ReleaseBatch? && Begin(h, s, op) == Ok(p)
    ensures p.s.lanes == s.lanes
      || exists c :: OneProof(h, s.lanes, p.s.lanes, s.now, s.ledger, c, op.batch)
  {
    if (op.task, op.step) !in s.books.steps {
      BatchOneProof(h, s, op.orchestrator, op.task, op.step, op.asset, op.batch, op.proof, p);
    }
  }

  lemma BatchOneProof(h: Host, s: State, orch: Address, id: U64, step: U64, asset: Address, q: S.Batch, proof: Proof,
                      p: Pending)
    requires BeginReleaseBatch(h, s, orch, id, step, asset, q, proof) == Ok(p) && (id, step) !in s.books.steps
    ensures id in s.books.tasks && s.books.tasks[id].commitment.Some?
    ensures OneProof(h, s.lanes, p.s.lanes, s.now, s.ledger, s.books.tasks[id].commitment.value, q)
  {
    BatchChecked(h, s, orch, id, step, asset, q, proof, p);
    BatchEffect(h, s, orch, id, step, asset, q, proof, p);
  }

  lemma BatchChecked(h: Host, s: State, orch: Address, id: U64, step: U64, asset: Address, q: S.Batch, proof: Proof, p: Pending)
    requires BeginReleaseBatch(h, s, orch, id, step, asset, q, proof) == Ok(p) && (id, step) !in s.books.steps
    ensures id in s.books.tasks && s.books.tasks[id].commitment.Some?
    ensures ProofOk(h, s.lanes, s.books.tasks[id].commitment.value, q) && Timely(q, s.now)
  {
    var c := s.books.tasks[id].commitment.value;
    assert Accepts(h, c, q, AccumOf(s.lanes, c));
  }

  lemma BatchEffect(h: Host, s: State, orch: Address, id: U64, step: U64, asset: Address, q: S.Batch, proof: Proof, p: Pending)
    requires BeginReleaseBatch(h, s, orch, id, step, asset, q, proof) == Ok(p) && (id, step) !in s.books.steps
    ensures id in s.books.tasks && s.books.tasks[id].commitment.Some? && S.WellFormed(q) && S.BatchSum(q) <= I128_MAX
    ensures OneEffect(s.lanes, p.s.lanes, s.now, s.ledger, s.books.tasks[id].commitment.value, q)
  {
  }

  lemma KeylessLanes(h: Host, s: State, op: Op, p: Pending)
    requires op.ReleaseKeyless? && Begin(h, s, op) == Ok(p)
    ensures OneProof(h, s.lanes, p.s.lanes, s.now, s.ledger, op.commitment, op.batch)
      || exists gc, g :: TwoProofs(h, s.lanes, p.s.lanes, s.now, s.ledger, op.commitment, op.batch, gc, g)
  {
    KeylessSettled(h, s, op, p);
    var v := s.ctl.verifier.value;
    if (op.user, Private) in s.lanes.globals {
      KeylessTwoProofs(h, s, v, op.user, op.commitment, op.batch, op.proof, op.global, p.s.lanes);
    } else {
      KeylessOneProof(h, s, v, op.user, op.commitment, op.batch, op.proof, op.global, p.s.lanes);
    }
  }

  lemma KeylessSettled(h: Host, s: State, op: Op, p: Pending)
    requires op.ReleaseKeyless? && Begin(h, s, op) == Ok(p)
    ensures S.WellFormed(op.batch) && S.BatchSum(op.batch) <= I128_MAX && Timely(op.batch, s.now) && s.ctl.verifier.Some?
    ensures SettleKeyless(h, s, s.ctl.verifier.value, op.user, op.commitment, op.batch, op.proof, op.global) == Ok(p.s.lanes)
  {
  }

  lemma KeylessOneProof(h: Host, s: State, verifier: Address, user: Address, c: Bytes32, q: S.Batch, proof: Proof,
                        global: Option<GlobalProof>, l1: Lanes)
    requires S.WellFormed(q) && S.BatchSum(q) <= I128_MAX && Timely(q, s.now) && (user, Private) !in s.lanes.globals
    requires SettleKeyless(h, s, verifier, user, c, q, proof, global) == Ok(l1)
    ensures OneProof(h, s.lanes, l1, s.now, s.ledger, c, q)
  {
    assert Accepts(h, c, q, AccumOf(s.lanes, c));
  }

  lemma KeylessTwoProofs(h: Host, s: State, verifier: Address, user: Address, c: Bytes32, q: S.Batch, proof: Proof,
                         global: Option<GlobalProof>, l1: Lanes)
    requires S.WellFormed(q) && S.BatchSum(q) <= I128_MAX && Timely(q, s.now) && (user, Private) in s.lanes.globals
    requires SettleKeyless(h, s, verifier, user, c, q, proof, global) == Ok(l1)
    ensures global.Some?
    ensures TwoProofs(h, s.lanes, l1, s.now, s.ledger, c, q, s.lanes.globals[(user, Private)], global.value)
  {
    var gc, g := s.lanes.globals[(user, Private)], global.value;
    assert Accepts(h, c, q, AccumOf(s.lanes, c));
    assert Accepts(h, gc, UnderGlobal(q, g), AccumOf(s.lanes, gc));
  }

  /** How the batch and keyless entry points change the lanes. */
  datatype Settlement =
    | Unmoved
    | One(c: Bytes32, q: S.Batch)
    | Two(c: Bytes32, q: S.Batch, gc: Bytes32, g: GlobalProof)

  ghost predicate Settles(h: Host, s: State, l1: Lanes, x: Settlement) {
    match x
    case Unmoved => l1 == s.lanes
    case One(c, q) => OneProof(h, s.lanes, l1, s.now, s.ledger, c, q)
    case Two(c, q, gc, g) => TwoProofs(h, s.lanes, l1, s.now, s.ledger, c, q, gc, g)
  }

  lemma ProvenLanes(h: Host, s: State, op: Op, p: Pending) returns (x: Settlement)
    requires (op.ReleaseBatch? || op.ReleaseKeyless?) && Begin(h, s, op) == Ok(p)
    ensures Settles(h, s, p.s.lanes, x)
  {
    if op.ReleaseBatch? {
      BatchLanes(h, s, op, p);
      if p.s.lanes == s.lanes {
        x := Unmoved;
      } else {
        var c :| OneProof(h, s.lanes, p.s.lanes, s.now, s.ledger, c, op.batch);
        x := One(c, op.batch);
      }
    } else {
      KeylessLanes(h, s, op, p);
      if OneProof(h, s.lanes, p.s.lanes, s.now, s.ledger, op.commitment, op.batch) {
        x := One(op.commitment, op.batch);
      } else {
        var gc, g :| TwoProofs(h, s.lanes, p.s.lanes, s.now, s.ledger, op.commitment, op.batch, gc, g);
        x := Two(op.commitment, op.batch, gc, g);
      }
    }
  }

  // ---- A session spend ----------------------------------------------------

  /** The usage record and log after one rule, if any, has been rolled. */
  predicate RuleRolled(s: State, l: Lanes, l1: Lanes, owner: Address, ruleId: Option<Bytes32>, amount: I128) {
    match ruleId
    case None => l1 == l
    case Some(rid) =>
      && (owner, rid) in s.lanes.rules
      && var rule := s.lanes.rules[(owner, rid)];
      && R.RollUsage(rule, UsageOf(s.lanes, owner, rid), amount, s.now).Ok?
      && l1 == l.(usage := l.usage[(owner, rid) := R.RollUsage(rule, UsageOf(s.lanes, owner, rid), amount, s.now).value],
                  log := l.log + [RuleUsed(owner, rid, R.Use(rule, amount, s.now))])
  }

  lemma RollRuleShape(s: State, l: Lanes, owner: Address, ruleId: Option<Bytes32>, payee: Address, amount: I128, l1: Lanes)
    requires RollRule(s, l, owner, ruleId, payee, amount) == Ok(l1)
    ensures RuleRolled(s, l, l1, owner, ruleId, amount)
  {
  }

  /** A session spend: the selected rule, then the global one if it is another, then the session itself. */
  ghost predicate Spends(s: State, l1: Lanes, key: Address, chosen: Option<Bytes32>, amount: I128) {
    && key in s.lanes.sessions
    && var info := s.lanes.sessions[key];
    && var selected := SelectedRule(info, chosen);
    && amount > 0 && (info.spendCap > 0 ==> info.spent + amount <= info.spendCap)
    && exists m1, m2 ::
      && RuleRolled(s, s.lanes, m1, info.user, selected, amount)
      && RuleRolled(s, m1, m2, info.user, GlobalRule(s.lanes, info.user, selected), amount)
      && l1 == SpentFrom(m2, key, info, selected, amount, s.now)
  }

  lemma ReleaseSessionLanes(h: Host, s: State, key: Address, payee: Address, amount: I128, chosen: Option<Bytes32>, p: Pending)
    requires BeginReleaseSession(h, s, key, payee, amount, chosen) == Ok(p)
    ensures Spends(s, p.s.lanes, key, chosen, amount)
  {
    var info := s.lanes.sessions[key];
    var selected := SelectedRule(info, chosen);
    var global := GlobalRule(s.lanes, info.user, selected);
    var m1 := RollRule(s, s.lanes, info.user, selected, payee, amount).value;
    RollRuleShape(s, s.lanes, info.user, selected, payee, amount, m1);
    var m2 := RollRule(s, m1, info.user, global, payee, amount).value;
    RollRuleShape(s, m1, info.user, global, payee, amount, m2);
  }

  /** The rules a payment has to satisfy: the selected one, then the global one if it is another. */
  function RulesOf(paid: LaneEntry): seq<Bytes32>
    requires paid.SessionPaid?
  {
    Single(paid.selected) + Single(if paid.pointer == paid.selected then None else paid.pointer)
  }

  function Single(ruleId: Option<Bytes32>): seq<Bytes32> {
    if ruleId.Some? then [ruleId.value] else []
  }

  /** A charge of one of its rules for this payment. */
  predicate ChargeFor(e: LaneEntry, paid: LaneEntry, ruleId: Bytes32) {
    && e.RuleUsed? && paid.SessionPaid? && e.owner == paid.owner && e.ruleId == ruleId
    && e.use.amount == paid.amount && e.use.now == paid.time
  }

  /** What a session spend adds to the log: one charge per rule, in order, then the payment. */
  predicate SpendEntries(more: seq<LaneEntry>, paid: LaneEntry) {
    && paid.SessionPaid?
    && var ids := RulesOf(paid);
    && |more| == |ids| + 1 && more[|ids|] == paid
    && forall j | 0 <= j < |ids| :: ChargeFor(more[j], paid, ids[j])
  }

  /** A spend logs no proof. */
  lemma SpendLogsNoProof(more: seq<LaneEntry>, paid: LaneEntry)
    requires SpendEntries(more, paid)
    ensures forall i | 0 <= i < |more| :: more[i].RuleUsed? || more[i].SessionPaid?
  {
    var ids := RulesOf(paid);
    forall i | 0 <= i < |more| ensures more[i].RuleUsed? || more[i].SessionPaid? {
      assert i < |ids| ==> ChargeFor(more[i], paid, ids[i]);
    }
  }

  function PaidEntry(s: State, key: Address, chosen: Option<Bytes32>, amount: int): LaneEntry
    requires key in s.lanes.sessions
  {
    var info := s.lanes.sessions[key];
    SessionPaid(key, info.user, amount, info.spendCap > 0, SelectedRule(info, chosen), PointerOf(s.lanes, info.user), s.now)
  }

  lemma SpendsLog(s: State, l1: Lanes, key: Address, chosen: Option<Bytes32>, amount: I128) returns (more: seq<LaneEntry>)
    requires Spends(s, l1, key, chosen, amount)
    ensures SpendEntries(more, PaidEntry(s, key, chosen, amount))
    ensures l1 == s.lanes.(sessions := l1.sessions, usage := l1.usage, log := s.lanes.log + more)
  {
    var info := s.lanes.sessions[key];
    var selected := SelectedRule(info, chosen);
    var m1, m2 :| RuleRolled(s, s.lanes, m1, info.user, selected, amount)
      && RuleRolled(s, m1, m2, info.user, GlobalRule(s.lanes, info.user, selected), amount)
      && l1 == SpentFrom(m2, key, info, selected, amount, s.now);
    more := SpentLog(s, m1, m2, key, info, selected, amount, PaidEntry(s, key, chosen, amount));
  }

  lemma SpentLog(s: State, m1: Lanes, m2: Lanes, key: Address, info: Session, selected: Option<Bytes32>, amount: I128, last: LaneEntry)
    returns (more: seq<LaneEntry>)
    requires last == SessionPaid(key, info.user, amount, info.spendCap > 0, selected, PointerOf(s.lanes, info.user), s.now)
    requires RuleRolled(s, s.lanes, m1, info.user, selected, amount)
    requires RuleRolled(s, m1, m2, info.user, GlobalRule(s.lanes, info.user, selected), amount)
    ensures SpendEntries(more, last)
    ensures var l1 := SpentFrom(m2, key, info, selected, amount, s.now);
      l1 == s.lanes.(sessions := l1.sessions, usage := l1.usage, log := s.lanes.log + more)
  {
    var other := GlobalRule(s.lanes, info.user, selected);
    var e1 := RuleEntry(s, s.lanes, m1, info.user, selected, amount);
    var e2 := RuleEntry(s, m1, m2, info.user, other, amount);
    more := e1 + e2 + [last];
    Regroup(s.lanes.log, e1, e2, [last]);
    EntriesShape(e1, e2, last, selected, other);
  }

  lemma EntriesShape(e1: seq<LaneEntry>, e2: seq<LaneEntry>, last: LaneEntry, selected: Option<Bytes32>, other: Option<Bytes32>)
    requires last.SessionPaid? && last.selected == selected && other == if last.pointer == selected then None else last.pointer
    requires if selected.None? then e1 == [] else |e1| == 1 && ChargeFor(e1[0], last, selected.value)
    requires if other.None? then e2 == [] else |e2| == 1 && ChargeFor(e2[0], last, other.value)
    ensures SpendEntries(e1 + e2 + [last], last)
  {
  }

  lemma Regroup<T>(a: seq<T>, b: seq<T>, c: seq<T>, d: seq<T>)
    ensures a + b + c + d == a + (b + c + d)
  {
  }

  lemma RuleEntry(s: State, l: Lanes, l1: Lanes, owner: Address, ruleId: Option<Bytes32>, amount: I128)
    returns (more: seq<LaneEntry>)
    requires RuleRolled(s, l, l1, owner, ruleId, amount)
    ensures if ruleId.None? then more == [] else
      more == [RuleUsed(owner, ruleId.value, R.Use(s.lanes.rules[(owner, ruleId.value)], amount, s.now))]
    ensures l1 == l.(usage := l1.usage, log := l.log + more)
  {
    if ruleId.None? {
      more := [];
      assert l.log + [] == l.log;
    } else {
      more := [RuleUsed(owner, ruleId.value, R.Use(s.lanes.rules[(owner, ruleId.value)], amount, s.now))];
    }
  }
}
