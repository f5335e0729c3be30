/**
 * Session keys and cleartext rules over whole runs: what a key has spent, that
 * every spend was bounded, and that each rule's usage record is exactly the
 * replay of the releases it was charged with.
 */
module Sessions {
  import opened Base
  import opened Bytes
  import opened Totals
  import opened VaultState
  import opened Vault
  import opened OpShapes
  import opened Execution
  import opened LaneSteps
  import R = PublicRules
  import S = Signals

  type SessionMap = map<Address, Session>
  type UsageMap = map<(Address, Bytes32), R.PublicUsage>

  // ---- Histories ----------------------------------------------------------

  /** What a key has paid since it was last opened. */
  function PaidSinceOpened(log: seq<LaneEntry>, key: Address): int {
    if log == [] then 0
    else
      var e := log[|log| - 1];
      if e.SessionOpened? && e.key == key then 0
      else PaidSinceOpened(log[..|log| - 1], key) + if e.SessionPaid? && e.key == key then e.amount else 0
  }

  /** How many payments a key made since it was opened. */
  function PaymentsSinceOpened(log: seq<LaneEntry>, key: Address): int {
    if log == [] then 0
    else
      var e := log[|log| - 1];
      if e.SessionOpened? && e.key == key then 0
      else PaymentsSinceOpened(log[..|log| - 1], key) + if e.SessionPaid? && e.key == key then 1 else 0
  }

  /** The releases charged to one rule, in order. */
  function ChargedTo(log: seq<LaneEntry>, owner: Address, ruleId: Bytes32): seq<R.Use> {
    if log == [] then []
    else
      var e := log[|log| - 1];
      ChargedTo(log[..|log| - 1], owner, ruleId) + if e.RuleUsed? && e.owner == owner && e.ruleId == ruleId then [e.use] else []
  }

  lemma PaidOne(log: seq<LaneEntry>, e: LaneEntry, key: Address)
    ensures PaidSinceOpened(log + [e], key) ==
      if e.SessionOpened? && e.key == key then 0
      else PaidSinceOpened(log, key) + if e.SessionPaid? && e.key == key then e.amount else 0
    ensures PaymentsSinceOpened(log + [e], key) ==
      if e.SessionOpened? && e.key == key then 0
      else PaymentsSinceOpened(log, key) + if e.SessionPaid? && e.key == key then 1 else 0
  {
    assert (log + [e])[..|log|] == log;
  }

  lemma ChargedOne(log: seq<LaneEntry>, e: LaneEntry, owner: Address, ruleId: Bytes32)
    ensures ChargedTo(log + [e], owner, ruleId) ==
      ChargedTo(log, owner, ruleId) + if e.RuleUsed? && e.owner == owner && e.ruleId == ruleId then [e.use] else []
  {
    assert (log + [e])[..|log|] == log;
  }

  // ---- The invariant ------------------------------------------------------

  /** The public pointer always names a rule that exists. */
  predicate PointersOk(rules: map<(Address, Bytes32), R.PublicRule>, pointer: map<Address, Bytes32>) {
    forall u | u in pointer :: (u, pointer[u]) in rules
  }

  predicate SessionOk(sessions: SessionMap, log: seq<LaneEntry>, key: Address)
    requires key in sessions
  {
    var info := sessions[key];
    && info.spent == PaidSinceOpened(log, key) >= 0 && info.releaseCount == PaymentsSinceOpened(log, key)
    && info.spendCap >= 0 && (info.spendCap > 0 ==> info.spent <= info.spendCap)
    && (info.spendCap > 0 || info.ruleId.Some?)
    && (info.serverHeld ==> info.spendCap > 0 && info.expiry > 0)
  }

  predicate SessionsOk(sessions: SessionMap, log: seq<LaneEntry>) {
    forall key {:trigger SessionOk(sessions, log, key)} | key in sessions :: SessionOk(sessions, log, key)
  }

  predicate Orderly(uses: seq<R.Use>, now: U64) {
    && (forall i | 0 <= i < |uses| :: uses[i].amount > 0 && uses[i].now <= now)
    && (forall i, j | 0 <= i < j < |uses| :: uses[i].now <= uses[j].now)
  }

  predicate UsageOk(usage: UsageMap, log: seq<LaneEntry>, now: U64, owner: Address, ruleId: Bytes32) {
    var uses := ChargedTo(log, owner, ruleId);
    Orderly(uses, now) && R.Replay(uses) == Ok(UsageIn(usage, owner, ruleId))
  }

  ghost predicate UsagesOk(usage: UsageMap, log: seq<LaneEntry>, now: U64) {
    forall owner, ruleId :: UsageOk(usage, log, now, owner, ruleId)
  }

  /** A payment was under a positive cap, or under a rule of its owner. */
  predicate Bounded(e: LaneEntry) {
    e.SessionPaid? ==> e.capped || RulesOf(e) != []
  }

  /** Right before payment `i` there is one charge for each of its rules, in order, and no other charge. */
  predicate ChargedExactly(log: seq<LaneEntry>, i: nat)
    requires i < |log| && log[i].SessionPaid?
  {
    var ids := RulesOf(log[i]);
    var first := i - |ids|;
    && first >= 0
    && (forall j | 0 <= j < |ids| :: ChargeFor(log[first + j], log[i], ids[j]))
    && (first > 0 ==> !log[first - 1].RuleUsed?)
  }

  /** Entry `p` is a payment whose charges reach back to entry `i`. */
  predicate Covers(log: seq<LaneEntry>, i: nat, p: nat) {
    p < |log| && log[p].SessionPaid? && p - |RulesOf(log[p])| <= i
  }

  /** Every payment is bounded and charged to exactly its rules, and every charge is one of those before some payment. */
  predicate EntryOk(log: seq<LaneEntry>, i: nat)
    requires i < |log|
  {
    match log[i]
    case SessionPaid(_, _, _, _, _, _, _) => Bounded(log[i]) && ChargedExactly(log, i)
    case RuleUsed(_, _, _) => Covers(log, i, i + 1) || Covers(log, i, i + 2)
    case _ => true
  }

  predicate EntriesOk(log: seq<LaneEntry>) {
    forall i {:trigger EntryOk(log, i)} | 0 <= i < |log| :: EntryOk(log, i)
  }

  /** The payments a rule stood over, selected or global or both: how many, and their sum. */
  predicate Under(e: LaneEntry, owner: Address, ruleId: Bytes32) {
    e.SessionPaid? && e.owner == owner && (e.selected == Some(ruleId) || e.pointer == Some(ruleId))
  }

  function PaymentsUnder(log: seq<LaneEntry>, owner: Address, ruleId: Bytes32): nat {
    if log == [] then 0
    else PaymentsUnder(log[..|log| - 1], owner, ruleId) + if Under(log[|log| - 1], owner, ruleId) then 1 else 0
  }

  function PaidUnder(log: seq<LaneEntry>, owner: Address, ruleId: Bytes32): int {
    if log == [] then 0
    else
      var e := log[|log| - 1];
      PaidUnder(log[..|log| - 1], owner, ruleId) + if Under(e, owner, ruleId) then e.amount else 0
  }

  /** The charges to a rule are those payments, each counted once. */
  ghost predicate Tallied(log: seq<LaneEntry>, owner: Address, ruleId: Bytes32) {
    var t := TallyOf(log, owner, ruleId);
    t.charges == t.payments && t.charged == t.paid
  }

  ghost predicate TalliesOk(log: seq<LaneEntry>) {
    forall owner, ruleId :: Tallied(log, owner, ruleId)
  }

  ghost predicate SessionsInv(l: Lanes, now: U64) {
    && PointersOk(l.rules, l.globalPublic)
    && SessionsOk(l.sessions, l.log)
    && UsagesOk(l.usage, l.log, now)
    && EntriesOk(l.log)
    && TalliesOk(l.log)
  }

  ghost function SessionsProperty(): LaneProperty {
    (l: Lanes, now: U64, ledger: nat) => SessionsInv(l, now)
  }

  // ---- Elementary changes -------------------------------------------------

  lemma EntriesAppend(log: seq<LaneEntry>, e: LaneEntry)
    requires EntriesOk(log) && !e.RuleUsed? && !e.SessionPaid?
    ensures EntriesOk(log + [e])
  {
    var log1 := log + [e];
    forall i | 0 <= i < |log1| ensures EntryOk(log1, i) {
      if i < |log| {
        assert EntryOk(log, i);
        EntryStays(log, [e], i);
      }
    }
  }

  /** What holds of an entry goes on holding as the log grows. */
  lemma EntryStays(log: seq<LaneEntry>, more: seq<LaneEntry>, i: nat)
    requires i < |log| && EntryOk(log, i)
    ensures EntryOk(log + more, i)
  {
    var log1 := log + more;
    assert i + 1 < |log| ==> log1[i + 1] == log[i + 1];
    assert i + 2 < |log| ==> log1[i + 2] == log[i + 2];
  }

  lemma PaymentCharged(log: seq<LaneEntry>, more: seq<LaneEntry>, paid: LaneEntry)
    requires SpendEntries(more, paid) && Bounded(paid) && (log != [] ==> !log[|log| - 1].RuleUsed?)
    ensures var i := |log| + |RulesOf(paid)|; i < |log + more| && (log + more)[i] == paid && EntryOk(log + more, i)
  {
    var ids := RulesOf(paid);
    var log1, n := log + more, |log|;
    assert log1[n + |ids|] == more[|ids|];
    forall j | 0 <= j < |ids| ensures ChargeFor(log1[n + j], paid, ids[j]) {
      assert log1[n + j] == more[j];
    }
    assert n > 0 ==> log1[n - 1] == log[n - 1];
  }

  lemma ChargesBelong(log: seq<LaneEntry>, more: seq<LaneEntry>, paid: LaneEntry, i: nat)
    requires SpendEntries(more, paid) && |log| <= i < |log| + |RulesOf(paid)|
    ensures i < |log + more| && EntryOk(log + more, i)
  {
    var ids := RulesOf(paid);
    var log1, n := log + more, |log|;
    assert log1[n + |ids|] == more[|ids|];
    assert log1[i] == more[i - n];
    assert ChargeFor(more[i - n], paid, ids[i - n]);
  }

  lemma EntriesOfSpend(log: seq<LaneEntry>, more: seq<LaneEntry>, paid: LaneEntry)
    requires EntriesOk(log) && SpendEntries(more, paid) && Bounded(paid)
    ensures EntriesOk(log + more)
  {
    var log1 := log + more;
    if log != [] {
      NoChargeLast(log);
    }
    forall i | 0 <= i < |log1| ensures EntryOk(log1, i) {
      if i < |log| {
        assert EntryOk(log, i);
        EntryStays(log, more, i);
      } else if i < |log| + |RulesOf(paid)| {
        ChargesBelong(log, more, paid, i);
      } else {
        PaymentCharged(log, more, paid);
      }
    }
  }

  lemma NoChargeLast(log: seq<LaneEntry>)
    requires EntriesOk(log) && log != []
    ensures !log[|log| - 1].RuleUsed?
  {
    assert EntryOk(log, |log| - 1);
  }

  /** Both tallies of a rule: the payments it stood over, and the charges made to it. */
  datatype Tally = Tally(payments: int, paid: int, charges: int, charged: int)

  ghost function TallyOf(log: seq<LaneEntry>, owner: Address, ruleId: Bytes32): Tally {
    var uses := ChargedTo(log, owner, ruleId);
    Tally(PaymentsUnder(log, owner, ruleId), PaidUnder(log, owner, ruleId), |uses|, Sum(uses, R.AmountOf()))
  }

  function Charged(t: Tally, hit: bool, amount: int): Tally {
    if hit then t.(charges := t.charges + 1, charged := t.charged + amount) else t
  }

  function Paid(t: Tally, hit: bool, amount: int): Tally {
    if hit then t.(payments := t.payments + 1, paid := t.paid + amount) else t
  }

  /** An entry moves at most one side of a tally. */
  lemma TallyOne(log: seq<LaneEntry>, e: LaneEntry, owner: Address, ruleId: Bytes32)
    ensures TallyOf(log + [e], owner, ruleId) ==
      if e.RuleUsed? then Charged(TallyOf(log, owner, ruleId), e.owner == owner && e.ruleId == ruleId, e.use.amount)
      else if e.SessionPaid? then Paid(TallyOf(log, owner, ruleId), Under(e, owner, ruleId), e.amount)
      else TallyOf(log, owner, ruleId)
  {
    assert (log + [e])[..|log|] == log;
    ChargedOne(log, e, owner, ruleId);
    var uses := ChargedTo(log, owner, ruleId);
    if e.RuleUsed? && e.owner == owner && e.ruleId == ruleId {
      SumSnoc(uses, e.use, R.AmountOf());
    } else {
      assert uses + [] == uses;
    }
  }

  lemma TallyBeside(log: seq<LaneEntry>, e: LaneEntry)
    requires TalliesOk(log) && !e.RuleUsed? && !e.SessionPaid?
    ensures TalliesOk(log + [e])
  {
    forall owner, ruleId ensures Tallied(log + [e], owner, ruleId) {
      assert Tallied(log, owner, ruleId);
      TallyOne(log, e, owner, ruleId);
    }
  }

  /** The charges of one spend are one for each rule over it, so both sides of every tally move alike. */
  lemma TallySpend(log: seq<LaneEntry>, more: seq<LaneEntry>, paid: LaneEntry)
    requires TalliesOk(log) && SpendEntries(more, paid)
    ensures TalliesOk(log + more)
  {
    var ids := RulesOf(paid);
    var charges := more[..|ids|];
    assert log + more == log + charges + [paid];
    RulesDistinct(paid);
    forall owner, ruleId ensures Tallied(log + more, owner, ruleId) {
      assert Tallied(log, owner, ruleId);
      RulesExactly(paid, owner, ruleId);
      ChargesTally(log, charges, ids, paid, owner, ruleId);
      TallyOne(log + charges, paid, owner, ruleId);
    }
  }

  lemma RulesExactly(paid: LaneEntry, owner: Address, ruleId: Bytes32)
    requires paid.SessionPaid?
    ensures Under(paid, owner, ruleId) <==> owner == paid.owner && ruleId in RulesOf(paid)
  {
  }

  predicate Different(ids: seq<Bytes32>) {
    forall i, j | 0 <= i < j < |ids| :: ids[i] != ids[j]
  }

  lemma RulesDistinct(paid: LaneEntry)
    requires paid.SessionPaid?
    ensures Different(RulesOf(paid))
  {
  }

  /** Charges of one amount to different rules of one owner. */
  predicate ChargesFor(charges: seq<LaneEntry>, ids: seq<Bytes32>, paid: LaneEntry) {
    |charges| == |ids| && Different(ids) && forall j | 0 <= j < |ids| :: ChargeFor(charges[j], paid, ids[j])
  }

  lemma {:induction false} ChargesTally(log: seq<LaneEntry>, charges: seq<LaneEntry>, ids: seq<Bytes32>, paid: LaneEntry,
                                        owner: Address, ruleId: Bytes32)
    requires paid.SessionPaid? && ChargesFor(charges, ids, paid)
    ensures TallyOf(log + charges, owner, ruleId)
      == Charged(TallyOf(log, owner, ruleId), owner == paid.owner && ruleId in ids, paid.amount)
  {
    if ids == [] {
      assert log + charges == log;
    } else {
      var n := |ids| - 1;
      var e := charges[n];
      ChargesTally(log, charges[..n], ids[..n], paid, owner, ruleId);
      assert ChargeFor(e, paid, ids[n]);
      assert ids == ids[..n] + [ids[n]];
      assert log + charges == log + charges[..n] + [e];
      TallyOne(log + charges[..n], e, owner, ruleId);
    }
  }

  /** An entry that opens, pays or charges nothing leaves sessions and usage as they are. */
  lemma BesideEntry(sessions: SessionMap, usage: UsageMap, log: seq<LaneEntry>, e: LaneEntry, now: U64)
    ensures SessionsOk(sessions, log) && !e.SessionOpened? && !e.SessionPaid? ==> SessionsOk(sessions, log + [e])
    ensures UsagesOk(usage, log, now) && !e.RuleUsed? ==> UsagesOk(usage, log + [e], now)
  {
    if SessionsOk(sessions, log) && !e.SessionOpened? && !e.SessionPaid? {
      forall key | key in sessions ensures SessionOk(sessions, log + [e], key) {
        assert SessionOk(sessions, log, key);
        PaidOne(log, e, key);
      }
    }
    if UsagesOk(usage, log, now) && !e.RuleUsed? {
      forall owner, ruleId ensures UsageOk(usage, log + [e], now, owner, ruleId) {
        assert UsageOk(usage, log, now, owner, ruleId);
        ChargedOne(log, e, owner, ruleId);
        assert ChargedTo(log, owner, ruleId) + [] == ChargedTo(log, owner, ruleId);
      }
    }
  }

  lemma {:induction false} BesideEntries(sessions: SessionMap, usage: UsageMap, log: seq<LaneEntry>, more: seq<LaneEntry>, now: U64)
    requires SessionsOk(sessions, log) && UsagesOk(usage, log, now) && EntriesOk(log) && TalliesOk(log)
    requires forall i | 0 <= i < |more| :: more[i].Consumed? || more[i].Rolled?
    ensures SessionsOk(sessions, log + more) && UsagesOk(usage, log + more, now) && EntriesOk(log + more) && TalliesOk(log + more)
  {
    if more == [] {
      assert log + more == log;
    } else {
      var init, e := more[..|more| - 1], more[|more| - 1];
      BesideEntries(sessions, usage, log, init, now);
      BesideEntry(sessions, usage, log + init, e, now);
      EntriesAppend(log + init, e);
      TallyBeside(log + init, e);
      assert log + more == (log + init) + [e];
    }
  }

  /** A rule is charged: its history grows by one release and its record is rolled accordingly. */
  lemma Charge(usage: UsageMap, log: seq<LaneEntry>, owner: Address, ruleId: Bytes32, use: R.Use, now: U64, u1: R.PublicUsage)
    requires UsagesOk(usage, log, now) && use.amount > 0 && use.now == now
    requires R.RollUsage(use.rule, UsageIn(usage, owner, ruleId), use.amount, now) == Ok(u1)
    ensures UsagesOk(usage[(owner, ruleId) := u1], log + [RuleUsed(owner, ruleId, use)], now)
  {
    var usage1, log1 := usage[(owner, ruleId) := u1], log + [RuleUsed(owner, ruleId, use)];
    forall o, r ensures UsageOk(usage1, log1, now, o, r) {
      assert UsageOk(usage, log, now, o, r);
      ChargedOne(log, RuleUsed(owner, ruleId, use), o, r);
      if o == owner && r == ruleId {
        ReplayOne(ChargedTo(log, o, r), UsageIn(usage, o, r), use, now, u1);
      } else {
        assert ChargedTo(log, o, r) + [] == ChargedTo(log, o, r);
      }
    }
  }

  lemma ReplayOne(uses: seq<R.Use>, u: R.PublicUsage, use: R.Use, now: U64, u1: R.PublicUsage)
    requires Orderly(uses, now) && R.Replay(uses) == Ok(u) && use.amount > 0 && use.now == now
    requires R.RollUsage(use.rule, u, use.amount, now) == Ok(u1)
    ensures Orderly(uses + [use], now) && R.Replay(uses + [use]) == Ok(u1)
  {
    assert (uses + [use])[..|uses|] == uses;
  }

  lemma RuleRolledKeeps(s: State, l: Lanes, l1: Lanes, owner: Address, ruleId: Option<Bytes32>, amount: I128)
    requires RuleRolled(s, l, l1, owner, ruleId, amount) && amount > 0
    requires ruleId.Some? ==> UsageOf(l, owner, ruleId.value) == UsageOf(s.lanes, owner, ruleId.value)
    ensures UsagesOk(l.usage, l.log, s.now) ==> UsagesOk(l1.usage, l1.log, s.now)
    ensures SessionsOk(l.sessions, l.log) ==> SessionsOk(l.sessions, l1.log)
    ensures l1.sessions == l.sessions
    ensures forall o, r | (ruleId.Some? ==> r != ruleId.value) :: UsageOf(l1, o, r) == UsageOf(l, o, r)
  {
    if ruleId.Some? {
      var rule := s.lanes.rules[(owner, ruleId.value)];
      var use := R.Use(rule, amount, s.now);
      if UsagesOk(l.usage, l.log, s.now) {
        Charge(l.usage, l.log, owner, ruleId.value, use, s.now,
               R.RollUsage(rule, UsageOf(s.lanes, owner, ruleId.value), amount, s.now).value);
      }
      BesideEntry(l.sessions, l.usage, l.log, RuleUsed(owner, ruleId.value, use), s.now);
    }
  }

  lemma SpentSession(sessions: SessionMap, log: seq<LaneEntry>, key: Address, info: Session, e: LaneEntry, info1: Session)
    requires SessionsOk(sessions, log) && key in sessions && info == sessions[key]
    requires e.SessionPaid? && e.key == key && e.amount > 0
    requires info.spendCap > 0 ==> info.spent + e.amount <= info.spendCap
    requires info1 == info.(spent := info.spent + e.amount, releaseCount := info.releaseCount + 1)
    ensures SessionsOk(sessions[key := info1], log + [e])
  {
    var sessions1 := sessions[key := info1];
    forall k | k in sessions1 ensures SessionOk(sessions1, log + [e], k) {
      assert SessionOk(sessions, log, k);
      PaidOne(log, e, k);
    }
  }

  lemma SpentFromKeeps(l: Lanes, key: Address, info: Session, selected: Option<Bytes32>, amount: I128, now: U64)
    requires key in l.sessions && info == l.sessions[key] && amount > 0
    requires info.spendCap > 0 ==> info.spent + amount <= info.spendCap
    requires SessionsOk(l.sessions, l.log) && UsagesOk(l.usage, l.log, now)
    ensures var l1 := SpentFrom(l, key, info, selected, amount, now);
      SessionsOk(l1.sessions, l1.log) && UsagesOk(l1.usage, l1.log, now)
  {
    var e := SessionPaid(key, info.user, amount, info.spendCap > 0, selected, PointerOf(l, info.user), now);
    BesideEntry(l.sessions, l.usage, l.log, e, now);
    SpentSession(l.sessions, l.log, key, info, e, info.(spent := info.spent + amount, releaseCount := info.releaseCount + 1));
  }

  lemma SpendKeeps(s: State, l1: Lanes, key: Address, chosen: Option<Bytes32>, amount: I128)
    requires SessionsInv(s.lanes, s.now) && Spends(s, l1, key, chosen, amount)
    ensures SessionsInv(l1, s.now)
  {
    var l := s.lanes;
    var info := l.sessions[key];
    var selected := SelectedRule(info, chosen);
    var more := SpendsLog(s, l1, key, chosen, amount);
    assert SessionOk(l.sessions, l.log, key);
    EntriesOfSpend(l.log, more, PaidEntry(s, key, chosen, amount));
    TallySpend(l.log, more, PaidEntry(s, key, chosen, amount));
    var m1, m2 :| RuleRolled(s, l, m1, info.user, selected, amount)
      && RuleRolled(s, m1, m2, info.user, GlobalRule(l, info.user, selected), amount)
      && l1 == SpentFrom(m2, key, info, selected, amount, s.now);
    RulesThenSpend(s, m1, m2, key, info, selected, amount);
  }

  lemma RulesThenSpend(s: State, m1: Lanes, m2: Lanes, key: Address, info: Session, selected: Option<Bytes32>, amount: I128)
    requires key in s.lanes.sessions && info == s.lanes.sessions[key] && amount > 0
    requires info.spendCap > 0 ==> info.spent + amount <= info.spendCap
    requires SessionsOk(s.lanes.sessions, s.lanes.log) && UsagesOk(s.lanes.usage, s.lanes.log, s.now)
    requires RuleRolled(s, s.lanes, m1, info.user, selected, amount)
    requires RuleRolled(s, m1, m2, info.user, GlobalRule(s.lanes, info.user, selected), amount)
    ensures var l1 := SpentFrom(m2, key, info, selected, amount, s.now);
      SessionsOk(l1.sessions, l1.log) && UsagesOk(l1.usage, l1.log, s.now)
  {
    RuleRolledKeeps(s, s.lanes, m1, info.user, selected, amount);
    RuleRolledKeeps(s, m1, m2, info.user, GlobalRule(s.lanes, info.user, selected), amount);
    SpentFromKeeps(m2, key, info, selected, amount, s.now);
  }

  lemma RegisterKeeps(l: Lanes, key: Address, info: Session, now: U64)
    requires SessionsInv(l, now) && key !in l.sessions && info.spent == 0 && info.releaseCount == 0
    requires info.spendCap >= 0 && (info.spendCap > 0 || info.ruleId.Some?)
    requires info.serverHeld ==> info.spendCap > 0 && info.expiry > 0
    ensures SessionsInv(l.(sessions := l.sessions[key := info], log := l.log + [SessionOpened(key)]), now)
  {
    var sessions1, log1 := l.sessions[key := info], l.log + [SessionOpened(key)];
    BesideEntry(l.sessions, l.usage, l.log, SessionOpened(key), now);
    EntriesAppend(l.log, SessionOpened(key));
    TallyBeside(l.log, SessionOpened(key));
    forall k | k in sessions1 ensures SessionOk(sessions1, log1, k) {
      assert k != key ==> SessionOk(l.sessions, l.log, k);
      PaidOne(l.log, SessionOpened(key), k);
    }
  }

  /** Pausing, updating and revoking keep every session in order. */
  lemma EditKeeps(h: Host, s: State, op: Op, p: Pending)
    requires SessionsInv(s.lanes, s.now) && EditsSession(op) && Begin(h, s, op) == Ok(p)
    ensures SessionsInv(p.s.lanes, s.now)
  {
    EditsSessionShape(h, s, op, p);
    var l, l1 := s.lanes, p.s.lanes;
    forall k | k in l1.sessions ensures SessionOk(l1.sessions, l1.log, k) {
      assert k in l.sessions && SessionOk(l.sessions, l.log, k);
    }
  }

  lemma ProofsKeep(h: Host, s: State, op: Op, p: Pending)
    requires SessionsInv(s.lanes, s.now) && (op.ReleaseBatch? || op.ReleaseKeyless?) && Begin(h, s, op) == Ok(p)
    ensures SessionsInv(p.s.lanes, s.now)
  {
    var x := ProvenLanes(h, s, op, p);
    if x != Unmoved {
      var more := ProofEntries(h, s, p.s.lanes, x);
      BesideEntries(s.lanes.sessions, s.lanes.usage, s.lanes.log, more, s.now);
    }
  }

  lemma ProofEntries(h: Host, s: State, l1: Lanes, x: Settlement) returns (more: seq<LaneEntry>)
    requires Settles(h, s, l1, x) && !x.Unmoved?
    ensures l1 == s.lanes.(nullifiers := l1.nullifiers, accums := l1.accums, log := s.lanes.log + more)
    ensures forall i | 0 <= i < |more| :: more[i].Consumed? || more[i].Rolled?
  {
    match x
    case One(c, q) => more := OneEntries(s.lanes, l1, s.now, s.ledger, c, q);
    case Two(c, q, gc, g) => more := TwoEntries(s.lanes, l1, s.now, s.ledger, c, q, gc, UnderGlobal(q, g));
  }

  lemma OneEntries(l: Lanes, l1: Lanes, now: U64, ledger: nat, c: Bytes32, q: S.Batch) returns (more: seq<LaneEntry>)
    requires S.WellFormed(q) && S.BatchSum(q) <= I128_MAX && OneEffect(l, l1, now, ledger, c, q)
    ensures l1 == l.(nullifiers := l1.nullifiers, accums := l1.accums, log := l.log + more)
    ensures forall i | 0 <= i < |more| :: more[i].Consumed? || more[i].Rolled?
  {
    more := [Consumed(q.nullifiers, [], q.validBefore, now, ledger)] + [RolledBy(c, q)];
    assert l1.log == l.log + more;
  }

  lemma TwoEntries(l: Lanes, l1: Lanes, now: U64, ledger: nat, c: Bytes32, q: S.Batch, gc: Bytes32, q2: S.Batch)
    returns (more: seq<LaneEntry>)
    requires S.WellFormed(q) && S.BatchSum(q) <= I128_MAX && S.WellFormed(q2) && S.BatchSum(q2) <= I128_MAX
    requires TwoEffects(l, l1, now, ledger, c, q, gc, q2)
    ensures l1 == l.(nullifiers := l1.nullifiers, accums := l1.accums, log := l.log + more)
    ensures forall i | 0 <= i < |more| :: more[i].Consumed? || more[i].Rolled?
  {
    var rolls := if gc == c then [RolledBy(gc, q2)] else [RolledBy(c, q), RolledBy(gc, q2)];
    more := [Consumed(q.nullifiers, q2.nullifiers, q.validBefore, now, ledger)] + rolls;
    assert l1.log == l.log + more;
  }

  lemma OffLogKeeps(h: Host, s: State, op: Op, p: Pending)
    requires SessionsInv(s.lanes, s.now) && OffLog(op) && Begin(h, s, op) == Ok(p)
    ensures SessionsInv(p.s.lanes, s.now)
  {
    OffLogShape(h, s, op, p);
    if EditsRules(op) {
      PointersKept(h, s, op, p);
    }
  }

  lemma PointersKept(h: Host, s: State, op: Op, p: Pending)
    requires PointersOk(s.lanes.rules, s.lanes.globalPublic) && EditsRules(op) && Begin(h, s, op) == Ok(p)
    ensures PointersOk(p.s.lanes.rules, p.s.lanes.globalPublic)
  {
    if op.SetPublicRule? {
      SetRuleShape(h, s, op.user, op.ruleId, op.rule, p);
    } else if op.ClearPublicRule? {
      ClearRuleShape(h, s, op.user, op.ruleId, p);
    } else if op.SetGlobalPublic? {
      SetPointerShape(h, s, op.user, op.ruleId, p);
    } else {
      ClearPointerShape(h, s, op.user, p);
    }
  }

  lemma Kept(h: Host, s: State, op: Op, p: Pending)
    requires SessionsInv(s.lanes, s.now) && Begin(h, s, op) == Ok(p)
    ensures SessionsInv(p.s.lanes, s.now)
  {
    if OffLog(op) {
      OffLogKeeps(h, s, op, p);
    } else if EditsSession(op) {
      EditKeeps(h, s, op, p);
    } else if op.RegisterSession? {
      RegisterSessionShape(h, s, op, p);
      RegisterKeeps(s.lanes, op.session, p.s.lanes.sessions[op.session], s.now);
    } else if op.ReleaseSession? {
      ReleaseSessionLanes(h, s, op.session, op.payee, op.amount, op.chosenRule, p);
      SpendKeeps(s, p.s.lanes, op.session, op.chosenRule, op.amount);
    } else {
      ProofsKeep(h, s, op, p);
    }
  }

  lemma KeptOverTime()
    ensures KeptByTime(SessionsProperty()) && KeptByLapse(SessionsProperty())
  {
    forall l: Lanes, now: U64, now1: U64 | SessionsInv(l, now) && now <= now1 ensures SessionsInv(l, now1) {
      forall owner, ruleId ensures UsageOk(l.usage, l.log, now1, owner, ruleId) {
        assert UsageOk(l.usage, l.log, now, owner, ruleId);
      }
    }
  }

  // ---- Main results -------------------------------------------------------

  lemma Holds(h: Host, s0: State, steps: seq<Step>)
    requires Initial(h, s0)
    ensures var r := Run(h, s0, steps).s; SessionsInv(r.lanes, r.now)
  {
    var P := SessionsProperty();
    forall s: State, op | P(s.lanes, s.now, s.ledger) && Begin(h, s, op).Ok?
      ensures P(Begin(h, s, op).value.s.lanes, s.now, s.ledger)
    {
      Kept(h, s, op, Begin(h, s, op).value);
    }
    KeptOverTime();
    assert R.Replay([]) == Ok(R.FreshUsage);
    LanesKeep(h, P, s0, steps);
  }

  /** A key's record is what it paid since it was opened, and never more than its positive cap. */
  lemma SessionSafety(h: Host, s0: State, steps: seq<Step>, key: Address)
    requires Initial(h, s0) && key in Run(h, s0, steps).s.lanes.sessions
    ensures var l := Run(h, s0, steps).s.lanes; var info := l.sessions[key];
      && info.spent == PaidSinceOpened(l.log, key) && info.releaseCount == PaymentsSinceOpened(l.log, key)
      && (info.spendCap > 0 ==> PaidSinceOpened(l.log, key) <= info.spendCap)
      && (info.spendCap > 0 || info.ruleId.Some?)
      && (info.serverHeld ==> info.spendCap > 0 && info.expiry > 0)
  {
    Holds(h, s0, steps);
    var l := Run(h, s0, steps).s.lanes;
    assert SessionOk(l.sessions, l.log, key);
  }

  /**
   * Every payment by a key was bounded by a positive cap or by a rule of its
   * owner, and charged once to the selected rule and once to the owner's global
   * rule, or once in all if they are the same.
   */
  lemma EverySpendBounded(h: Host, s0: State, steps: seq<Step>)
    requires Initial(h, s0)
    ensures var l := Run(h, s0, steps).s.lanes;
      EntriesOk(l.log) && PointersOk(l.rules, l.globalPublic)
  {
    Holds(h, s0, steps);
  }

  /** Every charge was made under this rule. */
  predicate Unchanged(uses: seq<R.Use>, rule: R.PublicRule) {
    forall i | 0 <= i < |uses| :: uses[i].rule == rule
  }

  lemma SteadyUses(uses: seq<R.Use>, rule: R.PublicRule, now: U64)
    requires Unchanged(uses, rule) && Orderly(uses, now) && now < U64_MAX
    ensures R.Steady(rule, uses)
  {
  }

  /** The bounds an unchanged rule puts on any interval of its windows' length. */
  predicate WindowsBounded(uses: seq<R.Use>, rule: R.PublicRule, t: int) {
    && (rule.rollingCap > 0 && rule.rollingWindow > 0 ==>
          R.SpentIn(uses, t, t + rule.rollingWindow) <= 2 * rule.rollingCap)
    && (rule.velocityMax > 0 && rule.velocityWindow > 0 ==>
          R.CountIn(uses, t, t + rule.velocityWindow) <= 2 * rule.velocityMax)
  }

  /** The bound it puts on a lifetime. */
  predicate LifetimeBounded(uses: seq<R.Use>, rule: R.PublicRule, lifetime: int, now: int) {
    rule.rollingCap > 0 && rule.rollingWindow > 0 && uses != [] ==>
      lifetime <= rule.rollingCap * (1 + (now - uses[0].now) / rule.rollingWindow)
  }

  predicate RuleBounded(l: Lanes, now: U64, owner: Address, ruleId: Bytes32, rule: R.PublicRule, t: int) {
    var uses := ChargedTo(l.log, owner, ruleId);
    && UsageOf(l, owner, ruleId).lifetimeCount == |uses|
    && WindowsBounded(uses, rule, t)
    && LifetimeBounded(uses, rule, UsageOf(l, owner, ruleId).lifetimeSpent, now)
  }

  /** A rule that never changed bounds every interval of its window's length, in every reachable state. */
  lemma RuleBounds(h: Host, s0: State, steps: seq<Step>, owner: Address, ruleId: Bytes32, rule: R.PublicRule, t: int)
    requires Initial(h, s0) && Run(h, s0, steps).s.now < U64_MAX
    requires Unchanged(ChargedTo(Run(h, s0, steps).s.lanes.log, owner, ruleId), rule)
    ensures RuleBounded(Run(h, s0, steps).s.lanes, Run(h, s0, steps).s.now, owner, ruleId, rule, t)
  {
    Holds(h, s0, steps);
    var r := Run(h, s0, steps).s;
    assert UsageOk(r.lanes.usage, r.lanes.log, r.now, owner, ruleId);
    RuleBoundsOn(r.lanes, r.now, owner, ruleId, rule, t);
  }

  lemma RuleBoundsOn(l: Lanes, now: U64, owner: Address, ruleId: Bytes32, rule: R.PublicRule, t: int)
    requires UsageOk(l.usage, l.log, now, owner, ruleId) && now < U64_MAX
    requires Unchanged(ChargedTo(l.log, owner, ruleId), rule)
    ensures RuleBounded(l, now, owner, ruleId, rule, t)
  {
    var uses := ChargedTo(l.log, owner, ruleId);
    SteadyUses(uses, rule, now);
    R.LifetimeCounts(uses);
    WindowsOn(uses, rule, t);
    LifetimeOn(uses, rule, now);
  }

  lemma WindowsOn(uses: seq<R.Use>, rule: R.PublicRule, t: int)
    requires R.Steady(rule, uses) && R.Replay(uses).Ok?
    ensures WindowsBounded(uses, rule, t)
  {
    R.WindowBound(rule, uses, t);
  }

  lemma LifetimeOn(uses: seq<R.Use>, rule: R.PublicRule, now: int)
    requires R.Steady(rule, uses) && R.Replay(uses).Ok? && (uses != [] ==> uses[|uses| - 1].now <= now)
    ensures LifetimeBounded(uses, rule, R.Replay(uses).value.lifetimeSpent, now)
  {
    if rule.rollingCap > 0 && rule.rollingWindow > 0 && uses != [] {
      R.LifetimeBoundBy(rule, uses, now);
    }
  }

  /** Each rule's windows are where the payments charged to it leave them. */
  lemma WindowsTold(h: Host, s0: State, steps: seq<Step>, owner: Address, ruleId: Bytes32)
    requires Initial(h, s0)
    ensures var l := Run(h, s0, steps).s.lanes; var u, uses := UsageOf(l, owner, ruleId), ChargedTo(l.log, owner, ruleId);
      && u.anchorR2 == R.SpendingSince(uses) && u.windowSpent == R.SpentSince(uses)
      && u.anchorR7 == R.CountingSince(uses) && u.windowCount == R.CountedSince(uses)
  {
    Holds(h, s0, steps);
    var r := Run(h, s0, steps).s;
    assert UsageOk(r.lanes.usage, r.lanes.log, r.now, owner, ruleId);
    R.RecordExact(ChargedTo(r.lanes.log, owner, ruleId));
  }

  /** Each rule's lifetime totals are the number and the sum of the payments it was selected or global for. */
  lemma LifetimeTotals(h: Host, s0: State, steps: seq<Step>, owner: Address, ruleId: Bytes32)
    requires Initial(h, s0)
    ensures var l := Run(h, s0, steps).s.lanes;
      && UsageOf(l, owner, ruleId).lifetimeSpent == PaidUnder(l.log, owner, ruleId)
      && UsageOf(l, owner, ruleId).lifetimeCount == PaymentsUnder(l.log, owner, ruleId)
  {
    Holds(h, s0, steps);
    var r := Run(h, s0, steps).s;
    assert UsageOk(r.lanes.usage, r.lanes.log, r.now, owner, ruleId);
    assert Tallied(r.lanes.log, owner, ruleId);
    R.LifetimeCounts(ChargedTo(r.lanes.log, owner, ruleId));
  }
}
