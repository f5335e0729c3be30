/**
 * Where the window bound of a cleartext rule ends: in the last representable
 * second of ledger time a key can spend any multiple of the rule's cap. Every
 * vault that reaches that second has such a run.
 */
module LastSecond {
  import opened Base
  import opened Bytes
  import opened VaultState
  import opened BookKeeping
  import opened Vault
  import opened Execution
  import M = Mirror
  import N = Sessions
  import R = PublicRules

  /** A key bound to one rule, and the payee it pays the whole cap each time. */
  datatype Lane = Lane(user: Address, key: Address, payee: Address, asset: Address, ruleId: Bytes32, rule: R.PublicRule)

  function Payment(x: Lane): Call {
    Call(ReleaseSession(x.key, x.payee, x.rule.rollingCap, None), [])
  }

  function KeyRecord(x: Lane, spent: nat, count: nat): Session {
    Session(x.user, x.asset, 0, 0, Some(x.ruleId), false, false, spent, count)
  }

  /** The rule is in force and lets this payment through. */
  predicate RuleReady(x: Lane, l: Lanes, spent: nat, count: nat) {
    && x.rule.rollingCap > 0 && x.rule.rollingWindow > 0
    && (x.user, x.ruleId) in l.rules && l.rules[(x.user, x.ruleId)] == x.rule && x.user !in l.globalPublic
    && R.Meets(x.rule, x.payee, x.rule.rollingCap, U64_MAX)
    && x.key in l.sessions && l.sessions[x.key] == KeyRecord(x, spent, count)
    && var u := UsageOf(l, x.user, x.ruleId);
    && u.lifetimeSpent == spent && u.lifetimeCount == count && (count == 0 ==> u == R.FreshUsage)
  }

  /** The last second, with `left` still to be spent. */
  predicate Ready(h: Host, x: Lane, s: State, left: nat, spent: nat, count: nat) {
    match x
    case Lane(user, key, _, asset, _, _) =>
      && s.now == U64_MAX && !s.ctl.paused && s.ctl.feeConfig == None && key != h.vault
      && RuleReady(x, s.lanes, spent, count) && spent + left <= I128_MAX
      && (user, asset) in s.books.accounts && s.books.accounts[(user, asset)] == Account(left, 0, spent + left, spent)
      && left <= Held(s.books.tokens, h.vault, asset)
  }

  // ---- One payment --------------------------------------------------------

  function LanesAfter(x: Lane, l: Lanes, spent: nat, count: nat): Lanes
    requires R.RollUsage(x.rule, UsageOf(l, x.user, x.ruleId), x.rule.rollingCap, U64_MAX).Ok?
  {
    var cap := x.rule.rollingCap;
    var u := R.RollUsage(x.rule, UsageOf(l, x.user, x.ruleId), cap, U64_MAX).value;
    SpentFrom(UseRule(l, x.rule, U64_MAX, x.user, x.ruleId, u, cap), x.key, KeyRecord(x, spent, count), Some(x.ruleId), cap, U64_MAX)
  }

  lemma RuleRolls(x: Lane, l: Lanes, spent: nat, count: nat)
    requires RuleReady(x, l, spent, count) && spent + x.rule.rollingCap <= I128_MAX && count < U32_MAX
    ensures R.RollUsage(x.rule, UsageOf(l, x.user, x.ruleId), x.rule.rollingCap, U64_MAX).Ok?
    ensures RuleReady(x, LanesAfter(x, l, spent, count), spent + x.rule.rollingCap, count + 1)
  {
    R.AlwaysLapsed(x.rule, UsageOf(l, x.user, x.ruleId));
  }

  lemma PaymentBegins(h: Host, x: Lane, s: State, left: nat, spent: nat, count: nat)
    requires Ready(h, x, s, left, spent, count) && x.rule.rollingCap <= left && count < U32_MAX
    requires R.RollUsage(x.rule, UsageOf(s.lanes, x.user, x.ruleId), x.rule.rollingCap, U64_MAX).Ok?
    ensures var r := BeginReleaseSession(h, s, x.key, x.payee, x.rule.rollingCap, None);
      r == Ok(Pending(s.(books := SpendDirect(s.books, x.user, x.asset, x.rule.rollingCap), lanes := LanesAfter(x, s.lanes, spent, count)),
                      Due(x.asset, None, [Fixed(x.payee, x.rule.rollingCap, 0, AtRate(None))], Emit([Other]))))
  {
    var cap := x.rule.rollingCap;
    var u := R.RollUsage(x.rule, UsageOf(s.lanes, x.user, x.ruleId), cap, U64_MAX).value;
    R.ClausesExact(x.rule, x.payee, cap, U64_MAX);
    assert CheckRule(s, x.user, x.ruleId, x.payee, cap) == Ok(u);
    assert RollBothRules(s, x.user, Some(x.ruleId), x.payee, cap) == Ok(UseRule(s.lanes, x.rule, U64_MAX, x.user, x.ruleId, u, cap));
  }

  lemma PayoutMoves(h: Host, s: State, due: Due, to: Address, net: nat, rate: Rate)
    requires due.lines == [Fixed(to, net, 0, rate)] && net <= Held(s.books.tokens, h.vault, due.asset)
    ensures var r := Transfer(h, s, due);
      && r.Ok? && r.value == s.(books := r.value.books) && r.value.books.accounts == s.books.accounts
      && Held(r.value.books.tokens, h.vault, due.asset) >= Held(s.books.tokens, h.vault, due.asset) - net
  {
    M.PayoutLeaves(h, s, due, to, net, rate);
    MoveHolds(s.books, h.vault, to, due.asset, net);
  }

  lemma MoveHolds(b: Books, from: Address, to: Address, asset: Address, amount: nat)
    ensures Held(Move(b, from, to, asset, amount).tokens, from, asset) >= Held(b.tokens, from, asset) - amount
  {
  }

  lemma OnePayment(h: Host, x: Lane, s: State, left: nat, spent: nat, count: nat) returns (s1: State)
    requires Ready(h, x, s, left, spent, count) && x.rule.rollingCap <= left && count < U32_MAX
    ensures Exec(h, s, Payment(x)).r == Ok(s1)
    ensures Ready(h, x, s1, left - x.rule.rollingCap, spent + x.rule.rollingCap, count + 1)
    ensures N.ChargedTo(s1.lanes.log, x.user, x.ruleId)
      == N.ChargedTo(s.lanes.log, x.user, x.ruleId) + [R.Use(x.rule, x.rule.rollingCap, U64_MAX)]
  {
    var s0 := Noted(s, ReleaseSession(x.key, x.payee, x.rule.rollingCap, None));
    RuleRolls(x, s.lanes, spent, count);
    PaymentBegins(h, x, s0, left, spent, count);
    var p := BeginReleaseSession(h, s0, x.key, x.payee, x.rule.rollingCap, None).value;
    s1 := PayoutSettles(h, p.s, p.due, x.payee, x.rule.rollingCap);
    LogAfter(x, s.lanes, spent, count);
  }

  /** Settling the one payout changes only tokens and histories. */
  lemma PayoutSettles(h: Host, s: State, due: Due, to: Address, net: nat) returns (s1: State)
    requires due.lines == [Fixed(to, net, 0, AtRate(None))] && due.fin == Emit([Other]) && net <= Held(s.books.tokens, h.vault, due.asset)
    ensures Settle(h, s, due, []).r == Ok(s1)
    ensures s1 == s.(books := s1.books) && s1.books.accounts == s.books.accounts
    ensures Held(s1.books.tokens, h.vault, due.asset) >= Held(s.books.tokens, h.vault, due.asset) - net
  {
    PayoutMoves(h, s, due, to, net, AtRate(None));
    var s2 := Transfer(h, s, due).value;
    M.OneTransfer(h, s, due, s2);
    s1 := s2.(books := Publish(s2.books, [Other]));
  }

  lemma LogAfter(x: Lane, l: Lanes, spent: nat, count: nat)
    requires R.RollUsage(x.rule, UsageOf(l, x.user, x.ruleId), x.rule.rollingCap, U64_MAX).Ok?
    ensures N.ChargedTo(LanesAfter(x, l, spent, count).log, x.user, x.ruleId)
      == N.ChargedTo(l.log, x.user, x.ruleId) + [R.Use(x.rule, x.rule.rollingCap, U64_MAX)]
  {
    var cap := x.rule.rollingCap;
    var info := KeyRecord(x, spent, count);
    var used, use := l.log + [RuleUsed(x.user, x.ruleId, R.Use(x.rule, cap, U64_MAX))], R.Use(x.rule, cap, U64_MAX);
    var paid := SessionPaid(x.key, x.user, cap, false, Some(x.ruleId), PointerOf(l, x.user), U64_MAX);
    N.ChargedOne(l.log, RuleUsed(x.user, x.ruleId, use), x.user, x.ruleId);
    N.ChargedOne(used, paid, x.user, x.ruleId);
    assert LanesAfter(x, l, spent, count).log == used + [paid];
    assert N.ChargedTo(used, x.user, x.ruleId) + [] == N.ChargedTo(used, x.user, x.ruleId);
  }

  // ---- Any number of payments ---------------------------------------------

  function Times(n: nat, x: nat): nat {
    if n == 0 then 0 else x + Times(n - 1, x)
  }

  lemma {:induction false} TimesIs(n: nat, x: nat)
    ensures Times(n, x) == n * x
  {
    if n > 0 {
      TimesIs(n - 1, x);
      R.OneMoreTimes(n, x);
    }
  }

  /** The rule was charged exactly this often, the whole cap each time, in the last second. */
  predicate ChargedTimes(x: Lane, s: State, n: nat) {
    match x
    case Lane(user, _, _, _, ruleId, rule) => N.ChargedTo(s.lanes.log, user, ruleId) == R.LastSecondUses(rule, n)
  }

  lemma PaymentCharges(h: Host, x: Lane, s: State, left: nat, spent: nat, count: nat) returns (s1: State)
    requires Ready(h, x, s, left, spent, count) && x.rule.rollingCap <= left && count < U32_MAX && ChargedTimes(x, s, count)
    ensures Exec(h, s, Payment(x)).r == Ok(s1)
    ensures Ready(h, x, s1, left - x.rule.rollingCap, spent + x.rule.rollingCap, count + 1) && ChargedTimes(x, s1, count + 1)
  {
    s1 := OnePayment(h, x, s, left, spent, count);
  }

  /** Some run from `s0` ends in `s`. */
  ghost predicate Reached(h: Host, s0: State, s: State) {
    exists steps :: Run(h, s0, steps).s == s
  }

  lemma ReachedByCall(h: Host, s0: State, s: State, c: Call, s1: State)
    requires Reached(h, s0, s) && Exec(h, s, c).r == Ok(s1)
    ensures Reached(h, s0, s1)
  {
    var steps :| Run(h, s0, steps).s == s;
    M.OneMoreCall(h, s0, steps, c, s1);
  }

  /** Some run from `s0` has made `done` payments and can make `n` more. */
  ghost predicate Underway(h: Host, x: Lane, s0: State, s: State, n: nat, spent: nat, done: nat) {
    match x
    case Lane(_, _, _, _, _, rule) =>
      rule.rollingCap > 0 && Reached(h, s0, s) && ChargedTimes(x, s, done) && Ready(h, x, s, Times(n, rule.rollingCap), spent, done)
  }

  lemma PaymentReaches(h: Host, x: Lane, s0: State, s: State, n: nat, spent: nat, done: nat) returns (s1: State)
    requires n > 0 && done < U32_MAX && Underway(h, x, s0, s, n, spent, done)
    ensures x.rule.rollingCap > 0 && Underway(h, x, s0, s1, n - 1, spent + x.rule.rollingCap, done + 1)
  {
    s1 := PaymentCharges(h, x, s, Times(n, x.rule.rollingCap), spent, done);
    ReachedByCall(h, s0, s, Payment(x), s1);
  }

  lemma {:induction false} Payments(h: Host, x: Lane, s0: State, s: State, n: nat, spent: nat, done: nat) returns (s2: State, all: nat)
    requires done + n <= U32_MAX && Underway(h, x, s0, s, n, spent, done)
    ensures Underway(h, x, s0, s2, 0, all, done + n)
    decreases n
  {
    if n == 0 {
      s2, all := s, spent;
    } else {
      var s1 := PaymentReaches(h, x, s0, s, n, spent, done);
      s2, all := Payments(h, x, s0, s1, n - 1, spent + x.rule.rollingCap, done + 1);
    }
  }

  // ---- The run ------------------------------------------------------------

  lemma RuleRuns(h: Host, s: State, x: Lane)
    requires x.user != h.vault
    requires x.rule.perPaymentMax >= 0 && x.rule.perPaymentMin >= 0 && x.rule.rollingCap >= 0 && x.rule.denylistThreshold >= 0
    requires |x.rule.allowlist| <= MAX_SESSION_ALLOWLIST && |x.rule.denylist| <= MAX_SESSION_ALLOWLIST
    ensures Exec(h, s, Call(SetPublicRule(x.user, x.ruleId, x.rule), [])).r
      == Ok(Noted(s, SetPublicRule(x.user, x.ruleId, x.rule)).(lanes := s.lanes.(rules := s.lanes.rules[(x.user, x.ruleId) := x.rule])))
  {
    var s0 := Noted(s, SetPublicRule(x.user, x.ruleId, x.rule));
    var s1 := s0.(lanes := s.lanes.(rules := s.lanes.rules[(x.user, x.ruleId) := x.rule]));
    assert BeginSetPublicRule(h, s0, x.user, x.ruleId, x.rule) == Ok(Pending(s1, Nothing));
    assert s1.(books := Publish(s1.books, [])) == s1;
  }

  lemma KeyRuns(h: Host, s: State, x: Lane)
    requires !s.ctl.paused && x.asset in s.ctl.supported && x.user != h.vault && x.key !in s.lanes.sessions
    requires x.user in s.books.configs && (x.user, x.ruleId) in s.lanes.rules
    ensures Exec(h, s, Call(RegisterSession(x.user, x.key, x.asset, 0, 0, Some(x.ruleId), false), [])).r
      == Ok(Noted(s, RegisterSession(x.user, x.key, x.asset, 0, 0, Some(x.ruleId), false)).(
              lanes := s.lanes.(sessions := s.lanes.sessions[x.key := KeyRecord(x, 0, 0)], log := s.lanes.log + [SessionOpened(x.key)])))
  {
    var s0 := Noted(s, RegisterSession(x.user, x.key, x.asset, 0, 0, Some(x.ruleId), false));
    var s1 := s0.(lanes := s.lanes.(sessions := s.lanes.sessions[x.key := KeyRecord(x, 0, 0)], log := s.lanes.log + [SessionOpened(x.key)]));
    assert BeginRegisterSession(h, s0, x.user, x.key, x.asset, 0, 0, Some(x.ruleId), false) == Ok(Pending(s1, Nothing));
    assert s1.(books := Publish(s1.books, [])) == s1;
  }

  /** What a fresh vault in its last second, the key's owner and the rule need for this. */
  predicate Possible(h: Host, x: Lane, s: State, total: int) {
    && s.now == U64_MAX && !s.ctl.paused && x.asset in s.ctl.supported && x.user != h.vault && x.key != h.vault
    && 0 < total <= I128_MAX && total <= Held(s.books.tokens, x.user, x.asset)
    && x.rule.rollingCap > 0 && x.rule.rollingWindow > 0
    && x.rule.perPaymentMax >= 0 && x.rule.perPaymentMin >= 0 && x.rule.denylistThreshold >= 0
    && |x.rule.allowlist| <= MAX_SESSION_ALLOWLIST && |x.rule.denylist| <= MAX_SESSION_ALLOWLIST
    && R.Meets(x.rule, x.payee, x.rule.rollingCap, U64_MAX)
  }

  /** After the deposit. */
  lemma Deposited(h: Host, x: Lane, s0: State, total: I128) returns (s1: State)
    requires Initial(h, s0) && Possible(h, x, s0, total)
    ensures Exec(h, s0, Call(Deposit(x.user, x.asset, total), [])).r == Ok(s1)
    ensures s1 == s0.(books := s1.books, notes := s1.notes) && x.user in s1.books.configs
    ensures (x.user, x.asset) in s1.books.accounts && s1.books.accounts[(x.user, x.asset)] == Account(total, 0, total, 0)
    ensures total <= Held(s1.books.tokens, h.vault, x.asset)
  {
    M.DepositRuns(h, s0, x.user, x.asset, total);
    s1 := Noted(s0, Deposit(x.user, x.asset, total)).(books := Credit(Move(s0.books, x.user, h.vault, x.asset, total), x.user, x.asset, total));
    MoveReaches(s0.books, x.user, h.vault, x.asset, total);
    M.MoveLeaves(s0.books, x.user, h.vault, x.asset, total);
  }

  lemma MoveReaches(b: Books, from: Address, to: Address, asset: Address, amount: nat)
    requires from != to && Held(b.tokens, to, asset) == 0
    ensures Held(Move(b, from, to, asset, amount).tokens, to, asset) == amount
  {
  }

  /** The owner deposits, sets the rule and opens the key. */
  lemma SetsUp(h: Host, x: Lane, s0: State, total: I128) returns (steps: seq<Step>)
    requires Initial(h, s0) && Possible(h, x, s0, total)
    ensures Ready(h, x, Run(h, s0, steps).s, total, 0, 0)
    ensures ChargedTimes(x, Run(h, s0, steps).s, 0)
  {
    var c1, c2 := Call(Deposit(x.user, x.asset, total), []), Call(SetPublicRule(x.user, x.ruleId, x.rule), []);
    var c3 := Call(RegisterSession(x.user, x.key, x.asset, 0, 0, Some(x.ruleId), false), []);
    var s1 := Deposited(h, x, s0, total);
    RuleRuns(h, s1, x);
    var s2 := Noted(s1, SetPublicRule(x.user, x.ruleId, x.rule)).(lanes := s1.lanes.(rules := s1.lanes.rules[(x.user, x.ruleId) := x.rule]));
    KeyRuns(h, s2, x);
    var s3 := Noted(s2, RegisterSession(x.user, x.key, x.asset, 0, 0, Some(x.ruleId), false)).(
                lanes := s2.lanes.(sessions := s2.lanes.sessions[x.key := KeyRecord(x, 0, 0)], log := s2.lanes.log + [SessionOpened(x.key)]));
    M.ThreeCalls(h, s0, c1, c2, c3, s1, s2, s3);
    steps := [Invoke(c1), Invoke(c2), Invoke(c3)];
    OnlyOpened(x);
    assert s3.lanes.log == [SessionOpened(x.key)];
  }

  lemma OnlyOpened(x: Lane)
    ensures N.ChargedTo([SessionOpened(x.key)], x.user, x.ruleId) == []
  {
    N.ChargedOne([], SessionOpened(x.key), x.user, x.ruleId);
    assert [] + [SessionOpened(x.key)] == [SessionOpened(x.key)];
  }

  /**
   * From every fresh vault in the last representable second there is a run in
   * which one key spends `n` times the cap of its rule within that second, for
   * any `n` the widths and the deposit have room for.
   */
  lemma CapFailsAtLastSecond(h: Host, x: Lane, s0: State, n: nat)
    requires Initial(h, s0) && 0 < n <= U32_MAX && Possible(h, x, s0, n * x.rule.rollingCap)
    ensures exists steps :: SpendsInLastSecond(x, Run(h, s0, steps).s.lanes.log, n * x.rule.rollingCap)
  {
    TimesIs(n, x.rule.rollingCap);
    var steps := SetsUp(h, x, s0, n * x.rule.rollingCap);
    var s1 := Run(h, s0, steps).s;
    assert Reached(h, s0, s1);
    var s2, all := Payments(h, x, s0, s1, n, 0, 0);
    var more :| Run(h, s0, more).s == s2;
    ChargedSpends(x, Run(h, s0, more).s, n);
  }

  lemma ChargedSpends(x: Lane, s: State, n: nat)
    requires x.rule.rollingCap > 0 && x.rule.rollingWindow > 0 && n <= U32_MAX && n * x.rule.rollingCap <= I128_MAX
    requires R.Meets(x.rule, x.payee, x.rule.rollingCap, U64_MAX) && ChargedTimes(x, s, n)
    ensures SpendsInLastSecond(x, s.lanes.log, n * x.rule.rollingCap)
  {
    R.WindowBoundFailsAtLastSecond(x.rule, n);
  }

  predicate SpendsInLastSecond(x: Lane, log: seq<LaneEntry>, amount: int) {
    R.SpentIn(N.ChargedTo(log, x.user, x.ruleId), U64_MAX, U64_MAX + x.rule.rollingWindow) == amount
  }
}
