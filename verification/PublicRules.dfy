/**
 * Cleartext spending rules: the clauses checked on one release, and the two
 * tumbling windows (rolling spend R2, velocity R7) the vault rolls itself.
 */
module PublicRules {
  import opened Base
  import opened Totals

  type Address = nat

  datatype RuleError =
    | PayeeDenied | PayeeNotAllowed | CapExceeded | BelowMinPayment | OutsideCalendar
    | RollingCapExceeded | VelocityExceeded | AmountOverflow | CounterOverflow

  datatype PublicPayee = PublicPayee(addr: Address, cap: I128)

  datatype PublicRule = PublicRule(
    perPaymentMax: I128,
    perPaymentMin: I128,
    rollingCap: I128,
    rollingWindow: U64,
    velocityMax: U32,
    velocityWindow: U64,
    allowlist: seq<PublicPayee>,
    denylist: seq<Address>,
    denylistThreshold: I128,
    calendarStart: U64,
    calendarEnd: U64)

  datatype PublicUsage = PublicUsage(
    anchorR2: U64,
    windowSpent: int,
    anchorR7: U64,
    windowCount: int,
    lifetimeSpent: int,
    lifetimeCount: int)

  const FreshUsage := PublicUsage(0, 0, 0, 0, 0, 0)

  /** The cap of the first allowlist entry for `payee`, or -1 when there is none. */
  function AllowedCap(allowlist: seq<PublicPayee>, payee: Address): int {
    if allowlist == [] then -1
    else if allowlist[0].addr == payee then allowlist[0].cap
    else AllowedCap(allowlist[1..], payee)
  }

  /** The clauses that look only at this payment. */
  function Clauses(rule: PublicRule, payee: Address, amount: I128, now: U64): Guard<RuleError> {
    if payee in rule.denylist && amount > rule.denylistThreshold then Stop(PayeeDenied)
    else if rule.allowlist != [] && AllowedCap(rule.allowlist, payee) < 0 then Stop(PayeeNotAllowed)
    else if rule.allowlist != [] && 0 < AllowedCap(rule.allowlist, payee) < amount then Stop(CapExceeded)
    else if 0 < rule.perPaymentMax < amount then Stop(CapExceeded)
    else if rule.perPaymentMin > 0 && amount < rule.perPaymentMin then Stop(BelowMinPayment)
    else if rule.calendarEnd != 0 && !(rule.calendarStart <= now <= rule.calendarEnd) then Stop(OutsideCalendar)
    else Pass
  }

  /** R2: move the spend window on if it has lapsed, then add the amount. */
  function RollSpend(rule: PublicRule, u: PublicUsage, amount: I128, now: U64): Result<PublicUsage, RuleError> {
    if rule.rollingCap <= 0 then Ok(u)
    else
      var u1 :=
        if u.lifetimeCount == 0 then u.(anchorR2 := now)
        else if now >= SatAdd(u.anchorR2, rule.rollingWindow, U64_MAX) then u.(windowSpent := 0, anchorR2 := now)
        else u;
      :- Need(u1.windowSpent + amount <= I128_MAX, AmountOverflow);
      :- Need(u1.windowSpent + amount <= rule.rollingCap, RollingCapExceeded);
      Ok(u1.(windowSpent := u1.windowSpent + amount))
  }

  /** R7: move the count window on if it has lapsed, then count the release. */
  function RollCount(rule: PublicRule, u: PublicUsage, now: U64): Result<PublicUsage, RuleError> {
    if rule.velocityMax <= 0 then Ok(u)
    else
      var u1 :=
        if u.lifetimeCount == 0 then u.(anchorR7 := now)
        else if now >= SatAdd(u.anchorR7, rule.velocityWindow, U64_MAX) then u.(windowCount := 0, anchorR7 := now)
        else u;
      :- Need(u1.windowCount + 1 <= U32_MAX, CounterOverflow);
      :- Need(u1.windowCount + 1 <= rule.velocityMax, VelocityExceeded);
      Ok(u1.(windowCount := u1.windowCount + 1))
  }

  /** One release counted against a rule's usage. */
  function RollUsage(rule: PublicRule, u: PublicUsage, amount: I128, now: U64): Result<PublicUsage, RuleError> {
    var u1 :- RollSpend(rule, u, amount, now);
    var u2 :- RollCount(rule, u1, now);
    :- Need(u2.lifetimeSpent + amount <= I128_MAX, AmountOverflow);
    :- Need(u2.lifetimeCount + 1 <= U32_MAX, CounterOverflow);
    Ok(u2.(lifetimeSpent := u2.lifetimeSpent + amount, lifetimeCount := u2.lifetimeCount + 1))
  }

  /** The whole check of one release: clauses first, then the windows. */
  function CheckPublicRule(rule: PublicRule, u: PublicUsage, payee: Address, amount: I128, now: U64)
    : Result<PublicUsage, RuleError>
  {
    var clauses := Clauses(rule, payee, amount, now);
    if clauses.Stop? then Err(clauses.error) else RollUsage(rule, u, amount, now)
  }

  // ---- What a rule demands, clause by clause -----------------------------

  /** The first entry for a payee is the one that counts. */
  predicate FirstEntry(allowlist: seq<PublicPayee>, payee: Address, i: nat) {
    i < |allowlist| && allowlist[i].addr == payee && forall j | 0 <= j < i :: allowlist[j].addr != payee
  }

  /** On the list, with a cap that is absent (zero) or not exceeded. */
  predicate ListAllows(allowlist: seq<PublicPayee>, payee: Address, amount: int) {
    exists i: nat :: i < |allowlist| && FirstEntry(allowlist, payee, i)
      && 0 <= allowlist[i].cap && (allowlist[i].cap == 0 || amount <= allowlist[i].cap)
  }

  /** What a rule demands of one payment, whatever came before it. */
  predicate Meets(rule: PublicRule, payee: Address, amount: int, now: int) {
    && (rule.perPaymentMax > 0 ==> amount <= rule.perPaymentMax)
    && (rule.perPaymentMin > 0 ==> rule.perPaymentMin <= amount)
    && (rule.calendarEnd != 0 ==> rule.calendarStart <= now <= rule.calendarEnd)
    && (amount > rule.denylistThreshold ==> forall i | 0 <= i < |rule.denylist| :: rule.denylist[i] != payee)
    && (rule.allowlist != [] ==> ListAllows(rule.allowlist, payee, amount))
  }

  /** A window has run out by its length, or by the end of time. */
  predicate RunOut(anchor: int, window: int, now: int) {
    anchor + window <= now || now == U64_MAX
  }

  /** What is used of a window when the next release comes. */
  function InUse(u: PublicUsage, used: int, anchor: int, window: int, now: int): int {
    if u.lifetimeCount != 0 && RunOut(anchor, window, now) then 0 else used
  }

  /** Both windows and the lifetime totals have room for one more payment. */
  predicate HasRoom(rule: PublicRule, u: PublicUsage, amount: int, now: int) {
    && (rule.rollingCap > 0 ==> InUse(u, u.windowSpent, u.anchorR2, rule.rollingWindow, now) + amount <= rule.rollingCap)
    && (rule.velocityMax > 0 ==> InUse(u, u.windowCount, u.anchorR7, rule.velocityWindow, now) + 1 <= rule.velocityMax)
    && u.lifetimeSpent + amount <= I128_MAX && u.lifetimeCount + 1 <= U32_MAX
  }

  lemma {:induction false} AllowedCapIs(allowlist: seq<PublicPayee>, payee: Address, i: nat)
    requires FirstEntry(allowlist, payee, i)
    ensures AllowedCap(allowlist, payee) == allowlist[i].cap
  {
    if i > 0 {
      assert allowlist[1..][i - 1] == allowlist[i];
      forall j | 0 <= j < i - 1 ensures allowlist[1..][j].addr != payee {
        assert allowlist[1..][j] == allowlist[j + 1];
      }
      AllowedCapIs(allowlist[1..], payee, i - 1);
    }
  }

  lemma {:induction false} AllowedCapFound(allowlist: seq<PublicPayee>, payee: Address) returns (i: nat)
    requires AllowedCap(allowlist, payee) >= 0
    ensures FirstEntry(allowlist, payee, i)
  {
    if allowlist[0].addr == payee {
      i := 0;
    } else {
      var k := AllowedCapFound(allowlist[1..], payee);
      i := k + 1;
      forall j | 0 <= j < i ensures allowlist[j].addr != payee {
        assert j > 0 ==> allowlist[j] == allowlist[1..][j - 1];
      }
    }
  }

  /** The list clauses refuse exactly the payees the list does not allow. */
  lemma ListExact(allowlist: seq<PublicPayee>, payee: Address, amount: I128)
    requires amount > 0
    ensures var cap := AllowedCap(allowlist, payee); ListAllows(allowlist, payee, amount) <==> cap >= 0 && !(0 < cap < amount)
  {
    if AllowedCap(allowlist, payee) >= 0 {
      var i := AllowedCapFound(allowlist, payee);
      AllowedCapIs(allowlist, payee, i);
    }
    if ListAllows(allowlist, payee, amount) {
      var i: nat :| i < |allowlist| && FirstEntry(allowlist, payee, i)
        && 0 <= allowlist[i].cap && (allowlist[i].cap == 0 || amount <= allowlist[i].cap);
      AllowedCapIs(allowlist, payee, i);
    }
  }

  lemma ClausesExact(rule: PublicRule, payee: Address, amount: I128, now: U64)
    requires amount > 0
    ensures Clauses(rule, payee, amount, now).Pass? <==> Meets(rule, payee, amount, now)
  {
    ListExact(rule.allowlist, payee, amount);
    assert payee in rule.denylist <==> exists i :: 0 <= i < |rule.denylist| && rule.denylist[i] == payee;
  }

  lemma WindowsExact(rule: PublicRule, u: PublicUsage, amount: I128, now: U64)
    requires amount > 0
    ensures RollUsage(rule, u, amount, now).Ok? <==> HasRoom(rule, u, amount, now)
  {
  }

  /** A rule lets a payment through exactly if the payment meets every clause and there is room for it. */
  lemma CheckExact(rule: PublicRule, u: PublicUsage, payee: Address, amount: I128, now: U64)
    requires amount > 0
    ensures CheckPublicRule(rule, u, payee, amount, now).Ok? <==> Meets(rule, payee, amount, now) && HasRoom(rule, u, amount, now)
  {
    ClausesExact(rule, payee, amount, now);
    WindowsExact(rule, u, amount, now);
  }

  // ---- Histories of accepted releases -------------------------------------

  datatype Use = Use(rule: PublicRule, amount: I128, now: U64)

  /** The usage record after a history of releases, if every one was accepted. */
  function Replay(uses: seq<Use>): Result<PublicUsage, RuleError> {
    if uses == [] then Ok(FreshUsage)
    else
      var u :- Replay(uses[..|uses| - 1]);
      var last := uses[|uses| - 1];
      RollUsage(last.rule, u, last.amount, last.now)
  }

  // ---- What a history leaves in the record --------------------------------

  /** This release starts a spending window: it is the first of all, or the window has run out. */
  predicate StartsSpending(before: seq<Use>, use: Use)
    decreases |before|, 1
  {
    use.rule.rollingCap > 0 && (before == [] || RunOut(SpendingSince(before), use.rule.rollingWindow, use.now))
  }

  /** When the spending window last started; 0 if none has. */
  function SpendingSince(uses: seq<Use>): U64
    decreases |uses|, 0
  {
    if uses == [] then 0
    else
      var before, last := uses[..|uses| - 1], uses[|uses| - 1];
      if StartsSpending(before, last) then last.now else SpendingSince(before)
  }

  /** What was released under a cap since then. */
  function SpentSince(uses: seq<Use>): int {
    if uses == [] then 0
    else
      var before, last := uses[..|uses| - 1], uses[|uses| - 1];
      if last.rule.rollingCap <= 0 then SpentSince(before)
      else if StartsSpending(before, last) then last.amount
      else SpentSince(before) + last.amount
  }

  /** This release starts a counting window. */
  predicate StartsCounting(before: seq<Use>, use: Use)
    decreases |before|, 1
  {
    use.rule.velocityMax > 0 && (before == [] || RunOut(CountingSince(before), use.rule.velocityWindow, use.now))
  }

  function CountingSince(uses: seq<Use>): U64
    decreases |uses|, 0
  {
    if uses == [] then 0
    else
      var before, last := uses[..|uses| - 1], uses[|uses| - 1];
      if StartsCounting(before, last) then last.now else CountingSince(before)
  }

  function CountedSince(uses: seq<Use>): int {
    if uses == [] then 0
    else
      var before, last := uses[..|uses| - 1], uses[|uses| - 1];
      if last.rule.velocityMax <= 0 then CountedSince(before)
      else if StartsCounting(before, last) then 1
      else CountedSince(before) + 1
  }

  /** The record is where the accepted releases leave it: when each window started, and what came since. */
  lemma {:induction false} RecordExact(uses: seq<Use>)
    requires Replay(uses).Ok?
    ensures var u := Replay(uses).value;
      && u.lifetimeCount == |uses|
      && u.anchorR2 == SpendingSince(uses) && u.windowSpent == SpentSince(uses)
      && u.anchorR7 == CountingSince(uses) && u.windowCount == CountedSince(uses)
  {
    if uses != [] {
      RecordExact(uses[..|uses| - 1]);
    }
  }

  /** Every release ran under the same rule, at non-decreasing times before the last representable second. */
  ghost predicate Steady(rule: PublicRule, uses: seq<Use>) {
    && (forall i | 0 <= i < |uses| :: uses[i].rule == rule && uses[i].amount > 0 && uses[i].now < U64_MAX)
    && (forall i, j | 0 <= i < j < |uses| :: uses[i].now <= uses[j].now)
  }

  /** What a history spent in the half-open interval [from, to). */
  function SpentIn(uses: seq<Use>, from: int, to: int): int {
    if uses == [] then 0
    else
      var last := uses[|uses| - 1];
      SpentIn(uses[..|uses| - 1], from, to) + if from <= last.now < to then last.amount else 0
  }

  /** How many releases fell in [from, to). */
  function CountIn(uses: seq<Use>, from: int, to: int): int {
    if uses == [] then 0
    else
      var last := uses[|uses| - 1];
      CountIn(uses[..|uses| - 1], from, to) + if from <= last.now < to then 1 else 0
  }

  lemma SteadyPrefix(rule: PublicRule, uses: seq<Use>)
    requires uses != [] && Steady(rule, uses)
    ensures Steady(rule, uses[..|uses| - 1])
  {
  }

  /** Nothing has been counted in an interval that starts after the last release. */
  lemma {:induction false} NothingYet(rule: PublicRule, uses: seq<Use>, from: int, to: int)
    requires Steady(rule, uses)
    requires forall i | 0 <= i < |uses| :: uses[i].now < from
    ensures SpentIn(uses, from, to) == 0 && CountIn(uses, from, to) == 0
  {
    if uses != [] {
      NothingYet(rule, uses[..|uses| - 1], from, to);
    }
  }

  /**
   * The argument for one tumbling window of length `window` and limit `cap`:
   * `inside` is what has been counted in [t, t + window) so far, `spent` what
   * the current window, begun at `anchor`, holds.
   */
  predicate Tumbling(t: int, window: int, cap: int, anchor: int, spent: int, inside: int) {
    && 0 <= spent <= cap
    && inside <= 2 * cap
    && (anchor < t ==> inside <= spent)
    && (t <= anchor < t + window ==> inside <= cap + spent)
  }

  lemma TumblingStep(t: int, window: int, cap: int, anchor: int, spent: int, inside: int, x: nat, now: int, reset: bool)
    requires window > 0 && Tumbling(t, window, cap, anchor, spent, inside)
    requires anchor <= now && (now < t ==> inside == 0)
    requires reset ==> anchor + window <= now
    requires (if reset then x else spent + x) <= cap
    ensures Tumbling(t, window, cap, if reset then now else anchor, if reset then x else spent + x,
                     inside + if t <= now < t + window then x else 0)
  {
  }

  /** What one accepted release does to the two windows: restarted when lapsed or unused, else added to, within the limit. */
  lemma RollEffect(rule: PublicRule, u: PublicUsage, amount: I128, now: U64)
    requires RollUsage(rule, u, amount, now).Ok?
    ensures var u1 := RollUsage(rule, u, amount, now).value;
      && u1.lifetimeCount == u.lifetimeCount + 1 && u1.lifetimeSpent == u.lifetimeSpent + amount
      && (rule.rollingCap > 0 ==>
            var lapsed := u.lifetimeCount != 0 && now >= SatAdd(u.anchorR2, rule.rollingWindow, U64_MAX);
            && u1.anchorR2 == (if lapsed || u.lifetimeCount == 0 then now else u.anchorR2)
            && u1.windowSpent == (if lapsed then 0 else u.windowSpent) + amount <= rule.rollingCap)
      && (rule.velocityMax > 0 ==>
            var lapsed := u.lifetimeCount != 0 && now >= SatAdd(u.anchorR7, rule.velocityWindow, U64_MAX);
            && u1.anchorR7 == (if lapsed || u.lifetimeCount == 0 then now else u.anchorR7)
            && u1.windowCount == (if lapsed then 0 else u.windowCount) + 1 <= rule.velocityMax)
  {
  }

  lemma {:induction false} SpendWindow(rule: PublicRule, uses: seq<Use>, t: int)
    requires rule.rollingCap > 0 && rule.rollingWindow > 0
    requires uses != [] && Steady(rule, uses) && Replay(uses).Ok?
    ensures var u := Replay(uses).value;
      && u.lifetimeCount == |uses|
      && u.anchorR2 <= uses[|uses| - 1].now
      && Tumbling(t, rule.rollingWindow, rule.rollingCap, u.anchorR2, u.windowSpent,
                  SpentIn(uses, t, t + rule.rollingWindow))
  {
    var n := |uses| - 1;
    var before := uses[..n];
    if n == 0 {
      assert before == [];
    } else {
      SteadyPrefix(rule, uses);
      SpendWindow(rule, before, t);
      var now := uses[n].now;
      if now < t {
        NothingYet(rule, before, t, t + rule.rollingWindow);
      }
      var u := Replay(before).value;
      RollEffect(rule, u, uses[n].amount, now);
      TumblingStep(t, rule.rollingWindow, rule.rollingCap, u.anchorR2, u.windowSpent,
                   SpentIn(before, t, t + rule.rollingWindow), uses[n].amount, now,
                   now >= SatAdd(u.anchorR2, rule.rollingWindow, U64_MAX));
    }
  }

  lemma {:induction false} CountWindow(rule: PublicRule, uses: seq<Use>, t: int)
    requires rule.velocityMax > 0 && rule.velocityWindow > 0
    requires uses != [] && Steady(rule, uses) && Replay(uses).Ok?
    ensures var u := Replay(uses).value;
      && u.lifetimeCount == |uses|
      && u.anchorR7 <= uses[|uses| - 1].now
      && Tumbling(t, rule.velocityWindow, rule.velocityMax, u.anchorR7, u.windowCount,
                  CountIn(uses, t, t + rule.velocityWindow))
  {
    var n := |uses| - 1;
    var before := uses[..n];
    if n == 0 {
      assert before == [];
    } else {
      SteadyPrefix(rule, uses);
      CountWindow(rule, before, t);
      var now := uses[n].now;
      if now < t {
        NothingYet(rule, before, t, t + rule.velocityWindow);
      }
      var u := Replay(before).value;
      RollEffect(rule, u, uses[n].amount, now);
      TumblingStep(t, rule.velocityWindow, rule.velocityMax, u.anchorR7, u.windowCount,
                   CountIn(before, t, t + rule.velocityWindow), 1, now,
                   now >= SatAdd(u.anchorR7, rule.velocityWindow, U64_MAX));
    }
  }

  /** Any interval as long as the window sees at most twice the cap, and at most twice the velocity. */
  lemma WindowBound(rule: PublicRule, uses: seq<Use>, t: int)
    requires Steady(rule, uses) && Replay(uses).Ok?
    ensures rule.rollingCap > 0 && rule.rollingWindow > 0 ==>
      SpentIn(uses, t, t + rule.rollingWindow) <= 2 * rule.rollingCap
    ensures rule.velocityMax > 0 && rule.velocityWindow > 0 ==>
      CountIn(uses, t, t + rule.velocityWindow) <= 2 * rule.velocityMax
  {
    if uses != [] && rule.rollingCap > 0 && rule.rollingWindow > 0 {
      SpendWindow(rule, uses, t);
    }
    if uses != [] && rule.velocityMax > 0 && rule.velocityWindow > 0 {
      CountWindow(rule, uses, t);
    }
  }

  /** `k` windows have been closed, each within the cap, since the first release. */
  lemma {:induction false} ClosedWindows(rule: PublicRule, uses: seq<Use>) returns (k: nat)
    requires rule.rollingCap > 0 && rule.rollingWindow > 0
    requires uses != [] && Steady(rule, uses) && Replay(uses).Ok?
    ensures var u := Replay(uses).value;
      && u.lifetimeCount == |uses|
      && u.anchorR2 <= uses[|uses| - 1].now
      && 0 <= u.windowSpent <= rule.rollingCap
      && u.lifetimeSpent <= k * rule.rollingCap + u.windowSpent
      && uses[0].now + k * rule.rollingWindow <= u.anchorR2
  {
    var n := |uses| - 1;
    var before := uses[..n];
    if n == 0 {
      assert before == [];
      k := 0;
    } else {
      SteadyPrefix(rule, uses);
      k := ClosedWindows(rule, before);
      var u := Replay(before).value;
      if uses[n].now >= SatAdd(u.anchorR2, rule.rollingWindow, U64_MAX) {
        assert (k + 1) * rule.rollingCap == k * rule.rollingCap + rule.rollingCap;
        assert (k + 1) * rule.rollingWindow == k * rule.rollingWindow + rule.rollingWindow;
        k := k + 1;
      }
    }
  }

  /** Lifetime spend is at most one cap per window begun since the first release. */
  lemma LifetimeBound(rule: PublicRule, uses: seq<Use>)
    requires rule.rollingCap > 0 && rule.rollingWindow > 0
    requires uses != [] && Steady(rule, uses) && Replay(uses).Ok?
    ensures Replay(uses).value.lifetimeSpent
      <= rule.rollingCap * (1 + (uses[|uses| - 1].now - uses[0].now) / rule.rollingWindow)
  {
    var k := ClosedWindows(rule, uses);
    var u := Replay(uses).value;
    WindowsBegun(k, rule.rollingCap, rule.rollingWindow, u.lifetimeSpent, u.windowSpent, uses[0].now, u.anchorR2,
                 uses[|uses| - 1].now);
  }

  /** `k` closed windows and the one begun at `anchor`, in numbers. */
  lemma WindowsBegun(k: nat, cap: nat, window: nat, lifetime: int, spent: int, first: int, anchor: int, last: int)
    requires window > 0 && spent <= cap && lifetime <= k * cap + spent
    requires first + k * window <= anchor <= last
    ensures last >= first && lifetime <= cap * (1 + (last - first) / window)
  {
    var span := last - first;
    MulMonotone(k, 0, window);
    QuotientAtLeast(span, window, k);
    MulMonotone(cap, 1 + k, 1 + span / window);
    calc {
      cap * (1 + k);
      == cap + cap * k;
      == cap + k * cap;
    }
  }

  /** The same bound at any later time. */
  lemma LifetimeBoundBy(rule: PublicRule, uses: seq<Use>, now: int)
    requires rule.rollingCap > 0 && rule.rollingWindow > 0
    requires uses != [] && Steady(rule, uses) && Replay(uses).Ok? && uses[|uses| - 1].now <= now
    ensures Replay(uses).value.lifetimeSpent <= rule.rollingCap * (1 + (now - uses[0].now) / rule.rollingWindow)
  {
    LifetimeBound(rule, uses);
    LaterBound(Replay(uses).value.lifetimeSpent, rule.rollingCap, uses[|uses| - 1].now - uses[0].now, now - uses[0].now,
               rule.rollingWindow);
  }

  lemma LaterBound(spent: int, cap: nat, x: nat, y: nat, d: nat)
    requires x <= y && d > 0 && spent <= cap * (1 + x / d)
    ensures spent <= cap * (1 + y / d)
  {
    QuotientMonotone(x, y, d);
    MulMonotone(cap, 1 + x / d, 1 + y / d);
  }

  lemma QuotientMonotone(x: nat, y: nat, d: nat)
    requires x <= y && d > 0
    ensures x / d <= y / d
  {
    QuotientAtLeast(y, d, x / d);
  }

  lemma QuotientAtLeast(span: nat, window: nat, k: nat)
    requires window > 0 && k * window <= span
    ensures k <= span / window
  {
    if k > span / window {
      MulMonotone(window, span / window + 1, k);
    }
  }

  lemma MulMonotone(x: nat, y: nat, z: nat)
    requires y <= z
    ensures x * y <= x * z
  {
    assert x * z == x * y + x * (z - y);
  }

  ghost function AmountOf(): Use -> int {
    (u: Use) => u.amount
  }

  /** Lifetime totals count every release exactly once, whatever rules they ran under. */
  lemma {:induction false} LifetimeCounts(uses: seq<Use>)
    requires Replay(uses).Ok?
    ensures Replay(uses).value.lifetimeCount == |uses|
    ensures Replay(uses).value.lifetimeSpent == Sum(uses, AmountOf())
  {
    if uses != [] {
      LifetimeCounts(uses[..|uses| - 1]);
    }
  }

  /** `n` releases of the whole cap, all in the last representable second. */
  function LastSecondUses(rule: PublicRule, n: nat): seq<Use> {
    if n == 0 then [] else LastSecondUses(rule, n - 1) + [Use(rule, rule.rollingCap, U64_MAX)]
  }

  /** In the last second every window has lapsed, since its end saturates there. */
  lemma AlwaysLapsed(rule: PublicRule, u: PublicUsage)
    requires rule.rollingCap > 0 && (u.lifetimeCount == 0 ==> u.windowSpent == 0 && u.windowCount == 0)
    requires 0 <= u.lifetimeSpent && u.lifetimeSpent + rule.rollingCap <= I128_MAX && 0 <= u.lifetimeCount < U32_MAX
    ensures var r := RollUsage(rule, u, rule.rollingCap, U64_MAX);
      && r.Ok? && r.value.lifetimeSpent == u.lifetimeSpent + rule.rollingCap && r.value.lifetimeCount == u.lifetimeCount + 1
  {
  }

  /** One more release of the whole cap, after `spent` in the same second. */
  lemma LastSecondOne(rule: PublicRule, before: seq<Use>, spent: nat)
    requires rule.rollingCap > 0 && rule.rollingWindow > 0 && spent + rule.rollingCap <= I128_MAX && |before| < U32_MAX
    requires AllSpent(rule, before, spent)
    ensures AllSpent(rule, before + [Use(rule, rule.rollingCap, U64_MAX)], spent + rule.rollingCap)
  {
    var after := before + [Use(rule, rule.rollingCap, U64_MAX)];
    assert after[..|before|] == before;
    AlwaysLapsed(rule, Replay(before).value);
  }

  /** These releases were all accepted, and spent this much in the last second. */
  predicate AllSpent(rule: PublicRule, uses: seq<Use>, spent: int) {
    && Replay(uses).Ok? && Replay(uses).value.lifetimeSpent == spent && Replay(uses).value.lifetimeCount == |uses|
    && SpentIn(uses, U64_MAX, U64_MAX + rule.rollingWindow) == spent
  }

  /**
   * The bound does fail in the last representable second: every release starts a
   * new window, so any rule lets through any number of releases of its whole cap.
   */
  lemma {:induction false} WindowBoundFailsAtLastSecond(rule: PublicRule, n: nat)
    requires rule.rollingCap > 0 && rule.rollingWindow > 0 && n * rule.rollingCap <= I128_MAX && n <= U32_MAX
    ensures |LastSecondUses(rule, n)| == n && AllSpent(rule, LastSecondUses(rule, n), n * rule.rollingCap)
  {
    if n > 0 {
      OneMoreTimes(n, rule.rollingCap);
      WindowBoundFailsAtLastSecond(rule, n - 1);
      LastSecondOne(rule, LastSecondUses(rule, n - 1), (n - 1) * rule.rollingCap);
    }
  }

  lemma OneMoreTimes(n: nat, x: nat)
    requires n > 0
    ensures n * x == (n - 1) * x + x && (n - 1) * x >= 0
  {
  }
}
