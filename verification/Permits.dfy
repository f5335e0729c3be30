/**
 * When each entry point goes ahead. Every condition is written as a fact about
 * the state, and an entry point is proved to succeed exactly when they all hold.
 */
module Permits {
  import opened Base
  import opened Bytes
  import opened VaultState
  import opened BookKeeping
  import opened Vault
  import S = Signals
  import R = PublicRules

  // ---- Fees ---------------------------------------------------------------

  /** A fee is charged when a rate and a recipient are set. */
  predicate Charges(config: Option<FeeConfig>) {
    config.Some? && config.value.bps > 0 && config.value.recipient.Some?
  }

  /** The fee is the rate in hundredths of a percent, rounded down; nothing without a rate and a recipient. */
  predicate IsFee(config: Option<FeeConfig>, gross: int, fee: int) {
    if Charges(config) then 10_000 * fee <= gross * config.value.bps < 10_000 * (fee + 1) else fee == 0
  }

  lemma FloorDivides(x: int)
    ensures 10_000 * (x / 10_000) <= x < 10_000 * (x / 10_000 + 1)
  {
  }

  /** The fee computed is that one, and computing it fails only when the product has no room. */
  lemma FeeExact(ctl: Control, gross: int)
    ensures var r := ComputeFee(ctl, gross);
      && (r.Ok? <==> (Charges(ctl.feeConfig) ==> gross * ctl.feeConfig.value.bps <= I128_MAX))
      && (r.Ok? ==> IsFee(ctl.feeConfig, gross, r.value))
  {
    if Charges(ctl.feeConfig) {
      FloorDivides(gross * ctl.feeConfig.value.bps);
    }
  }

  /** There is room for the fee on an amount. */
  predicate FeeFits(s: State, asset: Address, gross: int) {
    && (Charges(s.ctl.feeConfig) ==> gross * s.ctl.feeConfig.value.bps <= I128_MAX)
    && (ComputeFee(s.ctl, gross).Ok? && ComputeFee(s.ctl, gross).value > 0 ==>
          Fees(s.books, asset) + ComputeFee(s.ctl, gross).value <= I128_MAX)
  }

  lemma FeeFitsExact(s: State, asset: Address, gross: int, b: Books)
    requires b.fees == s.books.fees
    ensures FeeFits(s, asset, gross) <==>
      ComputeFee(s.ctl, gross).Ok? && Accrue(b, s.ctl, asset, ComputeFee(s.ctl, gross).value).Ok?
  {
    FeeExact(s.ctl, gross);
  }

  // ---- Accounts and sessions ----------------------------------------------

  predicate MayDeposit(h: Host, s: State, user: Address, asset: Address, amount: int) {
    user != h.vault && !s.ctl.paused && amount > 0 && asset in s.ctl.supported
  }

  /** Only the owner withdraws, and only what no open task has locked. */
  predicate MayWithdraw(h: Host, s: State, user: Address, asset: Address, amount: int) {
    && user != h.vault && amount > 0 && user in s.books.configs && (user, asset) in s.books.accounts
    && amount <= s.books.accounts[(user, asset)].balance
    && amount + s.books.accounts[(user, asset)].locked <= s.books.accounts[(user, asset)].balance
  }

  /** A new key is bounded by a cap or a rule; one the platform holds by a cap and a time. */
  predicate MayOpenKey(h: Host, s: State, user: Address, key: Address, asset: Address, expiry: U64, cap: int, rule: Option<Bytes32>,
                       serverHeld: bool)
  {
    && user != h.vault && !s.ctl.paused && key !in s.lanes.sessions && asset in s.ctl.supported
    && cap >= 0 && (cap == 0 ==> rule.Some?) && (rule.Some? ==> (user, rule.value) in s.lanes.rules)
    && (serverHeld ==> cap > 0) && (expiry <= s.now ==> expiry == 0 && !serverHeld)
  }

  predicate OwnsKey(h: Host, s: State, user: Address, key: Address) {
    user != h.vault && key in s.lanes.sessions && s.lanes.sessions[key].user == user
  }

  /** New limits: a later expiry, a cap not below what is spent; and a key the platform holds keeps both. */
  predicate MayUpdateKey(h: Host, s: State, user: Address, key: Address, expiry: U64, cap: int) {
    && OwnsKey(h, s, user, key)
    && var info := s.lanes.sessions[key];
    && (expiry != 0 ==> expiry > s.now) && (cap != 0 ==> cap >= info.spent)
    && (info.serverHeld ==> (if cap != 0 then cap else info.spendCap) > 0 && (if expiry != 0 then expiry else info.expiry) > s.now)
  }

  /** A rule that is set lets the payment through. */
  predicate RuleLets(s: State, owner: Address, ruleId: Bytes32, payee: Address, amount: int) {
    && (owner, ruleId) in s.lanes.rules
    && R.Meets(s.lanes.rules[(owner, ruleId)], payee, amount, s.now)
    && R.HasRoom(s.lanes.rules[(owner, ruleId)], UsageOf(s.lanes, owner, ruleId), amount, s.now)
  }

  /** A key in force: open, not paused, not expired, and within its own cap. */
  predicate KeyInForce(s: State, key: Address, amount: int) {
    && key in s.lanes.sessions
    && var info := s.lanes.sessions[key];
    && !info.paused && (info.expiry != 0 ==> s.now <= info.expiry)
    && (info.spendCap > 0 ==> info.spent + amount <= info.spendCap)
  }

  /** The rules over a payment: the one chosen, or else the key's own, and the owner's global rule. */
  predicate RulesLet(s: State, key: Address, payee: Address, amount: int, chosen: Option<Bytes32>)
    requires key in s.lanes.sessions
  {
    var info := s.lanes.sessions[key];
    var selected := if chosen.Some? then chosen else info.ruleId;
    && (selected.Some? ==> RuleLets(s, info.user, selected.value, payee, amount))
    && (info.user in s.lanes.globalPublic ==> RuleLets(s, info.user, s.lanes.globalPublic[info.user], payee, amount))
  }

  predicate MayPayByKey(h: Host, s: State, key: Address, payee: Address, amount: int, chosen: Option<Bytes32>) {
    && key != h.vault && !s.ctl.paused && amount > 0 && KeyInForce(s, key, amount) && RulesLet(s, key, payee, amount, chosen)
    && var info := s.lanes.sessions[key];
    && (info.user, info.asset) in s.books.accounts && FeeFits(s, info.asset, amount)
    && var acc := s.books.accounts[(info.user, info.asset)];
    && acc.locked + amount <= acc.balance && acc.totalSpent + amount <= I128_MAX
    && info.spent + amount <= I128_MAX && info.releaseCount + 1 <= U32_MAX
  }

  // ---- Tasks --------------------------------------------------------------

  predicate MayRegister(h: Host, s: State, user: Address) {
    user != h.vault && (user in s.books.configs ==> s.books.configs[user].orchestrator.None?)
  }

  predicate MayReplace(h: Host, s: State, user: Address, orchestrator: Address) {
    && user != h.vault && user in s.books.configs && s.books.configs[user].activeTasks == 0
    && s.books.configs[user].orchestrator.Some?
    && (orchestrator in s.ctl.owners ==> s.ctl.owners[orchestrator] == user)
  }

  predicate MayCreate(h: Host, s: State, orchestrator: Address, asset: Address, planCost: int, commitment: Option<Bytes32>) {
    && orchestrator != h.vault && !s.ctl.paused && planCost > 0 && asset in s.ctl.supported && commitment != Some(ZERO32)
    && orchestrator in s.ctl.owners
    && var user := s.ctl.owners[orchestrator];
    && user in s.books.configs && s.books.configs[user].activeTasks < s.ctl.maxActiveTasks
    && (user, asset) in s.books.accounts
    && s.books.accounts[(user, asset)].locked + planCost <= s.books.accounts[(user, asset)].balance
    && s.books.counter + 1 <= U64_MAX
  }

  /** A release by the task's own orchestrator, while the task is open and undisputed. */
  predicate MayRelease(h: Host, s: State, orchestrator: Address, id: nat, asset: Address) {
    && orchestrator != h.vault && !s.ctl.paused && id in s.books.tasks
    && var t := s.books.tasks[id];
    && !t.completed && !t.disputed && t.orchestrator == orchestrator && t.asset == asset
  }

  /** A step that was paid before: only with the same amount. */
  predicate SameAgain(s: State, id: nat, step: U64, amount: int) {
    (id, step) in s.books.steps && s.books.steps[(id, step)] == amount
  }

  /** A new step: within the plan, and with a place in the index. */
  predicate NewStep(s: State, id: nat, step: U64, amount: int)
    requires id in s.books.tasks
  {
    && (id, step) !in s.books.steps
    && s.books.tasks[id].spent + amount <= s.books.tasks[id].planCost && s.books.tasks[id].spent + amount <= I128_MAX
    && (step in StepIds(s.books, id) || |StepIds(s.books, id)| < MAX_RELEASE_STEPS_PER_TASK)
  }

  predicate MayPayPlainly(h: Host, s: State, orchestrator: Address, id: nat, step: U64, asset: Address, amount: int) {
    && MayRelease(h, s, orchestrator, id, asset) && amount > 0 && s.books.tasks[id].commitment.None?
    && (SameAgain(s, id, step, amount) || (NewStep(s, id, step, amount) && FeeFits(s, asset, amount)))
  }

  /** The owner has pinned the task's commitment, and the configured verifier says yes to exactly this release. */
  predicate ProofHolds(h: Host, s: State, id: nat, payee: Address, amount: I128, nullifier: Bytes32, proof: Proof)
    requires id in s.books.tasks && s.books.tasks[id].commitment.Some?
  {
    var t := s.books.tasks[id];
    && t.commitment.value in Pinned(s.lanes, t.user) && s.ctl.verifier.Some?
    && h.verifyPolicy(s.ctl.verifier.value, t.commitment.value, payee, amount, nullifier, proof)
  }

  predicate MayPayProved(h: Host, s: State, orchestrator: Address, id: nat, step: U64, asset: Address, amount: I128, payee: Address,
                         nullifier: Bytes32, proof: Proof)
  {
    && MayRelease(h, s, orchestrator, id, asset) && amount > 0 && s.books.tasks[id].commitment.Some?
    && (SameAgain(s, id, step, amount)
        || (NewStep(s, id, step, amount) && FeeFits(s, asset, amount) && ProofHolds(h, s, id, payee, amount, nullifier, proof)
            && (id, nullifier) !in s.books.taskNullifiers
            && (nullifier in NullifierIds(s.books, id) || |NullifierIds(s.books, id)| < MAX_RELEASE_STEPS_PER_TASK)))
  }

  // ---- Batches ------------------------------------------------------------

  /** One to four positive lines that add up within the width, in a window that is open and not too long. */
  predicate SoundBatch(s: State, q: S.Batch) {
    && S.WellFormed(q) && S.BatchSum(q) <= I128_MAX
    && q.validAfter <= s.now <= q.validBefore && q.validBefore <= s.now + MAX_VALIDITY_SECS
  }

  /** Nullifiers nobody has used, all different. */
  predicate AllNew(used: map<Bytes32, nat>, ns: seq<Bytes32>) {
    (forall i | 0 <= i < |ns| :: ns[i] !in used) && (forall i, j | 0 <= i < j < |ns| :: ns[i] != ns[j])
  }

  lemma {:induction false} FreshExactFrom(used: map<Bytes32, nat>, ns: seq<Bytes32>, i: nat)
    ensures FreshFrom(used, ns, i).Pass? <==> forall k | i <= k < |ns| :: ns[k] !in used && !Repeated(ns, k)
    decreases |ns| - i
  {
    if i < |ns| {
      FreshExactFrom(used, ns, i + 1);
    }
  }

  lemma FreshExact(used: map<Bytes32, nat>, ns: seq<Bytes32>)
    ensures FreshFrom(used, ns, 0).Pass? <==> AllNew(used, ns)
  {
    FreshExactFrom(used, ns, 0);
    forall i, j | 0 <= i < j < |ns| && ns[i] == ns[j] ensures Repeated(ns, i) && Repeated(ns, j) {
    }
  }

  /** Groth16 says yes to the public signals of this batch under this commitment and its accumulator. */
  predicate BatchProofHolds(h: Host, s: State, commitment: Bytes32, q: S.Batch, proof: Proof)
    requires S.WellFormed(q)
  {
    && s.ctl.verifier.Some? && AllNew(s.lanes.nullifiers, q.nullifiers)
    && h.verifyGroth16(s.ctl.verifier.value, proof, S.PublicSignals(h.addressHash, commitment, q, AccumOf(s.lanes, commitment)))
  }

  predicate MayPayBatch(h: Host, s: State, orchestrator: Address, id: nat, step: U64, asset: Address, q: S.Batch, proof: Proof) {
    && MayRelease(h, s, orchestrator, id, asset) && SoundBatch(s, q) && s.books.tasks[id].commitment.Some?
    && (SameAgain(s, id, step, S.BatchSum(q))
        || (NewStep(s, id, step, S.BatchSum(q))
            && var t := s.books.tasks[id];
            t.commitment.value in Pinned(s.lanes, t.user) && BatchProofHolds(h, s, t.commitment.value, q, proof)))
  }

  /** The second proof, if the user has a private global rule: of the same lines, under that rule. */
  predicate GlobalHolds(h: Host, s: State, user: Address, q: S.Batch, global: Option<GlobalProof>)
    requires S.WellFormed(q)
  {
    (user, Private) in s.lanes.globals ==>
      && global.Some?
      && var g := global.value;
      && g.commitment == s.lanes.globals[(user, Private)] && |g.nullifiers| == |q.payees|
      && BatchProofHolds(h, s, g.commitment, q.(nullifiers := g.nullifiers, resetR2 := g.resetR2, resetR7 := g.resetR7), g.proof)
  }

  /** Nobody signs a keyless spend: the debited user's pin and the proofs are the authority. */
  predicate MayPayKeyless(h: Host, s: State, user: Address, asset: Address, commitment: Bytes32, q: S.Batch, proof: Proof,
                          global: Option<GlobalProof>)
  {
    && !s.ctl.paused && SoundBatch(s, q) && commitment in Pinned(s.lanes, user)
    && BatchProofHolds(h, s, commitment, q, proof) && GlobalHolds(h, s, user, q, global)
    && (user, asset) in s.books.accounts
    && var acc := s.books.accounts[(user, asset)];
    && acc.locked + S.BatchSum(q) <= acc.balance && acc.totalSpent + S.BatchSum(q) <= I128_MAX
  }

  // ---- Ending a task ------------------------------------------------------

  /** Nothing that is on the books stands in the way; it never does on reachable books. */
  predicate CanClose(s: State, id: nat, payout: int) {
    && id in s.books.tasks && !s.books.tasks[id].completed
    && var t := s.books.tasks[id];
    && t.user in s.books.configs && s.books.configs[t.user].activeTasks >= 1 && (t.user, t.asset) in s.books.accounts
    && s.books.accounts[(t.user, t.asset)].totalSpent + t.spent + payout <= I128_MAX
  }

  predicate MayComplete(h: Host, s: State, orchestrator: Address, id: nat) {
    orchestrator != h.vault && CanClose(s, id, 0) && !s.books.tasks[id].disputed && s.books.tasks[id].orchestrator == orchestrator
  }

  predicate MayCancel(h: Host, s: State, user: Address, id: nat) {
    user != h.vault && CanClose(s, id, 0) && !s.books.tasks[id].disputed && s.books.tasks[id].user == user
  }

  predicate MayForce(s: State, id: nat) {
    CanClose(s, id, 0) && !s.books.tasks[id].disputed && s.now - s.books.tasks[id].createdAt > s.ctl.staleThreshold
  }

  predicate MayDispute(h: Host, s: State, user: Address, id: nat) {
    && user != h.vault && id in s.books.tasks
    && var t := s.books.tasks[id]; t.user == user && !t.completed && !t.disputed
  }

  /** Only the resolver settles a dispute, and only by splitting what is left. */
  predicate MayResolve(h: Host, s: State, resolver: Address, id: nat, refund: int, payout: int) {
    && resolver != h.vault && !s.ctl.paused && s.ctl.resolver == Some(resolver)
    && refund >= 0 && payout >= 0 && refund + payout <= I128_MAX
    && CanClose(s, id, payout) && s.books.tasks[id].disputed
    && refund + payout == s.books.tasks[id].planCost - s.books.tasks[id].spent
  }

  predicate MayClaim(h: Host, s: State, recipient: Address, asset: Address) {
    && recipient != h.vault && !s.ctl.paused && s.ctl.feeConfig.Some? && s.ctl.feeConfig.value.recipient == Some(recipient)
    && Fees(s.books, asset) != 0
  }

  // ---- Pins, rules, administration ---------------------------------------

  predicate MayPin(h: Host, s: State, user: Address, commitment: Bytes32) {
    && user != h.vault && commitment != ZERO32
    && (commitment in Pinned(s.lanes, user) || |Pinned(s.lanes, user)| < MAX_POLICY_COMMITMENTS)
  }

  predicate SoundRule(rule: R.PublicRule) {
    && rule.perPaymentMax >= 0 && rule.perPaymentMin >= 0 && rule.rollingCap >= 0 && rule.denylistThreshold >= 0
    && |rule.allowlist| <= MAX_SESSION_ALLOWLIST && |rule.denylist| <= MAX_SESSION_ALLOWLIST
  }

  /** The admin's own limits. */
  predicate SoundAction(action: AdminAction) {
    match action
    case RemoveAsset(_, force) => force
    case SetFee(bps, _) => bps <= 1000
    case SetStaleThreshold(seconds) => seconds >= 60
    case SetMaxActiveTasks(max) => max >= 1
    case _ => true
  }

  predicate MayAdminister(h: Host, s: State, admin: Address, action: AdminAction) {
    admin != h.vault && admin == s.ctl.admin && SoundAction(action)
  }

  // ---- All of them --------------------------------------------------------

  predicate May(h: Host, s: State, op: Op) {
    match op
    case Deposit(user, asset, amount) => MayDeposit(h, s, user, asset, amount)
    case Withdraw(user, asset, amount) => MayWithdraw(h, s, user, asset, amount)
    case RegisterSession(user, key, asset, expiry, cap, rule, server) => MayOpenKey(h, s, user, key, asset, expiry, cap, rule, server)
    case SetSessionPaused(user, key, _) => OwnsKey(h, s, user, key)
    case UpdateSession(user, key, expiry, cap) => MayUpdateKey(h, s, user, key, expiry, cap)
    case RevokeSession(user, key) => OwnsKey(h, s, user, key)
    case ReleaseSession(key, payee, amount, chosen) => MayPayByKey(h, s, key, payee, amount, chosen)
    case RegisterOrchestrator(user, _) => MayRegister(h, s, user)
    case UpdateOrchestrator(user, orchestrator) => MayReplace(h, s, user, orchestrator)
    case CreateTask(orchestrator, asset, planCost) => MayCreate(h, s, orchestrator, asset, planCost, None)
    case CreateTaskWithPolicy(orchestrator, asset, planCost, c) => MayCreate(h, s, orchestrator, asset, planCost, Some(c))
    case ReleasePayment(orchestrator, id, step, asset, amount) => MayPayPlainly(h, s, orchestrator, id, step, asset, amount)
    case ReleaseProved(orchestrator, id, step, asset, amount, payee, n, proof) =>
      MayPayProved(h, s, orchestrator, id, step, asset, amount, payee, n, proof)
    case ReleaseBatch(orchestrator, id, step, asset, q, proof) => MayPayBatch(h, s, orchestrator, id, step, asset, q, proof)
    case ReleaseKeyless(user, asset, c, q, proof, global) => MayPayKeyless(h, s, user, asset, c, q, proof, global)
    case CompleteTask(orchestrator, id) => MayComplete(h, s, orchestrator, id)
    case CancelTask(user, id) => MayCancel(h, s, user, id)
    case ForceComplete(id) => MayForce(s, id)
    case RaiseDispute(user, id) => MayDispute(h, s, user, id)
    case ResolveDispute(resolver, id, refund, payout) => MayResolve(h, s, resolver, id, refund, payout)
    case ClaimFees(recipient, asset) => MayClaim(h, s, recipient, asset)
    case PinCommitment(user, c) => MayPin(h, s, user, c)
    case UnpinCommitment(user, c) => user != h.vault && c in Pinned(s.lanes, user)
    case SetGlobal(user, _, c) => user != h.vault && c != ZERO32
    case ClearGlobal(user, _) => user != h.vault
    case SetPublicRule(user, _, rule) => user != h.vault && SoundRule(rule)
    case ClearPublicRule(user, _) => user != h.vault
    case SetGlobalPublic(user, rid) => user != h.vault && (user, rid) in s.lanes.rules
    case ClearGlobalPublic(user) => user != h.vault
    case Administer(admin, action) => MayAdminister(h, s, admin, action)
    case TokenMint(_, _, _) => true
    case TokenTransfer(from, _, asset, quantity) => from != h.vault && quantity <= Held(s.books.tokens, from, asset)
  }

  lemma OpenKeyExact(h: Host, s: State, user: Address, key: Address, asset: Address, expiry: U64, cap: I128, rule: Option<Bytes32>,
                     serverHeld: bool)
    ensures BeginRegisterSession(h, s, user, key, asset, expiry, cap, rule, serverHeld).Ok?
      <==> MayOpenKey(h, s, user, key, asset, expiry, cap, rule, serverHeld)
  {
  }

  lemma UpdateKeyExact(h: Host, s: State, user: Address, key: Address, expiry: U64, cap: I128)
    ensures BeginUpdateSession(h, s, user, key, expiry, cap).Ok? <==> MayUpdateKey(h, s, user, key, expiry, cap)
  {
  }

  lemma RuleExact(s: State, owner: Address, ruleId: Bytes32, payee: Address, amount: I128)
    requires amount > 0
    ensures CheckRule(s, owner, ruleId, payee, amount).Ok? <==> RuleLets(s, owner, ruleId, payee, amount)
  {
    if (owner, ruleId) in s.lanes.rules {
      R.CheckExact(s.lanes.rules[(owner, ruleId)], UsageOf(s.lanes, owner, ruleId), payee, amount, s.now);
    }
  }

  lemma BothRulesExact(s: State, key: Address, payee: Address, amount: I128, chosen: Option<Bytes32>)
    requires amount > 0 && key in s.lanes.sessions
    ensures var info := s.lanes.sessions[key];
      RollBothRules(s, info.user, SelectedRule(info, chosen), payee, amount).Ok? <==> RulesLet(s, key, payee, amount, chosen)
  {
    var info := s.lanes.sessions[key];
    var selected := SelectedRule(info, chosen);
    if selected.Some? {
      RuleExact(s, info.user, selected.value, payee, amount);
    }
    if info.user in s.lanes.globalPublic {
      RuleExact(s, info.user, s.lanes.globalPublic[info.user], payee, amount);
    }
  }

  lemma KeyExact(s: State, key: Address, amount: I128)
    requires amount > 0
    ensures KeyAllows(s, key, amount).Pass? <==> KeyInForce(s, key, amount)
  {
  }

  lemma PayByKeyExact(h: Host, s: State, key: Address, payee: Address, amount: I128, chosen: Option<Bytes32>)
    ensures BeginReleaseSession(h, s, key, payee, amount, chosen).Ok? <==> MayPayByKey(h, s, key, payee, amount, chosen)
  {
    if amount > 0 && key in s.lanes.sessions {
      KeyExact(s, key, amount);
      BothRulesExact(s, key, payee, amount, chosen);
      var info := s.lanes.sessions[key];
      if (info.user, info.asset) in s.books.accounts {
        FeeFitsExact(s, info.asset, amount, SpendDirect(s.books, info.user, info.asset, amount));
      }
    }
  }

  lemma PayPlainlyExact(h: Host, s: State, orchestrator: Address, id: U64, step: U64, asset: Address, amount: I128)
    ensures BeginReleasePayment(h, s, orchestrator, id, step, asset, amount).Ok?
      <==> MayPayPlainly(h, s, orchestrator, id, step, asset, amount)
  {
    if id in s.books.tasks {
      FeeFitsExact(s, asset, amount, RecordRelease(s.books, id, step, amount));
    }
  }

  lemma PayProvedExact(h: Host, s: State, orchestrator: Address, id: U64, step: U64, asset: Address, amount: I128, payee: Address,
                       nullifier: Bytes32, proof: Proof)
    ensures BeginReleaseProved(h, s, orchestrator, id, step, asset, amount, payee, nullifier, proof).Ok?
      <==> MayPayProved(h, s, orchestrator, id, step, asset, amount, payee, nullifier, proof)
  {
    if id in s.books.tasks {
      FeeFitsExact(s, asset, amount, MarkTaskNullifier(RecordRelease(s.books, id, step, amount), id, nullifier));
    }
  }

  lemma SoundExact(s: State, q: S.Batch)
    ensures SoundBatch(s, q) <==> BatchShape(q).Pass? && InWindow(s, q).Pass? && BatchTotal(q.amounts).Ok?
    ensures SoundBatch(s, q) ==> BatchTotal(q.amounts) == Ok(S.BatchSum(q))
  {
  }

  lemma VerifyExact(h: Host, s: State, commitment: Bytes32, q: S.Batch, proof: Proof)
    requires S.WellFormed(q) && S.BatchSum(q) <= I128_MAX && s.ctl.verifier.Some?
    ensures BatchProofHolds(h, s, commitment, q, proof) <==>
      FreshFrom(s.lanes.nullifiers, q.nullifiers, 0).Pass? && VerifyBatch(h, s, s.ctl.verifier.value, commitment, q, proof).Ok?
  {
    FreshExact(s.lanes.nullifiers, q.nullifiers);
  }

  lemma PayBatchExact(h: Host, s: State, orchestrator: Address, id: U64, step: U64, asset: Address, q: S.Batch, proof: Proof)
    ensures BeginReleaseBatch(h, s, orchestrator, id, step, asset, q, proof).Ok?
      <==> MayPayBatch(h, s, orchestrator, id, step, asset, q, proof)
  {
    SoundExact(s, q);
    if SoundBatch(s, q) && id in s.books.tasks && s.books.tasks[id].commitment.Some? && s.ctl.verifier.Some? {
      VerifyExact(h, s, s.books.tasks[id].commitment.value, q, proof);
    }
  }

  lemma SecondExact(h: Host, s: State, l1: Lanes, user: Address, commitment: Bytes32, q: S.Batch, global: Option<GlobalProof>)
    requires S.WellFormed(q) && S.BatchSum(q) <= I128_MAX && s.ctl.verifier.Some? && (user, Private) in s.lanes.globals
    ensures SettleGlobal(h, s, l1, s.ctl.verifier.value, s.lanes.globals[(user, Private)], commitment, q, global).Ok?
      <==> GlobalHolds(h, s, user, q, global)
  {
    if global.Some? && |global.value.nullifiers| == |q.payees| {
      VerifyExact(h, s, s.lanes.globals[(user, Private)], UnderGlobal(q, global.value), global.value.proof);
    }
  }

  lemma SettleExact(h: Host, s: State, user: Address, commitment: Bytes32, q: S.Batch, proof: Proof, global: Option<GlobalProof>)
    requires S.WellFormed(q) && S.BatchSum(q) <= I128_MAX && s.ctl.verifier.Some?
    ensures SettleKeyless(h, s, s.ctl.verifier.value, user, commitment, q, proof, global).Ok?
      <==> BatchProofHolds(h, s, commitment, q, proof) && GlobalHolds(h, s, user, q, global)
  {
    VerifyExact(h, s, commitment, q, proof);
    if (user, Private) in s.lanes.globals && BatchProofHolds(h, s, commitment, q, proof) {
      var acc := VerifyBatch(h, s, s.ctl.verifier.value, commitment, q, proof).value;
      SecondExact(h, s, SetAccum(MarkNullifiers(s.lanes, q.nullifiers, s.ledger), commitment, acc), user, commitment, q, global);
    }
  }

  lemma PayKeylessExact(h: Host, s: State, user: Address, asset: Address, commitment: Bytes32, q: S.Batch, proof: Proof,
                        global: Option<GlobalProof>)
    ensures BeginReleaseKeyless(h, s, user, asset, commitment, q, proof, global).Ok?
      <==> MayPayKeyless(h, s, user, asset, commitment, q, proof, global)
  {
    SoundExact(s, q);
    if SoundBatch(s, q) && s.ctl.verifier.Some? {
      SettleExact(h, s, user, commitment, q, proof, global);
    }
  }

  lemma CloseExact(s: State, id: nat, expected: Option<Address>, split: Option<(nat, nat)>)
    ensures Finalize(s, id, expected, split).Ok? <==>
      && CanClose(s, id, if split.Some? then split.value.1 else 0)
      && (expected.Some? ==> s.books.tasks[id].orchestrator == expected.value)
  {
  }

  lemma EndingExact(h: Host, s: State, who: Address, id: U64)
    ensures BeginComplete(h, s, who, id).Ok? <==> MayComplete(h, s, who, id)
    ensures BeginCancel(h, s, who, id).Ok? <==> MayCancel(h, s, who, id)
    ensures BeginForceComplete(h, s, id).Ok? <==> MayForce(s, id)
    ensures BeginRaiseDispute(h, s, who, id).Ok? <==> MayDispute(h, s, who, id)
  {
    CloseExact(s, id, Some(who), None);
    CloseExact(s, id, None, None);
  }

  lemma ResolveExact(h: Host, s: State, resolver: Address, id: U64, refund: I128, payout: I128)
    ensures BeginResolveDispute(h, s, resolver, id, refund, payout).Ok? <==> MayResolve(h, s, resolver, id, refund, payout)
  {
    if refund >= 0 && payout >= 0 {
      CloseExact(s, id, None, Some((refund as nat, payout as nat)));
    }
  }

  predicate OfSessions(op: Op) {
    op.RegisterSession? || op.SetSessionPaused? || op.UpdateSession? || op.RevokeSession? || op.ReleaseSession?
  }

  predicate OfTasks(op: Op) {
    op.RegisterOrchestrator? || op.UpdateOrchestrator? || op.CreateTask? || op.CreateTaskWithPolicy? || op.ReleasePayment? || op.ReleaseProved?
  }

  predicate OfEndings(op: Op) {
    op.CompleteTask? || op.CancelTask? || op.ForceComplete? || op.RaiseDispute? || op.ResolveDispute? || op.ClaimFees?
  }

  predicate OfLanes(op: Op) {
    op.PinCommitment? || op.UnpinCommitment? || op.SetGlobal? || op.ClearGlobal? || op.SetPublicRule? || op.ClearPublicRule?
    || op.SetGlobalPublic? || op.ClearGlobalPublic?
  }

  lemma SessionsExact(h: Host, s: State, op: Op)
    requires OfSessions(op)
    ensures Begin(h, s, op).Ok? <==> May(h, s, op)
  {
    if op.RegisterSession? {
      OpenKeyExact(h, s, op.user, op.session, op.asset, op.expiry, op.spendCap, op.boundRule, op.serverHeld);
    } else if op.UpdateSession? {
      UpdateKeyExact(h, s, op.user, op.session, op.newExpiry, op.newSpendCap);
    } else if op.ReleaseSession? {
      PayByKeyExact(h, s, op.session, op.payee, op.amount, op.chosenRule);
    }
  }

  lemma TasksExact(h: Host, s: State, op: Op)
    requires OfTasks(op)
    ensures Begin(h, s, op).Ok? <==> May(h, s, op)
  {
    if op.ReleasePayment? {
      PayPlainlyExact(h, s, op.orchestrator, op.task, op.step, op.asset, op.amount);
    } else if op.ReleaseProved? {
      PayProvedExact(h, s, op.orchestrator, op.task, op.step, op.asset, op.amount, op.payee, op.nullifier, op.proof);
    }
  }

  lemma EndingsExact(h: Host, s: State, op: Op)
    requires OfEndings(op)
    ensures Begin(h, s, op).Ok? <==> May(h, s, op)
  {
    if op.ResolveDispute? {
      ResolveExact(h, s, op.resolver, op.task, op.refund, op.payout);
    } else if op.CompleteTask? {
      EndingExact(h, s, op.orchestrator, op.task);
    } else if op.CancelTask? || op.RaiseDispute? {
      EndingExact(h, s, op.user, op.task);
    } else if op.ForceComplete? {
      EndingExact(h, s, 0, op.task);
    }
  }

  lemma LanesExact(h: Host, s: State, op: Op)
    requires OfLanes(op)
    ensures Begin(h, s, op).Ok? <==> May(h, s, op)
  {
  }

  lemma OthersExact(h: Host, s: State, op: Op)
    requires op.Deposit? || op.Withdraw? || op.Administer? || op.TokenMint? || op.TokenTransfer?
    ensures Begin(h, s, op).Ok? <==> May(h, s, op)
  {
  }

  /** Every entry point succeeds exactly when its conditions hold: it refuses nothing else, and lets nothing else pass. */
  lemma BeginExact(h: Host, s: State, op: Op)
    ensures Begin(h, s, op).Ok? <==> May(h, s, op)
  {
    if OfSessions(op) {
      SessionsExact(h, s, op);
    } else if OfTasks(op) {
      TasksExact(h, s, op);
    } else if OfEndings(op) {
      EndingsExact(h, s, op);
    } else if OfLanes(op) {
      LanesExact(h, s, op);
    } else if op.ReleaseBatch? {
      PayBatchExact(h, s, op.orchestrator, op.task, op.step, op.asset, op.batch, op.proof);
    } else if op.ReleaseKeyless? {
      PayKeylessExact(h, s, op.user, op.asset, op.commitment, op.batch, op.proof, op.global);
    } else {
      OthersExact(h, s, op);
    }
  }

  // ---- Refusals -----------------------------------------------------------

  /** Within the plan, under a fresh nullifier and a pinned commitment. */
  predicate NothingElseWrong(s: State, op: Op)
    requires op.ReleaseProved? && op.task in s.books.tasks && s.books.tasks[op.task].commitment.Some?
  {
    var t := s.books.tasks[op.task];
    && op.amount > 0 && t.spent + op.amount <= t.planCost <= I128_MAX && (op.task, op.nullifier) !in s.books.taskNullifiers
    && t.commitment.value in Pinned(s.lanes, t.user)
  }

  /** Without the verifier's consent a proved release of a new step is refused; if nothing else is wrong, for that reason. */
  lemma RefusedWithoutProof(h: Host, s: State, op: Op)
    requires op.ReleaseProved? && op.task in s.books.tasks && s.books.tasks[op.task].commitment.Some?
    requires (op.task, op.step) !in s.books.steps && s.ctl.verifier.Some?
    requires var c := s.books.tasks[op.task].commitment.value;
      !h.verifyPolicy(s.ctl.verifier.value, c, op.payee, op.amount, op.nullifier, op.proof)
    ensures Begin(h, s, op).Err?
    ensures MayRelease(h, s, op.orchestrator, op.task, op.asset) && NothingElseWrong(s, op) ==> Begin(h, s, op) == Err(PolicyProofRejected)
  {
  }

  /** Nobody's balance is spent under a commitment that user has not pinned. */
  lemma RefusedUnpinned(h: Host, s: State, op: Op)
    requires op.ReleaseKeyless? && op.commitment !in Pinned(s.lanes, op.user)
    ensures Begin(h, s, op).Err?
    ensures !s.ctl.paused && SoundBatch(s, op.batch) ==> Begin(h, s, op) == Err(CommitmentNotAuthorized)
  {
    SoundExact(s, op.batch);
  }

  /** Why a key that may not pay is refused. */
  lemma RefusedKey(h: Host, s: State, op: Op)
    requires op.ReleaseSession? && op.session != h.vault && !s.ctl.paused && op.amount > 0
    ensures op.session !in s.lanes.sessions ==> Begin(h, s, op) == Err(SessionNotFound)
    ensures op.session in s.lanes.sessions ==>
      var info := s.lanes.sessions[op.session];
      && (info.paused ==> Begin(h, s, op) == Err(SessionPaused))
      && (!info.paused && info.expiry != 0 && s.now > info.expiry ==> Begin(h, s, op) == Err(SessionExpired))
      && (!info.paused && (info.expiry == 0 || s.now <= info.expiry) && info.spendCap > 0 && info.spendCap < info.spent + op.amount <= I128_MAX
          ==> Begin(h, s, op) == Err(SessionBudgetExceeded))
  {
  }

  /** Why a stranger cannot end, dispute or settle an open task. */
  lemma RefusedStranger(h: Host, s: State, op: Op, id: nat)
    requires id in s.books.tasks && !s.books.tasks[id].completed
    ensures op.CompleteTask? && op.task == id && op.orchestrator != h.vault ==>
      (!s.books.tasks[id].disputed && op.orchestrator != s.books.tasks[id].orchestrator ==> Begin(h, s, op) == Err(NotYourOrchestrator))
    ensures (op.CancelTask? || op.RaiseDispute?) && op.task == id && op.user != h.vault && op.user != s.books.tasks[id].user ==>
      Begin(h, s, op) == Err(NotYourTask)
    ensures op.ResolveDispute? && op.task == id && op.resolver != h.vault && !s.ctl.paused && s.books.tasks[id].disputed ==>
      (s.ctl.resolver.Some? && s.ctl.resolver.value != op.resolver ==> Begin(h, s, op) == Err(NotDisputeResolver))
  {
  }
}
