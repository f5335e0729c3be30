/**
 * The vault's entry points as functions on its state. `Begin` makes every check
 * of an entry point and commits every effect that precedes its first token
 * transfer; what is then still to be moved is a `Due`. `Exec` plays the
 * transfers, during which the token may re-enter any entry point.
 */
module Vault {
  import opened Base
  import opened Bytes
  import opened VaultState
  import opened BookKeeping
  import S = Signals
  import R = PublicRules

  /** One token transfer an entry point still has to make. */
  datatype Line =
    | Pull(from: Address, amount: int)                     // from the depositor
    | Fixed(to: Address, net: int, fee: int, rate: Rate)   // fee already accrued
    | Taxed(to: Address, gross: int)                       // fee taken when its turn comes

  datatype Fin = Emit(events: seq<Event>) | CreditUser(user: Address, amount: int)

  datatype Due = Due(asset: Address, task: Option<nat>, lines: seq<Line>, fin: Fin)

  datatype Pending = Pending(s: State, due: Due)

  const Nothing := Due(0, None, [], Emit([]))

  // ---- Guards -------------------------------------------------------------

  /** The vault itself never signs, so an address that authorises is another one. */
  function Auth(h: Host, who: Address): Guard<Error> {
    Need(who != h.vault, AuthFailed)
  }

  function Running(s: State): Guard<Error> {
    Need(!s.ctl.paused, ContractPaused)
  }

  function Fits(x: int): Guard<Error> {
    Need(x <= I128_MAX, Aborted)
  }

  function Quiet(s: State): Result<Pending, Error> {
    Ok(Pending(s, Nothing))
  }

  // ---- Fees ---------------------------------------------------------------

  /** floor(amount * bps / 10000), or 0 when no fee is configured. */
  function ComputeFee(ctl: Control, amount: int): Result<int, Error> {
    match ctl.feeConfig
    case None => Ok(0)
    case Some(c) =>
      if c.bps == 0 || c.recipient.None? then Ok(0)
      else
        :- Need(amount * c.bps <= I128_MAX, Aborted);
        Ok(amount * c.bps / 10_000)
  }

  function Accrue(b: Books, ctl: Control, asset: Address, fee: int): Result<Books, Error> {
    if fee > 0 && ctl.feeConfig.Some? && ctl.feeConfig.value.recipient.Some? then
      :- Fits(Fees(b, asset) + fee);
      Ok(AddFee(b, asset, fee))
    else Ok(b)
  }

  // ---- Deposits and withdrawals ------------------------------------------

  function BeginDeposit(h: Host, s: State, user: Address, asset: Address, amount: I128): Result<Pending, Error> {
    var ctl := s.ctl;
    :- Auth(h, user);
    :- Running(s);
    :- Need(amount > 0, InvalidAmount);
    :- Need(asset in ctl.supported, AssetNotSupported);
    Ok(Pending(s, Due(asset, None, [Pull(user, amount)], CreditUser(user, amount))))
  }

  /** The account an unlocked amount can be drawn from. */
  function Available(b: Books, user: Address, asset: Address): int
    requires (user, asset) in b.accounts
  {
    b.accounts[(user, asset)].balance - b.accounts[(user, asset)].locked
  }

  function BeginWithdraw(h: Host, s: State, user: Address, asset: Address, amount: I128): Result<Pending, Error> {
    var books := s.books;
    :- Auth(h, user);
    :- Need(amount > 0, InvalidAmount);
    :- Need(user in books.configs, Aborted);
    :- Need((user, asset) in books.accounts, Aborted);
    :- Need(books.accounts[(user, asset)].balance >= amount, InsufficientBalance);
    :- Need(amount <= Available(books, user, asset), InsufficientAvailable);
    Ok(Pending(s.(books := Debit(books, user, asset, amount)),
               Due(asset, None, [Fixed(user, amount, 0, NoFee)], Emit([WithdrawEvent(user, asset, amount)]))))
  }

  // ---- Sessions -----------------------------------------------------------

  function SetSession(l: Lanes, key: Address, info: Session): Lanes {
    l.(sessions := l.sessions[key := info])
  }

  /** A new key must be bounded: by a cap or an existing rule, and by a cap and a time if the platform holds it. */
  function SessionBounds(s: State, user: Address, asset: Address, expiry: U64, spendCap: I128, ruleId: Option<Bytes32>,
                         serverHeld: bool): Guard<Error>
  {
    if spendCap < 0 then Stop(InvalidPublicParams)
    else if spendCap == 0 && ruleId.None? then Stop(SessionUnbounded)
    else if !(if serverHeld then expiry > s.now && spendCap > 0 else expiry == 0 || expiry > s.now) then
      Stop(InvalidPublicParams)
    else if ruleId.Some? && (user, ruleId.value) !in s.lanes.rules then Stop(PublicRuleNotFound)
    else Need(asset in s.ctl.supported, AssetNotSupported)
  }

  function BeginRegisterSession(h: Host, s: State, user: Address, session: Address, asset: Address, expiry: U64,
                                spendCap: I128, ruleId: Option<Bytes32>, serverHeld: bool): Result<Pending, Error>
  {
    var lanes := s.lanes;
    :- Auth(h, user);
    :- Running(s);
    :- SessionBounds(s, user, asset, expiry, spendCap, ruleId, serverHeld);
    :- Need(session !in lanes.sessions, SessionAlreadyExists);
    var info := Session(user, asset, expiry, spendCap, ruleId, serverHeld, false, 0, 0);
    Quiet(s.(books := EnsureConfig(s.books, user),
             lanes := SetSession(lanes, session, info).(log := lanes.log + [SessionOpened(session)])))
  }

  function OwnSession(s: State, user: Address, session: Address): Guard<Error> {
    if session !in s.lanes.sessions then Stop(SessionNotFound)
    else Need(s.lanes.sessions[session].user == user, NotYourSession)
  }

  function BeginSetSessionPaused(h: Host, s: State, user: Address, session: Address, paused: bool): Result<Pending, Error> {
    var lanes := s.lanes;
    :- Auth(h, user);
    :- OwnSession(s, user, session);
    Quiet(s.(lanes := SetSession(lanes, session, lanes.sessions[session].(paused := paused))))
  }

  function BeginUpdateSession(h: Host, s: State, user: Address, session: Address, newExpiry: U64, newSpendCap: I128)
    : Result<Pending, Error>
  {
    var lanes := s.lanes;
    :- Auth(h, user);
    :- OwnSession(s, user, session);
    var info := lanes.sessions[session];
    :- Need(newExpiry == 0 || newExpiry > s.now, InvalidPublicParams);
    var info1 := if newExpiry != 0 then info.(expiry := newExpiry) else info;
    :- Need(newSpendCap == 0 || newSpendCap >= info.spent, InvalidPublicParams);
    var info2 := if newSpendCap != 0 then info1.(spendCap := newSpendCap) else info1;
    :- Need(!(info2.serverHeld && (info2.spendCap <= 0 || info2.expiry <= s.now)), InvalidPublicParams);
    Quiet(s.(lanes := SetSession(lanes, session, info2)))
  }

  function BeginRevokeSession(h: Host, s: State, user: Address, session: Address): Result<Pending, Error> {
    var lanes := s.lanes;
    :- Auth(h, user);
    :- OwnSession(s, user, session);
    Quiet(s.(lanes := lanes.(sessions := lanes.sessions - {session})))
  }

  /** Check one rule of `owner` and return its rolled usage. */
  function CheckRule(s: State, owner: Address, ruleId: Bytes32, payee: Address, amount: I128)
    : Result<R.PublicUsage, Error>
  {
    var lanes := s.lanes;
    :- Need((owner, ruleId) in lanes.rules, PublicRuleNotFound);
    match R.CheckPublicRule(lanes.rules[(owner, ruleId)], UsageOf(lanes, owner, ruleId), payee, amount, s.now)
    case Ok(u) => Ok(u)
    case Err(e) => Err(RuleViolated(e))
  }

  /** Store a rolled usage and log the release that rolled it. */
  function UseRule(l: Lanes, rule: R.PublicRule, now: U64, owner: Address, ruleId: Bytes32, usage: R.PublicUsage, amount: I128): Lanes {
    l.(usage := l.usage[(owner, ruleId) := usage], log := l.log + [RuleUsed(owner, ruleId, R.Use(rule, amount, now))])
  }

  /** The rules one session spend has to satisfy: the selected one, then the global one if different. */
  function SelectedRule(info: Session, ruleId: Option<Bytes32>): Option<Bytes32> {
    if ruleId.Some? then ruleId else info.ruleId
  }

  /** The owner's global rule, whether or not it was selected too. */
  function PointerOf(l: Lanes, owner: Address): Option<Bytes32> {
    if owner in l.globalPublic then Some(l.globalPublic[owner]) else None
  }

  function GlobalRule(l: Lanes, owner: Address, selected: Option<Bytes32>): Option<Bytes32> {
    if owner in l.globalPublic && selected != Some(l.globalPublic[owner]) then Some(l.globalPublic[owner]) else None
  }

  function RollRule(s: State, l: Lanes, owner: Address, ruleId: Option<Bytes32>, payee: Address, amount: I128)
    : Result<Lanes, Error>
  {
    match ruleId
    case None => Ok(l)
    case Some(rid) =>
      var usage :- CheckRule(s, owner, rid, payee, amount);
      Ok(UseRule(l, s.lanes.rules[(owner, rid)], s.now, owner, rid, usage, amount))
  }

  /** A key that exists, is not paused, has not expired, and has budget left under its own cap. */
  function KeyAllows(s: State, session: Address, amount: I128): Guard<Error> {
    if session !in s.lanes.sessions then Stop(SessionNotFound)
    else
      var info := s.lanes.sessions[session];
      if info.paused then Stop(SessionPaused)
      else if info.expiry != 0 && s.now > info.expiry then Stop(SessionExpired)
      else if info.spendCap > 0 && info.spent + amount > I128_MAX then Stop(InvalidAmount)
      else Need(info.spendCap > 0 ==> info.spent + amount <= info.spendCap, SessionBudgetExceeded)
  }

  /** Only the unlocked part of an existing account may be spent directly. */
  function Spendable(b: Books, user: Address, asset: Address, amount: int): Guard<Error> {
    if (user, asset) !in b.accounts then Stop(InsufficientBalance)
    else Need(amount <= Available(b, user, asset), InsufficientAvailable)
  }

  /** The selected rule and, if it is another, the global one: both are checked against the usage before this spend. */
  function RollBothRules(s: State, owner: Address, selected: Option<Bytes32>, payee: Address, amount: I128): Result<Lanes, Error> {
    var l1 :- RollRule(s, s.lanes, owner, selected, payee, amount);
    RollRule(s, l1, owner, GlobalRule(s.lanes, owner, selected), payee, amount)
  }

  /** The account covers the spend, and every running total has room for it. */
  function SpendFits(s: State, info: Session, amount: I128): Guard<Error> {
    if (info.user, info.asset) !in s.books.accounts then Stop(InsufficientBalance)
    else if amount > Available(s.books, info.user, info.asset) then Stop(InsufficientAvailable)
    else Need(info.spent + amount <= I128_MAX && info.releaseCount + 1 <= U32_MAX
              && s.books.accounts[(info.user, info.asset)].totalSpent + amount <= I128_MAX, Aborted)
  }

  /** The session's own record after a spend. */
  function SpentFrom(l: Lanes, key: Address, info: Session, selected: Option<Bytes32>, amount: I128, now: U64): Lanes {
    l.(sessions := l.sessions[key := info.(spent := info.spent + amount, releaseCount := info.releaseCount + 1)],
       log := l.log + [SessionPaid(key, info.user, amount, info.spendCap > 0, selected, PointerOf(l, info.user), now)])
  }

  function SessionDue(info: Session, payee: Address, amount: int, fee: int, config: Option<FeeConfig>): Due {
    Due(info.asset, None, [Fixed(payee, amount - fee, fee, AtRate(config))], Emit([Other]))
  }

  function BeginReleaseSession(h: Host, s: State, session: Address, payee: Address, amount: I128,
                               ruleId: Option<Bytes32>): Result<Pending, Error>
  {
    var ctl := s.ctl;
    :- Auth(h, session);
    :- Running(s);
    :- Need(amount > 0, InvalidAmount);
    :- KeyAllows(s, session, amount);
    var info := s.lanes.sessions[session];
    var selected := SelectedRule(info, ruleId);
    var l :- RollBothRules(s, info.user, selected, payee, amount);
    :- SpendFits(s, info, amount);
    var fee :- ComputeFee(ctl, amount);
    var b :- Accrue(SpendDirect(s.books, info.user, info.asset, amount), ctl, info.asset, fee);
    Ok(Pending(s.(books := b, lanes := SpentFrom(l, session, info, selected, amount, s.now)), SessionDue(info, payee, amount, fee, ctl.feeConfig)))
  }

  // ---- Orchestrators ------------------------------------------------------

  function BeginRegisterOrchestrator(h: Host, s: State, user: Address, orchestrator: Address): Result<Pending, Error> {
    var ctl := s.ctl;
    :- Auth(h, user);
    var b := EnsureConfig(s.books, user);
    :- Need(b.configs[user].orchestrator.None?, OrchestratorAlreadyRegistered);
    Quiet(s.(books := b.(configs := b.configs[user := b.configs[user].(orchestrator := Some(orchestrator))]),
             ctl := ctl.(owners := ctl.owners[orchestrator := user])))
  }

  function BeginUpdateOrchestrator(h: Host, s: State, user: Address, orchestrator: Address): Result<Pending, Error> {
    var ctl := s.ctl;
    :- Auth(h, user);
    var b := s.books;
    :- Need(user in b.configs, OrchestratorNotRegistered);
    :- Need(b.configs[user].activeTasks == 0, ActiveTaskExists);
    :- Need(b.configs[user].orchestrator.Some?, OrchestratorNotRegistered);
    :- Need(orchestrator in ctl.owners ==> ctl.owners[orchestrator] == user, OrchestratorAlreadyRegistered);
    var old' := b.configs[user].orchestrator.value;
    Quiet(s.(books := b.(configs := b.configs[user := b.configs[user].(orchestrator := Some(orchestrator))]),
             ctl := ctl.(owners := (ctl.owners - {old'})[orchestrator := user])))
  }

  // ---- Tasks --------------------------------------------------------------

  function BeginCreateTask(h: Host, s: State, orchestrator: Address, asset: Address, planCost: I128,
                           commitment: Option<Bytes32>): Result<Pending, Error>
  {
    var books := s.books;
    :- Need(commitment != Some(ZERO32), InvalidCommitment);
    :- Auth(h, orchestrator);
    :- Running(s);
    :- Need(planCost > 0, InvalidAmount);
    :- Need(asset in s.ctl.supported, AssetNotSupported);
    :- Need(orchestrator in s.ctl.owners, OrchestratorNotRegistered);
    var user := s.ctl.owners[orchestrator];
    :- Need(user in books.configs, Aborted);
    :- Need(books.configs[user].activeTasks < s.ctl.maxActiveTasks, TooManyActiveTasks);
    :- Need((user, asset) in books.accounts, Aborted);
    :- Need(Available(books, user, asset) >= planCost, InsufficientAvailable);
    :- Need(books.counter + 1 <= U64_MAX, Aborted);
    Quiet(s.(books := OpenTask(books,
      Task(user, orchestrator, asset, planCost, 0, false, false, commitment, s.now))))
  }

  /** A live, undisputed task in this asset, released by its own orchestrator. */
  function Releasable(t: Task, orchestrator: Address, asset: Address): Guard<Error> {
    if t.completed then Stop(TaskAlreadyCompleted)
    else if t.disputed then Stop(TaskDisputed)
    else if t.orchestrator != orchestrator then Stop(NotYourOrchestrator)
    else Need(t.asset == asset, AssetMismatch)
  }

  /** The budget is checked before anything else costs work. */
  function WithinPlan(t: Task, amount: int): Guard<Error> {
    if t.spent + amount > I128_MAX then Stop(Aborted)
    else Need(t.spent + amount <= t.planCost, ExceedsPlanCost)
  }

  function RoomForStep(b: Books, id: nat, step: U64): Guard<Error> {
    Need(step in StepIds(b, id) || |StepIds(b, id)| < MAX_RELEASE_STEPS_PER_TASK, TooManyStepReleases)
  }

  /** A step already paid: the same amount is an idempotent success, another a conflict. */
  function RepeatStep(s: State, id: nat, step: U64, amount: int): Result<Pending, Error>
    requires (id, step) in s.books.steps
  {
    if s.books.steps[(id, step)] == amount then Quiet(s) else Err(ReleaseConflict)
  }

  function BeginReleasePayment(h: Host, s: State, orchestrator: Address, id: U64, step: U64, asset: Address,
                               amount: I128): Result<Pending, Error>
  {
    var books := s.books;
    :- Auth(h, orchestrator);
    :- Running(s);
    :- Need(amount > 0, InvalidAmount);
    :- Need(id in books.tasks, TaskNotFound);
    var t := books.tasks[id];
    :- Need(t.commitment.None?, PolicyProofRequired);
    :- Releasable(t, orchestrator, asset);
    if (id, step) in books.steps then RepeatStep(s, id, step, amount)
    else
      :- WithinPlan(t, amount);
      :- RoomForStep(books, id, step);
      var fee :- ComputeFee(s.ctl, amount);
      var b :- Accrue(RecordRelease(books, id, step, amount), s.ctl, asset, fee);
      Ok(Pending(s.(books := b), Due(asset, Some(id), [Fixed(orchestrator, amount - fee, fee, AtRate(s.ctl.feeConfig))], Emit([Other]))))
  }

  function BeginReleaseProved(h: Host, s: State, orchestrator: Address, id: U64, step: U64, asset: Address,
                              amount: I128, payee: Address, nullifier: Bytes32, proof: Proof): Result<Pending, Error>
  {
    var books := s.books;
    :- Auth(h, orchestrator);
    :- Running(s);
    :- Need(amount > 0, InvalidAmount);
    :- Need(id in books.tasks, TaskNotFound);
    var t := books.tasks[id];
    :- Need(t.commitment.Some?, NoPolicyCommitment);
    :- Releasable(t, orchestrator, asset);
    if (id, step) in books.steps then RepeatStep(s, id, step, amount)
    else
      :- WithinPlan(t, amount);
      :- Need((id, nullifier) !in books.taskNullifiers, NullifierAlreadyUsed);
      :- Need(t.commitment.value in Pinned(s.lanes, t.user), CommitmentNotAuthorized);
      :- Need(s.ctl.verifier.Some?, PolicyVerifierNotSet);
      :- Need(h.verifyPolicy(s.ctl.verifier.value, t.commitment.value, payee, amount, nullifier, proof),
              PolicyProofRejected);
      :- RoomForStep(books, id, step);
      :- Need(nullifier in NullifierIds(books, id)
              || |NullifierIds(books, id)| < MAX_RELEASE_STEPS_PER_TASK, TooManyStepReleases);
      var fee :- ComputeFee(s.ctl, amount);
      var b :- Accrue(MarkTaskNullifier(RecordRelease(books, id, step, amount), id, nullifier), s.ctl, asset, fee);
      Ok(Pending(s.(books := b), Due(asset, Some(id), [Fixed(payee, amount - fee, fee, AtRate(s.ctl.feeConfig))], Emit([Other]))))
  }

  // ---- Batches ------------------------------------------------------------

  function BatchShape(q: S.Batch): Guard<Error> {
    Need(1 <= |q.payees| <= S.BATCH_N && |q.amounts| == |q.payees| && |q.nullifiers| == |q.payees|, BatchSizeInvalid)
  }

  function InWindow(s: State, q: S.Batch): Guard<Error> {
    if !(q.validAfter <= s.now <= q.validBefore) then Stop(OutsideValidityWindow)
    else Need(q.validBefore - s.now <= MAX_VALIDITY_SECS, ValidityWindowTooLong)
  }

  predicate AllPositive(amounts: seq<I128>) {
    forall i | 0 <= i < |amounts| :: amounts[i] > 0
  }

  /** The batch total, if every amount is positive and the sum fits. */
  function BatchTotal(amounts: seq<I128>): Result<int, Error> {
    if AllPositive(amounts) && S.SumAmounts(amounts) <= I128_MAX then Ok(S.SumAmounts(amounts)) else Err(InvalidAmount)
  }

  predicate Repeated(ns: seq<Bytes32>, i: nat)
    requires i < |ns|
  {
    exists j | 0 <= j < |ns| :: j != i && ns[j] == ns[i]
  }

  /** No nullifier is consumed already, and none occurs twice; the first bad one decides the error. */
  function FreshFrom(used: map<Bytes32, nat>, ns: seq<Bytes32>, i: nat): Guard<Error>
    decreases |ns| - i
  {
    if i >= |ns| then Pass
    else if ns[i] in used then Stop(NullifierAlreadyUsed)
    else if Repeated(ns, i) then Stop(BatchDuplicateNullifier)
    else FreshFrom(used, ns, i + 1)
  }

  /** Ask the verifier about a batch under one commitment; on acceptance, that commitment's rolled accumulator. */
  function VerifyBatch(h: Host, s: State, verifier: Address, commitment: Bytes32, q: S.Batch, proof: Proof)
    : Result<S.Accumulator, Error>
    requires S.WellFormed(q) && S.BatchSum(q) <= I128_MAX
  {
    var acc := AccumOf(s.lanes, commitment);
    :- Need(h.verifyGroth16(verifier, proof, S.PublicSignals(h.addressHash, commitment, q, acc)), PolicyProofRejected);
    Ok(S.Roll(acc, S.BatchSum(q), |q.payees|, q.resetR2, q.resetR7, q.validAfter))
  }

  function MarkNullifiers(l: Lanes, ns: seq<Bytes32>, ledger: nat): Lanes {
    l.(nullifiers := l.nullifiers + (map n | n in ns :: ledger))
  }

  function SetAccum(l: Lanes, commitment: Bytes32, acc: S.Accumulator): Lanes {
    l.(accums := l.accums[commitment := acc])
  }

  function RolledBy(commitment: Bytes32, q: S.Batch): LaneEntry
    requires S.WellFormed(q) && S.BatchSum(q) <= I128_MAX
  {
    Rolled(commitment, S.BatchSum(q), |q.payees|, q.resetR2, q.resetR7, q.validAfter)
  }

  function TaxedLines(payees: seq<Address>, amounts: seq<I128>): (lines: seq<Line>)
    requires |amounts| == |payees|
    ensures |lines| == |payees|
  {
    seq(|payees|, i requires 0 <= i < |payees| => Taxed(payees[i], amounts[i]))
  }

  function BeginReleaseBatch(h: Host, s: State, orchestrator: Address, id: U64, step: U64, asset: Address,
                             q: S.Batch, proof: Proof): Result<Pending, Error>
  {
    var books := s.books;
    :- Auth(h, orchestrator);
    :- Running(s);
    :- BatchShape(q);
    :- InWindow(s, q);
    :- Need(id in books.tasks, TaskNotFound);
    var t := books.tasks[id];
    :- Need(t.commitment.Some?, NoPolicyCommitment);
    :- Releasable(t, orchestrator, asset);
    var total :- BatchTotal(q.amounts);
    if (id, step) in books.steps then RepeatStep(s, id, step, total)
    else
      :- WithinPlan(t, total);
      :- FreshFrom(s.lanes.nullifiers, q.nullifiers, 0);
      var commitment := t.commitment.value;
      :- Need(commitment in Pinned(s.lanes, t.user), CommitmentNotAuthorized);
      :- Need(s.ctl.verifier.Some?, PolicyVerifierNotSet);
      var acc :- VerifyBatch(h, s, s.ctl.verifier.value, commitment, q, proof);
      :- RoomForStep(books, id, step);
      var l := SetAccum(MarkNullifiers(s.lanes, q.nullifiers, s.ledger), commitment, acc);
      Ok(Pending(
        s.(books := RecordRelease(books, id, step, total),
           lanes := l.(log := l.log + [Consumed(q.nullifiers, [], q.validBefore, s.now, s.ledger),
                                       RolledBy(commitment, q)])),
        Due(asset, Some(id), TaxedLines(q.payees, q.amounts), Emit([Other]))))
  }

  /** The batch as the second proof must show it: same releases and window, its own nullifiers and flags. */
  function UnderGlobal(q: S.Batch, g: GlobalProof): S.Batch {
    q.(nullifiers := g.nullifiers, resetR2 := g.resetR2, resetR7 := g.resetR7)
  }

  /** The second proof, when the user has a private global rule: its rolled accumulator. */
  function VerifyGlobal(h: Host, s: State, verifier: Address, gc: Bytes32, q: S.Batch, global: Option<GlobalProof>)
    : Result<S.Accumulator, Error>
    requires S.WellFormed(q) && S.BatchSum(q) <= I128_MAX
  {
    var lanes := s.lanes;
    :- Need(global.Some?, GlobalProofRequired);
    var g := global.value;
    :- Need(g.commitment == gc, GlobalCommitmentMismatch);
    :- Need(|g.nullifiers| == |q.payees|, BatchSizeInvalid);
    :- FreshFrom(lanes.nullifiers, g.nullifiers, 0);
    VerifyBatch(h, s, verifier, gc, UnderGlobal(q, g), g.proof)
  }

  /** The lanes after the second proof; `l1` already holds what the first one changed. */
  function SettleGlobal(h: Host, s: State, l1: Lanes, verifier: Address, gc: Bytes32, commitment: Bytes32, q: S.Batch,
                        global: Option<GlobalProof>): Result<Lanes, Error>
    requires S.WellFormed(q) && S.BatchSum(q) <= I128_MAX
  {
    var gacc :- VerifyGlobal(h, s, verifier, gc, q, global);
    var g := global.value;
    var l := SetAccum(MarkNullifiers(l1, g.nullifiers, s.ledger), gc, gacc);
    var consumed := Consumed(q.nullifiers, g.nullifiers, q.validBefore, s.now, s.ledger);
    // both proofs were read against the same accumulator; under one commitment the second roll is what stays
    var rolls := if gc == commitment then [RolledBy(gc, UnderGlobal(q, g))]
                 else [RolledBy(commitment, q), RolledBy(gc, UnderGlobal(q, g))];
    Ok(l.(log := l.log + [consumed] + rolls))
  }

  /** The lanes after a keyless spend's proofs. */
  function SettleKeyless(h: Host, s: State, verifier: Address, user: Address, commitment: Bytes32, q: S.Batch,
                         proof: Proof, global: Option<GlobalProof>): Result<Lanes, Error>
    requires S.WellFormed(q) && S.BatchSum(q) <= I128_MAX
  {
    var lanes := s.lanes;
    :- FreshFrom(lanes.nullifiers, q.nullifiers, 0);
    var acc :- VerifyBatch(h, s, verifier, commitment, q, proof);
    var l1 := SetAccum(MarkNullifiers(lanes, q.nullifiers, s.ledger), commitment, acc);
    if (user, Private) in lanes.globals then
      SettleGlobal(h, s, l1, verifier, lanes.globals[(user, Private)], commitment, q, global)
    else
      Ok(l1.(log := l1.log + [Consumed(q.nullifiers, [], q.validBefore, s.now, s.ledger), RolledBy(commitment, q)]))
  }

  function BeginReleaseKeyless(h: Host, s: State, user: Address, asset: Address, commitment: Bytes32, q: S.Batch,
                               proof: Proof, global: Option<GlobalProof>): Result<Pending, Error>
  {
    var books := s.books;
    :- Running(s);
    :- BatchShape(q);
    :- InWindow(s, q);
    var total :- BatchTotal(q.amounts);
    :- Need(commitment in Pinned(s.lanes, user), CommitmentNotAuthorized);
    :- Need(s.ctl.verifier.Some?, PolicyVerifierNotSet);
    :- Spendable(books, user, asset, total);
    var l :- SettleKeyless(h, s, s.ctl.verifier.value, user, commitment, q, proof, global);
    :- Fits(books.accounts[(user, asset)].totalSpent + total);
    Ok(Pending(s.(books := SpendDirect(books, user, asset, total), lanes := l),
               Due(asset, None, TaxedLines(q.payees, q.amounts), Emit([Other]))))
  }

  // ---- Ending a task ------------------------------------------------------

  function Finalize(s: State, id: nat, expected: Option<Address>, split: Option<(nat, nat)>): Result<Books, Error> {
    var b := s.books;
    :- Need(id in b.tasks, Aborted);
    var t := b.tasks[id];
    :- Need(!t.completed, TaskAlreadyCompleted);
    :- Need(expected.Some? ==> t.orchestrator == expected.value, NotYourOrchestrator);
    :- Need(t.user in b.configs && (t.user, t.asset) in b.accounts, Aborted);
    :- Fits(b.accounts[(t.user, t.asset)].totalSpent + t.spent + if split.Some? then split.value.1 else 0);
    :- Need(b.configs[t.user].activeTasks >= 1, Aborted);
    Ok(CloseTask(b, id, split))
  }

  function BeginComplete(h: Host, s: State, orchestrator: Address, id: U64): Result<Pending, Error> {
    var books := s.books;
    :- Auth(h, orchestrator);
    :- Need(id in books.tasks, TaskNotFound);
    :- Need(!books.tasks[id].disputed, TaskDisputed);
    var b :- Finalize(s, id, Some(orchestrator), None);
    Quiet(s.(books := b))
  }

  function BeginCancel(h: Host, s: State, user: Address, id: U64): Result<Pending, Error> {
    var books := s.books;
    :- Auth(h, user);
    :- Need(id in books.tasks, TaskNotFound);
    :- Need(books.tasks[id].user == user, NotYourTask);
    :- Need(!books.tasks[id].disputed, TaskDisputed);
    var b :- Finalize(s, id, None, None);
    Quiet(s.(books := b))
  }

  function BeginForceComplete(h: Host, s: State, id: U64): Result<Pending, Error> {
    var books := s.books;
    :- Need(id in books.tasks, TaskNotFound);
    var t := books.tasks[id];
    :- Need(!t.completed, TaskAlreadyCompleted);
    :- Need(!t.disputed, TaskDisputed);
    :- Need(s.now - t.createdAt > s.ctl.staleThreshold, TaskNotStale);
    var b :- Finalize(s, id, None, None);
    Quiet(s.(books := b))
  }

  function BeginRaiseDispute(h: Host, s: State, user: Address, id: U64): Result<Pending, Error> {
    var books := s.books;
    :- Auth(h, user);
    :- Need(id in books.tasks, TaskNotFound);
    var t := books.tasks[id];
    :- Need(!t.completed, TaskAlreadyCompleted);
    :- Need(t.user == user, NotYourTask);
    :- Need(!t.disputed, TaskDisputed);
    Quiet(s.(books := Publish(Freeze(books, id), [Other])))
  }

  function LineIfPositive(to: Address, amount: int): seq<Line> {
    if amount > 0 then [Fixed(to, amount, 0, NoFee)] else []
  }

  function BeginResolveDispute(h: Host, s: State, resolver: Address, id: U64, refund: I128, payout: I128)
    : Result<Pending, Error>
  {
    var books := s.books;
    :- Auth(h, resolver);
    :- Running(s);
    :- Need(id in books.tasks, TaskNotFound);
    var t := books.tasks[id];
    :- Need(!t.completed, TaskAlreadyCompleted);
    :- Need(t.disputed, TaskNotDisputed);
    :- Need(s.ctl.resolver.Some?, DisputeResolverNotSet);
    :- Need(s.ctl.resolver.value == resolver, NotDisputeResolver);
    :- Need(refund >= 0 && payout >= 0, InvalidAmount);
    :- Fits(refund + payout);
    :- Need(refund + payout == t.planCost - t.spent, DisputeSplitMismatch);
    var b :- Finalize(s, id, None, Some((refund as nat, payout as nat)));
    Ok(Pending(s.(books := b),
      Due(t.asset, None, LineIfPositive(t.user, refund) + LineIfPositive(t.orchestrator, payout), Emit([Other]))))
  }

  function BeginClaimFees(h: Host, s: State, recipient: Address, asset: Address): Result<Pending, Error> {
    var books := s.books;
    :- Auth(h, recipient);
    :- Running(s);
    :- Need(s.ctl.feeConfig.Some? && s.ctl.feeConfig.value.recipient == Some(recipient), Unauthorized);
    var accrued := Fees(books, asset);
    :- Need(accrued != 0, NoFeesAccrued);
    Ok(Pending(s.(books := ClearFees(books, asset)),
               Due(asset, None, [Fixed(recipient, accrued, 0, FeesTaken)], Emit([Other]))))
  }

  // ---- Commitments and public rules --------------------------------------

  function BeginPin(h: Host, s: State, user: Address, commitment: Bytes32): Result<Pending, Error> {
    var lanes := s.lanes;
    :- Auth(h, user);
    :- Need(commitment != ZERO32, InvalidCommitment);
    var pins := Pinned(lanes, user);
    if commitment in pins then Quiet(s)
    else
      :- Need(|pins| < MAX_POLICY_COMMITMENTS, CommitmentSetFull);
      Quiet(s.(lanes := lanes.(pinned := lanes.pinned[user := pins + [commitment]])))
  }

  function Without(pins: seq<Bytes32>, commitment: Bytes32): (r: seq<Bytes32>)
    ensures forall c :: c in r <==> c in pins && c != commitment
  {
    if pins == [] then []
    else
      assert pins == [pins[0]] + pins[1..];
      if pins[0] == commitment then Without(pins[1..], commitment)
      else [pins[0]] + Without(pins[1..], commitment)
  }

  function BeginUnpin(h: Host, s: State, user: Address, commitment: Bytes32): Result<Pending, Error> {
    var lanes := s.lanes;
    :- Auth(h, user);
    var pins := Pinned(lanes, user);
    :- Need(commitment in pins, CommitmentNotPinned);
    Quiet(s.(lanes := lanes.(pinned := lanes.pinned[user := Without(pins, commitment)])))
  }

  function BeginSetGlobal(h: Host, s: State, user: Address, lane: Lane, commitment: Bytes32): Result<Pending, Error> {
    var lanes := s.lanes;
    :- Auth(h, user);
    :- Need(commitment != ZERO32, InvalidCommitment);
    Quiet(s.(lanes := lanes.(globals := lanes.globals[(user, lane) := commitment])))
  }

  function BeginClearGlobal(h: Host, s: State, user: Address, lane: Lane): Result<Pending, Error> {
    var lanes := s.lanes;
    :- Auth(h, user);
    Quiet(s.(lanes := lanes.(globals := lanes.globals - {(user, lane)})))
  }

  function BeginSetPublicRule(h: Host, s: State, user: Address, ruleId: Bytes32, rule: R.PublicRule): Result<Pending, Error> {
    var lanes := s.lanes;
    :- Auth(h, user);
    :- Need(rule.perPaymentMax >= 0 && rule.perPaymentMin >= 0 && rule.rollingCap >= 0 && rule.denylistThreshold >= 0,
            InvalidPublicParams);
    :- Need(|rule.allowlist| <= MAX_SESSION_ALLOWLIST && |rule.denylist| <= MAX_SESSION_ALLOWLIST, InvalidPublicParams);
    Quiet(s.(lanes := lanes.(rules := lanes.rules[(user, ruleId) := rule])))
  }

  function BeginClearPublicRule(h: Host, s: State, user: Address, ruleId: Bytes32): Result<Pending, Error> {
    var lanes := s.lanes;
    :- Auth(h, user);
    if (user, ruleId) !in lanes.rules then Quiet(s)
    else
      var l := lanes.(rules := lanes.rules - {(user, ruleId)});
      Quiet(s.(lanes := if user in l.globalPublic && l.globalPublic[user] == ruleId
                        then l.(globalPublic := l.globalPublic - {user}) else l))
  }

  function BeginSetGlobalPublic(h: Host, s: State, user: Address, ruleId: Bytes32): Result<Pending, Error> {
    var lanes := s.lanes;
    :- Auth(h, user);
    :- Need((user, ruleId) in lanes.rules, PublicRuleNotFound);
    Quiet(s.(lanes := lanes.(globalPublic := lanes.globalPublic[user := ruleId])))
  }

  function BeginClearGlobalPublic(h: Host, s: State, user: Address): Result<Pending, Error> {
    var lanes := s.lanes;
    :- Auth(h, user);
    Quiet(s.(lanes := lanes.(globalPublic := lanes.globalPublic - {user})))
  }

  // ---- Administration -----------------------------------------------------

  function Apply(ctl: Control, action: AdminAction): Result<Control, Error> {
    match action
    case Pause => Ok(ctl.(paused := true))
    case Unpause => Ok(ctl.(paused := false))
    case AddAsset(asset) => Ok(ctl.(supported := ctl.supported + {asset}))
    case RemoveAsset(asset, force) =>
      :- Need(force, Aborted);
      Ok(ctl.(supported := ctl.supported - {asset}))
    case SetFee(bps, recipient) =>
      :- Need(bps <= MAX_FEE_BPS, FeeBpsExceedsCap);
      Ok(ctl.(feeConfig := Some(FeeConfig(bps, recipient))))
    case SetDisputeResolver(resolver) => Ok(ctl.(resolver := Some(resolver)))
    case SetPolicyVerifier(verifier) => Ok(ctl.(verifier := Some(verifier)))
    case SetStaleThreshold(seconds) =>
      :- Need(seconds >= 60, InvalidAmount);
      Ok(ctl.(staleThreshold := seconds))
    case SetMaxActiveTasks(max) =>
      :- Need(max >= 1, InvalidAmount);
      Ok(ctl.(maxActiveTasks := max))
    case UpdateAdmin(newAdmin) => Ok(ctl.(admin := newAdmin))
  }

  function BeginAdminister(h: Host, s: State, admin: Address, action: AdminAction): Result<Pending, Error> {
    var ctl := s.ctl;
    :- Auth(h, admin);
    :- Need(admin == ctl.admin, Unauthorized);
    var ctl :- Apply(ctl, action);
    Quiet(s.(ctl := ctl))
  }

  // ---- The token outside the vault ---------------------------------------

  /** Tokens that reach the vault other than by a deposit are a gift. */
  function Received(h: Host, b: Books, to: Address, asset: Address, amount: nat): Books {
    if to == h.vault then Log(b, Gift(asset, amount)) else b
  }

  function BeginMint(h: Host, s: State, to: Address, asset: Address, amount: nat): Result<Pending, Error> {
    Quiet(s.(books := Received(h, AddTokens(s.books, to, asset, amount), to, asset, amount)))
  }

  function BeginTransfer(h: Host, s: State, from: Address, to: Address, asset: Address, amount: nat): Result<Pending, Error> {
    var books := s.books;
    :- Auth(h, from);
    :- Need(Held(books.tokens, from, asset) >= amount, Aborted);
    Quiet(s.(books := Received(h, Move(books, from, to, asset, amount), to, asset, amount)))
  }

  // ---- All entry points ---------------------------------------------------

  function Begin(h: Host, s: State, op: Op): Result<Pending, Error> {
    match op
    case Deposit(user, asset, amount) => BeginDeposit(h, s, user, asset, amount)
    case Withdraw(user, asset, amount) => BeginWithdraw(h, s, user, asset, amount)
    case RegisterSession(user, session, asset, expiry, cap, rid, server) =>
      BeginRegisterSession(h, s, user, session, asset, expiry, cap, rid, server)
    case SetSessionPaused(user, session, paused) => BeginSetSessionPaused(h, s, user, session, paused)
    case UpdateSession(user, session, expiry, cap) => BeginUpdateSession(h, s, user, session, expiry, cap)
    case RevokeSession(user, session) => BeginRevokeSession(h, s, user, session)
    case ReleaseSession(session, payee, amount, rid) => BeginReleaseSession(h, s, session, payee, amount, rid)
    case RegisterOrchestrator(user, orch) => BeginRegisterOrchestrator(h, s, user, orch)
    case UpdateOrchestrator(user, orch) => BeginUpdateOrchestrator(h, s, user, orch)
    case CreateTask(orch, asset, planCost) => BeginCreateTask(h, s, orch, asset, planCost, None)
    case CreateTaskWithPolicy(orch, asset, planCost, c) => BeginCreateTask(h, s, orch, asset, planCost, Some(c))
    case ReleasePayment(orch, id, step, asset, amount) => BeginReleasePayment(h, s, orch, id, step, asset, amount)
    case ReleaseProved(orch, id, step, asset, amount, payee, n, proof) =>
      BeginReleaseProved(h, s, orch, id, step, asset, amount, payee, n, proof)
    case ReleaseBatch(orch, id, step, asset, q, proof) => BeginReleaseBatch(h, s, orch, id, step, asset, q, proof)
    case ReleaseKeyless(user, asset, c, q, proof, global) => BeginReleaseKeyless(h, s, user, asset, c, q, proof, global)
    case CompleteTask(orch, id) => BeginComplete(h, s, orch, id)
    case CancelTask(user, id) => BeginCancel(h, s, user, id)
    case ForceComplete(id) => BeginForceComplete(h, s, id)
    case RaiseDispute(user, id) => BeginRaiseDispute(h, s, user, id)
    case ResolveDispute(resolver, id, refund, payout) => BeginResolveDispute(h, s, resolver, id, refund, payout)
    case ClaimFees(recipient, asset) => BeginClaimFees(h, s, recipient, asset)
    case PinCommitment(user, c) => BeginPin(h, s, user, c)
    case UnpinCommitment(user, c) => BeginUnpin(h, s, user, c)
    case SetGlobal(user, lane, c) => BeginSetGlobal(h, s, user, lane, c)
    case ClearGlobal(user, lane) => BeginClearGlobal(h, s, user, lane)
    case SetPublicRule(user, rid, rule) => BeginSetPublicRule(h, s, user, rid, rule)
    case ClearPublicRule(user, rid) => BeginClearPublicRule(h, s, user, rid)
    case SetGlobalPublic(user, rid) => BeginSetGlobalPublic(h, s, user, rid)
    case ClearGlobalPublic(user) => BeginClearGlobalPublic(h, s, user)
    case Administer(admin, action) => BeginAdminister(h, s, admin, action)
    case TokenMint(to, asset, amount) => BeginMint(h, s, to, asset, amount)
    case TokenTransfer(from, to, asset, amount) => BeginTransfer(h, s, from, to, asset, amount)
  }
}
