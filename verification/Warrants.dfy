/**
 * What entitles a caller: for every call that took effect, what must have
 * happened before it. Stated on the history of calls alone, it is proved to
 * follow from the checks an entry point makes on the stored records.
 */
module Warrants {
  import opened Base
  import opened Bytes
  import opened VaultState
  import opened History
  import opened Records
  import A = Accumulators
  import P = Permits
  import S = Signals
  import R = PublicRules

  // ---- Accepted proofs in the history -------------------------------------

  /** A batch as it moves a commitment's totals. */
  function RollOf(c: Bytes32, q: S.Batch): seq<LaneEntry> {
    if S.WellFormed(q) && 0 <= S.BatchSum(q) <= I128_MAX then
      [Rolled(c, S.BatchSum(q), |q.payees|, q.resetR2, q.resetR7, q.validAfter)]
    else []
  }

  /** The second proof's statement: the same lines with its own nullifiers and flags. */
  function SecondBatch(q: S.Batch, g: GlobalProof): S.Batch {
    q.(nullifiers := g.nullifiers, resetR2 := g.resetR2, resetR7 := g.resetR7)
  }

  function CommitmentOf(notes: Notes, id: nat): Option<Bytes32> {
    if 1 <= id <= |OrdersIn(notes)| then OrdersIn(notes)[id - 1].commitment else None
  }

  /**
   * What a call leaves in the log of the lanes: the totals its proofs move, or
   * the payment a key made. When the global rule is the chosen commitment
   * itself, only the second proof counts.
   */
  function TraceOf(before: Notes, op: Op, time: U64): seq<LaneEntry> {
    match op
    case ReleaseBatch(_, id, _, _, q, _) =>
      if FirstOfStep(before, op, id) && CommitmentOf(before, id).Some? then RollOf(CommitmentOf(before, id).value, q) else []
    case ReleaseKeyless(user, _, c, q, _, global) =>
      var gc := GlobalIn(before, user, Private);
      if gc.None? then RollOf(c, q)
      else if global.None? then []
      else (if gc.value == c then [] else RollOf(c, q)) + RollOf(gc.value, SecondBatch(q, global.value))
    case ReleaseSession(key, _, amount, chosen) =>
      var terms := KeyIn(before, key);
      if terms.None? then []
      else
        [SessionPaid(key, terms.value.owner, amount, terms.value.cap > 0, if chosen.Some? then chosen else terms.value.rule,
                     PointerIn(before, terms.value.owner), time)]
    case _ => []
  }

  function TracesOf(notes: Notes): seq<LaneEntry> {
    if notes == [] then []
    else TracesOf(Init(notes)) + TraceOf(Init(notes), LastOp(notes), notes[|notes| - 1].time)
  }

  // ---- What each call needs -----------------------------------------------

  /** A key this user opened and has not revoked since. */
  predicate OwnKey(h: Host, before: Notes, user: Address, key: Address) {
    user != h.vault && KeyIn(before, key).Some? && KeyIn(before, key).value.owner == user
  }

  /** A rule in force and met by the payment. */
  predicate RuleMet(before: Notes, owner: Address, ruleId: Bytes32, payee: Address, amount: int, time: int) {
    RuleIn(before, owner, ruleId).Some? && R.Meets(RuleIn(before, owner, ruleId).value, payee, amount, time)
  }

  /** A key pays: it is open, not paused and not expired, and the chosen rule, or else its own, and the owner's global rule are met. */
  predicate KeyPays(h: Host, first: Control, before: Notes, time: int, key: Address, payee: Address, amount: int, chosen: Option<Bytes32>) {
    && key != h.vault && !PausedIn(before, first.paused) && amount > 0 && KeyIn(before, key).Some?
    && var terms := KeyIn(before, key).value;
    && !terms.paused && (terms.expiry != 0 ==> time <= terms.expiry)
    && var selected := if chosen.Some? then chosen else terms.rule;
    && (selected.Some? ==> RuleMet(before, terms.owner, selected.value, payee, amount, time))
    && (PointerIn(before, terms.owner).Some? ==> RuleMet(before, terms.owner, PointerIn(before, terms.owner).value, payee, amount, time))
  }

  /** An order that is open and not disputed. */
  predicate OpenOrder(before: Notes, id: nat) {
    1 <= id <= |OrdersIn(before)| && !ClosedIn(before, id) && !DisputedIn(before, id)
  }

  /** A release by the order's own orchestrator, within its plan unless the step was paid before. */
  predicate OwnRelease(h: Host, first: Control, before: Notes, op: Op, orchestrator: Address, id: nat, asset: Address) {
    && orchestrator != h.vault && !PausedIn(before, first.paused) && OpenOrder(before, id)
    && var order := OrdersIn(before)[id - 1];
    && order.orchestrator == orchestrator && order.asset == asset && AmountOf(op) > 0
    && (FirstOfStep(before, op, id) ==> SpentIn(before, id) + AmountOf(op) <= order.planCost)
  }

  /** The commitment was pinned by the user, and not unpinned since. */
  predicate Pins(before: Notes, user: Option<Address>, c: Bytes32) {
    user.Some? && PinIn(before, user.value, c)
  }

  /** The verifier in force accepts exactly this release under the order's commitment, which its user has pinned. */
  predicate ProofGiven(h: Host, first: Control, before: Notes, id: nat, payee: Address, amount: I128, n: Bytes32, proof: Proof)
    requires 1 <= id <= |OrdersIn(before)|
  {
    var order, verifier := OrdersIn(before)[id - 1], VerifierIn(before, first.verifier);
    && order.commitment.Some? && Pins(before, order.user, order.commitment.value)
    && verifier.Some? && h.verifyPolicy(verifier.value, order.commitment.value, payee, amount, n, proof)
  }

  /** Groth16 accepts the public signals of this batch, with the totals all earlier calls under the commitment left. */
  predicate SignalsGiven(h: Host, first: Control, before: Notes, c: Bytes32, q: S.Batch, proof: Proof, time: int) {
    && S.WellFormed(q) && S.BatchSum(q) <= I128_MAX
    && q.validAfter <= time <= q.validBefore && q.validBefore <= time + MAX_VALIDITY_SECS
    && VerifierIn(before, first.verifier).Some?
    && h.verifyGroth16(VerifierIn(before, first.verifier).value, proof,
                       S.PublicSignals(h.addressHash, c, q, A.Standing(TracesOf(before), c)))
  }

  predicate BatchGiven(h: Host, first: Control, before: Notes, id: nat, q: S.Batch, proof: Proof, time: int)
    requires 1 <= id <= |OrdersIn(before)|
  {
    var order := OrdersIn(before)[id - 1];
    order.commitment.Some? && Pins(before, order.user, order.commitment.value)
    && SignalsGiven(h, first, before, order.commitment.value, q, proof, time)
  }

  /** Nobody signs: the debited user's pin, the proof, and the proof of the user's private global rule if there is one. */
  predicate KeylessGiven(h: Host, first: Control, before: Notes, user: Address, c: Bytes32, q: S.Batch, proof: Proof,
                         global: Option<GlobalProof>, time: int)
  {
    && !PausedIn(before, first.paused) && PinIn(before, user, c) && SignalsGiven(h, first, before, c, q, proof, time)
    && (GlobalIn(before, user, Private).Some? ==>
          && global.Some? && global.value.commitment == GlobalIn(before, user, Private).value
          && SignalsGiven(h, first, before, global.value.commitment, SecondBatch(q, global.value), global.value.proof, time))
  }

  /** What a call that took effect was entitled by. `first` is the administration the vault started with. */
  predicate Warranted(h: Host, first: Control, before: Notes, op: Op, time: U64) {
    match op
    case Deposit(user, asset, amount) =>
      user != h.vault && amount > 0 && !PausedIn(before, first.paused) && SupportedIn(before, asset, asset in first.supported)
    case Withdraw(user, _, amount) => user != h.vault && amount > 0
    case RegisterSession(user, key, asset, expiry, cap, rule, serverHeld) =>
      && user != h.vault && !PausedIn(before, first.paused) && KeyIn(before, key).None?
      && SupportedIn(before, asset, asset in first.supported) && cap >= 0 && (cap == 0 ==> rule.Some?)
      && (rule.Some? ==> RuleIn(before, user, rule.value).Some?)
      && (serverHeld ==> cap > 0 && expiry > time) && (expiry != 0 ==> expiry > time)
    case SetSessionPaused(user, key, _) => OwnKey(h, before, user, key)
    case UpdateSession(user, key, expiry, _) => OwnKey(h, before, user, key) && (expiry != 0 ==> expiry > time)
    case RevokeSession(user, key) => OwnKey(h, before, user, key)
    case ReleaseSession(key, payee, amount, chosen) => KeyPays(h, first, before, time, key, payee, amount, chosen)
    case RegisterOrchestrator(user, _) => user != h.vault && NamedIn(before, user).None?
    case UpdateOrchestrator(user, o) =>
      user != h.vault && NamedIn(before, user).Some? && (OwnerIn(before, o).Some? ==> OwnerIn(before, o) == Some(user))
    case CreateTask(o, asset, planCost) =>
      && o != h.vault && !PausedIn(before, first.paused) && SupportedIn(before, asset, asset in first.supported)
      && planCost > 0 && OwnerIn(before, o).Some?
    case CreateTaskWithPolicy(o, asset, planCost, c) =>
      && o != h.vault && !PausedIn(before, first.paused) && SupportedIn(before, asset, asset in first.supported)
      && planCost > 0 && OwnerIn(before, o).Some? && c != ZERO32
    case ReleasePayment(o, id, _, asset, _) =>
      OwnRelease(h, first, before, op, o, id, asset) && OrdersIn(before)[id - 1].commitment.None?
    case ReleaseProved(o, id, _, asset, amount, payee, n, proof) =>
      && OwnRelease(h, first, before, op, o, id, asset) && OrdersIn(before)[id - 1].commitment.Some?
      && (FirstOfStep(before, op, id) ==> ProofGiven(h, first, before, id, payee, amount, n, proof))
    case ReleaseBatch(o, id, _, asset, q, proof) =>
      && OwnRelease(h, first, before, op, o, id, asset) && OrdersIn(before)[id - 1].commitment.Some?
      && (FirstOfStep(before, op, id) ==> BatchGiven(h, first, before, id, q, proof, time))
    case ReleaseKeyless(user, _, c, q, proof, global) => KeylessGiven(h, first, before, user, c, q, proof, global, time)
    case CompleteTask(o, id) => o != h.vault && OpenOrder(before, id) && OrdersIn(before)[id - 1].orchestrator == o
    case CancelTask(user, id) => user != h.vault && OpenOrder(before, id) && OrdersIn(before)[id - 1].user == Some(user)
    case ForceComplete(id) =>
      OpenOrder(before, id) && time - OrdersIn(before)[id - 1].time > StaleIn(before, first.staleThreshold)
    case RaiseDispute(user, id) => user != h.vault && OpenOrder(before, id) && OrdersIn(before)[id - 1].user == Some(user)
    case ResolveDispute(resolver, id, refund, payout) =>
      && resolver != h.vault && !PausedIn(before, first.paused) && ResolverIn(before, first.resolver) == Some(resolver)
      && 1 <= id <= |OrdersIn(before)| && !ClosedIn(before, id) && DisputedIn(before, id)
      && refund >= 0 && payout >= 0 && refund + payout == OrdersIn(before)[id - 1].planCost - SpentIn(before, id)
    case ClaimFees(recipient, _) =>
      && recipient != h.vault && !PausedIn(before, first.paused)
      && FeeConfigIn(before).Some? && FeeConfigIn(before).value.recipient == Some(recipient)
    case PinCommitment(user, c) => user != h.vault && c != ZERO32
    case UnpinCommitment(user, c) => user != h.vault && PinIn(before, user, c)
    case SetGlobal(user, _, c) => user != h.vault && c != ZERO32
    case ClearGlobal(user, _) => user != h.vault
    case SetPublicRule(user, _, rule) => user != h.vault && P.SoundRule(rule)
    case ClearPublicRule(user, _) => user != h.vault
    case SetGlobalPublic(user, ruleId) => user != h.vault && RuleIn(before, user, ruleId).Some?
    case ClearGlobalPublic(user) => user != h.vault
    case Administer(admin, action) => admin != h.vault && admin == AdminIn(before, first.admin) && P.SoundAction(action)
    case TokenMint(_, _, _) => true
    case TokenTransfer(from, _, _, _) => from != h.vault
  }

  ghost predicate AllWarranted(h: Host, first: Control, notes: Notes) {
    forall i | 0 <= i < |notes| :: Warranted(h, first, notes[..i], notes[i].op, notes[i].time)
  }

  // ---- From the records to the history ------------------------------------

  /** Everything the records say, the history says. */
  ghost predicate Told(first: Control, s: State, notes: Notes) {
    AdminAgrees(first, s, notes) && LanesAgree(s.lanes, notes) && TasksAgree(s.books, notes)
  }

  /** And each accumulator is where the history leaves its commitment. */
  ghost predicate StandsAs(l: Lanes, notes: Notes) {
    forall c :: AccumOf(l, c) == A.Standing(TracesOf(notes), c)
  }

  lemma OrderTold(b: Books, notes: Notes, id: nat)
    requires TasksAgree(b, notes) && id in b.tasks
    ensures 1 <= id <= |OrdersIn(notes)| && TaskTold(b, notes, id)
  {
  }

  lemma KeyTold(l: Lanes, notes: Notes, key: Address)
    requires LanesAgree(l, notes)
    ensures KeyIn(notes, key) == KeyOf(l.sessions, key)
  {
  }

  lemma PinTold(l: Lanes, notes: Notes, user: Address, c: Bytes32)
    requires LanesAgree(l, notes)
    ensures c in Pinned(l, user) <==> PinIn(notes, user, c)
  {
    assert PinAgrees(l.pinned, notes, user, c);
  }

  lemma RuleTold(l: Lanes, notes: Notes, user: Address, ruleId: Bytes32)
    requires LanesAgree(l, notes)
    ensures RuleIn(notes, user, ruleId) == RuleOf(l.rules, user, ruleId) && PointerIn(notes, user) == MarkOf(l.globalPublic, user)
  {
  }

  lemma KeyPaysTold(h: Host, first: Control, s: State, notes: Notes, key: Address, payee: Address, amount: I128, chosen: Option<Bytes32>)
    requires Told(first, s, notes) && P.MayPayByKey(h, s, key, payee, amount, chosen)
    ensures KeyPays(h, first, notes, s.now, key, payee, amount, chosen)
  {
    var info := s.lanes.sessions[key];
    var selected := if chosen.Some? then chosen else info.ruleId;
    KeyTold(s.lanes, notes, key);
    RuleTold(s.lanes, notes, info.user, if selected.Some? then selected.value else ZERO32);
    if info.user in s.lanes.globalPublic {
      RuleTold(s.lanes, notes, info.user, s.lanes.globalPublic[info.user]);
    }
  }

  lemma OpenKeyTold(h: Host, first: Control, s: State, notes: Notes, op: Op)
    requires Told(first, s, notes) && op.RegisterSession? && P.May(h, s, op)
    ensures Warranted(h, first, notes, op, s.now)
  {
    KeyTold(s.lanes, notes, op.session);
    if op.boundRule.Some? {
      RuleTold(s.lanes, notes, op.user, op.boundRule.value);
    }
  }

  lemma OwnKeyTold(h: Host, first: Control, s: State, notes: Notes, user: Address, key: Address)
    requires Told(first, s, notes) && P.OwnsKey(h, s, user, key)
    ensures OwnKey(h, notes, user, key)
  {
    KeyTold(s.lanes, notes, key);
  }

  /** A release is the first of its step exactly if the step is not on record. */
  lemma ReleaseWarrant(h: Host, first: Control, s: State, notes: Notes, op: Op, orch: Address, id: nat, step: U64, asset: Address)
    requires Told(first, s, notes) && P.MayRelease(h, s, orch, id, asset) && AmountOf(op) > 0
    requires Releases(op, id, step) && StepOf(op) == step
    requires (id, step) !in s.books.steps ==> s.books.tasks[id].spent + AmountOf(op) <= s.books.tasks[id].planCost
    ensures OwnRelease(h, first, notes, op, orch, id, asset)
    ensures FirstOfStep(notes, op, id) <==> (id, step) !in s.books.steps
    ensures OrdersIn(notes)[id - 1] == OrderOf(s.books.tasks[id])
  {
    OrderTold(s.books, notes, id);
    assert StepTold(s.books, notes, id, step);
  }

  lemma PlainWarrant(h: Host, first: Control, s: State, notes: Notes, op: Op)
    requires Told(first, s, notes) && op.ReleasePayment? && P.May(h, s, op)
    ensures Warranted(h, first, notes, op, s.now)
  {
    ReleaseWarrant(h, first, s, notes, op, op.orchestrator, op.task, op.step, op.asset);
  }

  lemma ProvedWarrant(h: Host, first: Control, s: State, notes: Notes, op: Op)
    requires Told(first, s, notes) && op.ReleaseProved? && P.May(h, s, op)
    ensures Warranted(h, first, notes, op, s.now)
  {
    ReleaseWarrant(h, first, s, notes, op, op.orchestrator, op.task, op.step, op.asset);
    var t := s.books.tasks[op.task];
    PinTold(s.lanes, notes, t.user, t.commitment.value);
  }

  lemma SignalsWarrant(h: Host, first: Control, s: State, notes: Notes, c: Bytes32, q: S.Batch, proof: Proof)
    requires Told(first, s, notes) && StandsAs(s.lanes, notes) && P.SoundBatch(s, q) && P.BatchProofHolds(h, s, c, q, proof)
    ensures SignalsGiven(h, first, notes, c, q, proof, s.now)
  {
    assert AccumOf(s.lanes, c) == A.Standing(TracesOf(notes), c);
  }

  lemma BatchWarrant(h: Host, first: Control, s: State, notes: Notes, op: Op)
    requires Told(first, s, notes) && StandsAs(s.lanes, notes) && op.ReleaseBatch? && P.May(h, s, op)
    ensures Warranted(h, first, notes, op, s.now)
  {
    S.SumPositive(op.batch.amounts);
    ReleaseWarrant(h, first, s, notes, op, op.orchestrator, op.task, op.step, op.asset);
    var t := s.books.tasks[op.task];
    PinTold(s.lanes, notes, t.user, t.commitment.value);
    if (op.task, op.step) !in s.books.steps {
      SignalsWarrant(h, first, s, notes, t.commitment.value, op.batch, op.proof);
    }
  }

  lemma KeylessWarrant(h: Host, first: Control, s: State, notes: Notes, op: Op)
    requires Told(first, s, notes) && StandsAs(s.lanes, notes) && op.ReleaseKeyless? && P.May(h, s, op)
    ensures Warranted(h, first, notes, op, s.now)
  {
    PinTold(s.lanes, notes, op.user, op.commitment);
    SignalsWarrant(h, first, s, notes, op.commitment, op.batch, op.proof);
    assert GlobalOf(s.lanes.globals, op.user, Private) == GlobalIn(notes, op.user, Private);
    if (op.user, Private) in s.lanes.globals {
      var g := op.global.value;
      SignalsWarrant(h, first, s, notes, g.commitment, SecondBatch(op.batch, g), g.proof);
    }
  }

  lemma EndingWarrant(h: Host, first: Control, s: State, notes: Notes, op: Op)
    requires Told(first, s, notes) && P.OfEndings(op) && P.May(h, s, op)
    ensures Warranted(h, first, notes, op, s.now)
  {
    if TaskOf(op).Some? {
      OrderTold(s.books, notes, TaskOf(op).value);
    }
  }

  lemma OrchestratorWarrant(h: Host, first: Control, s: State, notes: Notes, op: Op)
    requires Told(first, s, notes) && P.May(h, s, op)
    requires op.RegisterOrchestrator? || op.UpdateOrchestrator? || op.CreateTask? || op.CreateTaskWithPolicy?
    ensures Warranted(h, first, notes, op, s.now)
  {
    assert OwnerOf(s.ctl.owners, op.orchestrator) == OwnerIn(notes, op.orchestrator);
  }

  lemma LaneWarrant(h: Host, first: Control, s: State, notes: Notes, op: Op)
    requires Told(first, s, notes) && P.OfLanes(op) && P.May(h, s, op)
    ensures Warranted(h, first, notes, op, s.now)
  {
    if op.UnpinCommitment? {
      PinTold(s.lanes, notes, op.user, op.commitment);
    } else if op.SetGlobalPublic? {
      RuleTold(s.lanes, notes, op.user, op.ruleId);
    }
  }

  lemma OtherWarrant(h: Host, first: Control, s: State, notes: Notes, op: Op)
    requires Told(first, s, notes) && P.May(h, s, op)
    requires op.Deposit? || op.Withdraw? || op.Administer? || op.TokenMint? || op.TokenTransfer?
    ensures Warranted(h, first, notes, op, s.now)
  {
  }

  lemma SessionWarrant(h: Host, first: Control, s: State, notes: Notes, op: Op)
    requires Told(first, s, notes) && P.OfSessions(op) && P.May(h, s, op)
    ensures Warranted(h, first, notes, op, s.now)
  {
    if op.RegisterSession? {
      OpenKeyTold(h, first, s, notes, op);
    } else if op.ReleaseSession? {
      KeyPaysTold(h, first, s, notes, op.session, op.payee, op.amount, op.chosenRule);
    } else {
      OwnKeyTold(h, first, s, notes, op.user, op.session);
    }
  }

  /** A call that may go ahead is warranted by the history so far. */
  lemma MayIsWarranted(h: Host, first: Control, s: State, notes: Notes, op: Op)
    requires Told(first, s, notes) && StandsAs(s.lanes, notes) && P.May(h, s, op)
    ensures Warranted(h, first, notes, op, s.now)
  {
    if P.OfSessions(op) {
      SessionWarrant(h, first, s, notes, op);
    } else if op.ReleasePayment? {
      PlainWarrant(h, first, s, notes, op);
    } else if op.ReleaseProved? {
      ProvedWarrant(h, first, s, notes, op);
    } else if P.OfTasks(op) {
      OrchestratorWarrant(h, first, s, notes, op);
    } else if P.OfEndings(op) {
      EndingWarrant(h, first, s, notes, op);
    } else if P.OfLanes(op) {
      LaneWarrant(h, first, s, notes, op);
    } else if op.ReleaseBatch? {
      BatchWarrant(h, first, s, notes, op);
    } else if op.ReleaseKeyless? {
      KeylessWarrant(h, first, s, notes, op);
    } else {
      OtherWarrant(h, first, s, notes, op);
    }
  }
}
