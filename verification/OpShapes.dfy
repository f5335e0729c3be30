/**
 * Which parts of the state each family of entry points may touch. What is
 * proved about runs is proved family by family.
 */
module OpShapes {
  import opened Base
  import opened Bytes
  import opened VaultState
  import opened BookKeeping
  import opened Vault
  import R = PublicRules

  /** Entry points that only edit session records. */
  predicate EditsSession(op: Op) {
    op.SetSessionPaused? || op.UpdateSession? || op.RevokeSession?
  }

  predicate EditsPins(op: Op) {
    op.PinCommitment? || op.UnpinCommitment? || op.SetGlobal? || op.ClearGlobal?
  }

  predicate EditsRules(op: Op) {
    op.SetPublicRule? || op.ClearPublicRule? || op.SetGlobalPublic? || op.ClearGlobalPublic?
  }

  /** Entry points that leave the books alone. */
  predicate BooksUntouched(op: Op) {
    EditsSession(op) || EditsPins(op) || EditsRules(op) || op.Administer?
  }

  predicate Ending(op: Op) {
    op.CompleteTask? || op.CancelTask? || op.ForceComplete?
  }

  /** Entry points that leave the lanes alone. */
  predicate LanesUntouched(op: Op) {
    !EditsSession(op) && !EditsPins(op) && !EditsRules(op)
    && !op.RegisterSession? && !op.ReleaseSession? && !op.ReleaseBatch? && !op.ReleaseKeyless?
  }

  lemma SessionEditShape(h: Host, s: State, op: Op, p: Pending)
    requires EditsSession(op) && Begin(h, s, op) == Ok(p)
    ensures p == Pending(s.(lanes := s.lanes.(sessions := p.s.lanes.sessions)), Nothing)
  {
  }

  lemma PinEditShape(h: Host, s: State, op: Op, p: Pending)
    requires EditsPins(op) && Begin(h, s, op) == Ok(p)
    ensures p == Pending(s.(lanes := s.lanes.(pinned := p.s.lanes.pinned, globals := p.s.lanes.globals)), Nothing)
  {
  }

  lemma RuleEditShape(h: Host, s: State, op: Op, p: Pending)
    requires EditsRules(op) && Begin(h, s, op) == Ok(p)
    ensures p == Pending(s.(lanes := s.lanes.(rules := p.s.lanes.rules, globalPublic := p.s.lanes.globalPublic)), Nothing)
  {
    if op.SetPublicRule? || op.ClearPublicRule? {
      RuleChangeShape(h, s, op, p);
    } else {
      PointerChangeShape(h, s, op, p);
    }
  }

  lemma RuleChangeShape(h: Host, s: State, op: Op, p: Pending)
    requires (op.SetPublicRule? || op.ClearPublicRule?) && Begin(h, s, op) == Ok(p)
    ensures p == Pending(s.(lanes := s.lanes.(rules := p.s.lanes.rules, globalPublic := p.s.lanes.globalPublic)), Nothing)
  {
    if op.SetPublicRule? {
      SetRuleShape(h, s, op.user, op.ruleId, op.rule, p);
    } else {
      ClearRuleShape(h, s, op.user, op.ruleId, p);
    }
  }

  lemma PointerChangeShape(h: Host, s: State, op: Op, p: Pending)
    requires (op.SetGlobalPublic? || op.ClearGlobalPublic?) && Begin(h, s, op) == Ok(p)
    ensures p == Pending(s.(lanes := s.lanes.(rules := p.s.lanes.rules, globalPublic := p.s.lanes.globalPublic)), Nothing)
  {
    if op.SetGlobalPublic? {
      SetPointerShape(h, s, op.user, op.ruleId, p);
    } else {
      ClearPointerShape(h, s, op.user, p);
    }
  }

  lemma SetRuleShape(h: Host, s: State, user: Address, rid: Bytes32, rule: R.PublicRule, p: Pending)
    requires BeginSetPublicRule(h, s, user, rid, rule) == Ok(p)
    ensures p == Pending(s.(lanes := s.lanes.(rules := s.lanes.rules[(user, rid) := rule])), Nothing)
  {
  }

  lemma ClearRuleShape(h: Host, s: State, user: Address, rid: Bytes32, p: Pending)
    requires BeginClearPublicRule(h, s, user, rid) == Ok(p)
    ensures p == Pending(s.(lanes := s.lanes.(rules := p.s.lanes.rules, globalPublic := p.s.lanes.globalPublic)), Nothing)
    ensures p.s.lanes.rules == s.lanes.rules - {(user, rid)}
    ensures p.s.lanes.globalPublic == if PointerOf(s.lanes, user) == Some(rid) && (user, rid) in s.lanes.rules
                                      then s.lanes.globalPublic - {user} else s.lanes.globalPublic
  {
  }

  lemma SetPointerShape(h: Host, s: State, user: Address, rid: Bytes32, p: Pending)
    requires BeginSetGlobalPublic(h, s, user, rid) == Ok(p)
    ensures (user, rid) in s.lanes.rules
    ensures p == Pending(s.(lanes := s.lanes.(globalPublic := s.lanes.globalPublic[user := rid])), Nothing)
  {
  }

  lemma ClearPointerShape(h: Host, s: State, user: Address, p: Pending)
    requires BeginClearGlobalPublic(h, s, user) == Ok(p)
    ensures p == Pending(s.(lanes := s.lanes.(globalPublic := s.lanes.globalPublic - {user})), Nothing)
  {
  }

  lemma AdministerShape(h: Host, s: State, op: Op, p: Pending)
    requires op.Administer? && Begin(h, s, op) == Ok(p)
    ensures Apply(s.ctl, op.action) == Ok(p.s.ctl) && p == Pending(s.(ctl := p.s.ctl), Nothing)
  {
  }

  /** Books untouched: nothing is owed, and either the lanes or the administration changes. */
  lemma UntouchedShape(h: Host, s: State, op: Op, p: Pending)
    requires BooksUntouched(op) && Begin(h, s, op) == Ok(p)
    ensures p.due == Nothing && p.s == s.(ctl := p.s.ctl, lanes := p.s.lanes)
    ensures if op.Administer? then Apply(s.ctl, op.action) == Ok(p.s.ctl) && p.s.lanes == s.lanes else p.s.ctl == s.ctl
    ensures EditsSession(op) || p.s.lanes.sessions == s.lanes.sessions
    ensures EditsPins(op) || (p.s.lanes.pinned == s.lanes.pinned && p.s.lanes.globals == s.lanes.globals)
    ensures EditsRules(op) || (p.s.lanes.rules == s.lanes.rules && p.s.lanes.globalPublic == s.lanes.globalPublic)
    ensures p.s.lanes == s.lanes.(sessions := p.s.lanes.sessions, pinned := p.s.lanes.pinned, globals := p.s.lanes.globals,
                                  rules := p.s.lanes.rules, globalPublic := p.s.lanes.globalPublic)
  {
    if EditsSession(op) {
      SessionEditShape(h, s, op, p);
    } else if EditsPins(op) {
      PinEditShape(h, s, op, p);
    } else if EditsRules(op) {
      RuleEditShape(h, s, op, p);
    } else {
      AdministerShape(h, s, op, p);
    }
  }

  lemma CompleteForm(h: Host, s: State, orch: Address, id: U64, p: Pending)
    requires BeginComplete(h, s, orch, id) == Ok(p)
    ensures id in s.books.tasks && !s.books.tasks[id].disputed
    ensures Finalize(s, id, Some(orch), None) == Ok(p.s.books) && p == Pending(s.(books := p.s.books), Nothing)
  {
  }

  lemma CancelForm(h: Host, s: State, user: Address, id: U64, p: Pending)
    requires BeginCancel(h, s, user, id) == Ok(p)
    ensures id in s.books.tasks && !s.books.tasks[id].disputed
    ensures Finalize(s, id, None, None) == Ok(p.s.books) && p == Pending(s.(books := p.s.books), Nothing)
  {
  }

  lemma ForceForm(h: Host, s: State, id: U64, p: Pending)
    requires BeginForceComplete(h, s, id) == Ok(p)
    ensures id in s.books.tasks && !s.books.tasks[id].disputed
    ensures Finalize(s, id, None, None) == Ok(p.s.books) && p == Pending(s.(books := p.s.books), Nothing)
  {
  }

  /** Only the orchestrator that completes a task has to be its own. */
  function Expected(op: Op): Option<Address> {
    if op.CompleteTask? then Some(op.orchestrator) else None
  }

  /** The three ways a task ends without a dispute all finalize it. */
  lemma EndingForm(h: Host, s: State, op: Op, p: Pending)
    requires Ending(op) && Begin(h, s, op) == Ok(p)
    ensures op.task in s.books.tasks && !s.books.tasks[op.task].disputed
    ensures Finalize(s, op.task, Expected(op), None) == Ok(p.s.books)
    ensures p == Pending(s.(books := p.s.books), Nothing)
  {
    if op.CompleteTask? {
      CompleteForm(h, s, op.orchestrator, op.task, p);
    } else if op.CancelTask? {
      CancelForm(h, s, op.user, op.task, p);
    } else {
      ForceForm(h, s, op.task, p);
    }
  }

  /** No entry point moves the clock or rewrites the history of calls. */
  predicate SameClock(s: State, s1: State) {
    s1.now == s.now && s1.ledger == s.ledger && s1.notes == s.notes
  }

  lemma ReleasesLeaveLanes(h: Host, s: State, op: Op, p: Pending)
    requires (op.ReleasePayment? || op.ReleaseProved?) && Begin(h, s, op) == Ok(p)
    ensures p.s.lanes == s.lanes && SameClock(s, p.s)
  {
  }

  lemma PayoutsLeaveLanes(h: Host, s: State, op: Op, p: Pending)
    requires (op.ResolveDispute? || op.ClaimFees? || op.Withdraw? || op.Deposit?) && Begin(h, s, op) == Ok(p)
    ensures p.s.lanes == s.lanes && SameClock(s, p.s)
  {
  }

  lemma TasksLeaveLanes(h: Host, s: State, op: Op, p: Pending)
    requires (op.RegisterOrchestrator? || op.UpdateOrchestrator? || op.CreateTask? || op.CreateTaskWithPolicy?) && Begin(h, s, op) == Ok(p)
    ensures p.s.lanes == s.lanes && SameClock(s, p.s)
  {
  }

  lemma TokensLeaveLanes(h: Host, s: State, op: Op, p: Pending)
    requires (op.RaiseDispute? || op.TokenMint? || op.TokenTransfer?) && Begin(h, s, op) == Ok(p)
    ensures p.s.lanes == s.lanes && SameClock(s, p.s)
  {
  }

  lemma UntouchedLanes(h: Host, s: State, op: Op, p: Pending)
    requires LanesUntouched(op) && Begin(h, s, op) == Ok(p)
    ensures p.s.lanes == s.lanes && SameClock(s, p.s)
  {
    if Ending(op) {
      EndingForm(h, s, op, p);
    } else if op.Administer? {
      AdministerShape(h, s, op, p);
    } else if op.ReleasePayment? || op.ReleaseProved? {
      ReleasesLeaveLanes(h, s, op, p);
    } else if op.ResolveDispute? || op.ClaimFees? || op.Withdraw? || op.Deposit? {
      PayoutsLeaveLanes(h, s, op, p);
    } else if op.RaiseDispute? || op.TokenMint? || op.TokenTransfer? {
      TokensLeaveLanes(h, s, op, p);
    } else {
      TasksLeaveLanes(h, s, op, p);
    }
  }
}
