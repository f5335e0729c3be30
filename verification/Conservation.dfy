/**
 * Conservation and agreement, spelled out for every reachable state: of each
 * account against its history, of each task against its releases and indexes,
 * and of each finished task's plan cost against what became of it.
 */
module Conservation {
  import opened Base
  import opened Bytes
  import opened Totals
  import opened VaultState
  import opened BookKeeping
  import opened Vault
  import opened OpShapes
  import opened Execution
  import opened Ledger
  import opened EntryPoints
  import Solvency
  import S = Signals

  // ---- Accounts and tasks -------------------------------------------------

  /** An account is its history; what it locks is what its open tasks reserve, and is covered. */
  lemma AccountConserved(h: Host, s0: State, steps: seq<Step>, user: Address, asset: Address)
    requires Initial(h, s0)
    ensures var b := Run(h, s0, steps).s.books; var acc := AccountIn(b.accounts, user, asset);
      && acc.totalDeposited == Sum(b.journal, DepositedTo(user, asset))
      && acc.totalSpent == Sum(b.journal, SpentBy(user, asset))
      && acc.balance == acc.totalDeposited - acc.totalSpent
           - Sum(b.journal, WithdrawnFrom(user, asset)) - Sum(b.journal, RefundedTo(user, asset))
      && ((user, asset) in b.accounts ==>
            0 <= acc.locked <= acc.balance && acc.locked == Total(b.tasks, OpenPlanOf(user, asset)))
  {
    Solvency.AlwaysSolvent(h, s0, steps);
    var b := Run(h, s0, steps).s.books;
    assert HistoryOf(b.accounts, b.journal, user, asset);
    if (user, asset) in b.accounts {
      assert AccountOk(b.accounts, b.tasks, (user, asset));
    }
  }

  /** The recorded count of a user's active tasks is the number of open ones. */
  lemma ActiveCountExact(h: Host, s0: State, steps: seq<Step>, user: Address)
    requires Initial(h, s0) && user in Run(h, s0, steps).s.books.configs
    ensures var b := Run(h, s0, steps).s.books; b.configs[user].activeTasks == Total(b.tasks, OpenTaskOf(user))
  {
    Solvency.AlwaysSolvent(h, s0, steps);
    var b := Run(h, s0, steps).s.books;
    assert CountOk(b.configs, b.tasks, user);
  }

  /** A task's spend, steps and nullifiers agree with each other, and are gone once it is completed. */
  lemma TaskAgrees(h: Host, s0: State, steps: seq<Step>, id: nat)
    requires Initial(h, s0) && id in Run(h, s0, steps).s.books.tasks
    ensures var b := Run(h, s0, steps).s.books;
      var t, ids, ns := b.tasks[id], StepIds(b, id), NullifierIds(b, id);
      && 0 <= t.spent <= t.planCost
      && Distinct(ids) && Distinct(ns) && |ns| <= |ids| <= MAX_RELEASE_STEPS_PER_TASK
      && (forall i :: (id, i) in b.steps <==> i in ids) && (forall n :: (id, n) in b.taskNullifiers <==> n in ns)
      && (if t.completed then ids == [] && ns == [] else t.spent == SumSteps(b.steps, id, ids))
  {
    Solvency.AlwaysSolvent(h, s0, steps);
    var b := Run(h, s0, steps).s.books;
    assert TaskOk(b.tasks, b.counter, b.accounts.Keys, b.configs.Keys, id);
    assert IndexOk(b.tasks, b.stepIds, b.steps, b.nullifierIds, b.taskNullifiers, id);
  }

  /** No step of any task is ever paid twice. */
  lemma NoStepPaidTwice(h: Host, s0: State, steps: seq<Step>, i: nat, j: nat)
    requires Initial(h, s0) && i < j < |Run(h, s0, steps).s.books.journal|
    ensures var journal := Run(h, s0, steps).s.books.journal;
      !(journal[i].Released? && journal[j].Released? && journal[i].task == journal[j].task && journal[i].step == journal[j].step)
  {
    Solvency.AlwaysSolvent(h, s0, steps);
    var journal := Run(h, s0, steps).s.books.journal;
    assert !SameStep(journal[i], journal[j]);
  }

  // ---- Closings -----------------------------------------------------------

  predicate Closing(e: Entry) {
    e.Finished? || e.Settled?
  }

  predicate Closes(e: Entry, id: nat) {
    Closing(e) && e.task == id
  }

  /** A closing entry tells its task's final figures; a settlement splits the remainder exactly. */
  predicate ClosingOk(e: Entry, tasks: Tasks) {
    Closing(e) ==>
      && e.task in tasks && tasks[e.task].completed
      && e.planCost == tasks[e.task].planCost && e.spent == tasks[e.task].spent
      && e.user == tasks[e.task].user && e.asset == tasks[e.task].asset
      && (e.Settled? ==> e.refund + e.payout == e.planCost - e.spent)
  }

  /** A direct spend is of something. */
  predicate DirectOk(e: Entry) {
    e.Direct? ==> e.amount > 0
  }

  predicate SameClosing(e: Entry, f: Entry) {
    Closing(e) && Closing(f) && e.task == f.task
  }

  predicate HasClosing(journal: seq<Entry>, id: nat) {
    exists i :: 0 <= i < |journal| && Closes(journal[i], id)
  }

  ghost predicate ClosingsOk(journal: seq<Entry>, tasks: Tasks) {
    && (forall i | 0 <= i < |journal| :: ClosingOk(journal[i], tasks) && DirectOk(journal[i]))
    && (forall i, j | 0 <= i < j < |journal| :: !SameClosing(journal[i], journal[j]))
    && (forall id | id in tasks && tasks[id].completed :: HasClosing(journal, id))
  }

  /** Completed tasks stay as they are, none becomes completed, and no closing or empty direct spend is logged. */
  ghost predicate Unclosed(b: Books, b1: Books) {
    && |b.journal| <= |b1.journal| && b1.journal[..|b.journal|] == b.journal
    && (forall i | |b.journal| <= i < |b1.journal| :: !Closing(b1.journal[i]) && DirectOk(b1.journal[i]))
    && (forall id | id in b.tasks && b.tasks[id].completed :: id in b1.tasks && b1.tasks[id] == b.tasks[id])
    && (forall id | id in b1.tasks && b1.tasks[id].completed :: id in b.tasks && b.tasks[id].completed)
  }

  lemma UnclosedKeeps(b: Books, b1: Books)
    requires ClosingsOk(b.journal, b.tasks) && Unclosed(b, b1)
    ensures ClosingsOk(b1.journal, b1.tasks)
  {
    var j, j1 := b.journal, b1.journal;
    assert forall i | 0 <= i < |j| :: j1[i] == j1[..|j|][i];
    forall i | 0 <= i < |j1| ensures ClosingOk(j1[i], b1.tasks) && DirectOk(j1[i]) {
      if i < |j| {
        assert ClosingOk(j[i], b.tasks) && DirectOk(j[i]);
      }
    }
    forall i, k | 0 <= i < k < |j1| ensures !SameClosing(j1[i], j1[k]) {
      if k < |j| {
        assert !SameClosing(j[i], j[k]);
      }
    }
    forall id | id in b1.tasks && b1.tasks[id].completed ensures HasClosing(j1, id) {
      assert HasClosing(j, id);
      var i :| 0 <= i < |j| && Closes(j[i], id);
      assert Closes(j1[i], id);
    }
  }

  lemma UnclosedTwice(b: Books, b1: Books, b2: Books)
    requires Unclosed(b, b1) && Unclosed(b1, b2)
    ensures Unclosed(b, b2)
  {
    assert b2.journal[..|b.journal|] == b2.journal[..|b1.journal|][..|b.journal|];
    forall i | |b.journal| <= i < |b2.journal| ensures !Closing(b2.journal[i]) && DirectOk(b2.journal[i]) {
      if i < |b1.journal| {
        assert b2.journal[i] == b2.journal[..|b1.journal|][i];
      }
    }
  }

  lemma UnclosedLog(b: Books, e: Entry)
    requires !Closing(e) && DirectOk(e)
    ensures Unclosed(b, Log(b, e))
  {
  }

  /** Books with the same tasks and journal. */
  lemma UnclosedSame(b: Books, b1: Books)
    requires b1.tasks == b.tasks && b1.journal == b.journal
    ensures Unclosed(b, b1)
  {
  }

  lemma UnclosedRecord(b: Books, id: nat, step: U64, amount: int)
    requires id in b.tasks && !b.tasks[id].completed
    ensures Unclosed(b, RecordRelease(b, id, step, amount))
  {
  }

  /** Closing a task logs its one closing entry. */
  lemma CloseKeepsClosings(b: Books, id: nat, split: Option<(nat, nat)>)
    requires ClosingsOk(b.journal, b.tasks) && Closable(b, id, split)
    ensures var b1 := CloseTask(b, id, split); ClosingsOk(b1.journal, b1.tasks)
  {
    var b1, e := CloseTask(b, id, split), ClosingEntry(id, b.tasks[id], split);
    var j, j1 := b.journal, b.journal + [e];
    assert b1.journal == j1 && b1.tasks == b.tasks[id := b.tasks[id].(completed := true)];
    forall i | 0 <= i < |j1| ensures ClosingOk(j1[i], b1.tasks) && DirectOk(j1[i]) {
      if i < |j| {
        assert ClosingOk(j[i], b.tasks) && DirectOk(j[i]);
      }
    }
    forall i, k | 0 <= i < k < |j1| ensures !SameClosing(j1[i], j1[k]) {
      assert ClosingOk(j[i], b.tasks);
      if k < |j| {
        assert !SameClosing(j[i], j[k]);
      }
    }
    forall t | t in b1.tasks && b1.tasks[t].completed ensures HasClosing(j1, t) {
      if t == id {
        assert Closes(j1[|j|], id);
      } else {
        assert HasClosing(j, t);
        var i :| 0 <= i < |j| && Closes(j[i], t);
        assert Closes(j1[i], t);
      }
    }
  }

  // ---- Entry points -------------------------------------------------------

  lemma PaysOneUnclosed(s: State, p: Pending, b0: Books, asset: Address, task: Option<nat>, to: Address, amount: int)
    requires PaysOne(s, p, b0, asset, task, to, amount) && Unclosed(s.books, b0)
    ensures Unclosed(s.books, p.s.books)
  {
    UnclosedSame(b0, p.s.books);
    UnclosedTwice(s.books, b0, p.s.books);
  }

  lemma ReleasesUnclosed(h: Host, s: State, op: Op, p: Pending)
    requires op.ReleasePayment? || op.ReleaseProved? || op.ReleaseBatch?
    requires Begin(h, s, op) == Ok(p)
    ensures Unclosed(s.books, p.s.books)
  {
    if op.ReleasePayment? {
      PaymentUnclosed(h, s, op.orchestrator, op.task, op.step, op.asset, op.amount, p);
    } else if op.ReleaseProved? {
      ProvedPaymentUnclosed(h, s, op.orchestrator, op.task, op.step, op.asset, op.amount, op.payee, op.nullifier, op.proof, p);
    } else {
      BatchUnclosed(h, s, op.orchestrator, op.task, op.step, op.asset, op.batch, op.proof, p);
    }
  }

  lemma PaymentUnclosed(h: Host, s: State, orch: Address, id: U64, step: U64, asset: Address, amount: I128, p: Pending)
    requires BeginReleasePayment(h, s, orch, id, step, asset, amount) == Ok(p)
    ensures Unclosed(s.books, p.s.books)
  {
    ReleasePaymentShape(h, s, orch, id, step, asset, amount, p);
    if (id, step) !in s.books.steps {
      UnclosedRecord(s.books, id, step, amount);
      PaysOneUnclosed(s, p, RecordRelease(s.books, id, step, amount), asset, Some(id), orch, amount);
    }
  }

  lemma ProvedPaymentUnclosed(h: Host, s: State, orch: Address, id: U64, step: U64, asset: Address, amount: I128, payee: Address,
                              n: Bytes32, proof: Proof, p: Pending)
    requires BeginReleaseProved(h, s, orch, id, step, asset, amount, payee, n, proof) == Ok(p)
    ensures Unclosed(s.books, p.s.books)
  {
    ReleaseProvedShape(h, s, orch, id, step, asset, amount, payee, n, proof, p);
    if (id, step) !in s.books.steps {
      ProvedUnclosed(s.books, id, step, amount, n);
      PaysOneUnclosed(s, p, Proved(s.books, id, step, amount, n), asset, Some(id), payee, amount);
    }
  }

  lemma BatchUnclosed(h: Host, s: State, orch: Address, id: U64, step: U64, asset: Address, q: S.Batch, proof: Proof, p: Pending)
    requires BeginReleaseBatch(h, s, orch, id, step, asset, q, proof) == Ok(p)
    ensures Unclosed(s.books, p.s.books)
  {
    ReleaseBatchShape(h, s, orch, id, step, asset, q, proof, p);
    if (id, step) !in s.books.steps {
      UnclosedRecord(s.books, id, step, S.SumAmounts(q.amounts));
    }
  }

  lemma ProvedUnclosed(b: Books, id: nat, step: U64, amount: int, n: Bytes32)
    requires id in b.tasks && !b.tasks[id].completed
    ensures Unclosed(b, Proved(b, id, step, amount, n))
  {
    UnclosedRecord(b, id, step, amount);
    UnclosedSame(RecordRelease(b, id, step, amount), Proved(b, id, step, amount, n));
    UnclosedTwice(b, RecordRelease(b, id, step, amount), Proved(b, id, step, amount, n));
  }

  lemma SpendsUnclosed(h: Host, s: State, op: Op, p: Pending)
    requires op.ReleaseSession? || op.ReleaseKeyless? || op.Withdraw? || op.Deposit?
    requires Begin(h, s, op) == Ok(p)
    ensures Unclosed(s.books, p.s.books)
  {
    match op
    case ReleaseSession(session, payee, amount, rid) =>
      ReleaseSessionShape(h, s, session, payee, amount, rid, p);
      var info := s.lanes.sessions[session];
      SpendDirectUnclosed(s.books, info.user, info.asset, amount);
      PaysOneUnclosed(s, p, SpendDirect(s.books, info.user, info.asset, amount), info.asset, None, payee, amount);
    case ReleaseKeyless(user, asset, c, q, proof, global) =>
      ReleaseKeylessShape(h, s, user, asset, c, q, proof, global, p);
      SpendDirectUnclosed(s.books, user, asset, S.SumAmounts(q.amounts));
    case Withdraw(user, asset, amount) => WithdrawUnclosed(h, s, user, asset, amount, p);
    case Deposit(user, asset, amount) => UnclosedSame(s.books, p.s.books);
  }

  lemma SpendDirectUnclosed(b: Books, user: Address, asset: Address, amount: int)
    requires (user, asset) in b.accounts && amount > 0
    ensures Unclosed(b, SpendDirect(b, user, asset, amount))
  {
  }

  lemma WithdrawUnclosed(h: Host, s: State, user: Address, asset: Address, amount: I128, p: Pending)
    requires BeginWithdraw(h, s, user, asset, amount) == Ok(p)
    ensures Unclosed(s.books, p.s.books)
  {
  }

  lemma UnclosedReceived(h: Host, b: Books, to: Address, asset: Address, amount: nat)
    ensures Unclosed(b, Received(h, b, to, asset, amount))
  {
    if to == h.vault {
      UnclosedLog(b, Gift(asset, amount));
    } else {
      UnclosedSame(b, b);
    }
  }

  lemma MintUnclosed(h: Host, s: State, to: Address, asset: Address, amount: nat, p: Pending)
    requires BeginMint(h, s, to, asset, amount) == Ok(p)
    ensures Unclosed(s.books, p.s.books)
  {
    var b1 := AddTokens(s.books, to, asset, amount);
    UnclosedSame(s.books, b1);
    UnclosedReceived(h, b1, to, asset, amount);
    UnclosedTwice(s.books, b1, p.s.books);
  }

  lemma TokenTransferUnclosed(h: Host, s: State, from: Address, to: Address, asset: Address, amount: nat, p: Pending)
    requires BeginTransfer(h, s, from, to, asset, amount) == Ok(p)
    ensures Unclosed(s.books, p.s.books)
  {
    var b1 := Move(s.books, from, to, asset, amount);
    UnclosedSame(s.books, b1);
    UnclosedReceived(h, b1, to, asset, amount);
    UnclosedTwice(s.books, b1, p.s.books);
  }

  lemma TokensUnclosed(h: Host, s: State, op: Op, p: Pending)
    requires op.TokenMint? || op.TokenTransfer?
    requires Begin(h, s, op) == Ok(p)
    ensures Unclosed(s.books, p.s.books)
  {
    if op.TokenMint? {
      MintUnclosed(h, s, op.to, op.asset, op.quantity, p);
    } else {
      TokenTransferUnclosed(h, s, op.from, op.to, op.asset, op.quantity, p);
    }
  }

  lemma OpenTaskUnclosed(h: Host, s: State, orch: Address, asset: Address, planCost: I128, c: Option<Bytes32>, p: Pending)
    requires BeginCreateTask(h, s, orch, asset, planCost, c) == Ok(p) && s.books.counter + 1 !in s.books.tasks
    ensures Unclosed(s.books, p.s.books)
  {
  }

  lemma RaiseDisputeUnclosed(h: Host, s: State, user: Address, id: U64, p: Pending)
    requires BeginRaiseDispute(h, s, user, id) == Ok(p)
    ensures Unclosed(s.books, p.s.books)
  {
  }

  lemma OthersUnclosed(h: Host, s: State, op: Op, p: Pending)
    requires op.RegisterSession? || op.RegisterOrchestrator? || op.UpdateOrchestrator? || op.RaiseDispute? || op.ClaimFees?
    requires Begin(h, s, op) == Ok(p)
    ensures Unclosed(s.books, p.s.books)
  {
    if op.RaiseDispute? {
      RaiseDisputeUnclosed(h, s, op.user, op.task, p);
    } else {
      OthersSame(h, s, op, p);
      UnclosedSame(s.books, p.s.books);
    }
  }

  lemma OthersSame(h: Host, s: State, op: Op, p: Pending)
    requires op.RegisterSession? || op.RegisterOrchestrator? || op.UpdateOrchestrator? || op.ClaimFees?
    requires Begin(h, s, op) == Ok(p)
    ensures p.s.books.tasks == s.books.tasks && p.s.books.journal == s.books.journal
  {
  }

  lemma NextTaskNew(b: Books)
    requires BooksInv(b)
    ensures b.counter + 1 !in b.tasks
  {
    forall id | id in b.tasks ensures id <= b.counter {
      assert TaskOk(b.tasks, b.counter, b.accounts.Keys, b.configs.Keys, id);
    }
  }

  lemma BeginKeepsClosings(h: Host, s: State, op: Op, p: Pending)
    requires ClosingsOk(s.books.journal, s.books.tasks) && s.books.counter + 1 !in s.books.tasks && Begin(h, s, op) == Ok(p)
    ensures ClosingsOk(p.s.books.journal, p.s.books.tasks)
  {
    if Ending(op) {
      EndingShape(h, s, op, p);
      CloseKeepsClosings(s.books, op.task, None);
    } else if op.ResolveDispute? {
      ResolveShape(h, s, op.resolver, op.task, op.refund, op.payout, p);
      CloseKeepsClosings(s.books, op.task, Some((op.refund as nat, op.payout as nat)));
    } else {
      BeginUnclosed(h, s, op, p);
      UnclosedKeeps(s.books, p.s.books);
    }
  }

  lemma BeginUnclosed(h: Host, s: State, op: Op, p: Pending)
    requires !Ending(op) && !op.ResolveDispute? && s.books.counter + 1 !in s.books.tasks && Begin(h, s, op) == Ok(p)
    ensures Unclosed(s.books, p.s.books)
  {
    if BooksUntouched(op) {
      UntouchedBegun(h, s, op, p);
      UnclosedSame(s.books, p.s.books);
    } else if op.ReleasePayment? || op.ReleaseProved? || op.ReleaseBatch? {
      ReleasesUnclosed(h, s, op, p);
    } else if op.ReleaseSession? || op.ReleaseKeyless? || op.Withdraw? || op.Deposit? {
      SpendsUnclosed(h, s, op, p);
    } else if op.TokenMint? || op.TokenTransfer? {
      TokensUnclosed(h, s, op, p);
    } else if op.CreateTask? {
      OpenTaskUnclosed(h, s, op.orchestrator, op.asset, op.planCost, None, p);
    } else if op.CreateTaskWithPolicy? {
      OpenTaskUnclosed(h, s, op.orchestrator, op.asset, op.planCost, Some(op.commitment), p);
    } else {
      OthersUnclosed(h, s, op, p);
    }
  }

  lemma TaxUnclosed(s: State, due: Due, s1: State, due1: Due)
    requires due.lines != [] && Tax(s, due) == Ok((s1, due1))
    ensures Unclosed(s.books, s1.books)
  {
  }

  lemma TransferUnclosed(h: Host, s: State, due: Due, s1: State)
    requires due.lines != [] && !due.lines[0].Taxed? && Transfer(h, s, due) == Ok(s1)
    ensures Unclosed(s.books, s1.books)
  {
    match due.lines[0]
    case Pull(from, amount) => UnclosedSame(s.books, s1.books);
    case Fixed(to, net, fee, rate) =>
      var b1 := Move(s.books, h.vault, to, due.asset, net);
      var e := Paid(due.task, due.asset, to, net, fee, rate);
      UnclosedSame(s.books, b1);
      UnclosedLog(b1, e);
      UnclosedTwice(s.books, b1, Log(b1, e));
      UnclosedReceived(h, Log(b1, e), to, due.asset, net);
      UnclosedTwice(s.books, Log(b1, e), s1.books);
  }

  lemma FinishUnclosed(s: State, due: Due, s1: State)
    requires Finish(s, due) == Ok(s1)
    ensures Unclosed(s.books, s1.books)
  {
  }

  // ---- Over runs ----------------------------------------------------------

  ghost predicate Kept(vault: Address, s: State, stack: seq<Due>) {
    Solvency.Solvent(vault, s, stack) && ClosingsOk(s.books.journal, s.books.tasks)
  }

  ghost function KeptIn(h: Host): (State, seq<Due>) -> bool {
    (s: State, stack: seq<Due>) => Kept(h.vault, s, stack)
  }

  lemma BeginKept(h: Host, s: State, stack: seq<Due>, op: Op, p: Pending)
    requires Kept(h.vault, s, stack) && Begin(h, s, op) == Ok(p)
    ensures Kept(h.vault, p.s, stack + [p.due])
  {
    Solvency.BeginKeeps(h, s, stack, op, p);
    NextTaskNew(s.books);
    BeginKeepsClosings(h, s, op, p);
  }

  lemma TaxKept(h: Host, s: State, stack: seq<Due>, due: Due, s1: State, due1: Due)
    requires due.lines != [] && Kept(h.vault, s, stack + [due]) && Tax(s, due) == Ok((s1, due1))
    ensures Kept(h.vault, s1, stack + [due1])
  {
    Solvency.TaxKeeps(h, s, stack, due, s1, due1);
    TaxUnclosed(s, due, s1, due1);
    UnclosedKeeps(s.books, s1.books);
  }

  lemma TransferKept(h: Host, s: State, stack: seq<Due>, due: Due, s1: State)
    requires due.lines != [] && !due.lines[0].Taxed? && Kept(h.vault, s, stack + [due]) && Transfer(h, s, due) == Ok(s1)
    ensures Kept(h.vault, s1, stack + [RestOf(due)])
  {
    Solvency.TransferKeeps(h, s, stack, due, s1);
    TransferUnclosed(h, s, due, s1);
    UnclosedKeeps(s.books, s1.books);
  }

  lemma FinishKept(h: Host, s: State, stack: seq<Due>, due: Due, s1: State)
    requires due.lines == [] && Kept(h.vault, s, stack + [due]) && Finish(s, due) == Ok(s1)
    ensures Kept(h.vault, s1, stack)
  {
    Solvency.FinishKeeps(h, s, stack, due, s1);
    FinishUnclosed(s, due, s1);
    UnclosedKeeps(s.books, s1.books);
  }

  lemma KeptInductive(h: Host)
    ensures Inductive(h, KeptIn(h))
  {
    var J := KeptIn(h);
    forall s, stack, op | J(s, stack) && Begin(h, Noted(s, op), op).Ok?
      ensures J(Begin(h, Noted(s, op), op).value.s, stack + [Begin(h, Noted(s, op), op).value.due])
    {
      var s0 := Noted(s, op);
      assert J(s0, stack);
      BeginKept(h, s0, stack, op, Begin(h, s0, op).value);
    }
    forall s, stack, due: Due | due.lines != [] && J(s, stack + [due]) && Tax(s, due).Ok?
      ensures J(Tax(s, due).value.0, stack + [Tax(s, due).value.1])
    {
      TaxKept(h, s, stack, due, Tax(s, due).value.0, Tax(s, due).value.1);
    }
    forall s, stack, due: Due |
      due.lines != [] && !due.lines[0].Taxed? && J(s, stack + [due]) && Transfer(h, s, due).Ok?
      ensures J(Transfer(h, s, due).value, stack + [RestOf(due)])
    {
      TransferKept(h, s, stack, due, Transfer(h, s, due).value);
    }
    forall s, stack, due: Due | due.lines == [] && J(s, stack + [due]) && Finish(s, due).Ok?
      ensures J(Finish(s, due).value, stack)
    {
      FinishKept(h, s, stack, due, Finish(s, due).value);
    }
  }

  /** Between calls only the clock and the markers change. */
  lemma KeptWaits(h: Host)
    ensures OnWait(h, KeptIn(h))
  {
    Solvency.SolventInductive(h);
    forall s, step: Step | !step.Invoke? && KeptIn(h)(s, []) ensures KeptIn(h)(Next(h, s, step).s, []) {
      var s1 := Next(h, s, step).s;
      assert Solvency.SolventIn(h)(s, []) && Solvency.SolventIn(h)(s1, []);
    }
  }

  ghost function NetFor(id: nat): Entry -> int {
    (e: Entry) => if e.Paid? && e.payer == Some(id) then e.net else 0
  }

  ghost function FeeFor(id: nat): Entry -> int {
    (e: Entry) => if e.Paid? && e.payer == Some(id) then e.fee else 0
  }

  lemma {:induction false} PaidIsNetAndFee(journal: seq<Entry>, id: nat)
    ensures Sum(journal, PaidFor(id)) == Sum(journal, NetFor(id)) + Sum(journal, FeeFor(id))
  {
    if journal != [] {
      PaidIsNetAndFee(journal[..|journal| - 1], id);
    }
  }

  /** What was left of the plan cost when a task ended, and where it went. */
  function Remainder(e: Entry): int
    requires Closing(e)
  {
    match e
    case Finished(_, _, _, planCost, spent) => planCost - spent      // back to the available balance
    case Settled(_, _, _, _, _, refund, payout) => refund + payout   // paid out by the dispute resolver
  }

  /** Entry `i` is the task's only closing, and the plan cost is net payouts, fees, and the remainder it tells. */
  ghost predicate ClosedBy(b: Books, id: nat, i: nat)
    requires id in b.tasks
  {
    && i < |b.journal| && Closes(b.journal[i], id)
    && b.tasks[id].planCost == Sum(b.journal, NetFor(id)) + Sum(b.journal, FeeFor(id)) + Remainder(b.journal[i])
    && forall j | 0 <= j < |b.journal| :: Closes(b.journal[j], id) ==> j == i
  }

  /** What `Kept` gives after every run. */
  lemma KeptAfter(h: Host, s0: State, steps: seq<Step>)
    requires Initial(h, s0)
    ensures Kept(h.vault, Run(h, s0, steps).s, [])
  {
    Solvency.InitialSolvent(h, s0);
    KeptInductive(h);
    KeptWaits(h);
    RunKeeps(h, KeptIn(h), s0, steps);
  }

  /**
   * A completed task has exactly one closing, and its plan cost is what payees
   * received, the fees kept from that, and the remainder, for any sequence of
   * releases and fee changes.
   */
  lemma PlanCostConserved(h: Host, s0: State, steps: seq<Step>, id: nat)
    requires Initial(h, s0)
    requires var b := Run(h, s0, steps).s.books; id in b.tasks && b.tasks[id].completed
    ensures exists i :: ClosedBy(Run(h, s0, steps).s.books, id, i)
  {
    KeptAfter(h, s0, steps);
    Solvency.SolventBalanced(h, Run(h, s0, steps).s);
    ClosedExactly(Run(h, s0, steps).s.books, h.vault, id);
  }

  lemma ClosedExactly(b: Books, vault: Address, id: nat)
    requires ClosingsOk(b.journal, b.tasks) && Solvency.Balanced(vault, b) && id in b.tasks && b.tasks[id].completed
    ensures exists i :: ClosedBy(b, id, i)
  {
    assert HasClosing(b.journal, id);
    var i :| 0 <= i < |b.journal| && Closes(b.journal[i], id);
    PaidIsNetAndFee(b.journal, id);
    assert ClosingOk(b.journal[i], b.tasks);
    forall j | 0 <= j < |b.journal| ensures Closes(b.journal[j], id) ==> j == i {
      assert j < i ==> !SameClosing(b.journal[j], b.journal[i]);
      assert i < j ==> !SameClosing(b.journal[i], b.journal[j]);
    }
    assert ClosedBy(b, id, i);
  }
}
