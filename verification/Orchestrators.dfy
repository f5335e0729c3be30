/**
 * Who may spend for whom: the configuration in which a user names an
 * orchestrator, the reverse lookup from an orchestrator to a user, and the
 * orchestrator each open task was created by.
 */
module Orchestrators {
  import opened Base
  import opened Bytes
  import opened Totals
  import opened VaultState
  import opened BookKeeping
  import opened Vault
  import opened OpShapes
  import opened Execution
  import opened Ledger
  import opened EntryPoints
  import Solvency
  import S = Signals

  type Owners = map<Address, Address>
  type Configs = map<Address, Config>

  // ---- The invariant ------------------------------------------------------

  /** The orchestrator a user names. */
  function Named(configs: Configs, user: Address): Option<Address> {
    if user in configs then configs[user].orchestrator else None
  }

  /** Whom the reverse lookup gives names that orchestrator. */
  ghost predicate LookupSound(owners: Owners, configs: Configs) {
    forall o | o in owners :: Named(configs, owners[o]) == Some(o)
  }

  /** Whoever names an orchestrator is found by the reverse lookup. */
  ghost predicate LookupComplete(owners: Owners, configs: Configs) {
    forall u :: FoundFrom(owners, configs, u)
  }

  predicate FoundFrom(owners: Owners, configs: Configs, user: Address) {
    var o := Named(configs, user);
    o.Some? ==> o.value in owners && owners[o.value] == user
  }

  /** The two maps are inverse to each other. */
  ghost predicate Inverse(s: State) {
    LookupSound(s.ctl.owners, s.books.configs) && LookupComplete(s.ctl.owners, s.books.configs)
  }

  /** An open task's orchestrator is the one its user names. */
  predicate InCharge(configs: Configs, t: Task) {
    !t.completed ==> Named(configs, t.user) == Some(t.orchestrator)
  }

  ghost predicate AllInCharge(configs: Configs, tasks: Tasks) {
    forall id | id in tasks :: InCharge(configs, tasks[id])
  }

  ghost predicate NamesOk(s: State) {
    LookupSound(s.ctl.owners, s.books.configs) && AllInCharge(s.books.configs, s.books.tasks)
  }

  // ---- Books that keep all names ------------------------------------------

  /** Nobody names another orchestrator, and every open task was open before, for the same two parties. */
  ghost predicate SameNames(b: Books, b1: Books) {
    && (forall u :: Named(b1.configs, u) == Named(b.configs, u))
    && (forall id | id in b1.tasks && !b1.tasks[id].completed :: SameParties(b.tasks, b1.tasks[id], id))
  }

  predicate SameParties(tasks: Tasks, t: Task, id: nat) {
    id in tasks && !tasks[id].completed && tasks[id].user == t.user && tasks[id].orchestrator == t.orchestrator
  }

  lemma SameNamesKeep(s: State, s1: State)
    requires SameNames(s.books, s1.books) && s1.ctl.owners == s.ctl.owners
    ensures NamesOk(s) ==> NamesOk(s1)
    ensures Inverse(s) <==> Inverse(s1)
  {
    if NamesOk(s) {
      forall id | id in s1.books.tasks ensures InCharge(s1.books.configs, s1.books.tasks[id]) {
        if !s1.books.tasks[id].completed {
          assert SameParties(s.books.tasks, s1.books.tasks[id], id);
          assert InCharge(s.books.configs, s.books.tasks[id]);
        }
      }
    }
    forall u ensures FoundFrom(s.ctl.owners, s.books.configs, u) == FoundFrom(s1.ctl.owners, s1.books.configs, u) {
    }
  }

  lemma SameNamesTwice(b: Books, b1: Books, b2: Books)
    requires SameNames(b, b1) && SameNames(b1, b2)
    ensures SameNames(b, b2)
  {
    forall id | id in b2.tasks && !b2.tasks[id].completed ensures SameParties(b.tasks, b2.tasks[id], id) {
      assert SameParties(b1.tasks, b2.tasks[id], id);
      assert SameParties(b.tasks, b1.tasks[id], id);
    }
  }

  lemma SameBooks(b: Books, b1: Books)
    requires b1.configs == b.configs && b1.tasks == b.tasks
    ensures SameNames(b, b1)
  {
  }

  lemma RecordNames(b: Books, id: nat, step: U64, amount: int)
    requires id in b.tasks && !b.tasks[id].completed
    ensures SameNames(b, RecordRelease(b, id, step, amount))
  {
  }

  lemma CloseNames(b: Books, id: nat, split: Option<(nat, nat)>)
    requires Closable(b, id, split)
    ensures SameNames(b, CloseTask(b, id, split))
  {
  }

  lemma CreditNames(b: Books, user: Address, asset: Address, amount: int)
    ensures SameNames(b, Credit(b, user, asset, amount))
  {
  }

  // ---- Entry points that rename nobody ------------------------------------

  predicate Renames(op: Op) {
    op.RegisterOrchestrator? || op.UpdateOrchestrator? || op.CreateTask? || op.CreateTaskWithPolicy?
  }

  lemma PaysOneNames(s: State, p: Pending, b0: Books, asset: Address, task: Option<nat>, to: Address, amount: int)
    requires PaysOne(s, p, b0, asset, task, to, amount) && SameNames(s.books, b0)
    ensures SameNames(s.books, p.s.books) && p.s.ctl == s.ctl
  {
    SameBooks(b0, p.s.books);
    SameNamesTwice(s.books, b0, p.s.books);
  }

  lemma ReleasesNames(h: Host, s: State, op: Op, p: Pending)
    requires op.ReleasePayment? || op.ReleaseProved? || op.ReleaseBatch?
    requires Begin(h, s, op) == Ok(p)
    ensures SameNames(s.books, p.s.books) && p.s.ctl == s.ctl
  {
    if op.ReleasePayment? {
      PaymentNames(h, s, op.orchestrator, op.task, op.step, op.asset, op.amount, p);
    } else if op.ReleaseProved? {
      ProvedNames(h, s, op.orchestrator, op.task, op.step, op.asset, op.amount, op.payee, op.nullifier, op.proof, p);
    } else {
      BatchNames(h, s, op.orchestrator, op.task, op.step, op.asset, op.batch, op.proof, p);
    }
  }

  lemma PaymentNames(h: Host, s: State, orch: Address, id: U64, step: U64, asset: Address, amount: I128, p: Pending)
    requires BeginReleasePayment(h, s, orch, id, step, asset, amount) == Ok(p)
    ensures SameNames(s.books, p.s.books) && p.s.ctl == s.ctl
  {
    ReleasePaymentShape(h, s, orch, id, step, asset, amount, p);
    if (id, step) !in s.books.steps {
      RecordNames(s.books, id, step, amount);
      PaysOneNames(s, p, RecordRelease(s.books, id, step, amount), asset, Some(id), orch, amount);
    }
  }

  lemma ProvedNames(h: Host, s: State, orch: Address, id: U64, step: U64, asset: Address, amount: I128, payee: Address, n: Bytes32,
                    proof: Proof, p: Pending)
    requires BeginReleaseProved(h, s, orch, id, step, asset, amount, payee, n, proof) == Ok(p)
    ensures SameNames(s.books, p.s.books) && p.s.ctl == s.ctl
  {
    var b := s.books;
    ReleaseProvedShape(h, s, orch, id, step, asset, amount, payee, n, proof, p);
    if (id, step) !in b.steps {
      RecordNames(b, id, step, amount);
      SameBooks(RecordRelease(b, id, step, amount), Proved(b, id, step, amount, n));
      SameNamesTwice(b, RecordRelease(b, id, step, amount), Proved(b, id, step, amount, n));
      PaysOneNames(s, p, Proved(b, id, step, amount, n), asset, Some(id), payee, amount);
    }
  }

  lemma BatchNames(h: Host, s: State, orch: Address, id: U64, step: U64, asset: Address, q: S.Batch, proof: Proof, p: Pending)
    requires BeginReleaseBatch(h, s, orch, id, step, asset, q, proof) == Ok(p)
    ensures SameNames(s.books, p.s.books) && p.s.ctl == s.ctl
  {
    ReleaseBatchShape(h, s, orch, id, step, asset, q, proof, p);
    if (id, step) !in s.books.steps {
      RecordNames(s.books, id, step, S.SumAmounts(q.amounts));
    }
  }

  lemma SpendsNames(h: Host, s: State, op: Op, p: Pending)
    requires op.ReleaseSession? || op.ReleaseKeyless?
    requires Begin(h, s, op) == Ok(p)
    ensures SameNames(s.books, p.s.books) && p.s.ctl == s.ctl
  {
    match op
    case ReleaseSession(session, payee, amount, rid) =>
      ReleaseSessionShape(h, s, session, payee, amount, rid, p);
      var info := s.lanes.sessions[session];
      SameBooks(s.books, SpendDirect(s.books, info.user, info.asset, amount));
      PaysOneNames(s, p, SpendDirect(s.books, info.user, info.asset, amount), info.asset, None, payee, amount);
    case ReleaseKeyless(user, asset, c, q, proof, global) =>
      ReleaseKeylessShape(h, s, user, asset, c, q, proof, global, p);
      SameBooks(s.books, SpendDirect(s.books, user, asset, S.SumAmounts(q.amounts)));
  }

  lemma ClosingsNames(h: Host, s: State, op: Op, p: Pending)
    requires Ending(op) || op.ResolveDispute?
    requires Begin(h, s, op) == Ok(p)
    ensures SameNames(s.books, p.s.books) && p.s.ctl == s.ctl
  {
    if Ending(op) {
      EndingShape(h, s, op, p);
      CloseNames(s.books, op.task, None);
    } else {
      ResolveShape(h, s, op.resolver, op.task, op.refund, op.payout, p);
      CloseNames(s.books, op.task, Some((op.refund as nat, op.payout as nat)));
    }
  }

  lemma OthersNames(h: Host, s: State, op: Op, p: Pending)
    requires op.Deposit? || op.Withdraw? || op.RegisterSession? || op.RaiseDispute? || op.ClaimFees? || op.TokenMint? || op.TokenTransfer?
    requires Begin(h, s, op) == Ok(p)
    ensures SameNames(s.books, p.s.books) && p.s.ctl == s.ctl
  {
    if op.Withdraw? {
      WithdrawNames(h, s, op.user, op.asset, op.amount, p);
    } else if op.ClaimFees? {
      ClaimNames(h, s, op.recipient, op.asset, p);
    } else if op.RegisterSession? {
      RegisterSessionNames(h, s, op.user, op.session, op.asset, op.expiry, op.spendCap, op.boundRule, op.serverHeld, p);
    } else if op.RaiseDispute? {
      RaiseDisputeNames(h, s, op.user, op.task, p);
    } else if op.TokenMint? {
      MintNames(h, s, op.to, op.asset, op.quantity, p);
    } else if op.TokenTransfer? {
      TokenTransferNames(h, s, op.from, op.to, op.asset, op.quantity, p);
    } else {
      DepositNames(h, s, op.user, op.asset, op.amount, p);
    }
  }

  lemma DepositNames(h: Host, s: State, user: Address, asset: Address, amount: I128, p: Pending)
    requires BeginDeposit(h, s, user, asset, amount) == Ok(p)
    ensures SameNames(s.books, p.s.books) && p.s.ctl == s.ctl
  {
  }

  lemma RegisterSessionNames(h: Host, s: State, user: Address, session: Address, asset: Address, expiry: U64, cap: I128,
                             rid: Option<Bytes32>, server: bool, p: Pending)
    requires BeginRegisterSession(h, s, user, session, asset, expiry, cap, rid, server) == Ok(p)
    ensures SameNames(s.books, p.s.books) && p.s.ctl == s.ctl
  {
  }

  lemma RaiseDisputeNames(h: Host, s: State, user: Address, id: U64, p: Pending)
    requires BeginRaiseDispute(h, s, user, id) == Ok(p)
    ensures SameNames(s.books, p.s.books) && p.s.ctl == s.ctl
  {
  }

  lemma WithdrawNames(h: Host, s: State, user: Address, asset: Address, amount: I128, p: Pending)
    requires BeginWithdraw(h, s, user, asset, amount) == Ok(p)
    ensures SameNames(s.books, p.s.books) && p.s.ctl == s.ctl
  {
  }

  lemma ClaimNames(h: Host, s: State, recipient: Address, asset: Address, p: Pending)
    requires BeginClaimFees(h, s, recipient, asset) == Ok(p)
    ensures SameNames(s.books, p.s.books) && p.s.ctl == s.ctl
  {
  }

  lemma MintNames(h: Host, s: State, to: Address, asset: Address, amount: nat, p: Pending)
    requires BeginMint(h, s, to, asset, amount) == Ok(p)
    ensures SameNames(s.books, p.s.books) && p.s.ctl == s.ctl
  {
  }

  lemma TokenTransferNames(h: Host, s: State, from: Address, to: Address, asset: Address, amount: nat, p: Pending)
    requires BeginTransfer(h, s, from, to, asset, amount) == Ok(p)
    ensures SameNames(s.books, p.s.books) && p.s.ctl == s.ctl
  {
  }

  lemma UntouchedOwners(h: Host, s: State, op: Op, p: Pending)
    requires BooksUntouched(op) && Begin(h, s, op) == Ok(p)
    ensures p.s.ctl.owners == s.ctl.owners && p.s.books == s.books
    ensures !op.Administer? ==> p.s.ctl == s.ctl
  {
    UntouchedShape(h, s, op, p);
    if op.Administer? {
      AppliedOwners(s.ctl, op.action, p.s.ctl);
    }
  }

  lemma AppliedOwners(ctl: Control, action: AdminAction, ctl1: Control)
    requires Apply(ctl, action) == Ok(ctl1)
    ensures ctl1.owners == ctl.owners
  {
  }

  lemma BeginNames(h: Host, s: State, op: Op, p: Pending)
    requires !Renames(op) && Begin(h, s, op) == Ok(p)
    ensures SameNames(s.books, p.s.books) && p.s.ctl.owners == s.ctl.owners
    ensures !op.Administer? ==> p.s.ctl == s.ctl
  {
    if BooksUntouched(op) {
      UntouchedOwners(h, s, op, p);
    } else if op.ReleasePayment? || op.ReleaseProved? || op.ReleaseBatch? {
      ReleasesNames(h, s, op, p);
    } else if op.ReleaseSession? || op.ReleaseKeyless? {
      SpendsNames(h, s, op, p);
    } else if Ending(op) || op.ResolveDispute? {
      ClosingsNames(h, s, op, p);
    } else {
      OthersNames(h, s, op, p);
    }
  }

  // ---- Entry points that do -----------------------------------------------

  /** A registration of an orchestrator that already works for somebody. */
  predicate TakesOver(s: State, op: Op) {
    op.RegisterOrchestrator? && op.orchestrator in s.ctl.owners
  }

  /** What naming an orchestrator changes, forgetting the owner of the one named before. */
  ghost predicate Renamed(s: State, s1: State, user: Address, orch: Address) {
    && s1.books.tasks == s.books.tasks
    && (forall u :: Named(s1.books.configs, u) == if u == user then Some(orch) else Named(s.books.configs, u))
    && var before := Named(s.books.configs, user);
       s1.ctl.owners == (if before.Some? then s.ctl.owners - {before.value} else s.ctl.owners)[orch := user]
  }

  lemma RegisterShape(h: Host, s: State, user: Address, orch: Address, p: Pending)
    requires BeginRegisterOrchestrator(h, s, user, orch) == Ok(p)
    ensures Renamed(s, p.s, user, orch) && Named(s.books.configs, user) == None
  {
  }

  lemma UpdateShape(h: Host, s: State, user: Address, orch: Address, p: Pending)
    requires BeginUpdateOrchestrator(h, s, user, orch) == Ok(p)
    ensures Renamed(s, p.s, user, orch) && Named(s.books.configs, user).Some?
    ensures user in s.books.configs && s.books.configs[user].activeTasks == 0
    ensures orch in s.ctl.owners ==> s.ctl.owners[orch] == user
  {
  }

  /** Whatever was named before, the lookup stays sound; open tasks are safe if this user has none. */
  lemma RenamedKeeps(s: State, s1: State, user: Address, orch: Address)
    requires NamesOk(s) && Renamed(s, s1, user, orch)
    requires forall id | id in s.books.tasks && !s.books.tasks[id].completed :: s.books.tasks[id].user != user
    ensures NamesOk(s1)
  {
    forall id | id in s1.books.tasks ensures InCharge(s1.books.configs, s1.books.tasks[id]) {
      assert InCharge(s.books.configs, s.books.tasks[id]);
    }
  }

  /** Maps that were inverse stay so exactly when the new name was nobody else's. */
  lemma RenamedInverse(s: State, s1: State, user: Address, orch: Address)
    requires Inverse(s) && Renamed(s, s1, user, orch)
    ensures Inverse(s1) <==> (orch in s.ctl.owners ==> s.ctl.owners[orch] == user)
  {
    if orch in s.ctl.owners && s.ctl.owners[orch] != user {
      var other := s.ctl.owners[orch];
      assert Named(s1.books.configs, other) == Some(orch);
      assert !FoundFrom(s1.ctl.owners, s1.books.configs, other);
    } else {
      forall u ensures FoundFrom(s1.ctl.owners, s1.books.configs, u) {
        assert FoundFrom(s.ctl.owners, s.books.configs, u) && FoundFrom(s.ctl.owners, s.books.configs, user);
      }
    }
  }

  /** A count of zero means no open task. */
  lemma NoneActive(b: Books, user: Address)
    requires BooksInv(b) && user in b.configs && b.configs[user].activeTasks == 0
    ensures forall id | id in b.tasks && !b.tasks[id].completed :: b.tasks[id].user != user
  {
    assert CountOk(b.configs, b.tasks, user);
    TotalBounds(b.tasks, OpenTaskOf(user));
    forall id | id in b.tasks && !b.tasks[id].completed ensures b.tasks[id].user != user {
      assert OpenTaskOf(user)(id, b.tasks[id]) <= 0;
    }
  }

  /** Who names nobody has no open task. */
  lemma UnnamedHasNone(s: State, user: Address)
    requires NamesOk(s) && Named(s.books.configs, user) == None
    ensures forall id | id in s.books.tasks && !s.books.tasks[id].completed :: s.books.tasks[id].user != user
  {
    forall id | id in s.books.tasks && !s.books.tasks[id].completed ensures s.books.tasks[id].user != user {
      assert InCharge(s.books.configs, s.books.tasks[id]);
    }
  }

  lemma CreateShape(h: Host, s: State, orch: Address, asset: Address, planCost: I128, c: Option<Bytes32>, p: Pending)
    requires BeginCreateTask(h, s, orch, asset, planCost, c) == Ok(p)
    ensures orch in s.ctl.owners && p.s.ctl == s.ctl
    ensures forall u :: Named(p.s.books.configs, u) == Named(s.books.configs, u)
    ensures var id := s.books.counter + 1;
      p.s.books.tasks == s.books.tasks[id := Task(s.ctl.owners[orch], orch, asset, planCost, 0, false, false, c, s.now)]
  {
  }

  lemma CreateKeeps(h: Host, s: State, orch: Address, asset: Address, planCost: I128, c: Option<Bytes32>, p: Pending)
    requires BeginCreateTask(h, s, orch, asset, planCost, c) == Ok(p)
    ensures NamesOk(s) ==> NamesOk(p.s)
    ensures Inverse(s) <==> Inverse(p.s)
  {
    CreateShape(h, s, orch, asset, planCost, c, p);
    if NamesOk(s) {
      forall id | id in p.s.books.tasks ensures InCharge(p.s.books.configs, p.s.books.tasks[id]) {
        assert id in s.books.tasks ==> InCharge(s.books.configs, s.books.tasks[id]);
      }
    }
    forall u ensures FoundFrom(s.ctl.owners, s.books.configs, u) == FoundFrom(p.s.ctl.owners, p.s.books.configs, u) {
    }
  }

  /** Every entry point keeps the lookup sound and every open task with the orchestrator its user names. */
  lemma BeginKeepsNames(h: Host, s: State, op: Op, p: Pending)
    requires BooksInv(s.books) && NamesOk(s) && Begin(h, s, op) == Ok(p)
    ensures NamesOk(p.s)
  {
    if op.RegisterOrchestrator? {
      RegisterKeeps(h, s, op.user, op.orchestrator, p);
    } else if op.UpdateOrchestrator? {
      UpdateKeeps(h, s, op.user, op.orchestrator, p);
    } else if op.CreateTask? {
      CreateKeeps(h, s, op.orchestrator, op.asset, op.planCost, None, p);
    } else if op.CreateTaskWithPolicy? {
      CreateKeeps(h, s, op.orchestrator, op.asset, op.planCost, Some(op.commitment), p);
    } else {
      BeginNames(h, s, op, p);
      SameNamesKeep(s, p.s);
    }
  }

  lemma RegisterKeeps(h: Host, s: State, user: Address, orch: Address, p: Pending)
    requires NamesOk(s) && BeginRegisterOrchestrator(h, s, user, orch) == Ok(p)
    ensures NamesOk(p.s)
  {
    RegisterShape(h, s, user, orch, p);
    UnnamedHasNone(s, user);
    RenamedKeeps(s, p.s, user, orch);
  }

  lemma UpdateKeeps(h: Host, s: State, user: Address, orch: Address, p: Pending)
    requires BooksInv(s.books) && NamesOk(s) && BeginUpdateOrchestrator(h, s, user, orch) == Ok(p)
    ensures NamesOk(p.s)
  {
    UpdateShape(h, s, user, orch, p);
    NoneActive(s.books, user);
    RenamedKeeps(s, p.s, user, orch);
  }

  /** The one step that makes the maps stop being inverse is registering an orchestrator that has an owner. */
  lemma InverseKept(h: Host, s: State, op: Op, p: Pending)
    requires Inverse(s) && Begin(h, s, op) == Ok(p)
    ensures Inverse(p.s) <==> !TakesOver(s, op)
  {
    if op.RegisterOrchestrator? {
      RegisterShape(h, s, op.user, op.orchestrator, p);
      RenamedInverse(s, p.s, op.user, op.orchestrator);
    } else if op.UpdateOrchestrator? {
      UpdateShape(h, s, op.user, op.orchestrator, p);
      RenamedInverse(s, p.s, op.user, op.orchestrator);
    } else if op.CreateTask? {
      CreateKeeps(h, s, op.orchestrator, op.asset, op.planCost, None, p);
    } else if op.CreateTaskWithPolicy? {
      CreateKeeps(h, s, op.orchestrator, op.asset, op.planCost, Some(op.commitment), p);
    } else {
      BeginNames(h, s, op, p);
      SameNamesKeep(s, p.s);
    }
  }

  // ---- Transfers ----------------------------------------------------------

  lemma TaxNames(s: State, due: Due, s1: State, due1: Due)
    requires due.lines != [] && Tax(s, due) == Ok((s1, due1))
    ensures SameNames(s.books, s1.books) && s1.ctl == s.ctl
  {
  }

  lemma MoveSame(b: Books, from: Address, to: Address, asset: Address, amount: int)
    ensures var b1 := Move(b, from, to, asset, amount); b1.configs == b.configs && b1.tasks == b.tasks
  {
  }

  lemma ReceivedSame(h: Host, b: Books, to: Address, asset: Address, amount: nat)
    ensures var b1 := Received(h, b, to, asset, amount); b1.configs == b.configs && b1.tasks == b.tasks
  {
  }

  lemma TransferNames(h: Host, s: State, due: Due, s1: State)
    requires due.lines != [] && !due.lines[0].Taxed? && Transfer(h, s, due) == Ok(s1)
    ensures SameNames(s.books, s1.books) && s1.ctl == s.ctl
  {
    match due.lines[0]
    case Pull(from, amount) => MoveSame(s.books, from, h.vault, due.asset, amount);
    case Fixed(to, net, fee, rate) =>
      MoveSame(s.books, h.vault, to, due.asset, net);
      ReceivedSame(h, Log(Move(s.books, h.vault, to, due.asset, net), Paid(due.task, due.asset, to, net, fee, rate)), to, due.asset, net);
  }

  lemma FinishNames(s: State, due: Due, s1: State)
    requires Finish(s, due) == Ok(s1)
    ensures SameNames(s.books, s1.books) && s1.ctl == s.ctl
  {
    if due.fin.CreditUser? {
      CreditNames(s.books, due.fin.user, due.asset, due.fin.amount);
    }
  }

  // ---- Over runs ----------------------------------------------------------

  ghost function NamesIn(h: Host): (State, seq<Due>) -> bool {
    (s: State, stack: seq<Due>) => Solvency.Solvent(h.vault, s, stack) && NamesOk(s)
  }

  /** Between calls only the clock and the markers change. */
  lemma NamesWait(h: Host)
    ensures OnWait(h, NamesIn(h))
  {
    Solvency.SolventInductive(h);
    forall s, step: Step | !step.Invoke? && NamesIn(h)(s, []) ensures NamesIn(h)(Next(h, s, step).s, []) {
      var s1 := Next(h, s, step).s;
      assert Solvency.SolventIn(h)(s, []) && Solvency.SolventIn(h)(s1, []);
      SameBooks(s.books, s1.books);
      SameNamesKeep(s, s1);
    }
  }

  lemma NamesNoted(h: Host, s: State, op: Op, stack: seq<Due>)
    requires Solvency.Solvent(h.vault, s, stack) && NamesOk(s)
    ensures Solvency.Solvent(h.vault, Noted(s, op), stack) && NamesOk(Noted(s, op))
  {
  }

  lemma NamesInductive(h: Host)
    ensures Inductive(h, NamesIn(h))
  {
    var J := NamesIn(h);
    forall s, stack, op | J(s, stack) && Begin(h, Noted(s, op), op).Ok?
      ensures J(Begin(h, Noted(s, op), op).value.s, stack + [Begin(h, Noted(s, op), op).value.due])
    {
      var s0 := Noted(s, op);
      NamesNoted(h, s, op, stack);
      Solvency.BeginKeeps(h, s0, stack, op, Begin(h, s0, op).value);
      BeginKeepsNames(h, s0, op, Begin(h, s0, op).value);
    }
    forall s, stack, due: Due | due.lines != [] && J(s, stack + [due]) && Tax(s, due).Ok?
      ensures J(Tax(s, due).value.0, stack + [Tax(s, due).value.1])
    {
      var s1, due1 := Tax(s, due).value.0, Tax(s, due).value.1;
      Solvency.TaxKeeps(h, s, stack, due, s1, due1);
      TaxNames(s, due, s1, due1);
      SameNamesKeep(s, s1);
    }
    forall s, stack, due: Due |
      due.lines != [] && !due.lines[0].Taxed? && J(s, stack + [due]) && Transfer(h, s, due).Ok?
      ensures J(Transfer(h, s, due).value, stack + [RestOf(due)])
    {
      var s1 := Transfer(h, s, due).value;
      Solvency.TransferKeeps(h, s, stack, due, s1);
      TransferNames(h, s, due, s1);
      SameNamesKeep(s, s1);
    }
    forall s, stack, due: Due | due.lines == [] && J(s, stack + [due]) && Finish(s, due).Ok?
      ensures J(Finish(s, due).value, stack)
    {
      var s1 := Finish(s, due).value;
      Solvency.FinishKeeps(h, s, stack, due, s1);
      FinishNames(s, due, s1);
      SameNamesKeep(s, s1);
    }
  }

  /**
   * After every run, and inside every transfer of it, no open task is stranded:
   * its orchestrator is the one its user names; and whomever the reverse lookup
   * gives for an orchestrator does name it.
   */
  lemma NeverStranded(h: Host, s0: State, steps: seq<Step>)
    requires Initial(h, s0)
    ensures var r := Run(h, s0, steps);
      && NamesOk(r.s)
      && forall i | 0 <= i < |r.seen| :: NamesOk(r.seen[i].s)
  {
    Solvency.InitialSolvent(h, s0);
    NamesInductive(h);
    NamesWait(h);
    RunKeeps(h, NamesIn(h), s0, steps);
    var seen := Run(h, s0, steps).seen;
    forall i | 0 <= i < |seen| ensures NamesOk(seen[i].s) {
      assert HeldAt(NamesIn(h), seen[i]);
    }
  }

  // ---- Runs without takeovers ---------------------------------------------

  /** No entry point begun in this call, at any depth, takes an orchestrator over. */
  ghost predicate FairCall(h: Host, s: State, c: Call)
    decreases c
  {
    !TakesOver(s, c.op) && match Begin(h, Noted(s, c.op), c.op) case Err(_) => true case Ok(p) => FairSettle(h, p.s, p.due, c.hooks)
  }

  ghost predicate FairSettle(h: Host, s: State, due: Due, hooks: seq<Hook>)
    decreases hooks, |due.lines|
  {
    due.lines != [] && hooks != [] && Tax(s, due).Ok? ==>
      var (s1, due1) := Tax(s, due).value;
      && FairHook(h, s1, due1, hooks[0])
      && match Hooked(h, s1, due1, hooks[0]).r
         case Err(_) => true
         case Ok(s2) => FairSettle(h, s2, RestOf(due1), hooks[1..])
  }

  ghost predicate FairHook(h: Host, s: State, due: Due, hook: Hook)
    requires due.lines != [] && !due.lines[0].Taxed?
    decreases hook
  {
    FairAll(h, s, hook.before)
    && match Transfer(h, RunAll(h, s, hook.before).s, due) case Err(_) => true case Ok(s1) => FairAll(h, s1, hook.after)
  }

  ghost predicate FairAll(h: Host, s: State, calls: seq<Call>)
    decreases calls
  {
    calls != [] ==>
      && FairCall(h, s, calls[0])
      && var o := Exec(h, s, calls[0]); FairAll(h, if o.r.Ok? then o.r.value else s, calls[1..])
  }

  ghost predicate FairRun(h: Host, s: State, steps: seq<Step>) {
    forall i | 0 <= i < |steps| && steps[i].Invoke? :: FairCall(h, Run(h, s, steps[..i]).s, steps[i].call)
  }

  lemma NotedInverse(s: State, op: Op)
    requires Inverse(s)
    ensures Inverse(Noted(s, op))
  {
    SameNamesKeep(s, Noted(s, op));
  }

  lemma {:induction false} CallInverse(h: Host, s: State, c: Call)
    requires Inverse(s) && FairCall(h, s, c)
    ensures Exec(h, s, c).r.Ok? ==> Inverse(Exec(h, s, c).r.value)
    decreases c
  {
    match Begin(h, Noted(s, c.op), c.op)
    case Err(_) =>
    case Ok(p) =>
      NotedInverse(s, c.op);
      InverseKept(h, Noted(s, c.op), c.op, p);
      SettleInverse(h, p.s, p.due, c.hooks);
  }

  lemma {:induction false} SettleInverse(h: Host, s: State, due: Due, hooks: seq<Hook>)
    requires Inverse(s) && FairSettle(h, s, due, hooks)
    ensures Settle(h, s, due, hooks).r.Ok? ==> Inverse(Settle(h, s, due, hooks).r.value)
    decreases hooks, |due.lines|
  {
    if due.lines == [] {
      if Finish(s, due).Ok? {
        FinishNames(s, due, Finish(s, due).value);
        SameNamesKeep(s, Finish(s, due).value);
      }
    } else if Tax(s, due).Ok? {
      var (s1, due1) := Tax(s, due).value;
      TaxNames(s, due, s1, due1);
      SameNamesKeep(s, s1);
      if hooks != [] {
        HookInverse(h, s1, due1, hooks[0]);
        var o := Hooked(h, s1, due1, hooks[0]);
        if o.r.Ok? {
          SettleInverse(h, o.r.value, RestOf(due1), hooks[1..]);
        }
      } else if Transfer(h, s1, due1).Ok? {
        TransferNames(h, s1, due1, Transfer(h, s1, due1).value);
        SameNamesKeep(s1, Transfer(h, s1, due1).value);
        SettleInverse(h, Transfer(h, s1, due1).value, RestOf(due1), []);
      }
    }
  }

  lemma {:induction false} HookInverse(h: Host, s: State, due: Due, hook: Hook)
    requires due.lines != [] && !due.lines[0].Taxed?
    requires Inverse(s) && FairHook(h, s, due, hook)
    ensures Hooked(h, s, due, hook).r.Ok? ==> Inverse(Hooked(h, s, due, hook).r.value)
    decreases hook
  {
    AllInverse(h, s, hook.before);
    var b := RunAll(h, s, hook.before).s;
    if Transfer(h, b, due).Ok? {
      var s1 := Transfer(h, b, due).value;
      TransferNames(h, b, due, s1);
      SameNamesKeep(b, s1);
      AllInverse(h, s1, hook.after);
    }
  }

  lemma {:induction false} AllInverse(h: Host, s: State, calls: seq<Call>)
    requires Inverse(s) && FairAll(h, s, calls)
    ensures Inverse(RunAll(h, s, calls).s)
    decreases calls
  {
    if calls != [] {
      CallInverse(h, s, calls[0]);
      var o := Exec(h, s, calls[0]);
      AllInverse(h, if o.r.Ok? then o.r.value else s, calls[1..]);
    }
  }

  /** After a run that registers no orchestrator somebody has, configurations and reverse lookup are inverse. */
  lemma {:induction false} LookupIsInverse(h: Host, s0: State, steps: seq<Step>)
    requires Initial(h, s0) && FairRun(h, s0, steps)
    ensures Inverse(Run(h, s0, steps).s)
  {
    if steps != [] {
      var init, last := steps[..|steps| - 1], steps[|steps| - 1];
      forall i | 0 <= i < |init| && init[i].Invoke? ensures FairCall(h, Run(h, s0, init[..i]).s, init[i].call) {
        assert init[..i] == steps[..i];
      }
      LookupIsInverse(h, s0, init);
      var b := Run(h, s0, init).s;
      if last.Invoke? {
        CallInverse(h, b, last.call);
      } else {
        assert Next(h, b, last).s.ctl == b.ctl && Next(h, b, last).s.books == b.books;
      }
    }
  }

  function ActiveOf(b: Books, user: Address): int {
    if user in b.configs then b.configs[user].activeTasks else 0
  }

  /** A user who names nobody can always register, whoever has the orchestrator. */
  lemma RegisterSucceeds(h: Host, s: State, user: Address, orch: Address)
    requires user != h.vault && Named(s.books.configs, user) == None
    ensures var r := Exec(h, s, Call(RegisterOrchestrator(user, orch), [])).r;
      r.Ok? && Renamed(s, r.value, user, orch) && ActiveOf(r.value.books, user) == ActiveOf(s.books, user)
  {
    var s0 := Noted(s, RegisterOrchestrator(user, orch));
    var p := BeginRegisterOrchestrator(h, s0, user, orch).value;
    RegisterShape(h, s0, user, orch, p);
  }

  /** A user without active tasks can move to an orchestrator nobody else has. */
  lemma UpdateSucceeds(h: Host, s: State, user: Address, orch: Address)
    requires user != h.vault && Named(s.books.configs, user).Some? && ActiveOf(s.books, user) == 0
    requires orch in s.ctl.owners ==> s.ctl.owners[orch] == user
    ensures var r := Exec(h, s, Call(UpdateOrchestrator(user, orch), [])).r; r.Ok? && Renamed(s, r.value, user, orch)
  {
    var s0 := Noted(s, UpdateOrchestrator(user, orch));
    var p := BeginUpdateOrchestrator(h, s0, user, orch).value;
    UpdateShape(h, s0, user, orch, p);
  }

  /** Two users name one orchestrator, then the second moves on. */
  lemma NamesMoved(s0: State, s1: State, s2: State, s3: State, u: Address, v: Address, o: Address, o1: Address)
    requires s0.ctl.owners == map[] && Named(s0.books.configs, u) == Named(s0.books.configs, v) == None && u != v
    requires Renamed(s0, s1, u, o) && Renamed(s1, s2, v, o) && Renamed(s2, s3, v, o1)
    ensures Named(s2.books.configs, u) == Named(s2.books.configs, v) == Some(o) && s2.ctl.owners == map[o := v]
    ensures Named(s3.books.configs, u) == Some(o) && s3.ctl.owners == map[o1 := v]
  {
    assert s1.ctl.owners == map[o := u];
    assert s2.ctl.owners == map[o := v];
  }

  /**
   * What a takeover leaves behind: both users name the orchestrator, and once
   * the second moves on nobody is found for it any more.
   */
  lemma TakeOverLeavesBehind(h: Host, s0: State, u: Address, v: Address, o: Address, o1: Address)
    requires Initial(h, s0) && u != v && o != o1 && u != h.vault && v != h.vault
    ensures
      var s1 := Next(h, s0, Invoke(Call(RegisterOrchestrator(u, o), []))).s;
      var s2 := Next(h, s1, Invoke(Call(RegisterOrchestrator(v, o), []))).s;
      var s3 := Next(h, s2, Invoke(Call(UpdateOrchestrator(v, o1), []))).s;
      && Named(s2.books.configs, u) == Named(s2.books.configs, v) == Some(o) && s2.ctl.owners == map[o := v]
      && Named(s3.books.configs, u) == Some(o) && s3.ctl.owners == map[o1 := v]
  {
    RegisterSucceeds(h, s0, u, o);
    var s1 := Exec(h, s0, Call(RegisterOrchestrator(u, o), [])).r.value;
    RegisterSucceeds(h, s1, v, o);
    var s2 := Exec(h, s1, Call(RegisterOrchestrator(v, o), [])).r.value;
    assert s2.ctl.owners == map[o := v];
    UpdateSucceeds(h, s2, v, o1);
    var s3 := Exec(h, s2, Call(UpdateOrchestrator(v, o1), [])).r.value;
    NamesMoved(s0, s1, s2, s3, u, v, o, o1);
  }
}
