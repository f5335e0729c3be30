/**
 * Nothing leaves an account without authority. In every run each call that took
 * effect was warranted by the calls before it, and what left the accounts is,
 * entry by entry and in order, what those calls asked for.
 */
module Authority {
  import opened Base
  import opened Bytes
  import opened VaultState
  import opened BookKeeping
  import opened Vault
  import opened OpShapes
  import opened Execution
  import opened History
  import opened Records
  import opened Warrants
  import A = Accumulators
  import E = EntryPoints
  import L = LaneSteps
  import Ledger
  import O = Orchestrators
  import P = Permits
  import S = Signals
  import Solvency

  // ---- What leaves an account ---------------------------------------------

  /** Withdrawals, direct spends, releases and the ends of tasks. */
  predicate Debit(e: Entry) {
    e.Withdrew? || e.Direct? || e.Released? || e.Finished? || e.Settled?
  }

  function OnlyDebits(journal: seq<Entry>): seq<Entry> {
    if journal == [] then []
    else
      var e := journal[|journal| - 1];
      OnlyDebits(journal[..|journal| - 1]) + if Debit(e) then [e] else []
  }

  function FinishOf(before: Notes, id: nat): seq<Entry> {
    if 1 <= id <= |OrdersIn(before)| && OrdersIn(before)[id - 1].user.Some? then
      var order := OrdersIn(before)[id - 1];
      [Finished(id, order.user.value, order.asset, order.planCost, SpentIn(before, id))]
    else []
  }

  function SettlementOf(before: Notes, id: nat, refund: int, payout: int): seq<Entry> {
    if 1 <= id <= |OrdersIn(before)| && OrdersIn(before)[id - 1].user.Some? && refund >= 0 && payout >= 0 then
      var order := OrdersIn(before)[id - 1];
      [Settled(id, order.user.value, order.asset, order.planCost, SpentIn(before, id), refund, payout)]
    else []
  }

  /** What a call takes from an account, and from whose. */
  function DebitOf(before: Notes, op: Op): seq<Entry> {
    match op
    case Withdraw(user, asset, amount) => if amount >= 0 then [Withdrew(user, asset, amount)] else []
    case ReleaseSession(key, _, amount, _) =>
      if KeyIn(before, key).Some? then [Direct(KeyIn(before, key).value.owner, KeyIn(before, key).value.asset, amount)] else []
    case ReleaseKeyless(user, asset, _, q, _, _) => [Direct(user, asset, S.SumAmounts(q.amounts))]
    case ReleasePayment(_, id, step, _, amount) => if FirstOfStep(before, op, id) then [Released(id, step, amount)] else []
    case ReleaseProved(_, id, step, _, amount, _, _, _) => if FirstOfStep(before, op, id) then [Released(id, step, amount)] else []
    case ReleaseBatch(_, id, step, _, q, _) =>
      if FirstOfStep(before, op, id) then [Released(id, step, S.SumAmounts(q.amounts))] else []
    case CompleteTask(_, id) => FinishOf(before, id)
    case CancelTask(_, id) => FinishOf(before, id)
    case ForceComplete(id) => FinishOf(before, id)
    case ResolveDispute(_, id, refund, payout) => SettlementOf(before, id, refund, payout)
    case _ => []
  }

  function DebitsOf(notes: Notes): seq<Entry> {
    if notes == [] then [] else DebitsOf(Init(notes)) + DebitOf(Init(notes), LastOp(notes))
  }

  lemma DebitsSnoc(journal: seq<Entry>, e: Entry)
    ensures OnlyDebits(journal + [e]) == OnlyDebits(journal) + if Debit(e) then [e] else []
  {
    assert (journal + [e])[..|journal|] == journal;
  }

  lemma DebitsNone(journal: seq<Entry>)
    ensures OnlyDebits(journal) + [] == OnlyDebits(journal)
  {
  }

  lemma DebitsOfSnoc(notes: Notes, note: Note)
    ensures DebitsOf(notes + [note]) == DebitsOf(notes) + DebitOf(notes, note.op)
  {
    InitOf(notes, note);
  }

  // ---- Entry points and the journal ---------------------------------------

  /** The journal is the same, or has one more entry, which is no payout. */
  predicate Enters(b: Books, b1: Books) {
    b1.journal == b.journal
    || (b1.journal != [] && b1.journal[..|b1.journal| - 1] == b.journal && !b1.journal[|b1.journal| - 1].Paid?)
  }

  /** The journal grows by exactly the debit of this call. */
  predicate Debits(b: Books, b1: Books, before: Notes, op: Op) {
    OnlyDebits(b1.journal) == OnlyDebits(b.journal) + DebitOf(before, op) && Enters(b, b1)
  }

  lemma NoDebit(b: Books, b1: Books, before: Notes, op: Op)
    requires b1.journal == b.journal && DebitOf(before, op) == []
    ensures Debits(b, b1, before, op)
  {
    DebitsNone(b.journal);
  }

  lemma OneDebit(b: Books, b1: Books, before: Notes, op: Op, e: Entry)
    requires b1.journal == b.journal + [e] && Debit(e) && DebitOf(before, op) == [e]
    ensures Debits(b, b1, before, op)
  {
    DebitsSnoc(b.journal, e);
  }

  lemma WithdrawDebits(h: Host, s: State, user: Address, asset: Address, amount: I128, p: Pending, notes: Notes)
    requires BeginWithdraw(h, s, user, asset, amount) == Ok(p)
    ensures Debits(s.books, p.s.books, notes, Withdraw(user, asset, amount))
  {
    OneDebit(s.books, p.s.books, notes, Withdraw(user, asset, amount), Withdrew(user, asset, amount));
  }

  lemma SessionDebits(h: Host, s: State, key: Address, payee: Address, amount: I128, chosen: Option<Bytes32>, p: Pending, notes: Notes)
    requires LanesAgree(s.lanes, notes) && BeginReleaseSession(h, s, key, payee, amount, chosen) == Ok(p)
    ensures Debits(s.books, p.s.books, notes, ReleaseSession(key, payee, amount, chosen))
  {
    E.ReleaseSessionShape(h, s, key, payee, amount, chosen, p);
    var info := s.lanes.sessions[key];
    KeyTold(s.lanes, notes, key);
    OneDebit(s.books, p.s.books, notes, ReleaseSession(key, payee, amount, chosen), Direct(info.user, info.asset, amount));
  }

  lemma KeylessDebits(h: Host, s: State, op: Op, p: Pending, notes: Notes)
    requires op.ReleaseKeyless?
    requires BeginReleaseKeyless(h, s, op.user, op.asset, op.commitment, op.batch, op.proof, op.global) == Ok(p)
    ensures Debits(s.books, p.s.books, notes, op)
  {
    E.ReleaseKeylessShape(h, s, op.user, op.asset, op.commitment, op.batch, op.proof, op.global, p);
    OneDebit(s.books, p.s.books, notes, op, Direct(op.user, op.asset, S.SumAmounts(op.batch.amounts)));
  }

  /** A release debits its task when the step is new, and nothing when it is not. */
  lemma ReleaseDebits(b: Books, b1: Books, notes: Notes, op: Op, id: nat, step: U64)
    requires TasksAgree(b, notes) && id in b.tasks && !b.tasks[id].completed
    requires op.ReleasePayment? || op.ReleaseProved? || op.ReleaseBatch?
    requires Releases(op, id, step) && StepOf(op) == step
    requires b1.journal == if (id, step) in b.steps then b.journal else b.journal + [Released(id, step, AmountOf(op))]
    ensures Debits(b, b1, notes, op)
  {
    OrderTold(b, notes, id);
    assert StepTold(b, notes, id, step);
    if (id, step) in b.steps {
      NoDebit(b, b1, notes, op);
    } else {
      OneDebit(b, b1, notes, op, Released(id, step, AmountOf(op)));
    }
  }

  lemma PlainDebits(h: Host, s: State, orch: Address, id: U64, step: U64, asset: Address, amount: I128, p: Pending, notes: Notes)
    requires TasksAgree(s.books, notes) && BeginReleasePayment(h, s, orch, id, step, asset, amount) == Ok(p)
    ensures Debits(s.books, p.s.books, notes, ReleasePayment(orch, id, step, asset, amount))
  {
    E.ReleasePaymentShape(h, s, orch, id, step, asset, amount, p);
    ReleaseDebits(s.books, p.s.books, notes, ReleasePayment(orch, id, step, asset, amount), id, step);
  }

  lemma ProvedDebits(h: Host, s: State, orch: Address, id: U64, step: U64, asset: Address, amount: I128, payee: Address, n: Bytes32,
                     proof: Proof, p: Pending, notes: Notes)
    requires TasksAgree(s.books, notes) && BeginReleaseProved(h, s, orch, id, step, asset, amount, payee, n, proof) == Ok(p)
    ensures Debits(s.books, p.s.books, notes, ReleaseProved(orch, id, step, asset, amount, payee, n, proof))
  {
    E.ReleaseProvedShape(h, s, orch, id, step, asset, amount, payee, n, proof, p);
    ReleaseDebits(s.books, p.s.books, notes, ReleaseProved(orch, id, step, asset, amount, payee, n, proof), id, step);
  }

  lemma BatchDebits(h: Host, s: State, orch: Address, id: U64, step: U64, asset: Address, q: S.Batch, proof: Proof, p: Pending, notes: Notes)
    requires TasksAgree(s.books, notes) && BeginReleaseBatch(h, s, orch, id, step, asset, q, proof) == Ok(p)
    ensures Debits(s.books, p.s.books, notes, ReleaseBatch(orch, id, step, asset, q, proof))
  {
    E.ReleaseBatchShape(h, s, orch, id, step, asset, q, proof, p);
    ReleaseDebits(s.books, p.s.books, notes, ReleaseBatch(orch, id, step, asset, q, proof), id, step);
  }

  /** This call ends this task, with this split if it settles a dispute. */
  predicate Closes(op: Op, id: nat, split: Option<(nat, nat)>) {
    if op.ResolveDispute? then op.task == id && split.Some? && split.value.0 == op.refund && split.value.1 == op.payout
    else Ending(op) && op.task == id && split.None?
  }

  lemma ClosingTold(b: Books, notes: Notes, op: Op, id: nat, split: Option<(nat, nat)>)
    requires TasksAgree(b, notes) && id in b.tasks && !b.tasks[id].completed && Closes(op, id, split)
    ensures DebitOf(notes, op) == [ClosingEntry(id, b.tasks[id], split)]
  {
    OrderTold(b, notes, id);
  }

  lemma CloseDebits(b: Books, notes: Notes, op: Op, id: nat, split: Option<(nat, nat)>)
    requires TasksAgree(b, notes) && Ledger.Closable(b, id, split) && Closes(op, id, split)
    ensures Debits(b, CloseTask(b, id, split), notes, op)
  {
    ClosingTold(b, notes, op, id, split);
    OneDebit(b, CloseTask(b, id, split), notes, op, ClosingEntry(id, b.tasks[id], split));
  }

  lemma EndDebits(h: Host, s: State, op: Op, p: Pending, notes: Notes)
    requires TasksAgree(s.books, notes) && Ending(op) && Begin(h, s, op) == Ok(p)
    ensures Debits(s.books, p.s.books, notes, op)
  {
    E.EndingShape(h, s, op, p);
    CloseDebits(s.books, notes, op, op.task, None);
  }

  lemma ResolveDebits(h: Host, s: State, resolver: Address, id: U64, refund: I128, payout: I128, p: Pending, notes: Notes)
    requires TasksAgree(s.books, notes) && BeginResolveDispute(h, s, resolver, id, refund, payout) == Ok(p)
    ensures Debits(s.books, p.s.books, notes, ResolveDispute(resolver, id, refund, payout))
  {
    E.ResolveShape(h, s, resolver, id, refund, payout, p);
    P.ResolveExact(h, s, resolver, id, refund, payout);
    CloseDebits(s.books, notes, ResolveDispute(resolver, id, refund, payout), id, Some((refund as nat, payout as nat)));
  }

  lemma MintDebits(h: Host, s: State, to: Address, asset: Address, amount: nat, p: Pending)
    requires BeginMint(h, s, to, asset, amount) == Ok(p)
    ensures OnlyDebits(p.s.books.journal) == OnlyDebits(s.books.journal) && Enters(s.books, p.s.books)
  {
    DebitsSnoc(s.books.journal, Gift(asset, amount));
    DebitsNone(s.books.journal);
  }

  lemma TransferDebits(h: Host, s: State, from: Address, to: Address, asset: Address, amount: nat, p: Pending)
    requires BeginTransfer(h, s, from, to, asset, amount) == Ok(p)
    ensures OnlyDebits(p.s.books.journal) == OnlyDebits(s.books.journal) && Enters(s.books, p.s.books)
  {
    DebitsSnoc(s.books.journal, Gift(asset, amount));
    DebitsNone(s.books.journal);
  }

  /** Entry points that enter nothing in the journal. */
  predicate Unentered(op: Op) {
    BooksUntouched(op) || op.Deposit? || op.RegisterSession? || op.RegisterOrchestrator? || op.UpdateOrchestrator? || op.CreateTask?
    || op.CreateTaskWithPolicy? || op.RaiseDispute? || op.ClaimFees?
  }

  lemma ConfigEnters(h: Host, s: State, op: Op, p: Pending)
    requires (op.RegisterSession? || op.RegisterOrchestrator? || op.UpdateOrchestrator? || op.CreateTask? || op.CreateTaskWithPolicy?)
      && Begin(h, s, op) == Ok(p)
    ensures p.s.books.journal == s.books.journal
  {
  }

  lemma MoneyEnters(h: Host, s: State, op: Op, p: Pending)
    requires (op.Deposit? || op.RaiseDispute? || op.ClaimFees?) && Begin(h, s, op) == Ok(p)
    ensures p.s.books.journal == s.books.journal
  {
  }

  lemma NothingEntered(h: Host, s: State, op: Op, p: Pending, notes: Notes)
    requires Unentered(op) && Begin(h, s, op) == Ok(p)
    ensures Debits(s.books, p.s.books, notes, op)
  {
    if BooksUntouched(op) {
      UntouchedShape(h, s, op, p);
    } else if op.Deposit? || op.RaiseDispute? || op.ClaimFees? {
      MoneyEnters(h, s, op, p);
    } else {
      ConfigEnters(h, s, op, p);
    }
    UnenteredDebits(notes, op);
    NoDebit(s.books, p.s.books, notes, op);
  }

  lemma UnenteredDebits(notes: Notes, op: Op)
    requires Unentered(op)
    ensures DebitOf(notes, op) == []
  {
  }

  lemma TokensEnter(h: Host, s: State, op: Op, p: Pending, notes: Notes)
    requires (op.TokenMint? || op.TokenTransfer?) && Begin(h, s, op) == Ok(p)
    ensures Debits(s.books, p.s.books, notes, op)
  {
    DebitsNone(s.books.journal);
    if op.TokenMint? {
      MintDebits(h, s, op.to, op.asset, op.quantity, p);
    } else {
      TransferDebits(h, s, op.from, op.to, op.asset, op.quantity, p);
    }
  }

  lemma DebitStep(h: Host, s: State, op: Op, p: Pending, notes: Notes)
    requires TasksAgree(s.books, notes) && LanesAgree(s.lanes, notes) && Begin(h, s, op) == Ok(p)
    ensures Debits(s.books, p.s.books, notes, op)
  {
    if Unentered(op) {
      NothingEntered(h, s, op, p, notes);
    } else if op.TokenMint? || op.TokenTransfer? {
      TokensEnter(h, s, op, p, notes);
    } else if op.Withdraw? {
      WithdrawDebits(h, s, op.user, op.asset, op.amount, p, notes);
    } else if op.ReleaseSession? {
      SessionDebits(h, s, op.session, op.payee, op.amount, op.chosenRule, p, notes);
    } else if op.ReleaseKeyless? {
      KeylessDebits(h, s, op, p, notes);
    } else if op.ReleasePayment? {
      PlainDebits(h, s, op.orchestrator, op.task, op.step, op.asset, op.amount, p, notes);
    } else if op.ReleaseProved? {
      ProvedDebits(h, s, op.orchestrator, op.task, op.step, op.asset, op.amount, op.payee, op.nullifier, op.proof, p, notes);
    } else if op.ReleaseBatch? {
      BatchDebits(h, s, op.orchestrator, op.task, op.step, op.asset, op.batch, op.proof, p, notes);
    } else if op.ResolveDispute? {
      ResolveDebits(h, s, op.resolver, op.task, op.refund, op.payout, p, notes);
    } else {
      EndDebits(h, s, op, p, notes);
    }
  }

  // ---- Entry points and the log of the lanes ------------------------------

  predicate Trace(e: LaneEntry) {
    e.Rolled? || e.SessionPaid?
  }

  function OnlyTraces(log: seq<LaneEntry>): seq<LaneEntry> {
    if log == [] then []
    else
      var e := log[|log| - 1];
      OnlyTraces(log[..|log| - 1]) + if Trace(e) then [e] else []
  }

  lemma TracesSnoc(log: seq<LaneEntry>, e: LaneEntry)
    ensures OnlyTraces(log + [e]) == OnlyTraces(log) + if Trace(e) then [e] else []
  {
    assert (log + [e])[..|log|] == log;
  }

  lemma {:induction false} TracesJoin(log: seq<LaneEntry>, more: seq<LaneEntry>)
    ensures OnlyTraces(log + more) == OnlyTraces(log) + OnlyTraces(more)
  {
    if more == [] {
      assert log + more == log;
    } else {
      var n := |more| - 1;
      TracesJoin(log, more[..n]);
      assert log + more == (log + more[..n]) + [more[n]];
      TracesSnoc(log + more[..n], more[n]);
    }
  }

  lemma TracesOfSnoc(notes: Notes, note: Note)
    ensures TracesOf(notes + [note]) == TracesOf(notes) + TraceOf(notes, note.op, note.time)
  {
    InitOf(notes, note);
  }

  /** Other entries say nothing about where a commitment stands. */
  lemma {:induction false} StandingOfTraces(log: seq<LaneEntry>, c: Bytes32)
    ensures A.Standing(OnlyTraces(log), c) == A.Standing(log, c)
    ensures A.SpentSinceReset(OnlyTraces(log), c) == A.SpentSinceReset(log, c)
    ensures A.CountSinceReset(OnlyTraces(log), c) == A.CountSinceReset(log, c)
  {
    if log != [] {
      var init, e := log[..|log| - 1], log[|log| - 1];
      StandingOfTraces(init, c);
      if Trace(e) {
        assert OnlyTraces(log)[..|OnlyTraces(init)|] == OnlyTraces(init);
      } else {
        assert OnlyTraces(log) == OnlyTraces(init);
      }
    }
  }

  predicate Traces(l: Lanes, l1: Lanes, before: Notes, op: Op, time: U64) {
    OnlyTraces(l1.log) == OnlyTraces(l.log) + TraceOf(before, op, time)
  }

  lemma TracesOfTwo(a: LaneEntry, b: LaneEntry)
    ensures OnlyTraces([a, b]) == (if Trace(a) then [a] else []) + (if Trace(b) then [b] else [])
  {
    assert [a, b][..1] == [a] && [a][..0] == [];
    assert OnlyTraces([a]) == OnlyTraces([]) + if Trace(a) then [a] else [];
  }

  /** A key's payment leaves its charges and the payment; only the payment is a trace. */
  lemma {:induction false} ChargesLeaveNone(more: seq<LaneEntry>)
    requires forall i | 0 <= i < |more| :: more[i].RuleUsed?
    ensures OnlyTraces(more) == []
  {
    if more != [] {
      ChargesLeaveNone(more[..|more| - 1]);
    }
  }

  lemma SpendTraces(log: seq<LaneEntry>, more: seq<LaneEntry>, paid: LaneEntry)
    requires L.SpendEntries(more, paid)
    ensures OnlyTraces(log + more) == OnlyTraces(log) + [paid]
  {
    var k := |L.RulesOf(paid)|;
    forall i | 0 <= i < k ensures more[..k][i].RuleUsed? {
      assert L.ChargeFor(more[i], paid, L.RulesOf(paid)[i]);
    }
    ChargesLeaveNone(more[..k]);
    assert more == more[..k] + [paid];
    TracesSnoc(more[..k], paid);
    TracesJoin(log, more);
  }

  lemma SessionTraces(h: Host, s: State, key: Address, payee: Address, amount: I128, chosen: Option<Bytes32>, p: Pending, notes: Notes)
    requires LanesAgree(s.lanes, notes) && BeginReleaseSession(h, s, key, payee, amount, chosen) == Ok(p)
    ensures Traces(s.lanes, p.s.lanes, notes, ReleaseSession(key, payee, amount, chosen), s.now)
  {
    L.ReleaseSessionLanes(h, s, key, payee, amount, chosen, p);
    var more := L.SpendsLog(s, p.s.lanes, key, chosen, amount);
    SpendTraces(s.lanes.log, more, L.PaidEntry(s, key, chosen, amount));
    KeyTold(s.lanes, notes, key);
    RuleTold(s.lanes, notes, s.lanes.sessions[key].user, ZERO32);
  }

  lemma RolledIs(c: Bytes32, q: S.Batch)
    requires S.WellFormed(q) && S.BatchSum(q) <= I128_MAX
    ensures RollOf(c, q) == [RolledBy(c, q)]
  {
    S.SumPositive(q.amounts);
  }

  lemma OneTrace(l: Lanes, l1: Lanes, now: U64, ledger: nat, c: Bytes32, q: S.Batch)
    requires S.WellFormed(q) && S.BatchSum(q) <= I128_MAX && L.OneEffect(l, l1, now, ledger, c, q)
    ensures OnlyTraces(l1.log) == OnlyTraces(l.log) + RollOf(c, q)
  {
    var e := Consumed(q.nullifiers, [], q.validBefore, now, ledger);
    RolledIs(c, q);
    TracesSnoc(l.log, e);
    TracesSnoc(l.log + [e], RolledBy(c, q));
    assert OnlyTraces(l.log) + [] == OnlyTraces(l.log);
  }

  lemma TwoTraces(l: Lanes, l1: Lanes, now: U64, ledger: nat, c: Bytes32, q: S.Batch, gc: Bytes32, q2: S.Batch)
    requires S.WellFormed(q) && S.BatchSum(q) <= I128_MAX && S.WellFormed(q2) && S.BatchSum(q2) <= I128_MAX
    requires L.TwoEffects(l, l1, now, ledger, c, q, gc, q2)
    ensures OnlyTraces(l1.log) == OnlyTraces(l.log) + ((if gc == c then [] else RollOf(c, q)) + RollOf(gc, q2))
  {
    var e := Consumed(q.nullifiers, q2.nullifiers, q.validBefore, now, ledger);
    var rolls := if gc == c then [RolledBy(gc, q2)] else [RolledBy(c, q), RolledBy(gc, q2)];
    RolledIs(c, q);
    RolledIs(gc, q2);
    TracesSnoc(l.log, e);
    TracesJoin(l.log + [e], rolls);
    if gc == c {
      TracesSnoc([], RolledBy(gc, q2));
      assert [] + [RolledBy(gc, q2)] == rolls;
    } else {
      TracesOfTwo(RolledBy(c, q), RolledBy(gc, q2));
    }
    assert OnlyTraces(l.log) + [] == OnlyTraces(l.log);
  }

  lemma BatchTraces(h: Host, s: State, orch: Address, id: U64, step: U64, asset: Address, q: S.Batch, proof: Proof, p: Pending, notes: Notes)
    requires TasksAgree(s.books, notes) && BeginReleaseBatch(h, s, orch, id, step, asset, q, proof) == Ok(p)
    ensures Traces(s.lanes, p.s.lanes, notes, ReleaseBatch(orch, id, step, asset, q, proof), s.now)
  {
    E.ReleaseBatchShape(h, s, orch, id, step, asset, q, proof, p);
    P.PayBatchExact(h, s, orch, id, step, asset, q, proof);
    BatchTrace(s.books, notes, ReleaseBatch(orch, id, step, asset, q, proof), s.now);
    if (id, step) in s.books.steps {
      assert OnlyTraces(s.lanes.log) + [] == OnlyTraces(s.lanes.log);
    } else {
      L.BatchEffect(h, s, orch, id, step, asset, q, proof, p);
      OneTrace(s.lanes, p.s.lanes, s.now, s.ledger, s.books.tasks[id].commitment.value, q);
    }
  }

  lemma BatchTrace(b: Books, notes: Notes, op: Op, time: U64)
    requires TasksAgree(b, notes) && op.ReleaseBatch? && op.task in b.tasks && !b.tasks[op.task].completed
    requires b.tasks[op.task].commitment.Some?
    ensures TraceOf(notes, op, time) ==
      if (op.task, op.step) in b.steps then [] else RollOf(b.tasks[op.task].commitment.value, op.batch)
  {
    OrderTold(b, notes, op.task);
    assert StepTold(b, notes, op.task, op.step);
  }

  lemma KeylessTraces(h: Host, s: State, op: Op, p: Pending, notes: Notes)
    requires LanesAgree(s.lanes, notes) && op.ReleaseKeyless? && Begin(h, s, op) == Ok(p)
    ensures Traces(s.lanes, p.s.lanes, notes, op, s.now)
  {
    L.KeylessSettled(h, s, op, p);
    SettledTraces(h, s, op, s.ctl.verifier.value, p.s.lanes, notes);
  }

  lemma OneSettled(h: Host, s: State, op: Op, verifier: Address, l1: Lanes, notes: Notes)
    requires op.ReleaseKeyless? && L.Timely(op.batch, s.now) && (op.user, Private) !in s.lanes.globals
    requires S.WellFormed(op.batch) && S.BatchSum(op.batch) <= I128_MAX && GlobalIn(notes, op.user, Private).None?
    requires SettleKeyless(h, s, verifier, op.user, op.commitment, op.batch, op.proof, op.global) == Ok(l1)
    ensures Traces(s.lanes, l1, notes, op, s.now)
  {
    L.KeylessOneProof(h, s, verifier, op.user, op.commitment, op.batch, op.proof, op.global, l1);
    OneTrace(s.lanes, l1, s.now, s.ledger, op.commitment, op.batch);
  }

  lemma TwoTrace(notes: Notes, op: Op, time: U64, gc: Bytes32)
    requires op.ReleaseKeyless? && op.global.Some? && GlobalIn(notes, op.user, Private) == Some(gc)
    ensures TraceOf(notes, op, time)
      == (if gc == op.commitment then [] else RollOf(op.commitment, op.batch)) + RollOf(gc, UnderGlobal(op.batch, op.global.value))
  {
  }

  lemma TwoSettled(h: Host, s: State, op: Op, verifier: Address, l1: Lanes, notes: Notes)
    requires op.ReleaseKeyless? && L.Timely(op.batch, s.now) && (op.user, Private) in s.lanes.globals
    requires S.WellFormed(op.batch) && S.BatchSum(op.batch) <= I128_MAX
    requires GlobalIn(notes, op.user, Private) == Some(s.lanes.globals[(op.user, Private)])
    requires SettleKeyless(h, s, verifier, op.user, op.commitment, op.batch, op.proof, op.global) == Ok(l1)
    ensures Traces(s.lanes, l1, notes, op, s.now)
  {
    var q, gc := op.batch, s.lanes.globals[(op.user, Private)];
    L.KeylessTwoProofs(h, s, verifier, op.user, op.commitment, q, op.proof, op.global, l1);
    TwoTraces(s.lanes, l1, s.now, s.ledger, op.commitment, q, gc, UnderGlobal(q, op.global.value));
    TwoTrace(notes, op, s.now, gc);
  }

  lemma SettledTraces(h: Host, s: State, op: Op, verifier: Address, l1: Lanes, notes: Notes)
    requires LanesAgree(s.lanes, notes) && op.ReleaseKeyless? && L.Timely(op.batch, s.now)
    requires S.WellFormed(op.batch) && S.BatchSum(op.batch) <= I128_MAX
    requires SettleKeyless(h, s, verifier, op.user, op.commitment, op.batch, op.proof, op.global) == Ok(l1)
    ensures Traces(s.lanes, l1, notes, op, s.now)
  {
    assert GlobalOf(s.lanes.globals, op.user, Private) == GlobalIn(notes, op.user, Private);
    if (op.user, Private) in s.lanes.globals {
      TwoSettled(h, s, op, verifier, l1, notes);
    } else {
      OneSettled(h, s, op, verifier, l1, notes);
    }
  }

  lemma OpenTraces(h: Host, s: State, op: Op, p: Pending, notes: Notes)
    requires op.RegisterSession? && Begin(h, s, op) == Ok(p)
    ensures Traces(s.lanes, p.s.lanes, notes, op, s.now)
  {
    L.RegisterSessionShape(h, s, op, p);
    TracesSnoc(s.lanes.log, SessionOpened(op.session));
  }

  lemma QuietTraces(h: Host, s: State, op: Op, p: Pending, notes: Notes)
    requires !op.RegisterSession? && !op.ReleaseSession? && !op.ReleaseBatch? && !op.ReleaseKeyless? && Begin(h, s, op) == Ok(p)
    ensures Traces(s.lanes, p.s.lanes, notes, op, s.now)
  {
    if BooksUntouched(op) {
      UntouchedShape(h, s, op, p);
    } else {
      UntouchedLanes(h, s, op, p);
    }
    assert OnlyTraces(s.lanes.log) + [] == OnlyTraces(s.lanes.log);
  }

  lemma TraceStep(h: Host, s: State, op: Op, p: Pending, notes: Notes)
    requires TasksAgree(s.books, notes) && LanesAgree(s.lanes, notes) && Begin(h, s, op) == Ok(p)
    ensures Traces(s.lanes, p.s.lanes, notes, op, s.now)
  {
    if op.RegisterSession? {
      OpenTraces(h, s, op, p, notes);
    } else if op.ReleaseSession? {
      SessionTraces(h, s, op.session, op.payee, op.amount, op.chosenRule, p, notes);
    } else if op.ReleaseBatch? {
      BatchTraces(h, s, op.orchestrator, op.task, op.step, op.asset, op.batch, op.proof, p, notes);
    } else if op.ReleaseKeyless? {
      KeylessTraces(h, s, op, p, notes);
    } else {
      QuietTraces(h, s, op, p, notes);
    }
  }

  // ---- Over runs ----------------------------------------------------------

  const Anything := A.Limits(_ => U128_MAX, _ => U64_MAX)

  /** The records say what the history says, the history warrants itself, and what left the accounts is what it asked for. */
  ghost predicate Authorised(h: Host, first: Control, s: State) {
    match s
    case State(books, _, lanes, _, _, notes) =>
      && Told(first, s, notes) && AllWarranted(h, first, notes)
      && A.AccumsMatch(lanes.accums, lanes.log, Anything)
      && OnlyTraces(lanes.log) == TracesOf(notes) && OnlyDebits(books.journal) == DebitsOf(notes)
  }

  lemma StandsTold(l: Lanes, notes: Notes)
    requires A.AccumsMatch(l.accums, l.log, Anything) && OnlyTraces(l.log) == TracesOf(notes)
    ensures StandsAs(l, notes)
  {
    forall c ensures AccumOf(l, c) == A.Standing(TracesOf(notes), c) {
      assert A.Matches(l.accums, l.log, Anything, c);
      A.ReplayedSums(l.log, c);
      StandingOfTraces(l.log, c);
    }
  }

  lemma WarrantedSnoc(h: Host, first: Control, notes: Notes, note: Note)
    requires AllWarranted(h, first, notes) && Warranted(h, first, notes, note.op, note.time)
    ensures AllWarranted(h, first, notes + [note])
  {
    var n1 := notes + [note];
    forall i | 0 <= i < |n1| ensures Warranted(h, first, n1[..i], n1[i].op, n1[i].time) {
      if i < |notes| {
        assert n1[..i] == notes[..i];
      } else {
        assert n1[..i] == notes;
      }
    }
  }

  lemma WidthsAllow(h: Host)
    ensures A.Sound(h, Anything)
  {
  }

  lemma RecordsStep(h: Host, first: Control, s: State, op: Op, p: Pending, note: Note, notes: Notes)
    requires Ledger.BooksInv(s.books) && Told(first, s, notes) && note == Note(op, s.now) && Begin(h, s, op) == Ok(p)
    ensures Told(first, p.s, notes + [note])
  {
    AdminStep(h, first, s, op, p, note, notes);
    LanesStep(h, s, op, p, notes, note);
    TasksStep(h, s, op, p, notes, note);
  }

  lemma LogsStep(h: Host, first: Control, s: State, op: Op, p: Pending, note: Note, notes: Notes)
    requires Told(first, s, notes) && note == Note(op, s.now) && Begin(h, s, op) == Ok(p)
    requires A.AccumsMatch(s.lanes.accums, s.lanes.log, Anything)
    requires OnlyTraces(s.lanes.log) == TracesOf(notes) && OnlyDebits(s.books.journal) == DebitsOf(notes)
    ensures A.AccumsMatch(p.s.lanes.accums, p.s.lanes.log, Anything)
    ensures OnlyTraces(p.s.lanes.log) == TracesOf(notes + [note]) && OnlyDebits(p.s.books.journal) == DebitsOf(notes + [note])
  {
    WidthsAllow(h);
    A.CapsKept(h, s, op, p, Anything);
    TraceStep(h, s, op, p, notes);
    TracesOfSnoc(notes, note);
    DebitStep(h, s, op, p, notes);
    DebitsOfSnoc(notes, note);
  }

  lemma WarrantStep(h: Host, first: Control, s: State, op: Op, p: Pending, note: Note, notes: Notes)
    requires Told(first, s, notes) && AllWarranted(h, first, notes) && note == Note(op, s.now) && Begin(h, s, op) == Ok(p)
    requires A.AccumsMatch(s.lanes.accums, s.lanes.log, Anything) && OnlyTraces(s.lanes.log) == TracesOf(notes)
    ensures AllWarranted(h, first, notes + [note])
  {
    StandsTold(s.lanes, notes);
    P.BeginExact(h, s, op);
    MayIsWarranted(h, first, s, notes, op);
    WarrantedSnoc(h, first, notes, note);
  }

  lemma BeginAuthorised(h: Host, first: Control, s: State, op: Op, p: Pending)
    requires Ledger.BooksInv(s.books) && Authorised(h, first, s) && Begin(h, Noted(s, op), op) == Ok(p)
    ensures Authorised(h, first, p.s)
  {
    var s0, note, notes := Noted(s, op), Note(op, s.now), s.notes;
    NotedTold(first, s, op);
    RecordsStep(h, first, s0, op, p, note, notes);
    LogsStep(h, first, s0, op, p, note, notes);
    WarrantStep(h, first, s0, op, p, note, notes);
    L.ClockKept(h, s0, op, p);
  }

  lemma NotedTold(first: Control, s: State, op: Op)
    requires Told(first, s, s.notes)
    ensures Told(first, Noted(s, op), s.notes)
  {
  }

  /** A step between entry points: it moves tokens, fees and the clock, and enters no debit. */
  ghost predicate Beside(s: State, s1: State) {
    && s1.ctl == s.ctl && s1.notes == s.notes
    && s1.lanes == s.lanes.(nullifiers := s1.lanes.nullifiers)
    && TasksStay(s.books, s1.books) && (forall u :: O.Named(s1.books.configs, u) == O.Named(s.books.configs, u))
    && OnlyDebits(s1.books.journal) == OnlyDebits(s.books.journal)
  }

  lemma BesideTold(first: Control, s: State, s1: State)
    requires Told(first, s, s.notes) && Beside(s, s1)
    ensures Told(first, s1, s1.notes)
  {
    BesideTasks(s.books, s1.books, s.notes);
    PinsMoved(s.lanes, s1.lanes, s.notes);
    RulesMoved(s.lanes, s1.lanes, s.notes);
  }

  lemma BesideTasks(b: Books, b1: Books, notes: Notes)
    requires TasksAgree(b, notes) && TasksStay(b, b1)
    ensures TasksAgree(b1, notes)
  {
    forall id: nat | 1 <= id <= b1.counter ensures TaskTold(b1, notes, id) {
      assert TaskTold(b, notes, id);
      if !b.tasks[id].completed {
        forall step ensures StepTold(b1, notes, id, step) {
          assert StepTold(b, notes, id, step);
        }
      }
    }
  }

  lemma BesideAuthorised(h: Host, first: Control, s: State, s1: State)
    requires Authorised(h, first, s) && Beside(s, s1)
    ensures Authorised(h, first, s1)
  {
    BesideTold(first, s, s1);
  }

  lemma TaxBeside(s: State, due: Due, s1: State, due1: Due)
    requires due.lines != [] && Tax(s, due) == Ok((s1, due1))
    ensures Beside(s, s1)
  {
  }

  lemma MovesTokens(b: Books, from: Address, to: Address, asset: Address, amount: int)
    ensures Move(b, from, to, asset, amount) == b.(tokens := Move(b, from, to, asset, amount).tokens)
  {
  }

  lemma MoveBeside(b: Books, from: Address, to: Address, asset: Address, amount: int)
    ensures var b1 := Move(b, from, to, asset, amount); TasksStay(b, b1) && b1.configs == b.configs && b1.journal == b.journal
  {
    MovesTokens(b, from, to, asset, amount);
  }

  lemma TransferBeside(h: Host, s: State, due: Due, s1: State)
    requires due.lines != [] && !due.lines[0].Taxed? && Transfer(h, s, due) == Ok(s1)
    ensures Beside(s, s1)
  {
    match due.lines[0]
    case Pull(from, amount) => MoveBeside(s.books, from, h.vault, due.asset, amount);
    case Fixed(to, net, fee, rate) =>
      var b1, e := Move(s.books, h.vault, to, due.asset, net), Paid(due.task, due.asset, to, net, fee, rate);
      MoveBeside(s.books, h.vault, to, due.asset, net);
      DebitsSnoc(b1.journal, e);
      DebitsSnoc(b1.journal + [e], Gift(due.asset, net));
      DebitsNone(b1.journal);
  }

  lemma CreditBeside(b: Books, user: Address, asset: Address, amount: int)
    ensures var b1 := Credit(b, user, asset, amount);
      TasksStay(b, b1) && (forall u :: O.Named(b1.configs, u) == O.Named(b.configs, u)) && OnlyDebits(b1.journal) == OnlyDebits(b.journal)
  {
    DebitsSnoc(b.journal, Deposited(user, asset, amount));
    DebitsNone(b.journal);
  }

  lemma FinishBeside(s: State, due: Due, s1: State)
    requires Finish(s, due) == Ok(s1)
    ensures Beside(s, s1)
  {
    match due.fin
    case Emit(_) =>
    case CreditUser(user, amount) => CreditBeside(s.books, user, due.asset, amount);
  }

  ghost function AuthorisedIn(h: Host, first: Control): (State, seq<Due>) -> bool {
    (s: State, stack: seq<Due>) => Solvency.Solvent(h.vault, s, stack) && Authorised(h, first, s)
  }

  lemma AuthorisedOnBegin(h: Host, first: Control)
    ensures OnBegin(h, AuthorisedIn(h, first))
  {
    var J := AuthorisedIn(h, first);
    Solvency.SolventInductive(h);
    forall s, stack, op | J(s, stack) && Begin(h, Noted(s, op), op).Ok?
      ensures J(Begin(h, Noted(s, op), op).value.s, stack + [Begin(h, Noted(s, op), op).value.due])
    {
      assert Solvency.SolventIn(h)(s, stack);
      BeginAuthorised(h, first, s, op, Begin(h, Noted(s, op), op).value);
    }
  }

  lemma AuthorisedOnMoves(h: Host, first: Control)
    ensures OnTax(AuthorisedIn(h, first)) && OnTransfer(h, AuthorisedIn(h, first)) && OnFinish(AuthorisedIn(h, first))
  {
    var J := AuthorisedIn(h, first);
    Solvency.SolventInductive(h);
    forall s, stack, due: Due | due.lines != [] && J(s, stack + [due]) && Tax(s, due).Ok?
      ensures J(Tax(s, due).value.0, stack + [Tax(s, due).value.1])
    {
      var s1, due1 := Tax(s, due).value.0, Tax(s, due).value.1;
      assert Solvency.SolventIn(h)(s, stack + [due]);
      TaxBeside(s, due, s1, due1);
      BesideAuthorised(h, first, s, s1);
    }
    forall s, stack, due: Due |
      due.lines != [] && !due.lines[0].Taxed? && J(s, stack + [due]) && Transfer(h, s, due).Ok?
      ensures J(Transfer(h, s, due).value, stack + [RestOf(due)])
    {
      assert Solvency.SolventIn(h)(s, stack + [due]);
      TransferBeside(h, s, due, Transfer(h, s, due).value);
      BesideAuthorised(h, first, s, Transfer(h, s, due).value);
    }
    forall s, stack, due: Due | due.lines == [] && J(s, stack + [due]) && Finish(s, due).Ok?
      ensures J(Finish(s, due).value, stack)
    {
      assert Solvency.SolventIn(h)(s, stack + [due]);
      FinishBeside(s, due, Finish(s, due).value);
      BesideAuthorised(h, first, s, Finish(s, due).value);
    }
  }

  lemma AuthorisedInductive(h: Host, first: Control)
    ensures Inductive(h, AuthorisedIn(h, first))
  {
    AuthorisedOnBegin(h, first);
    AuthorisedOnMoves(h, first);
  }

  lemma WaitBeside(h: Host, s: State, step: Step)
    requires !step.Invoke?
    ensures Beside(s, Next(h, s, step).s)
  {
  }

  lemma AuthorisedWaits(h: Host, first: Control)
    ensures OnWait(h, AuthorisedIn(h, first))
  {
    Solvency.SolventInductive(h);
    var J := AuthorisedIn(h, first);
    forall s, step: Step | !step.Invoke? && J(s, []) ensures J(Next(h, s, step).s, []) {
      assert Solvency.SolventIn(h)(s, []);
      WaitBeside(h, s, step);
      BesideAuthorised(h, first, s, Next(h, s, step).s);
    }
  }

  lemma InitialAuthorised(h: Host, s: State)
    requires Initial(h, s)
    ensures Authorised(h, s.ctl, s)
  {
    forall c ensures A.Matches(s.lanes.accums, s.lanes.log, Anything, c) {
    }
    forall user, c ensures PinAgrees(s.lanes.pinned, [], user, c) {
    }
  }

  lemma AuthorisedAfter(h: Host, s0: State, steps: seq<Step>)
    requires Initial(h, s0)
    ensures Authorised(h, s0.ctl, Run(h, s0, steps).s)
  {
    Solvency.InitialSolvent(h, s0);
    InitialAuthorised(h, s0);
    AuthorisedInductive(h, s0.ctl);
    AuthorisedWaits(h, s0.ctl);
    RunKeeps(h, AuthorisedIn(h, s0.ctl), s0, steps);
  }

  // ---- Main results -------------------------------------------------------

  /** In every run, every call that took effect, at any depth, was warranted by the calls before it. */
  lemma EveryCallWarranted(h: Host, s0: State, steps: seq<Step>)
    requires Initial(h, s0)
    ensures AllWarranted(h, s0.ctl, Run(h, s0, steps).s.notes)
  {
    AuthorisedAfter(h, s0, steps);
  }

  /** What left the accounts is, entry by entry and in order, what the calls asked for. */
  lemma DebitsAreAskedFor(h: Host, s0: State, steps: seq<Step>)
    requires Initial(h, s0)
    ensures var s := Run(h, s0, steps).s; OnlyDebits(s.books.journal) == DebitsOf(s.notes)
  {
    AuthorisedAfter(h, s0, steps);
  }

  /** So are the payments by keys and the totals under commitments, and each accumulator is where the calls left it. */
  lemma TracesAreAskedFor(h: Host, s0: State, steps: seq<Step>)
    requires Initial(h, s0)
    ensures var s := Run(h, s0, steps).s;
      && OnlyTraces(s.lanes.log) == TracesOf(s.notes)
      && forall c :: AccumOf(s.lanes, c) == A.Standing(TracesOf(s.notes), c)
  {
    AuthorisedAfter(h, s0, steps);
    StandsTold(Run(h, s0, steps).s.lanes, Run(h, s0, steps).s.notes);
  }

  /** Administration, keys, rules, pins, orchestrators and tasks are as the calls left them. */
  lemma RecordsAreTold(h: Host, s0: State, steps: seq<Step>)
    requires Initial(h, s0)
    ensures Told(s0.ctl, Run(h, s0, steps).s, Run(h, s0, steps).s.notes)
  {
    AuthorisedAfter(h, s0, steps);
  }

  lemma {:induction false} DebitListed(journal: seq<Entry>, k: nat)
    requires k < |journal| && Debit(journal[k])
    ensures journal[k] in OnlyDebits(journal)
  {
    if k < |journal| - 1 {
      DebitListed(journal[..|journal| - 1], k);
    }
  }

  lemma {:induction false} DebitFrom(notes: Notes, e: Entry) returns (i: nat)
    requires e in DebitsOf(notes)
    ensures i < |notes| && e in DebitOf(notes[..i], notes[i].op)
  {
    var n := |notes| - 1;
    if e in DebitOf(Init(notes), LastOp(notes)) {
      i := n;
    } else {
      i := DebitFrom(Init(notes), e);
      assert notes[..n][..i] == notes[..i];
    }
  }

  /** Call `i` released this step, under the proof its order's commitment demands. */
  predicate ReleasedBy(h: Host, first: Control, notes: Notes, i: nat, id: nat, step: nat, amount: int, commitment: Option<Bytes32>) {
    && i < |notes|
    && var before, op, time := notes[..i], notes[i].op, notes[i].time;
    && FirstOfStep(before, op, id) && StepOf(op) == step && AmountOf(op) == amount
    && 1 <= id <= |OrdersIn(before)| && OrdersIn(before)[id - 1].commitment == commitment
    && match op
       case ReleasePayment(o, _, _, _, _) => OrdersIn(before)[id - 1].orchestrator == o && commitment.None?
       case ReleaseProved(o, _, _, _, gross, payee, n, proof) =>
         OrdersIn(before)[id - 1].orchestrator == o && commitment.Some? && ProofGiven(h, first, before, id, payee, gross, n, proof)
       case ReleaseBatch(o, _, _, _, q, proof) =>
         OrdersIn(before)[id - 1].orchestrator == o && commitment.Some? && BatchGiven(h, first, before, id, q, proof, time)
       case _ => false
  }

  ghost predicate ReleaseBacked(h: Host, first: Control, notes: Notes, id: nat, step: nat, amount: int, commitment: Option<Bytes32>) {
    exists i :: ReleasedBy(h, first, notes, i, id, step, amount, commitment)
  }

  /** Orders are only ever added. */
  lemma {:induction false} OrdersKept(notes: Notes, i: nat, id: nat)
    requires i <= |notes| && 1 <= id <= |OrdersIn(notes[..i])|
    ensures id <= |OrdersIn(notes)| && OrdersIn(notes)[id - 1] == OrdersIn(notes[..i])[id - 1]
    decreases |notes| - i
  {
    if i == |notes| {
      assert notes[..i] == notes;
    } else {
      assert notes[..i + 1] == notes[..i] + [notes[i]];
      OrdersSnoc(notes[..i], notes[i]);
      OrdersKept(notes, i + 1, id);
    }
  }

  /**
   * Every release in the books was made by the task's own orchestrator, and if
   * the task has a commitment, under a pin of its owner and a proof that the
   * verifier then in force accepted for exactly this release.
   */
  lemma ReleasesProven(h: Host, s0: State, steps: seq<Step>, k: nat)
    requires Initial(h, s0)
    requires var b := Run(h, s0, steps).s.books; k < |b.journal| && b.journal[k].Released?
    ensures var s := Run(h, s0, steps).s; var e := s.books.journal[k];
      e.task in s.books.tasks && ReleaseBacked(h, s0.ctl, s.notes, e.task, e.step, e.amount, s.books.tasks[e.task].commitment)
  {
    AuthorisedAfter(h, s0, steps);
    var s := Run(h, s0, steps).s;
    ReleaseProven(h, s0.ctl, s, k);
  }

  lemma PlainReleased(h: Host, first: Control, notes: Notes, i: nat, id: nat, step: nat, amount: int)
    requires i < |notes| && notes[i].op.ReleasePayment? && Released(id, step, amount) in DebitOf(notes[..i], notes[i].op)
    requires Warranted(h, first, notes[..i], notes[i].op, notes[i].time)
    ensures 1 <= id <= |OrdersIn(notes[..i])|
    ensures ReleasedBy(h, first, notes, i, id, step, amount, OrdersIn(notes[..i])[id - 1].commitment)
  {
  }

  lemma ProvedReleased(h: Host, first: Control, notes: Notes, i: nat, id: nat, step: nat, amount: int)
    requires i < |notes| && notes[i].op.ReleaseProved? && Released(id, step, amount) in DebitOf(notes[..i], notes[i].op)
    requires Warranted(h, first, notes[..i], notes[i].op, notes[i].time)
    ensures 1 <= id <= |OrdersIn(notes[..i])|
    ensures ReleasedBy(h, first, notes, i, id, step, amount, OrdersIn(notes[..i])[id - 1].commitment)
  {
  }

  lemma BatchReleased(h: Host, first: Control, notes: Notes, i: nat, id: nat, step: nat, amount: int)
    requires i < |notes| && notes[i].op.ReleaseBatch? && Released(id, step, amount) in DebitOf(notes[..i], notes[i].op)
    requires Warranted(h, first, notes[..i], notes[i].op, notes[i].time)
    ensures 1 <= id <= |OrdersIn(notes[..i])|
    ensures ReleasedBy(h, first, notes, i, id, step, amount, OrdersIn(notes[..i])[id - 1].commitment)
  {
  }

  lemma OnlyReleasesRelease(before: Notes, op: Op, e: Entry)
    requires e.Released? && e in DebitOf(before, op)
    ensures op.ReleasePayment? || op.ReleaseProved? || op.ReleaseBatch?
  {
  }

  /** A call that released a step, and was warranted, had the proof its order demands. */
  lemma WarrantedRelease(h: Host, first: Control, notes: Notes, i: nat, id: nat, step: nat, amount: int)
    requires i < |notes| && Released(id, step, amount) in DebitOf(notes[..i], notes[i].op)
    requires Warranted(h, first, notes[..i], notes[i].op, notes[i].time)
    ensures 1 <= id <= |OrdersIn(notes[..i])|
    ensures ReleasedBy(h, first, notes, i, id, step, amount, OrdersIn(notes[..i])[id - 1].commitment)
  {
    var op := notes[i].op;
    OnlyReleasesRelease(notes[..i], op, Released(id, step, amount));
    if op.ReleasePayment? {
      PlainReleased(h, first, notes, i, id, step, amount);
    } else if op.ReleaseProved? {
      ProvedReleased(h, first, notes, i, id, step, amount);
    } else {
      BatchReleased(h, first, notes, i, id, step, amount);
    }
  }

  lemma OrderStands(b: Books, notes: Notes, i: nat, id: nat)
    requires TasksAgree(b, notes) && i <= |notes| && 1 <= id <= |OrdersIn(notes[..i])|
    ensures id in b.tasks && b.tasks[id].commitment == OrdersIn(notes[..i])[id - 1].commitment
  {
    OrdersKept(notes, i, id);
    assert TaskTold(b, notes, id);
  }

  lemma ReleaseProven(h: Host, first: Control, s: State, k: nat)
    requires Authorised(h, first, s) && k < |s.books.journal| && s.books.journal[k].Released?
    ensures var e := s.books.journal[k];
      e.task in s.books.tasks && ReleaseBacked(h, first, s.notes, e.task, e.step, e.amount, s.books.tasks[e.task].commitment)
  {
    var e := s.books.journal[k];
    var i := FromCall(h, first, s, k);
    ReleaseFrom(h, first, s.books, s.notes, i, e.task, e.step, e.amount);
  }

  lemma ReleaseFrom(h: Host, first: Control, b: Books, notes: Notes, i: nat, id: nat, step: nat, amount: int)
    requires TasksAgree(b, notes) && i < |notes| && Released(id, step, amount) in DebitOf(notes[..i], notes[i].op)
    requires Warranted(h, first, notes[..i], notes[i].op, notes[i].time)
    ensures id in b.tasks && ReleaseBacked(h, first, notes, id, step, amount, b.tasks[id].commitment)
  {
    WarrantedRelease(h, first, notes, i, id, step, amount);
    OrderStands(b, notes, i, id);
  }

  /** The call a debit in the books comes from. */
  lemma FromCall(h: Host, first: Control, s: State, k: nat) returns (i: nat)
    requires Authorised(h, first, s) && k < |s.books.journal| && Debit(s.books.journal[k])
    ensures i < |s.notes| && s.books.journal[k] in DebitOf(s.notes[..i], s.notes[i].op)
    ensures Warranted(h, first, s.notes[..i], s.notes[i].op, s.notes[i].time)
    ensures Told(first, s, s.notes)
  {
    DebitListed(s.books.journal, k);
    i := DebitFrom(s.notes, s.books.journal[k]);
  }

  /** Call `i` spent this from the user's balance: a key the user opened, or a commitment the user had pinned. */
  predicate SpentBy(h: Host, first: Control, notes: Notes, i: nat, user: Address, asset: Address, amount: int) {
    && i < |notes|
    && var before, time := notes[..i], notes[i].time;
    match notes[i].op
    case ReleaseSession(key, payee, gross, chosen) =>
      && KeyPays(h, first, before, time, key, payee, gross, chosen)
      && KeyIn(before, key).value.owner == user && KeyIn(before, key).value.asset == asset && gross == amount
    case ReleaseKeyless(owner, a, c, q, proof, global) =>
      owner == user && a == asset && S.SumAmounts(q.amounts) == amount && KeylessGiven(h, first, before, user, c, q, proof, global, time)
    case _ => false
  }

  /** Every direct spend in the books was made by a key its owner had opened, or under a commitment the debited user had pinned and not unpinned. */
  lemma DirectSpendsBacked(h: Host, s0: State, steps: seq<Step>, k: nat)
    requires Initial(h, s0)
    requires var b := Run(h, s0, steps).s.books; k < |b.journal| && b.journal[k].Direct?
    ensures var s := Run(h, s0, steps).s; var e := s.books.journal[k];
      exists i :: SpentBy(h, s0.ctl, s.notes, i, e.user, e.asset, e.amount)
  {
    AuthorisedAfter(h, s0, steps);
    DirectBacked(h, s0.ctl, Run(h, s0, steps).s, k);
  }

  lemma DirectBacked(h: Host, first: Control, s: State, k: nat)
    requires Authorised(h, first, s) && k < |s.books.journal| && s.books.journal[k].Direct?
    ensures var e := s.books.journal[k]; exists i :: SpentBy(h, first, s.notes, i, e.user, e.asset, e.amount)
  {
    var e := s.books.journal[k];
    var i := FromCall(h, first, s, k);
    assert SpentBy(h, first, s.notes, i, e.user, e.asset, e.amount);
  }

  /** A key that was revoked, and not opened again since, is gone. */
  lemma RevokedIsGone(h: Host, s0: State, steps: seq<Step>, i: nat, key: Address)
    requires Initial(h, s0)
    requires var notes := Run(h, s0, steps).s.notes;
      && i < |notes| && notes[i].op.RevokeSession? && notes[i].op.session == key
      && forall j | i < j < |notes| :: !(notes[j].op.RegisterSession? && notes[j].op.session == key)
    ensures key !in Run(h, s0, steps).s.lanes.sessions
    ensures forall j | i < j < |Run(h, s0, steps).s.notes| ::
      var op := Run(h, s0, steps).s.notes[j].op; !(op.ReleaseSession? && op.session == key)
  {
    AuthorisedAfter(h, s0, steps);
    var s := Run(h, s0, steps).s;
    assert s.notes[..|s.notes|] == s.notes;
    StaysRevoked(s.notes, i, key, |s.notes|);
    KeyTold(s.lanes, s.notes, key);
    forall j | i < j < |s.notes| ensures !(s.notes[j].op.ReleaseSession? && s.notes[j].op.session == key) {
      StaysRevoked(s.notes, i, key, j);
      assert Warranted(h, s0.ctl, s.notes[..j], s.notes[j].op, s.notes[j].time);
    }
  }

  lemma {:induction false} StaysRevoked(notes: Notes, i: nat, key: Address, j: nat)
    requires i < j <= |notes| && notes[i].op.RevokeSession? && notes[i].op.session == key
    requires forall k | i < k < |notes| :: !(notes[k].op.RegisterSession? && notes[k].op.session == key)
    ensures KeyIn(notes[..j], key).None?
  {
    assert Init(notes[..j]) == notes[..j - 1];
    if j - 1 > i {
      StaysRevoked(notes, i, key, j - 1);
    }
  }
}
