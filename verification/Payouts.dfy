/**
 * Whom the vault pays, how much, and what it keeps of it. After every run the
 * payouts made are, each once, the ones the calls asked for; and every fee is the
 * rate in force on the whole amount, rounded down.
 */
module Payouts {
  import opened Base
  import opened Bytes
  import opened VaultState
  import opened BookKeeping
  import opened Vault
  import opened OpShapes
  import opened Execution
  import opened History
  import opened Records
  import opened Warrants
  import E = EntryPoints
  import L = LaneSteps
  import P = Permits
  import S = Signals
  import Solvency
  import U = Authority

  /** A payment to make, before its fee, charged to a task or to a balance. */
  datatype Payout = Payout(payer: Option<nat>, asset: Address, to: Address, gross: int, rate: Rate)

  // ---- What the calls ask for ---------------------------------------------

  /** A batch line each; its rate is the one in force when its turn comes. */
  function LinesOf(payer: Option<nat>, asset: Address, payees: seq<Address>, amounts: seq<I128>): seq<Payout> {
    if payees == [] || amounts == [] then []
    else [Payout(payer, asset, payees[0], amounts[0], InTurn(None))] + LinesOf(payer, asset, payees[1..], amounts[1..])
  }

  function IfPositive(asset: Address, to: Option<Address>, amount: int): seq<Payout> {
    if amount > 0 && to.Some? then [Payout(None, asset, to.value, amount, NoFee)] else []
  }

  /** The payouts a call asks for, given the calls before it. A fee recipient claims whatever has accrued. */
  function AskedBy(before: Notes, op: Op): seq<Payout> {
    match op
    case Withdraw(user, asset, amount) => [Payout(None, asset, user, amount, NoFee)]
    case ReleaseSession(key, payee, amount, _) =>
      if KeyIn(before, key).None? then []
      else [Payout(None, KeyIn(before, key).value.asset, payee, amount, AtRate(FeeConfigIn(before)))]
    case ReleaseKeyless(_, asset, _, q, _, _) => LinesOf(None, asset, q.payees, q.amounts)
    case ReleasePayment(orchestrator, id, _, asset, amount) =>
      if FirstOfStep(before, op, id) then [Payout(Some(id), asset, orchestrator, amount, AtRate(FeeConfigIn(before)))] else []
    case ReleaseProved(_, id, _, asset, amount, payee, _, _) =>
      if FirstOfStep(before, op, id) then [Payout(Some(id), asset, payee, amount, AtRate(FeeConfigIn(before)))] else []
    case ReleaseBatch(_, id, _, asset, q, _) =>
      if FirstOfStep(before, op, id) then LinesOf(Some(id), asset, q.payees, q.amounts) else []
    case ResolveDispute(_, id, refund, payout) =>
      if 1 <= id <= |OrdersIn(before)| then
        var order := OrdersIn(before)[id - 1];
        IfPositive(order.asset, order.user, refund) + IfPositive(order.asset, Some(order.orchestrator), payout)
      else []
    case ClaimFees(recipient, asset) => [Payout(None, asset, recipient, 0, FeesTaken)]
    case _ => []
  }

  function AskedFor(notes: Notes): multiset<Payout> {
    if notes == [] then multiset{} else AskedFor(Init(notes)) + multiset(AskedBy(Init(notes), LastOp(notes)))
  }

  // ---- What is paid, and what is still owed -------------------------------

  /** A batch line's configuration is not known when it is asked for. */
  function Foretold(rate: Rate): Rate {
    if rate.InTurn? then InTurn(None) else rate
  }

  /** The amount asked for; a claim names none. */
  function Asked(net: int, fee: int, rate: Rate): int {
    if rate.FeesTaken? then 0 else net + fee
  }

  function PayoutOf(e: Entry): seq<Payout> {
    if e.Paid? then [Payout(e.payer, e.asset, e.to, Asked(e.net, e.fee, e.rate), Foretold(e.rate))] else []
  }

  /** The payouts made so far. */
  function PaidOut(journal: seq<Entry>): multiset<Payout> {
    if journal == [] then multiset{}
    else
      var e := journal[|journal| - 1];
      PaidOut(journal[..|journal| - 1]) + multiset(PayoutOf(e))
  }

  function OwedLine(payer: Option<nat>, asset: Address, line: Line): seq<Payout> {
    match line
    case Pull(_, _) => []
    case Taxed(to, gross) => [Payout(payer, asset, to, gross, InTurn(None))]
    case Fixed(to, net, fee, rate) => [Payout(payer, asset, to, Asked(net, fee, rate), Foretold(rate))]
  }

  function OwedLines(payer: Option<nat>, asset: Address, lines: seq<Line>): seq<Payout> {
    if lines == [] then [] else OwedLine(payer, asset, lines[0]) + OwedLines(payer, asset, lines[1..])
  }

  function OwedBy(due: Due): seq<Payout> {
    OwedLines(due.task, due.asset, due.lines)
  }

  /** What all calls in flight have still to pay. */
  function Owed(stack: seq<Due>): multiset<Payout> {
    if stack == [] then multiset{}
    else
      var due := stack[|stack| - 1];
      Owed(stack[..|stack| - 1]) + multiset(OwedBy(due))
  }

  lemma OwedPushed(stack: seq<Due>, due: Due)
    ensures Owed(stack + [due]) == Owed(stack) + multiset(OwedBy(due))
  {
    assert (stack + [due])[..|stack|] == stack;
  }

  lemma PaidSnoc(journal: seq<Entry>, e: Entry)
    ensures PaidOut(journal + [e]) == PaidOut(journal) + multiset(PayoutOf(e))
  {
    assert (journal + [e])[..|journal|] == journal;
  }

  lemma EntersPaysNone(b: Books, b1: Books)
    requires U.Enters(b, b1)
    ensures PaidOut(b1.journal) == PaidOut(b.journal)
  {
    if b1.journal != b.journal {
      var n := |b1.journal| - 1;
      assert b1.journal == b.journal + [b1.journal[n]];
      PaidSnoc(b.journal, b1.journal[n]);
    }
  }

  lemma AskedSnoc(notes: Notes, note: Note)
    ensures AskedFor(notes + [note]) == AskedFor(notes) + multiset(AskedBy(notes, note.op))
  {
    InitOf(notes, note);
  }

  // ---- Fees ---------------------------------------------------------------

  /** This was the fee configuration at some time. */
  predicate InForce(notes: Notes, config: Option<FeeConfig>) {
    exists k :: 0 <= k <= |notes| && FeeConfigIn(notes[..k]) == config
  }

  /** The fee is the rate on the gross amount, rounded down; where no rate applies, nothing. */
  predicate Charged(notes: Notes, rate: Rate, gross: int, fee: int) {
    match rate
    case NoFee => fee == 0
    case FeesTaken => fee == 0
    case AtRate(config) => InForce(notes, config) && P.IsFee(config, gross, fee)
    case InTurn(config) => InForce(notes, config) && P.IsFee(config, gross, fee)
  }

  predicate EntryCharged(notes: Notes, e: Entry) {
    e.Paid? ==> Charged(notes, e.rate, e.net + e.fee, e.fee)
  }

  predicate LineCharged(notes: Notes, line: Line) {
    line.Fixed? ==> Charged(notes, line.rate, line.net + line.fee, line.fee)
  }

  predicate LinesCharged(notes: Notes, lines: seq<Line>) {
    forall i | 0 <= i < |lines| :: LineCharged(notes, lines[i])
  }

  predicate JournalCharged(notes: Notes, journal: seq<Entry>) {
    forall i | 0 <= i < |journal| :: EntryCharged(notes, journal[i])
  }

  predicate StackCharged(notes: Notes, stack: seq<Due>) {
    forall i | 0 <= i < |stack| :: LinesCharged(notes, stack[i].lines)
  }

  lemma ChargedPushed(notes: Notes, stack: seq<Due>, due: Due)
    ensures StackCharged(notes, stack + [due]) <==> StackCharged(notes, stack) && LinesCharged(notes, due.lines)
  {
    var all := stack + [due];
    assert all[|stack|] == due && forall i | 0 <= i < |stack| :: all[i] == stack[i];
  }

  lemma ChargedLater(notes: Notes, note: Note, rate: Rate, gross: int, fee: int)
    requires Charged(notes, rate, gross, fee)
    ensures Charged(notes + [note], rate, gross, fee)
  {
    if rate.AtRate? || rate.InTurn? {
      var k :| 0 <= k <= |notes| && FeeConfigIn(notes[..k]) == rate.config;
      assert (notes + [note])[..k] == notes[..k];
    }
  }

  lemma NowInForce(notes: Notes)
    ensures InForce(notes, FeeConfigIn(notes))
  {
    assert notes[..|notes|] == notes;
  }

  lemma LinesLater(notes: Notes, note: Note, lines: seq<Line>)
    requires LinesCharged(notes, lines)
    ensures LinesCharged(notes + [note], lines)
  {
    forall i | 0 <= i < |lines| ensures LineCharged(notes + [note], lines[i]) {
      assert LineCharged(notes, lines[i]);
      if lines[i].Fixed? {
        ChargedLater(notes, note, lines[i].rate, lines[i].net + lines[i].fee, lines[i].fee);
      }
    }
  }

  lemma AllLater(notes: Notes, note: Note, journal: seq<Entry>, stack: seq<Due>)
    requires JournalCharged(notes, journal) && StackCharged(notes, stack)
    ensures JournalCharged(notes + [note], journal) && StackCharged(notes + [note], stack)
  {
    forall i | 0 <= i < |journal| ensures EntryCharged(notes + [note], journal[i]) {
      assert EntryCharged(notes, journal[i]);
      if journal[i].Paid? {
        ChargedLater(notes, note, journal[i].rate, journal[i].net + journal[i].fee, journal[i].fee);
      }
    }
    forall i | 0 <= i < |stack| ensures LinesCharged(notes + [note], stack[i].lines) {
      LinesLater(notes, note, stack[i].lines);
    }
  }

  // ---- Entry points -------------------------------------------------------

  /** What a call is left owing is what it asked for, and the fees it has taken are right. */
  predicate Owes(notes: Notes, op: Op, due: Due) {
    OwedBy(due) == AskedBy(notes, op) && LinesCharged(notes, due.lines)
  }

  lemma OwesNothing(notes: Notes, op: Op)
    requires AskedBy(notes, op) == []
    ensures Owes(notes, op, Nothing)
  {
  }

  lemma OneOwed(payer: Option<nat>, asset: Address, line: Line)
    ensures OwedLines(payer, asset, [line]) == OwedLine(payer, asset, line)
  {
    assert [line][1..] == [];
  }

  lemma OneCharged(s: State, notes: Notes, to: Address, amount: int, fee: int)
    requires s.ctl.feeConfig == FeeConfigIn(notes) && ComputeFee(s.ctl, amount) == Ok(fee)
    ensures LinesCharged(notes, [Fixed(to, amount - fee, fee, AtRate(FeeConfigIn(notes)))])
  {
    P.FeeExact(s.ctl, amount);
    NowInForce(notes);
    assert Charged(notes, AtRate(s.ctl.feeConfig), amount, fee);
  }

  lemma OneAsked(payer: Option<nat>, asset: Address, to: Address, amount: int, fee: int, config: Option<FeeConfig>)
    ensures OwedLines(payer, asset, [Fixed(to, amount - fee, fee, AtRate(config))]) == [Payout(payer, asset, to, amount, AtRate(config))]
  {
    OneOwed(payer, asset, Fixed(to, amount - fee, fee, AtRate(config)));
  }

  /** One payment, whose fee was just computed. */
  lemma OwesOne(s: State, p: Pending, notes: Notes, op: Op, b0: Books, asset: Address, task: Option<nat>, to: Address, amount: int)
    requires s.ctl.feeConfig == FeeConfigIn(notes) && E.PaysOne(s, p, b0, asset, task, to, amount)
    requires AskedBy(notes, op) == [Payout(task, asset, to, amount, AtRate(FeeConfigIn(notes)))]
    ensures Owes(notes, op, p.due)
  {
    var fee := ComputeFee(s.ctl, amount).value;
    OneCharged(s, notes, to, amount, fee);
    OneAsked(task, asset, to, amount, fee, FeeConfigIn(notes));
    assert p.due.lines == [Fixed(to, amount - fee, fee, AtRate(FeeConfigIn(notes)))];
  }

  lemma {:induction false} TaxedOwed(payer: Option<nat>, asset: Address, payees: seq<Address>, amounts: seq<I128>)
    requires |payees| == |amounts|
    ensures OwedLines(payer, asset, TaxedLines(payees, amounts)) == LinesOf(payer, asset, payees, amounts)
  {
    if payees != [] {
      TaxedOwed(payer, asset, payees[1..], amounts[1..]);
      assert TaxedLines(payees, amounts)[1..] == TaxedLines(payees[1..], amounts[1..]);
    }
  }

  lemma OwesLines(s: State, p: Pending, notes: Notes, op: Op, b0: Books, asset: Address, task: Option<nat>, q: S.Batch)
    requires E.PaysBatch(s, p, b0, asset, task, q) && AskedBy(notes, op) == LinesOf(task, asset, q.payees, q.amounts)
    ensures Owes(notes, op, p.due)
  {
    TaxedOwed(task, asset, q.payees, q.amounts);
  }

  lemma WithdrawOwes(h: Host, s: State, user: Address, asset: Address, amount: I128, p: Pending, notes: Notes)
    requires BeginWithdraw(h, s, user, asset, amount) == Ok(p)
    ensures Owes(notes, Withdraw(user, asset, amount), p.due)
  {
    OneOwed(None, asset, Fixed(user, amount, 0, NoFee));
  }

  lemma ClaimOwes(h: Host, s: State, recipient: Address, asset: Address, p: Pending, notes: Notes)
    requires BeginClaimFees(h, s, recipient, asset) == Ok(p)
    ensures Owes(notes, ClaimFees(recipient, asset), p.due)
  {
    OneOwed(None, asset, Fixed(recipient, Fees(s.books, asset), 0, FeesTaken));
  }

  lemma DepositOwes(h: Host, s: State, user: Address, asset: Address, amount: I128, p: Pending, notes: Notes)
    requires BeginDeposit(h, s, user, asset, amount) == Ok(p)
    ensures Owes(notes, Deposit(user, asset, amount), p.due)
  {
    OneOwed(None, asset, Pull(user, amount));
  }

  lemma SessionOwes(h: Host, s: State, key: Address, payee: Address, amount: I128, chosen: Option<Bytes32>, p: Pending, notes: Notes)
    requires LanesAgree(s.lanes, notes) && s.ctl.feeConfig == FeeConfigIn(notes)
    requires BeginReleaseSession(h, s, key, payee, amount, chosen) == Ok(p)
    ensures Owes(notes, ReleaseSession(key, payee, amount, chosen), p.due)
  {
    E.ReleaseSessionShape(h, s, key, payee, amount, chosen, p);
    var info := s.lanes.sessions[key];
    KeyTold(s.lanes, notes, key);
    OwesOne(s, p, notes, ReleaseSession(key, payee, amount, chosen), SpendDirect(s.books, info.user, info.asset, amount), info.asset,
            None, payee, amount);
  }

  lemma KeylessOwes(h: Host, s: State, op: Op, p: Pending, notes: Notes)
    requires op.ReleaseKeyless?
    requires BeginReleaseKeyless(h, s, op.user, op.asset, op.commitment, op.batch, op.proof, op.global) == Ok(p)
    ensures Owes(notes, op, p.due)
  {
    var q := op.batch;
    E.ReleaseKeylessShape(h, s, op.user, op.asset, op.commitment, q, op.proof, op.global, p);
    OwesLines(s, p, notes, op, SpendDirect(s.books, op.user, op.asset, S.SumAmounts(q.amounts)), op.asset, None, q);
  }

  /** Whether this release is the first of its step is on record. */
  lemma FirstRecorded(b: Books, notes: Notes, op: Op, id: nat, step: U64)
    requires TasksAgree(b, notes) && id in b.tasks && !b.tasks[id].completed && Releases(op, id, step) && StepOf(op) == step
    ensures FirstOfStep(notes, op, id) <==> (id, step) !in b.steps
  {
    OrderTold(b, notes, id);
    assert StepTold(b, notes, id, step);
  }

  lemma PlainOwes(h: Host, s: State, orch: Address, id: U64, step: U64, asset: Address, amount: I128, p: Pending, notes: Notes)
    requires TasksAgree(s.books, notes) && s.ctl.feeConfig == FeeConfigIn(notes)
    requires BeginReleasePayment(h, s, orch, id, step, asset, amount) == Ok(p)
    ensures Owes(notes, ReleasePayment(orch, id, step, asset, amount), p.due)
  {
    var op := ReleasePayment(orch, id, step, asset, amount);
    E.ReleasePaymentShape(h, s, orch, id, step, asset, amount, p);
    FirstRecorded(s.books, notes, op, id, step);
    if (id, step) in s.books.steps {
      OwesNothing(notes, op);
    } else {
      OwesOne(s, p, notes, op, RecordRelease(s.books, id, step, amount), asset, Some(id), orch, amount);
    }
  }

  lemma ProvedOwes(h: Host, s: State, orch: Address, id: U64, step: U64, asset: Address, amount: I128, payee: Address, n: Bytes32,
                   proof: Proof, p: Pending, notes: Notes)
    requires TasksAgree(s.books, notes) && s.ctl.feeConfig == FeeConfigIn(notes)
    requires BeginReleaseProved(h, s, orch, id, step, asset, amount, payee, n, proof) == Ok(p)
    ensures Owes(notes, ReleaseProved(orch, id, step, asset, amount, payee, n, proof), p.due)
  {
    var op := ReleaseProved(orch, id, step, asset, amount, payee, n, proof);
    E.ReleaseProvedShape(h, s, orch, id, step, asset, amount, payee, n, proof, p);
    FirstRecorded(s.books, notes, op, id, step);
    if (id, step) in s.books.steps {
      OwesNothing(notes, op);
    } else {
      OwesOne(s, p, notes, op, E.Proved(s.books, id, step, amount, n), asset, Some(id), payee, amount);
    }
  }

  lemma BatchOwes(h: Host, s: State, orch: Address, id: U64, step: U64, asset: Address, q: S.Batch, proof: Proof, p: Pending, notes: Notes)
    requires TasksAgree(s.books, notes) && BeginReleaseBatch(h, s, orch, id, step, asset, q, proof) == Ok(p)
    ensures Owes(notes, ReleaseBatch(orch, id, step, asset, q, proof), p.due)
  {
    var op := ReleaseBatch(orch, id, step, asset, q, proof);
    E.ReleaseBatchShape(h, s, orch, id, step, asset, q, proof, p);
    FirstRecorded(s.books, notes, op, id, step);
    if (id, step) in s.books.steps {
      OwesNothing(notes, op);
    } else {
      OwesLines(s, p, notes, op, RecordRelease(s.books, id, step, S.SumAmounts(q.amounts)), asset, Some(id), q);
    }
  }

  lemma SplitOwed(asset: Address, user: Address, refund: int, orch: Address, payout: int)
    ensures OwedLines(None, asset, LineIfPositive(user, refund) + LineIfPositive(orch, payout))
         == IfPositive(asset, Some(user), refund) + IfPositive(asset, Some(orch), payout)
  {
    OneOwed(None, asset, Fixed(user, refund, 0, NoFee));
    OneOwed(None, asset, Fixed(orch, payout, 0, NoFee));
    var a, b := LineIfPositive(user, refund), LineIfPositive(orch, payout);
    if a == [] {
      assert a + b == b;
    } else {
      assert (a + b)[1..] == b;
    }
  }

  lemma ResolveOwes(h: Host, s: State, resolver: Address, id: U64, refund: I128, payout: I128, p: Pending, notes: Notes)
    requires TasksAgree(s.books, notes) && BeginResolveDispute(h, s, resolver, id, refund, payout) == Ok(p)
    ensures Owes(notes, ResolveDispute(resolver, id, refund, payout), p.due)
  {
    E.ResolveShape(h, s, resolver, id, refund, payout, p);
    OrderTold(s.books, notes, id);
    var t := s.books.tasks[id];
    SplitOwed(t.asset, t.user, refund, t.orchestrator, payout);
  }

  /** Entry points that owe nobody anything. */
  predicate OwesNobody(op: Op) {
    BooksUntouched(op) || Ending(op) || op.RegisterSession? || op.RegisterOrchestrator? || op.UpdateOrchestrator? || op.CreateTask?
    || op.CreateTaskWithPolicy? || op.RaiseDispute? || op.TokenMint? || op.TokenTransfer?
  }

  lemma ConfigOwesNobody(h: Host, s: State, op: Op, p: Pending)
    requires (op.RegisterSession? || op.RegisterOrchestrator? || op.UpdateOrchestrator? || op.CreateTask? || op.CreateTaskWithPolicy?)
      && Begin(h, s, op) == Ok(p)
    ensures p.due == Nothing
  {
  }

  lemma OtherOwesNobody(h: Host, s: State, op: Op, p: Pending)
    requires (op.RaiseDispute? || op.TokenMint? || op.TokenTransfer?) && Begin(h, s, op) == Ok(p)
    ensures p.due == Nothing
  {
  }

  lemma NobodyOwed(h: Host, s: State, op: Op, p: Pending, notes: Notes)
    requires OwesNobody(op) && Begin(h, s, op) == Ok(p)
    ensures Owes(notes, op, p.due)
  {
    if BooksUntouched(op) {
      UntouchedShape(h, s, op, p);
    } else if Ending(op) {
      E.EndingShape(h, s, op, p);
    } else if op.RaiseDispute? || op.TokenMint? || op.TokenTransfer? {
      OtherOwesNobody(h, s, op, p);
    } else {
      ConfigOwesNobody(h, s, op, p);
    }
    AsksNobody(notes, op);
    OwesNothing(notes, op);
  }

  lemma AsksNobody(notes: Notes, op: Op)
    requires OwesNobody(op)
    ensures AskedBy(notes, op) == []
  {
  }

  lemma BeginOwes(h: Host, first: Control, s: State, op: Op, p: Pending, notes: Notes)
    requires Told(first, s, notes) && Begin(h, s, op) == Ok(p)
    ensures Owes(notes, op, p.due)
  {
    if OwesNobody(op) {
      NobodyOwed(h, s, op, p, notes);
    } else if op.Deposit? {
      DepositOwes(h, s, op.user, op.asset, op.amount, p, notes);
    } else if op.Withdraw? {
      WithdrawOwes(h, s, op.user, op.asset, op.amount, p, notes);
    } else if op.ClaimFees? {
      ClaimOwes(h, s, op.recipient, op.asset, p, notes);
    } else if op.ReleaseSession? {
      SessionOwes(h, s, op.session, op.payee, op.amount, op.chosenRule, p, notes);
    } else if op.ReleaseKeyless? {
      KeylessOwes(h, s, op, p, notes);
    } else if op.ReleasePayment? {
      PlainOwes(h, s, op.orchestrator, op.task, op.step, op.asset, op.amount, p, notes);
    } else if op.ReleaseProved? {
      ProvedOwes(h, s, op.orchestrator, op.task, op.step, op.asset, op.amount, op.payee, op.nullifier, op.proof, p, notes);
    } else if op.ReleaseBatch? {
      BatchOwes(h, s, op.orchestrator, op.task, op.step, op.asset, op.batch, op.proof, p, notes);
    } else {
      ResolveOwes(h, s, op.resolver, op.task, op.refund, op.payout, p, notes);
    }
  }

  // ---- Over runs ----------------------------------------------------------

  /** What was asked for is paid or owed, and all fees taken are right. */
  ghost predicate PaidUp(journal: seq<Entry>, notes: Notes, stack: seq<Due>) {
    && PaidOut(journal) + Owed(stack) == AskedFor(notes)
    && JournalCharged(notes, journal) && StackCharged(notes, stack)
  }

  lemma BeginPaidUp(h: Host, first: Control, s: State, op: Op, p: Pending, stack: seq<Due>)
    requires Told(first, s, s.notes) && PaidUp(s.books.journal, s.notes, stack) && Begin(h, Noted(s, op), op) == Ok(p)
    ensures PaidUp(p.s.books.journal, p.s.notes, stack + [p.due])
  {
    var s0 := Noted(s, op);
    U.NotedTold(first, s, op);
    BeginPays(h, first, s0, op, p, s.notes);
    PushPaidUp(s0.books, p.s.books, s.notes, Note(op, s.now), stack, p.due);
  }

  lemma BeginPays(h: Host, first: Control, s: State, op: Op, p: Pending, notes: Notes)
    requires Told(first, s, notes) && Begin(h, s, op) == Ok(p)
    ensures Owes(notes, op, p.due) && U.Enters(s.books, p.s.books) && p.s.notes == s.notes
  {
    BeginOwes(h, first, s, op, p, notes);
    U.DebitStep(h, s, op, p, notes);
    L.ClockKept(h, s, op, p);
  }

  lemma PushPaidUp(b: Books, b1: Books, notes: Notes, note: Note, stack: seq<Due>, due: Due)
    requires PaidUp(b.journal, notes, stack) && Owes(notes, note.op, due) && U.Enters(b, b1)
    ensures PaidUp(b1.journal, notes + [note], stack + [due])
  {
    JournalEntered(b, b1, notes, note, stack);
    OwedPushed(stack, due);
    AskedSnoc(notes, note);
    LinesLater(notes, note, due.lines);
    ChargedPushed(notes + [note], stack, due);
  }

  lemma JournalEntered(b: Books, b1: Books, notes: Notes, note: Note, stack: seq<Due>)
    requires U.Enters(b, b1) && JournalCharged(notes, b.journal) && StackCharged(notes, stack)
    ensures PaidOut(b1.journal) == PaidOut(b.journal)
    ensures JournalCharged(notes + [note], b1.journal) && StackCharged(notes + [note], stack)
  {
    EntersPaysNone(b, b1);
    AllLater(notes, note, b.journal, stack);
    EntersCharged(b, b1, notes + [note]);
  }

  lemma TaxPaidUp(first: Control, s: State, due: Due, s1: State, due1: Due, stack: seq<Due>)
    requires due.lines != [] && Told(first, s, s.notes) && Tax(s, due) == Ok((s1, due1))
    requires PaidUp(s.books.journal, s.notes, stack + [due])
    ensures PaidUp(s1.books.journal, s1.notes, stack + [due1])
  {
    TaxOwes(first, s, due, s1, due1);
    OwedPushed(stack, due);
    OwedPushed(stack, due1);
    ChargedPushed(s.notes, stack, due);
    ChargedPushed(s.notes, stack, due1);
  }

  lemma TaxOwes(first: Control, s: State, due: Due, s1: State, due1: Due)
    requires due.lines != [] && Told(first, s, s.notes) && Tax(s, due) == Ok((s1, due1))
    ensures s1.books.journal == s.books.journal && s1.notes == s.notes && OwedBy(due1) == OwedBy(due)
    ensures LinesCharged(s.notes, due.lines) ==> LinesCharged(s.notes, due1.lines)
  {
    var line, rest := due.lines[0], due.lines[1..];
    assert due.lines == [line] + rest;
    if line.Taxed? {
      P.FeeExact(s.ctl, line.gross);
      NowInForce(s.notes);
      assert due1.lines[1..] == rest;
      if LinesCharged(s.notes, due.lines) {
        forall i | 0 <= i < |due1.lines| ensures LineCharged(s.notes, due1.lines[i]) {
          assert i > 0 ==> due1.lines[i] == due.lines[i] && LineCharged(s.notes, due.lines[i]);
        }
      }
    }
  }

  /** What a transfer enters in the journal. */
  function Receipt(h: Host, due: Due): seq<Entry> {
    if due.lines == [] || !due.lines[0].Fixed? then []
    else
      var line := due.lines[0];
      [Paid(due.task, due.asset, line.to, line.net, line.fee, line.rate)]
      + if line.to == h.vault && line.net >= 0 then [Gift(due.asset, line.net)] else []
  }

  lemma TransferEnters(h: Host, s: State, due: Due, s1: State)
    requires due.lines != [] && !due.lines[0].Taxed? && Transfer(h, s, due) == Ok(s1)
    ensures s1.notes == s.notes && s1.books.journal == s.books.journal + Receipt(h, due)
  {
    match due.lines[0]
    case Pull(from, amount) => U.MovesTokens(s.books, from, h.vault, due.asset, amount);
    case Fixed(to, net, fee, rate) => U.MovesTokens(s.books, h.vault, to, due.asset, net);
  }

  lemma OwedFirst(due: Due)
    requires due.lines != []
    ensures OwedBy(due) == OwedLine(due.task, due.asset, due.lines[0]) + OwedBy(RestOf(due))
  {
  }

  /** A payout, and a gift if it went to the vault itself. */
  lemma PaidAndGiven(journal: seq<Entry>, e: Entry, gift: Entry, journal1: seq<Entry>)
    requires gift.Gift? && journal1 == journal + [e] + [gift]
    ensures PaidOut(journal1) == PaidOut(journal) + multiset(PayoutOf(e))
  {
    PaidSnoc(journal, e);
    PaidSnoc(journal + [e], gift);
    assert multiset(PayoutOf(gift)) == multiset{};
  }

  /** The line paid joins the payouts. */
  lemma ReceiptPays(h: Host, journal: seq<Entry>, due: Due, journal1: seq<Entry>)
    requires due.lines != [] && !due.lines[0].Taxed? && journal1 == journal + Receipt(h, due)
    ensures PaidOut(journal1) == PaidOut(journal) + multiset(OwedLine(due.task, due.asset, due.lines[0]))
  {
    match due.lines[0]
    case Pull(_, _) => assert multiset(OwedLine(due.task, due.asset, due.lines[0])) == multiset{} && journal1 == journal;
    case Fixed(to, net, fee, rate) =>
      var e := Paid(due.task, due.asset, to, net, fee, rate);
      assert OwedLine(due.task, due.asset, due.lines[0]) == PayoutOf(e);
      if to == h.vault && net >= 0 {
        assert journal1 == journal + [e] + [Gift(due.asset, net)];
        PaidAndGiven(journal, e, Gift(due.asset, net), journal1);
      } else {
        assert journal1 == journal + [e];
        PaidSnoc(journal, e);
      }
  }

  lemma ReceiptCharged(h: Host, journal: seq<Entry>, notes: Notes, due: Due)
    requires due.lines != [] && JournalCharged(notes, journal) && LineCharged(notes, due.lines[0])
    ensures JournalCharged(notes, journal + Receipt(h, due))
  {
    var r := Receipt(h, due);
    forall i | 0 <= i < |journal + r| ensures EntryCharged(notes, (journal + r)[i]) {
      if i < |journal| {
        assert EntryCharged(notes, journal[i]);
      }
    }
  }

  lemma RestCharged(notes: Notes, due: Due)
    requires due.lines != [] && LinesCharged(notes, due.lines)
    ensures LineCharged(notes, due.lines[0]) && LinesCharged(notes, RestOf(due).lines)
  {
    forall i | 0 <= i < |due.lines| - 1 ensures LineCharged(notes, due.lines[1..][i]) {
      assert LineCharged(notes, due.lines[i + 1]);
    }
  }

  lemma ReceiptPaidUp(h: Host, journal: seq<Entry>, notes: Notes, stack: seq<Due>, due: Due)
    requires due.lines != [] && !due.lines[0].Taxed? && PaidUp(journal, notes, stack + [due])
    ensures PaidUp(journal + Receipt(h, due), notes, stack + [RestOf(due)])
  {
    assert PaidOut(journal + Receipt(h, due)) + Owed(stack + [RestOf(due)]) == AskedFor(notes) by {
      OwedPushed(stack, due);
      OwedPushed(stack, RestOf(due));
      OwedFirst(due);
      ReceiptPays(h, journal, due, journal + Receipt(h, due));
    }
    ChargedPushed(notes, stack, due);
    ChargedPushed(notes, stack, RestOf(due));
    RestCharged(notes, due);
    ReceiptCharged(h, journal, notes, due);
  }

  lemma TransferPaidUp(h: Host, s: State, due: Due, s1: State, stack: seq<Due>)
    requires due.lines != [] && !due.lines[0].Taxed? && Transfer(h, s, due) == Ok(s1)
    requires PaidUp(s.books.journal, s.notes, stack + [due])
    ensures PaidUp(s1.books.journal, s1.notes, stack + [RestOf(due)])
  {
    TransferEnters(h, s, due, s1);
    ReceiptPaidUp(h, s.books.journal, s.notes, stack, due);
  }

  lemma FinishEnters(s: State, due: Due, s1: State)
    requires due.lines == [] && Finish(s, due) == Ok(s1)
    ensures s1.notes == s.notes && U.Enters(s.books, s1.books)
  {
  }

  lemma FinishPaidUp(s: State, due: Due, s1: State, stack: seq<Due>)
    requires due.lines == [] && Finish(s, due) == Ok(s1) && PaidUp(s.books.journal, s.notes, stack + [due])
    ensures PaidUp(s1.books.journal, s1.notes, stack)
  {
    FinishEnters(s, due, s1);
    OwedPushed(stack, due);
    ChargedPushed(s.notes, stack, due);
    EntersPaysNone(s.books, s1.books);
    EntersCharged(s.books, s1.books, s.notes);
  }

  lemma EntersCharged(b: Books, b1: Books, notes: Notes)
    requires U.Enters(b, b1) && JournalCharged(notes, b.journal)
    ensures JournalCharged(notes, b1.journal)
  {
    forall i | 0 <= i < |b1.journal| ensures EntryCharged(notes, b1.journal[i]) {
      if i < |b.journal| {
        assert EntryCharged(notes, b.journal[i]) && b1.journal[i] == b.journal[i];
      }
    }
  }

  ghost function PaidIn(h: Host, first: Control): (State, seq<Due>) -> bool {
    (s: State, stack: seq<Due>) => U.AuthorisedIn(h, first)(s, stack) && PaidUp(s.books.journal, s.notes, stack)
  }

  lemma AuthorisedTold(h: Host, first: Control, s: State, stack: seq<Due>)
    requires U.AuthorisedIn(h, first)(s, stack)
    ensures Told(first, s, s.notes)
  {
  }

  lemma PaidOnBegin(h: Host, first: Control)
    ensures OnBegin(h, PaidIn(h, first))
  {
    var A, J := U.AuthorisedIn(h, first), PaidIn(h, first);
    U.AuthorisedInductive(h, first);
    forall s, stack, op | J(s, stack) && Begin(h, Noted(s, op), op).Ok?
      ensures J(Begin(h, Noted(s, op), op).value.s, stack + [Begin(h, Noted(s, op), op).value.due])
    {
      assert A(s, stack);
      AuthorisedTold(h, first, s, stack);
      BeginPaidUp(h, first, s, op, Begin(h, Noted(s, op), op).value, stack);
    }
  }

  lemma PaidOnMoves(h: Host, first: Control)
    ensures OnTax(PaidIn(h, first)) && OnTransfer(h, PaidIn(h, first)) && OnFinish(PaidIn(h, first))
  {
    var A, J := U.AuthorisedIn(h, first), PaidIn(h, first);
    U.AuthorisedInductive(h, first);
    forall s, stack, due: Due | due.lines != [] && J(s, stack + [due]) && Tax(s, due).Ok?
      ensures J(Tax(s, due).value.0, stack + [Tax(s, due).value.1])
    {
      assert A(s, stack + [due]);
      AuthorisedTold(h, first, s, stack + [due]);
      TaxPaidUp(first, s, due, Tax(s, due).value.0, Tax(s, due).value.1, stack);
    }
    forall s, stack, due: Due |
      due.lines != [] && !due.lines[0].Taxed? && J(s, stack + [due]) && Transfer(h, s, due).Ok?
      ensures J(Transfer(h, s, due).value, stack + [RestOf(due)])
    {
      assert A(s, stack + [due]);
      TransferPaidUp(h, s, due, Transfer(h, s, due).value, stack);
    }
    forall s, stack, due: Due | due.lines == [] && J(s, stack + [due]) && Finish(s, due).Ok?
      ensures J(Finish(s, due).value, stack)
    {
      assert A(s, stack + [due]);
      FinishPaidUp(s, due, Finish(s, due).value, stack);
    }
  }

  lemma PaidInductive(h: Host, first: Control)
    ensures Inductive(h, PaidIn(h, first))
  {
    PaidOnBegin(h, first);
    PaidOnMoves(h, first);
  }

  lemma WaitStill(h: Host, s: State, step: Step)
    requires !step.Invoke?
    ensures Next(h, s, step).s.books == s.books && Next(h, s, step).s.notes == s.notes
  {
  }

  lemma PaidWaits(h: Host, first: Control)
    ensures OnWait(h, PaidIn(h, first))
  {
    var A, J := U.AuthorisedIn(h, first), PaidIn(h, first);
    U.AuthorisedWaits(h, first);
    forall s, step: Step | !step.Invoke? && J(s, []) ensures J(Next(h, s, step).s, []) {
      assert A(s, []);
      assert A(Next(h, s, step).s, []);
      WaitStill(h, s, step);
    }
  }

  lemma NothingPaidYet()
    ensures PaidUp([], [], [])
  {
  }

  lemma PaidAfter(h: Host, s0: State, steps: seq<Step>)
    requires Initial(h, s0)
    ensures var s := Run(h, s0, steps).s; PaidUp(s.books.journal, s.notes, [])
  {
    Solvency.InitialSolvent(h, s0);
    U.InitialAuthorised(h, s0);
    assert Solvency.SolventIn(h)(s0, []);
    PaidInductive(h, s0.ctl);
    PaidWaits(h, s0.ctl);
    NothingPaidYet();
    assert U.AuthorisedIn(h, s0.ctl)(s0, []);
    RunKeeps(h, PaidIn(h, s0.ctl), s0, steps);
  }

  // ---- Main results -------------------------------------------------------

  /** After every run, the payouts made are exactly those the calls asked for: each once, to whom, of what and on whose account. */
  lemma PayoutsAreAskedFor(h: Host, s0: State, steps: seq<Step>)
    requires Initial(h, s0)
    ensures var s := Run(h, s0, steps).s; PaidOut(s.books.journal) == AskedFor(s.notes)
  {
    PaidAfter(h, s0, steps);
  }

  /** What a payout's fee is, spelt out. */
  predicate FeeIsRate(notes: Notes, e: Entry)
    requires e.Paid?
  {
    var gross := e.net + e.fee;
    if e.rate.NoFee? || e.rate.FeesTaken? then e.fee == 0
    else
      var config := e.rate.config;
      && (exists k :: 0 <= k <= |notes| && FeeConfigIn(notes[..k]) == config)
      && if config.Some? && config.value.bps > 0 && config.value.recipient.Some?
         then 10_000 * e.fee <= gross * config.value.bps < 10_000 * (e.fee + 1)
         else e.fee == 0
  }

  lemma ChargedIs(notes: Notes, journal: seq<Entry>, k: nat)
    requires JournalCharged(notes, journal) && k < |journal| && journal[k].Paid?
    ensures FeeIsRate(notes, journal[k])
  {
    assert EntryCharged(notes, journal[k]);
  }

  /**
   * And of every payout the vault kept the configured rate, in hundredths of a
   * percent of the whole amount and rounded down, if a rate and a recipient were
   * set, and nothing otherwise.
   */
  lemma FeesAreRates(h: Host, s0: State, steps: seq<Step>, k: nat)
    requires Initial(h, s0)
    requires var journal := Run(h, s0, steps).s.books.journal; k < |journal| && journal[k].Paid?
    ensures FeeIsRate(Run(h, s0, steps).s.notes, Run(h, s0, steps).s.books.journal[k])
  {
    PaidAfter(h, s0, steps);
    ChargedIs(Run(h, s0, steps).s.notes, Run(h, s0, steps).s.books.journal, k);
  }

  lemma {:induction false} PayoutListed(journal: seq<Entry>, k: nat)
    requires k < |journal| && journal[k].Paid?
    ensures PayoutOf(journal[k])[0] in PaidOut(journal)
  {
    var n := |journal| - 1;
    if k < n {
      PayoutListed(journal[..n], k);
    } else {
      assert PayoutOf(journal[k])[0] in multiset(PayoutOf(journal[k]));
    }
  }

  lemma {:induction false} AskedFrom(notes: Notes, x: Payout) returns (i: nat)
    requires x in AskedFor(notes)
    ensures i < |notes| && x in AskedBy(notes[..i], notes[i].op)
  {
    if x in multiset(AskedBy(Init(notes), LastOp(notes))) {
      i := |notes| - 1;
    } else {
      i := AskedFrom(Init(notes), x);
      assert Init(notes)[..i] == notes[..i];
    }
  }

  /** Each payout was asked for by a call: a single release at the rate in force when that call began. */
  lemma PayoutHasCall(h: Host, s0: State, steps: seq<Step>, k: nat) returns (i: nat)
    requires Initial(h, s0)
    requires var journal := Run(h, s0, steps).s.books.journal; k < |journal| && journal[k].Paid?
    ensures var s := Run(h, s0, steps).s; var e := s.books.journal[k];
      i < |s.notes| && Payout(e.payer, e.asset, e.to, Asked(e.net, e.fee, e.rate), Foretold(e.rate)) in AskedBy(s.notes[..i], s.notes[i].op)
  {
    PayoutsAreAskedFor(h, s0, steps);
    PayoutListed(Run(h, s0, steps).s.books.journal, k);
    i := AskedFrom(Run(h, s0, steps).s.notes, PayoutOf(Run(h, s0, steps).s.books.journal[k])[0]);
  }
}
