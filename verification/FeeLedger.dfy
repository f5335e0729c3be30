/**
 * Where the fees go. At every moment of every run, with any number of calls in
 * flight, what has accrued of an asset is what the payouts had withheld, less what
 * the fee recipients have claimed.
 */
module FeeLedger {
  import opened Base
  import opened Bytes
  import opened VaultState
  import opened BookKeeping
  import opened Vault
  import opened OpShapes
  import opened Execution
  import opened Warrants
  import E = EntryPoints
  import P = Permits
  import S = Signals
  import Solvency
  import T = Payouts
  import U = Authority

  // ---- Fees kept and claimed ----------------------------------------------

  /** What the payouts of an asset had withheld. */
  function FeesKept(journal: seq<Entry>, asset: Address): int {
    if journal == [] then 0
    else
      var e := journal[|journal| - 1];
      FeesKept(journal[..|journal| - 1], asset) + if e.Paid? && e.asset == asset then e.fee else 0
  }

  /** What fee recipients were paid of it. */
  function FeesClaimed(journal: seq<Entry>, asset: Address): int {
    if journal == [] then 0
    else
      var e := journal[|journal| - 1];
      FeesClaimed(journal[..|journal| - 1], asset) + if e.Paid? && e.rate.FeesTaken? && e.asset == asset then e.net else 0
  }

  /** What a line still to be paid has withheld already, less what it pays of fees. */
  function LineFee(line: Line): int {
    match line
    case Fixed(_, net, fee, rate) => fee - if rate.FeesTaken? then net else 0
    case _ => 0
  }

  function LinesFee(lines: seq<Line>): int {
    if lines == [] then 0 else LineFee(lines[0]) + LinesFee(lines[1..])
  }

  function DueFee(due: Due, asset: Address): int {
    if due.asset == asset then LinesFee(due.lines) else 0
  }

  function StackFee(stack: seq<Due>, asset: Address): int {
    if stack == [] then 0 else StackFee(stack[..|stack| - 1], asset) + DueFee(stack[|stack| - 1], asset)
  }

  predicate Even(fees: map<Address, int>, journal: seq<Entry>, stack: seq<Due>, asset: Address) {
    FeeIn(fees, asset) == FeesKept(journal, asset) - FeesClaimed(journal, asset) + StackFee(stack, asset)
  }

  lemma Pushed(stack: seq<Due>, due: Due, asset: Address)
    ensures StackFee(stack + [due], asset) == StackFee(stack, asset) + DueFee(due, asset)
  {
    assert (stack + [due])[..|stack|] == stack;
  }

  lemma Entered(journal: seq<Entry>, e: Entry, asset: Address)
    ensures var add := if e.Paid? && e.asset == asset then e.fee else 0;
      FeesKept(journal + [e], asset) == FeesKept(journal, asset) + add
    ensures var add := if e.Paid? && e.rate.FeesTaken? && e.asset == asset then e.net else 0;
      FeesClaimed(journal + [e], asset) == FeesClaimed(journal, asset) + add
  {
    assert (journal + [e])[..|journal|] == journal;
  }

  lemma EntersNoFee(b: Books, b1: Books, asset: Address)
    requires U.Enters(b, b1)
    ensures FeesKept(b1.journal, asset) == FeesKept(b.journal, asset) && FeesClaimed(b1.journal, asset) == FeesClaimed(b.journal, asset)
  {
    if b1.journal != b.journal {
      var n := |b1.journal| - 1;
      assert b1.journal == b.journal + [b1.journal[n]];
      Entered(b.journal, b1.journal[n], asset);
    }
  }

  // ---- Entry points -------------------------------------------------------

  /** The fees grow by what the lines to pay have withheld. */
  ghost predicate Moves(b: Books, b1: Books, due: Due) {
    forall asset :: Fees(b1, asset) == Fees(b, asset) + DueFee(due, asset)
  }

  lemma OneFee(asset: Address, task: Option<nat>, line: Line, fin: Fin, a: Address)
    ensures DueFee(Due(asset, task, [line], fin), a) == if asset == a then LineFee(line) else 0
  {
    assert [line][1..] == [];
    assert LinesFee([line]) == LineFee(line) + LinesFee([line][1..]);
  }

  lemma NoFees(b: Books, b1: Books, due: Due)
    requires b1.fees == b.fees && forall i | 0 <= i < |due.lines| :: LineFee(due.lines[i]) == 0
    ensures Moves(b, b1, due)
  {
    NoLineFees(due.lines);
  }

  lemma {:induction false} NoLineFees(lines: seq<Line>)
    requires forall i | 0 <= i < |lines| :: LineFee(lines[i]) == 0
    ensures LinesFee(lines) == 0
  {
    if lines != [] {
      NoLineFees(lines[1..]);
    }
  }

  lemma AccrueAdds(b: Books, ctl: Control, asset: Address, amount: int, fee: int, b1: Books)
    requires ComputeFee(ctl, amount) == Ok(fee) && fee >= 0 && Accrue(b, ctl, asset, fee) == Ok(b1)
    ensures forall a :: Fees(b1, a) == Fees(b, a) + if a == asset then fee else 0
    ensures b1.journal == b.journal
  {
    P.FeeExact(ctl, amount);
  }

  lemma PaysOneMoves(s: State, p: Pending, b0: Books, asset: Address, task: Option<nat>, to: Address, amount: int)
    requires E.CtlOk(s.ctl) && amount > 0 && E.PaysOne(s, p, b0, asset, task, to, amount) && b0.fees == s.books.fees
    ensures Moves(s.books, p.s.books, p.due)
  {
    var fee := ComputeFee(s.ctl, amount).value;
    E.FeeBounds(s.ctl, amount);
    AccrueAdds(b0, s.ctl, asset, amount, fee, p.s.books);
    forall a ensures Fees(p.s.books, a) == Fees(s.books, a) + DueFee(p.due, a) {
      OneFee(asset, task, Fixed(to, amount - fee, fee, AtRate(s.ctl.feeConfig)), p.due.fin, a);
    }
  }

  lemma PaysBatchMoves(s: State, p: Pending, b0: Books, asset: Address, task: Option<nat>, q: S.Batch)
    requires E.PaysBatch(s, p, b0, asset, task, q) && b0.fees == s.books.fees
    ensures Moves(s.books, p.s.books, p.due)
  {
    NoFees(s.books, p.s.books, p.due);
  }

  lemma SessionMoves(h: Host, s: State, op: Op, p: Pending)
    requires E.CtlOk(s.ctl) && op.ReleaseSession? && Begin(h, s, op) == Ok(p)
    ensures Moves(s.books, p.s.books, p.due)
  {
    E.ReleaseSessionShape(h, s, op.session, op.payee, op.amount, op.chosenRule, p);
    var info := s.lanes.sessions[op.session];
    PaysOneMoves(s, p, SpendDirect(s.books, info.user, info.asset, op.amount), info.asset, None, op.payee, op.amount);
  }

  lemma PlainMoves(h: Host, s: State, op: Op, p: Pending)
    requires E.CtlOk(s.ctl) && op.ReleasePayment? && Begin(h, s, op) == Ok(p)
    ensures Moves(s.books, p.s.books, p.due)
  {
    E.ReleasePaymentShape(h, s, op.orchestrator, op.task, op.step, op.asset, op.amount, p);
    if (op.task, op.step) in s.books.steps {
      NoFees(s.books, p.s.books, p.due);
    } else {
      PaysOneMoves(s, p, RecordRelease(s.books, op.task, op.step, op.amount), op.asset, Some(op.task), op.orchestrator, op.amount);
    }
  }

  lemma ProvedMoves(h: Host, s: State, op: Op, p: Pending)
    requires E.CtlOk(s.ctl) && op.ReleaseProved? && Begin(h, s, op) == Ok(p)
    ensures Moves(s.books, p.s.books, p.due)
  {
    E.ReleaseProvedShape(h, s, op.orchestrator, op.task, op.step, op.asset, op.amount, op.payee, op.nullifier, op.proof, p);
    if (op.task, op.step) in s.books.steps {
      NoFees(s.books, p.s.books, p.due);
    } else {
      PaysOneMoves(s, p, E.Proved(s.books, op.task, op.step, op.amount, op.nullifier), op.asset, Some(op.task), op.payee, op.amount);
    }
  }

  lemma BatchMoves(h: Host, s: State, op: Op, p: Pending)
    requires op.ReleaseBatch? && Begin(h, s, op) == Ok(p)
    ensures Moves(s.books, p.s.books, p.due)
  {
    var q := op.batch;
    E.ReleaseBatchShape(h, s, op.orchestrator, op.task, op.step, op.asset, q, op.proof, p);
    if (op.task, op.step) in s.books.steps {
      NoFees(s.books, p.s.books, p.due);
    } else {
      PaysBatchMoves(s, p, RecordRelease(s.books, op.task, op.step, S.SumAmounts(q.amounts)), op.asset, Some(op.task), q);
    }
  }

  lemma KeylessMoves(h: Host, s: State, op: Op, p: Pending)
    requires op.ReleaseKeyless? && Begin(h, s, op) == Ok(p)
    ensures Moves(s.books, p.s.books, p.due)
  {
    var q := op.batch;
    E.ReleaseKeylessShape(h, s, op.user, op.asset, op.commitment, q, op.proof, op.global, p);
    PaysBatchMoves(s, p, SpendDirect(s.books, op.user, op.asset, S.SumAmounts(q.amounts)), op.asset, None, q);
  }

  lemma ClaimMoves(h: Host, s: State, op: Op, p: Pending)
    requires op.ClaimFees? && Begin(h, s, op) == Ok(p)
    ensures Moves(s.books, p.s.books, p.due)
  {
    forall a ensures Fees(p.s.books, a) == Fees(s.books, a) + DueFee(p.due, a) {
      OneFee(op.asset, None, Fixed(op.recipient, Fees(s.books, op.asset), 0, FeesTaken), p.due.fin, a);
    }
  }

  lemma ResolveMoves(h: Host, s: State, op: Op, p: Pending)
    requires op.ResolveDispute? && Begin(h, s, op) == Ok(p)
    ensures Moves(s.books, p.s.books, p.due)
  {
    E.ResolveShape(h, s, op.resolver, op.task, op.refund, op.payout, p);
    NoFees(s.books, p.s.books, p.due);
  }

  lemma OwnMoneyMoves(h: Host, s: State, op: Op, p: Pending)
    requires (op.Deposit? || op.Withdraw?) && Begin(h, s, op) == Ok(p)
    ensures Moves(s.books, p.s.books, p.due)
  {
    NoFees(s.books, p.s.books, p.due);
  }

  lemma ConfigKeepsFees(h: Host, s: State, op: Op, p: Pending)
    requires (op.RegisterSession? || op.RegisterOrchestrator? || op.UpdateOrchestrator? || op.CreateTask? || op.CreateTaskWithPolicy?)
      && Begin(h, s, op) == Ok(p)
    ensures p.s.books.fees == s.books.fees && p.due == Nothing
  {
  }

  lemma DisputeKeepsFees(h: Host, s: State, user: Address, id: U64, p: Pending)
    requires BeginRaiseDispute(h, s, user, id) == Ok(p)
    ensures p.s.books.fees == s.books.fees && p.due == Nothing
  {
  }

  lemma MintKeepsFees(h: Host, s: State, to: Address, asset: Address, amount: nat, p: Pending)
    requires BeginMint(h, s, to, asset, amount) == Ok(p)
    ensures p.s.books.fees == s.books.fees && p.due == Nothing
  {
  }

  lemma TransferOutside(h: Host, s: State, from: Address, to: Address, asset: Address, amount: nat, p: Pending)
    requires BeginTransfer(h, s, from, to, asset, amount) == Ok(p)
    ensures p.s.books.fees == s.books.fees && p.due == Nothing
  {
    U.MovesTokens(s.books, from, to, asset, amount);
  }

  lemma NobodyPaid(h: Host, s: State, op: Op, p: Pending)
    requires T.OwesNobody(op) && Begin(h, s, op) == Ok(p)
    ensures Moves(s.books, p.s.books, p.due)
  {
    if BooksUntouched(op) {
      UntouchedShape(h, s, op, p);
    } else if Ending(op) {
      E.EndingShape(h, s, op, p);
    } else if op.RaiseDispute? {
      DisputeKeepsFees(h, s, op.user, op.task, p);
    } else if op.TokenMint? {
      MintKeepsFees(h, s, op.to, op.asset, op.quantity, p);
    } else if op.TokenTransfer? {
      TransferOutside(h, s, op.from, op.to, op.asset, op.quantity, p);
    } else {
      ConfigKeepsFees(h, s, op, p);
    }
    NoFees(s.books, p.s.books, p.due);
  }

  lemma BeginMoves(h: Host, s: State, op: Op, p: Pending)
    requires E.CtlOk(s.ctl) && Begin(h, s, op) == Ok(p)
    ensures Moves(s.books, p.s.books, p.due)
  {
    if T.OwesNobody(op) {
      NobodyPaid(h, s, op, p);
    } else if op.Deposit? || op.Withdraw? {
      OwnMoneyMoves(h, s, op, p);
    } else if op.ReleaseSession? {
      SessionMoves(h, s, op, p);
    } else if op.ReleaseKeyless? {
      KeylessMoves(h, s, op, p);
    } else if op.ReleasePayment? {
      PlainMoves(h, s, op, p);
    } else if op.ReleaseProved? {
      ProvedMoves(h, s, op, p);
    } else if op.ReleaseBatch? {
      BatchMoves(h, s, op, p);
    } else if op.ClaimFees? {
      ClaimMoves(h, s, op, p);
    } else {
      ResolveMoves(h, s, op, p);
    }
  }

  // ---- Over runs ----------------------------------------------------------

  ghost predicate AllEven(b: Books, stack: seq<Due>) {
    match b
    case Books(_, _, _, _, _, _, _, _, fees, _, journal, _) => forall asset :: Even(fees, journal, stack, asset)
  }

  lemma BeginEven(h: Host, first: Control, s: State, op: Op, p: Pending, stack: seq<Due>)
    requires E.CtlOk(s.ctl) && Told(first, s, s.notes) && AllEven(s.books, stack) && Begin(h, Noted(s, op), op) == Ok(p)
    ensures AllEven(p.s.books, stack + [p.due])
  {
    var s0 := Noted(s, op);
    U.NotedTold(first, s, op);
    T.BeginPays(h, first, s0, op, p, s.notes);
    BeginMoves(h, s0, op, p);
    PushEven(s.books, p.s.books, stack, p.due);
  }

  lemma PushEven(b: Books, b1: Books, stack: seq<Due>, due: Due)
    requires AllEven(b, stack) && U.Enters(b, b1) && Moves(b, b1, due)
    ensures AllEven(b1, stack + [due])
  {
    forall asset ensures Even(b1.fees, b1.journal, stack + [due], asset) {
      assert Even(b.fees, b.journal, stack, asset);
      assert Fees(b1, asset) == Fees(b, asset) + DueFee(due, asset);
      EntersNoFee(b, b1, asset);
      Pushed(stack, due, asset);
    }
  }

  lemma TaxEven(s: State, due: Due, s1: State, due1: Due, stack: seq<Due>)
    requires E.CtlOk(s.ctl) && due.lines != [] && (due.lines[0].Taxed? ==> due.lines[0].gross > 0)
    requires Tax(s, due) == Ok((s1, due1)) && AllEven(s.books, stack + [due])
    ensures AllEven(s1.books, stack + [due1])
  {
    if due.lines[0].Taxed? {
      var gross := due.lines[0].gross;
      var fee := ComputeFee(s.ctl, gross).value;
      E.FeeBounds(s.ctl, gross);
      AccrueAdds(s.books, s.ctl, due.asset, gross, fee, s1.books);
      TaxedFee(due, due1, fee);
      SwapEven(s.books, s1.books, stack, due, due1, fee);
    }
  }

  lemma TaxedFee(due: Due, due1: Due, fee: int)
    requires due.lines != [] && due.lines[0].Taxed? && due1.lines != [] && due1.lines[1..] == due.lines[1..]
    requires due1.lines[0].Fixed? && due1.lines[0].fee == fee && due1.lines[0].rate.InTurn?
    ensures LinesFee(due1.lines) == LinesFee(due.lines) + fee
  {
  }

  lemma SwapEven(b: Books, b1: Books, stack: seq<Due>, due: Due, due1: Due, fee: int)
    requires AllEven(b, stack + [due]) && b1.journal == b.journal && due1.asset == due.asset
    requires forall a :: Fees(b1, a) == Fees(b, a) + if a == due.asset then fee else 0
    requires LinesFee(due1.lines) == LinesFee(due.lines) + fee
    ensures AllEven(b1, stack + [due1])
  {
    forall asset ensures Even(b1.fees, b1.journal, stack + [due1], asset) {
      assert Even(b.fees, b.journal, stack + [due], asset);
      assert Fees(b1, asset) == Fees(b, asset) + if asset == due.asset then fee else 0;
      Pushed(stack, due, asset);
      Pushed(stack, due1, asset);
    }
  }

  lemma ReceiptFee(h: Host, journal: seq<Entry>, due: Due, asset: Address, journal1: seq<Entry>)
    requires due.lines != [] && !due.lines[0].Taxed? && journal1 == journal + T.Receipt(h, due)
    ensures FeesKept(journal1, asset) - FeesClaimed(journal1, asset)
         == FeesKept(journal, asset) - FeesClaimed(journal, asset) + if due.asset == asset then LineFee(due.lines[0]) else 0
  {
    match due.lines[0]
    case Pull(_, _) => assert journal1 == journal;
    case Fixed(to, net, fee, rate) =>
      var e := Paid(due.task, due.asset, to, net, fee, rate);
      Entered(journal, e, asset);
      if to == h.vault && net >= 0 {
        Entered(journal + [e], Gift(due.asset, net), asset);
        assert journal1 == journal + [e] + [Gift(due.asset, net)];
      } else {
        assert journal1 == journal + [e];
      }
  }

  lemma TransferEven(h: Host, s: State, due: Due, s1: State, stack: seq<Due>)
    requires due.lines != [] && !due.lines[0].Taxed? && Transfer(h, s, due) == Ok(s1) && AllEven(s.books, stack + [due])
    ensures AllEven(s1.books, stack + [RestOf(due)])
  {
    T.TransferEnters(h, s, due, s1);
    TransferKeepsFees(h, s, due, s1);
    forall asset ensures Even(s1.books.fees, s1.books.journal, stack + [RestOf(due)], asset) {
      assert Even(s.books.fees, s.books.journal, stack + [due], asset);
      ReceiptFee(h, s.books.journal, due, asset, s1.books.journal);
      Pushed(stack, due, asset);
      Pushed(stack, RestOf(due), asset);
    }
  }

  lemma TransferKeepsFees(h: Host, s: State, due: Due, s1: State)
    requires due.lines != [] && !due.lines[0].Taxed? && Transfer(h, s, due) == Ok(s1)
    ensures s1.books.fees == s.books.fees
  {
    match due.lines[0]
    case Pull(from, amount) => U.MovesTokens(s.books, from, h.vault, due.asset, amount);
    case Fixed(to, net, fee, rate) => U.MovesTokens(s.books, h.vault, to, due.asset, net);
  }

  lemma FinishEven(s: State, due: Due, s1: State, stack: seq<Due>)
    requires due.lines == [] && Finish(s, due) == Ok(s1) && AllEven(s.books, stack + [due])
    ensures AllEven(s1.books, stack)
  {
    T.FinishEnters(s, due, s1);
    forall asset ensures Even(s1.books.fees, s1.books.journal, stack, asset) {
      assert Even(s.books.fees, s.books.journal, stack + [due], asset);
      EntersNoFee(s.books, s1.books, asset);
      Pushed(stack, due, asset);
    }
  }

  ghost function EvenIn(h: Host, first: Control): (State, seq<Due>) -> bool {
    (s: State, stack: seq<Due>) => U.AuthorisedIn(h, first)(s, stack) && AllEven(s.books, stack)
  }

  lemma KnownAt(h: Host, first: Control, s: State, stack: seq<Due>)
    requires U.AuthorisedIn(h, first)(s, stack)
    ensures Told(first, s, s.notes) && E.CtlOk(s.ctl) && Solvency.DuesOk(h.vault, stack)
  {
  }

  lemma TaxedPositive(h: Host, stack: seq<Due>, due: Due)
    requires Solvency.DuesOk(h.vault, stack + [due]) && due.lines != [] && due.lines[0].Taxed?
    ensures due.lines[0].gross > 0
  {
    assert (stack + [due])[|stack|] == due;
    assert due.fin.Emit? ==> E.LineOk(due.lines[0]);
  }

  lemma EvenOnBegin(h: Host, first: Control)
    ensures OnBegin(h, EvenIn(h, first))
  {
    var A, J := U.AuthorisedIn(h, first), EvenIn(h, first);
    U.AuthorisedInductive(h, first);
    forall s, stack, op | J(s, stack) && Begin(h, Noted(s, op), op).Ok?
      ensures J(Begin(h, Noted(s, op), op).value.s, stack + [Begin(h, Noted(s, op), op).value.due])
    {
      assert A(s, stack);
      KnownAt(h, first, s, stack);
      BeginEven(h, first, s, op, Begin(h, Noted(s, op), op).value, stack);
    }
  }

  lemma EvenOnMoves(h: Host, first: Control)
    ensures OnTax(EvenIn(h, first)) && OnTransfer(h, EvenIn(h, first)) && OnFinish(EvenIn(h, first))
  {
    var A, J := U.AuthorisedIn(h, first), EvenIn(h, first);
    U.AuthorisedInductive(h, first);
    forall s, stack, due: Due | due.lines != [] && J(s, stack + [due]) && Tax(s, due).Ok?
      ensures J(Tax(s, due).value.0, stack + [Tax(s, due).value.1])
    {
      assert A(s, stack + [due]);
      KnownAt(h, first, s, stack + [due]);
      if due.lines[0].Taxed? {
        TaxedPositive(h, stack, due);
      }
      TaxEven(s, due, Tax(s, due).value.0, Tax(s, due).value.1, stack);
    }
    forall s, stack, due: Due |
      due.lines != [] && !due.lines[0].Taxed? && J(s, stack + [due]) && Transfer(h, s, due).Ok?
      ensures J(Transfer(h, s, due).value, stack + [RestOf(due)])
    {
      assert A(s, stack + [due]);
      TransferEven(h, s, due, Transfer(h, s, due).value, stack);
    }
    forall s, stack, due: Due | due.lines == [] && J(s, stack + [due]) && Finish(s, due).Ok?
      ensures J(Finish(s, due).value, stack)
    {
      assert A(s, stack + [due]);
      FinishEven(s, due, Finish(s, due).value, stack);
    }
  }

  lemma EvenInductive(h: Host, first: Control)
    ensures Inductive(h, EvenIn(h, first))
  {
    EvenOnBegin(h, first);
    EvenOnMoves(h, first);
  }

  lemma EvenWaits(h: Host, first: Control)
    ensures OnWait(h, EvenIn(h, first))
  {
    var A, J := U.AuthorisedIn(h, first), EvenIn(h, first);
    U.AuthorisedWaits(h, first);
    forall s, step: Step | !step.Invoke? && J(s, []) ensures J(Next(h, s, step).s, []) {
      assert A(s, []);
      assert A(Next(h, s, step).s, []);
      T.WaitStill(h, s, step);
    }
  }

  lemma EvenAtFirst(b: Books)
    requires b.fees == map[] && b.journal == []
    ensures AllEven(b, [])
  {
  }

  /** After every run, and for every asset: what has accrued is what the payouts had withheld, less what was claimed. */
  lemma FeesConserved(h: Host, s0: State, steps: seq<Step>, asset: Address)
    requires Initial(h, s0)
    ensures var b := Run(h, s0, steps).s.books; Fees(b, asset) == FeesKept(b.journal, asset) - FeesClaimed(b.journal, asset)
  {
    Solvency.InitialSolvent(h, s0);
    U.InitialAuthorised(h, s0);
    EvenInductive(h, s0.ctl);
    EvenWaits(h, s0.ctl);
    EvenAtFirst(s0.books);
    assert U.AuthorisedIn(h, s0.ctl)(s0, []);
    RunKeeps(h, EvenIn(h, s0.ctl), s0, steps);
    EvenNow(Run(h, s0, steps).s.books, asset);
  }

  lemma EvenNow(b: Books, asset: Address)
    requires AllEven(b, [])
    ensures Fees(b, asset) == FeesKept(b.journal, asset) - FeesClaimed(b.journal, asset)
  {
    assert Even(b.fees, b.journal, [], asset);
  }
}
