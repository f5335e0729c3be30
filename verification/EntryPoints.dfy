/**
 * Every entry point, up to its first transfer, keeps the books' invariant and
 * frees exactly what it then still has to pay out.
 */
module EntryPoints {
  import opened Base
  import opened Bytes
  import opened Totals
  import opened VaultState
  import opened BookKeeping
  import opened Vault
  import opened OpShapes
  import opened Execution
  import opened Ledger
  import S = Signals

  // ---- What a call in flight still owes ----------------------------------

  function LineDue(line: Line): int {
    match line
    case Pull(_, amount) => -amount
    case Fixed(_, net, _, _) => net
    case Taxed(_, gross) => gross
  }

  function LinesDue(lines: seq<Line>): int {
    if lines == [] then 0 else LineDue(lines[0]) + LinesDue(lines[1..])
  }

  /** With the fees already kept: what is charged to the task. */
  function LineGross(line: Line): int {
    match line
    case Pull(_, _) => 0
    case Fixed(_, net, fee, _) => net + fee
    case Taxed(_, gross) => gross
  }

  function LinesGross(lines: seq<Line>): int {
    if lines == [] then 0 else LineGross(lines[0]) + LinesGross(lines[1..])
  }

  function Outstanding(due: Due): int {
    LinesDue(due.lines) + if due.fin.CreditUser? then due.fin.amount else 0
  }

  function TaskOf(due: Due): nat {
    if due.task.Some? then due.task.value else 0
  }

  function TaskOutstanding(due: Due): int {
    if due.task.Some? then LinesGross(due.lines) else 0
  }

  predicate LineOk(line: Line) {
    match line
    case Pull(_, _) => false
    case Fixed(_, net, fee, _) => net >= 0 && fee >= 0
    case Taxed(_, gross) => gross > 0
  }

  ghost predicate DueOk(vault: Address, due: Due) {
    match due.fin
    case CreditUser(user, amount) =>
      user != vault && amount > 0 && due.task.None? && (due.lines == [] || due.lines == [Pull(user, amount)])
    case Emit(_) => forall i | 0 <= i < |due.lines| :: LineOk(due.lines[i])
  }

  predicate CtlOk(ctl: Control) {
    ctl.feeConfig.Some? ==> ctl.feeConfig.value.bps <= MAX_FEE_BPS
  }

  lemma {:induction false} LinesNonNegative(lines: seq<Line>)
    requires forall i | 0 <= i < |lines| :: LineOk(lines[i])
    ensures LinesDue(lines) >= 0 && LinesGross(lines) >= 0
    ensures lines != [] ==> LinesDue(lines) >= LineDue(lines[0])
  {
    if lines != [] {
      LinesNonNegative(lines[1..]);
    }
  }

  lemma OutstandingNonNegative(vault: Address, due: Due)
    requires DueOk(vault, due)
    ensures Outstanding(due) >= 0
  {
    if due.fin.Emit? {
      LinesNonNegative(due.lines);
    } else if due.lines != [] {
      assert LinesDue(due.lines) == LineDue(due.lines[0]) + LinesDue(due.lines[1..]);
    }
  }

  // ---- Entry points -------------------------------------------------------

  /** An entry point that has begun frees exactly what it then owes. */
  ghost predicate Begun(h: Host, s: State, p: Pending) {
    && BooksInv(p.s.books) && CtlOk(p.s.ctl) && DueOk(h.vault, p.due)
    && Shifted(h.vault, s.books, p.s.books, p.due.asset, Outstanding(p.due), TaskOf(p.due), TaskOutstanding(p.due))
  }

  lemma BegunQuiet(h: Host, s: State, s1: State)
    requires BooksInv(s1.books) && CtlOk(s1.ctl) && Shifted(h.vault, s.books, s1.books, 0, 0, 0, 0)
    ensures Begun(h, s, Pending(s1, Nothing))
  {
  }

  lemma ShiftNone(vault: Address, b: Books)
    ensures Shifted(vault, b, b, 0, 0, 0, 0)
  {
  }

  lemma FeeBounds(ctl: Control, amount: int)
    requires CtlOk(ctl) && amount > 0 && ComputeFee(ctl, amount).Ok?
    ensures 0 <= ComputeFee(ctl, amount).value <= amount
    ensures ComputeFee(ctl, amount).value > 0 ==> ctl.feeConfig.Some? && ctl.feeConfig.value.recipient.Some?
  {
    var c := ctl.feeConfig;
    if c.Some? && c.value.bps != 0 && c.value.recipient.Some? {
      FeeFloorBound(amount, c.value.bps);
    }
  }

  lemma FeeFloorBound(amount: nat, bps: nat)
    requires bps <= MAX_FEE_BPS
    ensures 0 <= amount * bps / 10_000 <= amount
  {
    var x := amount * bps;
    assert 0 <= x <= amount * 1000;
  }

  /** Taking a fee makes the vault owe that much more. */
  lemma AccruePosts(vault: Address, b: Books, ctl: Control, asset: Address, amount: int)
    requires BooksInv(b) && CtlOk(ctl) && amount > 0 && ComputeFee(ctl, amount).Ok?
    requires Accrue(b, ctl, asset, ComputeFee(ctl, amount).value).Ok?
    ensures var fee := ComputeFee(ctl, amount).value;
      Posted(vault, b, Accrue(b, ctl, asset, fee).value, asset, -fee, 0, 0)
  {
    FeeBounds(ctl, amount);
    var fee := ComputeFee(ctl, amount).value;
    if fee > 0 {
      AddFeePosts(vault, b, asset, fee);
    } else {
      ShiftNone(vault, b);
      ShiftNothing(vault, b, b, 0, 0, 0, asset, 0);
    }
  }

  /** An entry point left with one fixed transfer, or with none. */
  lemma BegunOne(h: Host, s: State, p: Pending, asset: Address, task: Option<nat>, line: Line, events: seq<Event>)
    requires p.due == Due(asset, task, [line], Emit(events)) && LineOk(line) && CtlOk(p.s.ctl)
    ensures var id := if task.Some? then task.value else 0; var gross := if task.Some? then LineGross(line) else 0;
      Posted(h.vault, s.books, p.s.books, asset, LineDue(line), id, gross) ==> Begun(h, s, p)
  {
    OneLine(line);
  }

  lemma OneLine(line: Line)
    ensures LinesDue([line]) == LineDue(line) && LinesGross([line]) == LineGross(line)
  {
    assert [line][1..] == [];
  }

  lemma WithdrawBegun(h: Host, s: State, user: Address, asset: Address, amount: I128, p: Pending)
    requires BooksInv(s.books) && CtlOk(s.ctl) && BeginWithdraw(h, s, user, asset, amount) == Ok(p)
    ensures Begun(h, s, p)
  {
    DebitPosts(h.vault, s.books, user, asset, amount);
    BegunOne(h, s, p, asset, None, Fixed(user, amount, 0, NoFee),
             [WithdrawEvent(user, asset, amount)]);
  }

  /** A spend with its fee: the two postings together. */
  lemma SpendAndAccrue(vault: Address, b: Books, b1: Books, ctl: Control, asset: Address, amount: int, id: nat, y: int)
    requires CtlOk(ctl) && amount > 0 && ComputeFee(ctl, amount).Ok?
    requires Accrue(b1, ctl, asset, ComputeFee(ctl, amount).value).Ok?
    ensures var fee := ComputeFee(ctl, amount).value;
      0 <= fee <= amount
      && (Posted(vault, b, b1, asset, amount, id, y)
          ==> Posted(vault, b, Accrue(b1, ctl, asset, fee).value, asset, amount - fee, id, y))
  {
    FeeBounds(ctl, amount);
    var fee := ComputeFee(ctl, amount).value;
    var b2 := Accrue(b1, ctl, asset, fee).value;
    if Posted(vault, b, b1, asset, amount, id, y) {
      AccruePosts(vault, b1, ctl, asset, amount);
      ShiftNothing(vault, b1, b2, asset, -fee, 0, asset, id);
      ShiftTwice(vault, b, b1, b2, asset, amount, -fee, id, y, 0);
    }
  }

  lemma OwnerKnown(b: Books, user: Address, asset: Address)
    requires BooksInv(b) && (user, asset) in b.accounts
    ensures user in b.configs
  {
    assert (user, asset) in b.accounts.Keys;
  }

  /** An entry point that posted `b0`, took the fee of `amount`, and is left with paying the rest to `to`. */
  predicate PaysOne(s: State, p: Pending, b0: Books, asset: Address, task: Option<nat>, to: Address, amount: int) {
    && ComputeFee(s.ctl, amount).Ok?
    && var fee := ComputeFee(s.ctl, amount).value;
    && Accrue(b0, s.ctl, asset, fee) == Ok(p.s.books)
    && p.s.ctl == s.ctl
    && p.due == Due(asset, task, [Fixed(to, amount - fee, fee, AtRate(s.ctl.feeConfig))], Emit([Other]))
  }

  lemma PaysOneBegun(h: Host, s: State, p: Pending, b0: Books, asset: Address, task: Option<nat>, to: Address, amount: int)
    requires CtlOk(s.ctl) && amount > 0 && PaysOne(s, p, b0, asset, task, to, amount)
    ensures var id := if task.Some? then task.value else 0; var y := if task.Some? then amount else 0;
      Posted(h.vault, s.books, b0, asset, amount, id, y) ==> Begun(h, s, p)
  {
    var id, y := if task.Some? then task.value else 0, if task.Some? then amount else 0;
    var fee := ComputeFee(s.ctl, amount).value;
    SpendAndAccrue(h.vault, s.books, b0, s.ctl, asset, amount, id, y);
    BegunOne(h, s, p, asset, task, Fixed(to, amount - fee, fee, AtRate(s.ctl.feeConfig)), [Other]);
  }

  lemma ReleaseSessionShape(h: Host, s: State, session: Address, payee: Address, amount: I128, rid: Option<Bytes32>, p: Pending)
    requires BeginReleaseSession(h, s, session, payee, amount, rid) == Ok(p)
    ensures session in s.lanes.sessions
    ensures var info := s.lanes.sessions[session];
      && (info.user, info.asset) in s.books.accounts
      && 0 < amount <= Available(s.books, info.user, info.asset)
      && PaysOne(s, p, SpendDirect(s.books, info.user, info.asset, amount), info.asset, None, payee, amount)
  {
  }

  lemma ReleaseSessionBegun(h: Host, s: State, session: Address, payee: Address, amount: I128, rid: Option<Bytes32>, p: Pending)
    requires BooksInv(s.books) && CtlOk(s.ctl) && BeginReleaseSession(h, s, session, payee, amount, rid) == Ok(p)
    ensures Begun(h, s, p)
  {
    ReleaseSessionShape(h, s, session, payee, amount, rid, p);
    var info := s.lanes.sessions[session];
    SpendBegun(h, s, p, info.user, info.asset, payee, amount);
  }

  lemma SpendBegun(h: Host, s: State, p: Pending, user: Address, asset: Address, payee: Address, amount: int)
    requires BooksInv(s.books) && CtlOk(s.ctl)
    requires (user, asset) in s.books.accounts && 0 < amount <= Available(s.books, user, asset)
    requires PaysOne(s, p, SpendDirect(s.books, user, asset, amount), asset, None, payee, amount)
    ensures Begun(h, s, p)
  {
    OwnerKnown(s.books, user, asset);
    SpendDirectPosts(h.vault, s.books, user, asset, amount);
    PaysOneBegun(h, s, p, SpendDirect(s.books, user, asset, amount), asset, None, payee, amount);
  }

  /** What every release of a task step has checked. */
  predicate Payable(b: Books, id: nat, step: U64, asset: Address, amount: int) {
    && id in b.tasks && !b.tasks[id].completed && b.tasks[id].asset == asset && (id, step) !in b.steps
    && 0 < amount && b.tasks[id].spent + amount <= b.tasks[id].planCost
    && RoomForStep(b, id, step).Pass?
  }

  lemma ReleasePaymentShape(h: Host, s: State, orch: Address, id: U64, step: U64, asset: Address, amount: I128, p: Pending)
    requires BeginReleasePayment(h, s, orch, id, step, asset, amount) == Ok(p)
    ensures (id, step) in s.books.steps ==> p == Pending(s, Nothing)
    ensures (id, step) !in s.books.steps ==>
      Payable(s.books, id, step, asset, amount)
              && PaysOne(s, p, RecordRelease(s.books, id, step, amount), asset, Some(id), orch, amount)
  {
  }

  lemma ReleasePaymentBegun(h: Host, s: State, orch: Address, id: U64, step: U64, asset: Address, amount: I128, p: Pending)
    requires BooksInv(s.books) && CtlOk(s.ctl) && BeginReleasePayment(h, s, orch, id, step, asset, amount) == Ok(p)
    ensures Begun(h, s, p)
  {
    ReleasePaymentShape(h, s, orch, id, step, asset, amount, p);
    if (id, step) in s.books.steps {
      ShiftNone(h.vault, s.books);
    } else {
      StepBegun(h, s, p, id, step, asset, orch, amount);
    }
  }

  lemma StepBegun(h: Host, s: State, p: Pending, id: U64, step: U64, asset: Address, to: Address, amount: int)
    requires BooksInv(s.books) && CtlOk(s.ctl) && Payable(s.books, id, step, asset, amount)
    requires PaysOne(s, p, RecordRelease(s.books, id, step, amount), asset, Some(id), to, amount)
    ensures Begun(h, s, p)
  {
    RoomMeansShort(s.books, id, step);
    RecordReleasePosts(h.vault, s.books, id, step, amount);
    PaysOneBegun(h, s, p, RecordRelease(s.books, id, step, amount), asset, Some(id), to, amount);
  }

  /** An unpaid step is not in the index, so room for it means a free place. */
  lemma RoomMeansShort(b: Books, id: nat, step: U64)
    requires BooksInv(b) && (id, step) !in b.steps && RoomForStep(b, id, step).Pass?
    ensures |StepIds(b, id)| < MAX_RELEASE_STEPS_PER_TASK
  {
    assert IndexOk(b.tasks, b.stepIds, b.steps, b.nullifierIds, b.taskNullifiers, id);
  }

  lemma RecordProvedPosts(vault: Address, b: Books, id: nat, step: U64, asset: Address, amount: int, n: Bytes32)
    requires BooksInv(b) && Payable(b, id, step, asset, amount) && (id, n) !in b.taskNullifiers
    ensures Posted(vault, b, MarkTaskNullifier(RecordRelease(b, id, step, amount), id, n), asset, amount, id, amount)
  {
    var b1 := RecordRelease(b, id, step, amount);
    var b2 := MarkTaskNullifier(b1, id, n);
    assert IndexOk(b.tasks, b.stepIds, b.steps, b.nullifierIds, b.taskNullifiers, id);
    RoomMeansShort(b, id, step);
    RecordReleasePosts(vault, b, id, step, amount);
    MarkTaskNullifierPosts(vault, b1, id, n);
    ShiftNothing(vault, b1, b2, 0, 0, 0, asset, id);
    ShiftTwice(vault, b, b1, b2, asset, amount, 0, id, amount, 0);
  }

  function Proved(b: Books, id: nat, step: U64, amount: int, n: Bytes32): Books
    requires id in b.tasks
  {
    MarkTaskNullifier(RecordRelease(b, id, step, amount), id, n)
  }

  lemma ReleaseProvedShape(h: Host, s: State, orch: Address, id: U64, step: U64, asset: Address, amount: I128,
                           payee: Address, n: Bytes32, proof: Proof, p: Pending)
    requires BeginReleaseProved(h, s, orch, id, step, asset, amount, payee, n, proof) == Ok(p)
    ensures (id, step) in s.books.steps ==> p == Pending(s, Nothing)
    ensures (id, step) !in s.books.steps ==>
      Payable(s.books, id, step, asset, amount)
              && (id, n) !in s.books.taskNullifiers
              && PaysOne(s, p, Proved(s.books, id, step, amount, n), asset, Some(id), payee, amount)
  {
  }

  lemma ReleaseProvedBegun(h: Host, s: State, orch: Address, id: U64, step: U64, asset: Address, amount: I128,
                           payee: Address, n: Bytes32, proof: Proof, p: Pending)
    requires BooksInv(s.books) && CtlOk(s.ctl)
    requires BeginReleaseProved(h, s, orch, id, step, asset, amount, payee, n, proof) == Ok(p)
    ensures Begun(h, s, p)
  {
    ReleaseProvedShape(h, s, orch, id, step, asset, amount, payee, n, proof, p);
    if (id, step) in s.books.steps {
      ShiftNone(h.vault, s.books);
    } else {
      ProvedStepBegun(h, s, p, id, step, asset, payee, amount, n);
    }
  }

  lemma ProvedStepBegun(h: Host, s: State, p: Pending, id: U64, step: U64, asset: Address, to: Address, amount: int, n: Bytes32)
    requires BooksInv(s.books) && CtlOk(s.ctl) && Payable(s.books, id, step, asset, amount)
    requires (id, n) !in s.books.taskNullifiers
    requires PaysOne(s, p, Proved(s.books, id, step, amount, n), asset, Some(id), to, amount)
    ensures Begun(h, s, p)
  {
    RecordProvedPosts(h.vault, s.books, id, step, asset, amount, n);
    PaysOneBegun(h, s, p, Proved(s.books, id, step, amount, n), asset, Some(id), to, amount);
  }

  /** The lines of a batch add up to its total. */
  lemma {:induction false} TaxedSum(payees: seq<Address>, amounts: seq<I128>)
    requires |payees| == |amounts|
    ensures LinesDue(TaxedLines(payees, amounts)) == S.SumAmounts(amounts)
    ensures LinesGross(TaxedLines(payees, amounts)) == S.SumAmounts(amounts)
  {
    var n := |payees|;
    if n > 0 {
      var front := TaxedLines(payees[..n - 1], amounts[..n - 1]);
      TaxedSum(payees[..n - 1], amounts[..n - 1]);
      assert TaxedLines(payees, amounts) == front + [Taxed(payees[n - 1], amounts[n - 1])];
      LinesJoin(front, Taxed(payees[n - 1], amounts[n - 1]));
    }
  }

  lemma {:induction false} LinesJoin(lines: seq<Line>, last: Line)
    ensures LinesDue(lines + [last]) == LinesDue(lines) + LineDue(last)
    ensures LinesGross(lines + [last]) == LinesGross(lines) + LineGross(last)
  {
    if lines == [] {
      OneLine(last);
      assert lines + [last] == [last];
    } else {
      LinesJoin(lines[1..], last);
      assert (lines + [last])[1..] == lines[1..] + [last];
    }
  }

  lemma BatchLines(q: S.Batch)
    requires S.WellFormed(q)
    ensures LinesDue(TaxedLines(q.payees, q.amounts)) == LinesGross(TaxedLines(q.payees, q.amounts)) == S.SumAmounts(q.amounts) > 0
    ensures forall i | 0 <= i < |TaxedLines(q.payees, q.amounts)| :: LineOk(TaxedLines(q.payees, q.amounts)[i])
  {
    TaxedSum(q.payees, q.amounts);
    S.SumPositive(q.amounts);
  }

  /** An entry point left with a batch of lines. */
  predicate PaysBatch(s: State, p: Pending, b0: Books, asset: Address, task: Option<nat>, q: S.Batch) {
    S.WellFormed(q) && p.s.books == b0 && p.s.ctl == s.ctl
    && p.due == Due(asset, task, TaxedLines(q.payees, q.amounts), Emit([Other]))
  }

  lemma PaysBatchBegun(h: Host, s: State, p: Pending, b0: Books, asset: Address, task: Option<nat>, q: S.Batch)
    requires CtlOk(s.ctl) && PaysBatch(s, p, b0, asset, task, q)
    ensures var total := S.SumAmounts(q.amounts);
      var id := if task.Some? then task.value else 0; var y := if task.Some? then total else 0;
      Posted(h.vault, s.books, b0, asset, total, id, y) ==> Begun(h, s, p)
  {
    BatchLines(q);
  }

  lemma ReleaseBatchShape(h: Host, s: State, orch: Address, id: U64, step: U64, asset: Address, q: S.Batch, proof: Proof, p: Pending)
    requires BeginReleaseBatch(h, s, orch, id, step, asset, q, proof) == Ok(p)
    ensures (id, step) in s.books.steps ==> p == Pending(s, Nothing)
    ensures (id, step) !in s.books.steps ==>
      S.WellFormed(q) && Payable(s.books, id, step, asset, S.SumAmounts(q.amounts))
      && PaysBatch(s, p, RecordRelease(s.books, id, step, S.SumAmounts(q.amounts)), asset, Some(id), q)
  {
    if S.WellFormed(q) {
      S.SumPositive(q.amounts);
    }
  }

  lemma ReleaseBatchBegun(h: Host, s: State, orch: Address, id: U64, step: U64, asset: Address, q: S.Batch, proof: Proof, p: Pending)
    requires BooksInv(s.books) && CtlOk(s.ctl) && BeginReleaseBatch(h, s, orch, id, step, asset, q, proof) == Ok(p)
    ensures Begun(h, s, p)
  {
    ReleaseBatchShape(h, s, orch, id, step, asset, q, proof, p);
    if (id, step) in s.books.steps {
      ShiftNone(h.vault, s.books);
    } else {
      var total := S.SumAmounts(q.amounts);
      RoomMeansShort(s.books, id, step);
      RecordReleasePosts(h.vault, s.books, id, step, total);
      PaysBatchBegun(h, s, p, RecordRelease(s.books, id, step, total), asset, Some(id), q);
    }
  }

  lemma ReleaseKeylessShape(h: Host, s: State, user: Address, asset: Address, c: Bytes32, q: S.Batch, proof: Proof,
                            global: Option<GlobalProof>, p: Pending)
    requires BeginReleaseKeyless(h, s, user, asset, c, q, proof, global) == Ok(p)
    ensures S.WellFormed(q) && (user, asset) in s.books.accounts
    ensures 0 < S.SumAmounts(q.amounts) <= Available(s.books, user, asset)
    ensures PaysBatch(s, p, SpendDirect(s.books, user, asset, S.SumAmounts(q.amounts)), asset, None, q)
  {
    S.SumPositive(q.amounts);
  }

  lemma ReleaseKeylessBegun(h: Host, s: State, user: Address, asset: Address, c: Bytes32, q: S.Batch, proof: Proof,
                            global: Option<GlobalProof>, p: Pending)
    requires BooksInv(s.books) && CtlOk(s.ctl) && BeginReleaseKeyless(h, s, user, asset, c, q, proof, global) == Ok(p)
    ensures Begun(h, s, p)
  {
    var total := S.SumAmounts(q.amounts);
    ReleaseKeylessShape(h, s, user, asset, c, q, proof, global, p);
    OwnerKnown(s.books, user, asset);
    SpendDirectPosts(h.vault, s.books, user, asset, total);
    PaysBatchBegun(h, s, p, SpendDirect(s.books, user, asset, total), asset, None, q);
  }

  lemma CreateTaskBegun(h: Host, s: State, orch: Address, asset: Address, planCost: I128, c: Option<Bytes32>, p: Pending)
    requires BooksInv(s.books) && CtlOk(s.ctl) && BeginCreateTask(h, s, orch, asset, planCost, c) == Ok(p)
    ensures Begun(h, s, p)
  {
    OpenTaskPosts(h.vault, s.books, Task(s.ctl.owners[orch], orch, asset, planCost, 0, false, false, c, s.now));
  }

  lemma ResolveShape(h: Host, s: State, resolver: Address, id: U64, refund: I128, payout: I128, p: Pending)
    requires BeginResolveDispute(h, s, resolver, id, refund, payout) == Ok(p)
    ensures Closable(s.books, id, Some((refund as nat, payout as nat)))
    ensures var t := s.books.tasks[id];
      && p.s.books == CloseTask(s.books, id, Some((refund as nat, payout as nat))) && p.s.ctl == s.ctl
      && p.due == Due(t.asset, None, LineIfPositive(t.user, refund) + LineIfPositive(t.orchestrator, payout), Emit([Other]))
  {
  }

  lemma ResolveBegun(h: Host, s: State, resolver: Address, id: U64, refund: I128, payout: I128, p: Pending)
    requires BooksInv(s.books) && CtlOk(s.ctl) && BeginResolveDispute(h, s, resolver, id, refund, payout) == Ok(p)
    ensures Begun(h, s, p)
  {
    ResolveShape(h, s, resolver, id, refund, payout, p);
    SettledBegun(h, s, p, id, refund, payout);
  }

  lemma SettledBegun(h: Host, s: State, p: Pending, id: nat, refund: nat, payout: nat)
    requires BooksInv(s.books) && CtlOk(s.ctl) && Closable(s.books, id, Some((refund, payout)))
    requires p.s.books == CloseTask(s.books, id, Some((refund, payout))) && p.s.ctl == s.ctl
    requires var t := s.books.tasks[id];
      p.due == Due(t.asset, None, LineIfPositive(t.user, refund) + LineIfPositive(t.orchestrator, payout), Emit([Other]))
    ensures Begun(h, s, p)
  {
    SplitLines(s.books.tasks[id].user, refund, s.books.tasks[id].orchestrator, payout);
    CloseKeeps(s.books, id, Some((refund, payout)));
    CloseShifts(h.vault, s.books, id, Some((refund, payout)));
  }

  lemma SplitLines(user: Address, refund: int, orch: Address, payout: int)
    requires refund >= 0 && payout >= 0
    ensures var lines := LineIfPositive(user, refund) + LineIfPositive(orch, payout);
      LinesDue(lines) == refund + payout && forall i | 0 <= i < |lines| :: LineOk(lines[i])
  {
    var first := LineIfPositive(user, refund);
    OneLine(Fixed(user, refund, 0, NoFee));
    assert first + [] == first;
    if payout > 0 {
      LinesJoin(first, Fixed(orch, payout, 0, NoFee));
    }
  }

  lemma ClaimBegun(h: Host, s: State, recipient: Address, asset: Address, p: Pending)
    requires BooksInv(s.books) && CtlOk(s.ctl) && BeginClaimFees(h, s, recipient, asset) == Ok(p)
    ensures Begun(h, s, p)
  {
    assert FeeIn(s.books.fees, asset) >= 0;
    ClearFeesPosts(h.vault, s.books, asset);
    BegunOne(h, s, p, asset, None,
             Fixed(recipient, Fees(s.books, asset), 0, FeesTaken), [Other]);
  }

  // ---- Orchestrators, disputes and the token -----------------------------

  lemma ConfigPosts(vault: Address, b: Books, user: Address, orch: Address)
    requires BooksInv(b) && user in b.configs
    ensures var cfg := b.configs[user].(orchestrator := Some(orch));
      Posted(vault, b, b.(configs := b.configs[user := cfg]), 0, 0, 0, 0)
  {
    var configs := b.configs[user := b.configs[user].(orchestrator := Some(orch))];
    assert configs.Keys == b.configs.Keys;
    forall u | u in configs ensures CountOk(configs, b.tasks, u) {
      assert CountOk(b.configs, b.tasks, u);
    }
  }

  lemma EnsureConfigPosts(vault: Address, b: Books, user: Address)
    requires BooksInv(b)
    ensures Posted(vault, b, EnsureConfig(b, user), 0, 0, 0, 0)
  {
    EnsureConfigKeeps(b, user);
  }

  lemma RegisterOrchestratorBegun(h: Host, s: State, user: Address, orch: Address, p: Pending)
    requires BooksInv(s.books) && CtlOk(s.ctl) && BeginRegisterOrchestrator(h, s, user, orch) == Ok(p)
    ensures Begun(h, s, p)
  {
    var b0 := EnsureConfig(s.books, user);
    assert Posted(h.vault, s.books, p.s.books, 0, 0, 0, 0) by {
      EnsureConfigPosts(h.vault, s.books, user);
      ConfigPosts(h.vault, b0, user, orch);
      ShiftTwice(h.vault, s.books, b0, p.s.books, 0, 0, 0, 0, 0, 0);
    }
    BegunQuiet(h, s, p.s);
  }

  lemma RaiseDisputeBegun(h: Host, s: State, user: Address, id: U64, p: Pending)
    requires BooksInv(s.books) && CtlOk(s.ctl) && BeginRaiseDispute(h, s, user, id) == Ok(p)
    ensures Begun(h, s, p)
  {
    var b0 := Freeze(s.books, id);
    assert Posted(h.vault, s.books, p.s.books, 0, 0, 0, 0) by {
      FreezePosts(h.vault, s.books, id);
      PublishPosts(h.vault, b0, [Other]);
      ShiftTwice(h.vault, s.books, b0, p.s.books, 0, 0, 0, 0, 0, 0);
    }
    BegunQuiet(h, s, p.s);
  }

  /** What a movement of tokens adds to the vault's holding. */
  function VaultGain(vault: Address, from: Address, to: Address, amount: int): int {
    (if to == vault then amount else 0) - if from == vault then amount else 0
  }

  lemma MovePosts(vault: Address, b: Books, from: Address, to: Address, asset: Address, amount: int)
    requires BooksInv(b) && 0 <= amount <= Held(b.tokens, from, asset)
    ensures Posted(vault, b, Move(b, from, to, asset, amount), asset, VaultGain(vault, from, to, amount), 0, 0)
  {
    if from == to {
      ShiftNone(vault, b);
      ShiftNothing(vault, b, b, 0, 0, 0, asset, 0);
    } else {
      var b1 := AddTokens(b, from, asset, -amount);
      var b2 := AddTokens(b1, to, asset, amount);
      AddTokensPosts(vault, b, from, asset, -amount);
      assert Held(b.tokens, to, asset) >= 0;
      AddTokensPosts(vault, b1, to, asset, amount);
      ShiftTwice(vault, b, b1, b2, asset, if from == vault then -amount else 0, if to == vault then amount else 0, 0, 0, 0);
    }
  }

  lemma ReceivedPosts(h: Host, b: Books, to: Address, asset: Address, amount: int)
    requires BooksInv(b) && amount >= 0
    ensures Posted(h.vault, b, Received(h, b, to, asset, amount), asset, if to == h.vault then -amount else 0, 0, 0)
  {
    if to == h.vault {
      LogPosts(h.vault, b, Gift(asset, amount), asset, 0);
    } else {
      ShiftNone(h.vault, b);
      ShiftNothing(h.vault, b, b, 0, 0, 0, asset, 0);
    }
  }

  lemma MintBegun(h: Host, s: State, to: Address, asset: Address, amount: nat)
    requires BooksInv(s.books) && CtlOk(s.ctl)
    ensures Begun(h, s, BeginMint(h, s, to, asset, amount).value)
  {
    var b1 := AddTokens(s.books, to, asset, amount);
    var b2 := Received(h, b1, to, asset, amount);
    assert Posted(h.vault, s.books, b2, 0, 0, 0, 0) by {
      assert Held(s.books.tokens, to, asset) >= 0;
      AddTokensPosts(h.vault, s.books, to, asset, amount);
      ReceivedPosts(h, b1, to, asset, amount);
      var x: int := if to == h.vault then amount else 0;
      ShiftTwice(h.vault, s.books, b1, b2, asset, x, -x, 0, 0, 0);
      ShiftNothing(h.vault, s.books, b2, asset, 0, 0, 0, 0);
    }
    BegunQuiet(h, s, s.(books := b2));
  }

  lemma TokenTransferBegun(h: Host, s: State, from: Address, to: Address, asset: Address, amount: nat, p: Pending)
    requires BooksInv(s.books) && CtlOk(s.ctl) && BeginTransfer(h, s, from, to, asset, amount) == Ok(p)
    ensures Begun(h, s, p)
  {
    var b1 := Move(s.books, from, to, asset, amount);
    assert Posted(h.vault, s.books, p.s.books, 0, 0, 0, 0) by {
      MovePosts(h.vault, s.books, from, to, asset, amount);
      ReceivedPosts(h, b1, to, asset, amount);
      var x: int := if to == h.vault then amount else 0;
      ShiftTwice(h.vault, s.books, b1, p.s.books, asset, x, -x, 0, 0, 0);
      ShiftNothing(h.vault, s.books, p.s.books, asset, 0, 0, 0, 0);
    }
    BegunQuiet(h, s, p.s);
  }

  // ---- All entry points ---------------------------------------------------

  lemma UntouchedBegun(h: Host, s: State, op: Op, p: Pending)
    requires BooksUntouched(op) && Begin(h, s, op) == Ok(p)
    ensures p.s.books == s.books && p.due == Nothing
    ensures CtlOk(s.ctl) ==> CtlOk(p.s.ctl)
  {
    UntouchedShape(h, s, op, p);
    if op.Administer? {
      AppliedOk(s.ctl, op.action, p.s.ctl);
    }
  }

  lemma AppliedOk(ctl: Control, action: AdminAction, ctl1: Control)
    requires Apply(ctl, action) == Ok(ctl1)
    ensures CtlOk(ctl) ==> CtlOk(ctl1)
  {
  }

  lemma EndingShape(h: Host, s: State, op: Op, p: Pending)
    requires Ending(op) && Begin(h, s, op) == Ok(p)
    ensures Closable(s.books, op.task, None) && !s.books.tasks[op.task].disputed
    ensures p == Pending(s.(books := CloseTask(s.books, op.task, None)), Nothing)
  {
    EndingForm(h, s, op, p);
    FinalizeCloses(s, op.task, Expected(op), p.s.books);
  }

  lemma FinalizeCloses(s: State, id: nat, expected: Option<Address>, b: Books)
    requires Finalize(s, id, expected, None) == Ok(b)
    ensures Closable(s.books, id, None) && b == CloseTask(s.books, id, None)
  {
  }

  lemma EndingBegun(h: Host, s: State, op: Op, p: Pending)
    requires BooksInv(s.books) && CtlOk(s.ctl) && Ending(op) && Begin(h, s, op) == Ok(p)
    ensures Begun(h, s, p)
  {
    EndingShape(h, s, op, p);
    ClosedBegun(h, s, op.task);
  }

  lemma ClosedBegun(h: Host, s: State, id: nat)
    requires BooksInv(s.books) && CtlOk(s.ctl) && Closable(s.books, id, None)
    ensures Begun(h, s, Pending(s.(books := CloseTask(s.books, id, None)), Nothing))
  {
    CloseKeeps(s.books, id, None);
    CloseShifts(h.vault, s.books, id, None);
    ShiftNothing(h.vault, s.books, CloseTask(s.books, id, None), s.books.tasks[id].asset, 0, 0, 0, 0);
    BegunQuiet(h, s, s.(books := CloseTask(s.books, id, None)));
  }

  lemma DepositBegun(h: Host, s: State, user: Address, asset: Address, amount: I128, p: Pending)
    requires BooksInv(s.books) && CtlOk(s.ctl) && BeginDeposit(h, s, user, asset, amount) == Ok(p)
    ensures Begun(h, s, p)
  {
    OneLine(Pull(user, amount));
    ShiftNone(h.vault, s.books);
    ShiftNothing(h.vault, s.books, s.books, 0, 0, 0, asset, 0);
  }

  lemma RegisterSessionBegun(h: Host, s: State, user: Address, session: Address, asset: Address, expiry: U64, cap: I128,
                             rid: Option<Bytes32>, server: bool, p: Pending)
    requires BooksInv(s.books) && CtlOk(s.ctl)
    requires BeginRegisterSession(h, s, user, session, asset, expiry, cap, rid, server) == Ok(p)
    ensures Begun(h, s, p)
  {
    EnsureConfigPosts(h.vault, s.books, user);
    BegunQuiet(h, s, p.s);
  }

  lemma UpdateOrchestratorBegun(h: Host, s: State, user: Address, orch: Address, p: Pending)
    requires BooksInv(s.books) && CtlOk(s.ctl) && BeginUpdateOrchestrator(h, s, user, orch) == Ok(p)
    ensures Begun(h, s, p)
  {
    ConfigPosts(h.vault, s.books, user, orch);
    BegunQuiet(h, s, p.s);
  }

  /** Entry points that make no payment. */
  predicate Unpaying(op: Op) {
    BooksUntouched(op) || op.RegisterSession? || op.RegisterOrchestrator? || op.UpdateOrchestrator? || op.RaiseDispute?
    || op.TokenMint? || op.TokenTransfer? || Ending(op)
  }

  lemma UnpayingBegun(h: Host, s: State, op: Op, p: Pending)
    requires BooksInv(s.books) && CtlOk(s.ctl) && Unpaying(op) && Begin(h, s, op) == Ok(p)
    ensures Begun(h, s, p)
  {
    if Ending(op) {
      EndingBegun(h, s, op, p);
    } else if BooksUntouched(op) {
      UntouchedBegun(h, s, op, p);
      ShiftNone(h.vault, s.books);
      BegunQuiet(h, s, p.s);
    } else {
      QuietBegun(h, s, op, p);
    }
  }

  lemma QuietBegun(h: Host, s: State, op: Op, p: Pending)
    requires BooksInv(s.books) && CtlOk(s.ctl) && Unpaying(op) && !Ending(op) && !BooksUntouched(op) && Begin(h, s, op) == Ok(p)
    ensures Begun(h, s, p)
  {
    if op.RegisterSession? {
      RegisterSessionBegun(h, s, op.user, op.session, op.asset, op.expiry, op.spendCap, op.boundRule, op.serverHeld, p);
    } else if op.RegisterOrchestrator? {
      RegisterOrchestratorBegun(h, s, op.user, op.orchestrator, p);
    } else if op.UpdateOrchestrator? {
      UpdateOrchestratorBegun(h, s, op.user, op.orchestrator, p);
    } else if op.RaiseDispute? {
      RaiseDisputeBegun(h, s, op.user, op.task, p);
    } else if op.TokenMint? {
      MintBegun(h, s, op.to, op.asset, op.quantity);
    } else {
      TokenTransferBegun(h, s, op.from, op.to, op.asset, op.quantity, p);
    }
  }

  lemma BeginBegun(h: Host, s: State, op: Op, p: Pending)
    requires BooksInv(s.books) && CtlOk(s.ctl) && Begin(h, s, op) == Ok(p)
    ensures Begun(h, s, p)
  {
    if Unpaying(op) {
      UnpayingBegun(h, s, op, p);
    } else {
      match op
      case Deposit(user, asset, amount) => DepositBegun(h, s, user, asset, amount, p);
      case Withdraw(user, asset, amount) => WithdrawBegun(h, s, user, asset, amount, p);
      case ReleaseSession(session, payee, amount, rid) => ReleaseSessionBegun(h, s, session, payee, amount, rid, p);
      case CreateTask(orch, asset, planCost) => CreateTaskBegun(h, s, orch, asset, planCost, None, p);
      case CreateTaskWithPolicy(orch, asset, planCost, c) => CreateTaskBegun(h, s, orch, asset, planCost, Some(c), p);
      case ReleasePayment(orch, id, step, asset, amount) => ReleasePaymentBegun(h, s, orch, id, step, asset, amount, p);
      case ReleaseProved(orch, id, step, asset, amount, payee, n, proof) =>
        ReleaseProvedBegun(h, s, orch, id, step, asset, amount, payee, n, proof, p);
      case ReleaseBatch(orch, id, step, asset, q, proof) => ReleaseBatchBegun(h, s, orch, id, step, asset, q, proof, p);
      case ReleaseKeyless(user, asset, c, q, proof, global) =>
        ReleaseKeylessBegun(h, s, user, asset, c, q, proof, global, p);
      case ResolveDispute(resolver, id, refund, payout) => ResolveBegun(h, s, resolver, id, refund, payout, p);
      case ClaimFees(recipient, asset) => ClaimBegun(h, s, recipient, asset, p);
    }
  }
}
