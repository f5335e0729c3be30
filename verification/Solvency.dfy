/**
 * Solvency under re-entry. At every moment of every run, with any number of
 * calls in flight, what the vault holds of an asset is exactly what it owes,
 * what it was given, and what the calls in flight have still to pay out.
 */
module Solvency {
  import opened Base
  import opened Totals
  import opened VaultState
  import opened BookKeeping
  import opened Vault
  import opened Execution
  import opened Ledger
  import opened EntryPoints

  // ---- The invariant over the stack of calls ------------------------------

  function StackDue(stack: seq<Due>, asset: Address): int {
    if stack == [] then 0
    else
      var last := stack[|stack| - 1];
      StackDue(stack[..|stack| - 1], asset) + if last.asset == asset then Outstanding(last) else 0
  }

  function StackTask(stack: seq<Due>, id: nat): int {
    if stack == [] then 0
    else
      var last := stack[|stack| - 1];
      StackTask(stack[..|stack| - 1], id) + if TaskOf(last) == id then TaskOutstanding(last) else 0
  }

  ghost predicate ExcessIs(vault: Address, b: Books, stack: seq<Due>, asset: Address) {
    Excess(vault, b, asset) == StackDue(stack, asset)
  }

  ghost predicate GapIs(b: Books, stack: seq<Due>, id: nat) {
    TaskGap(b, id) == StackTask(stack, id)
  }

  ghost predicate Covered(vault: Address, b: Books, stack: seq<Due>) {
    (forall asset :: ExcessIs(vault, b, stack, asset)) && (forall id :: GapIs(b, stack, id))
  }

  ghost predicate DuesOk(vault: Address, stack: seq<Due>) {
    forall i | 0 <= i < |stack| :: DueOk(vault, stack[i])
  }

  ghost predicate Solvent(vault: Address, s: State, stack: seq<Due>) {
    BooksInv(s.books) && CtlOk(s.ctl) && DuesOk(vault, stack) && Covered(vault, s.books, stack)
  }

  ghost function SolventIn(h: Host): (State, seq<Due>) -> bool {
    (s: State, stack: seq<Due>) => Solvent(h.vault, s, stack)
  }

  // ---- Elementary moves ---------------------------------------------------

  lemma Pushed(stack: seq<Due>, due: Due)
    ensures forall a :: StackDue(stack + [due], a) == StackDue(stack, a) + if due.asset == a then Outstanding(due) else 0
    ensures forall i :: StackTask(stack + [due], i) == StackTask(stack, i) + if TaskOf(due) == i then TaskOutstanding(due) else 0
  {
    assert (stack + [due])[..|stack|] == stack;
  }

  lemma CoveredOnPush(vault: Address, b: Books, b1: Books, stack: seq<Due>, due: Due)
    requires Covered(vault, b, stack)
    requires Shifted(vault, b, b1, due.asset, Outstanding(due), TaskOf(due), TaskOutstanding(due))
    ensures Covered(vault, b1, stack + [due])
  {
    Pushed(stack, due);
    forall a ensures ExcessIs(vault, b1, stack + [due], a) {
      assert ExcessIs(vault, b, stack, a) && ExcessBy(vault, b, b1, due.asset, Outstanding(due), a);
    }
    forall i ensures GapIs(b1, stack + [due], i) {
      assert GapIs(b, stack, i) && GapBy(b, b1, TaskOf(due), TaskOutstanding(due), i);
    }
  }

  /** The innermost call pays `x`, of which `y` on its task's account. */
  lemma CoveredOnPay(vault: Address, b: Books, b1: Books, stack: seq<Due>, due: Due, due1: Due, x: int, y: int)
    requires Covered(vault, b, stack + [due]) && Shifted(vault, b, b1, due.asset, -x, TaskOf(due), -y)
    requires due1.asset == due.asset && TaskOf(due1) == TaskOf(due)
    requires Outstanding(due1) == Outstanding(due) - x && TaskOutstanding(due1) == TaskOutstanding(due) - y
    ensures Covered(vault, b1, stack + [due1])
  {
    Pushed(stack, due);
    Pushed(stack, due1);
    forall a ensures ExcessIs(vault, b1, stack + [due1], a) {
      assert ExcessIs(vault, b, stack + [due], a) && ExcessBy(vault, b, b1, due.asset, -x, a);
    }
    forall i ensures GapIs(b1, stack + [due1], i) {
      assert GapIs(b, stack + [due], i) && GapBy(b, b1, TaskOf(due), -y, i);
    }
  }

  lemma CoveredOnPop(vault: Address, b: Books, b1: Books, stack: seq<Due>, due: Due)
    requires Covered(vault, b, stack + [due]) && TaskOutstanding(due) == 0
    requires Shifted(vault, b, b1, due.asset, -Outstanding(due), 0, 0)
    ensures Covered(vault, b1, stack)
  {
    Pushed(stack, due);
    forall a ensures ExcessIs(vault, b1, stack, a) {
      assert ExcessIs(vault, b, stack + [due], a) && ExcessBy(vault, b, b1, due.asset, -Outstanding(due), a);
    }
    forall i ensures GapIs(b1, stack, i) {
      assert GapIs(b, stack + [due], i) && GapBy(b, b1, 0, 0, i);
    }
  }

  lemma DuesOkReplaced(vault: Address, stack: seq<Due>, due: Due, due1: Due)
    requires DuesOk(vault, stack + [due]) && DueOk(vault, due1)
    ensures DueOk(vault, due) && DuesOk(vault, stack) && DuesOk(vault, stack + [due1])
  {
    assert (stack + [due])[|stack|] == due;
    forall i | 0 <= i < |stack| ensures DueOk(vault, stack[i]) {
      assert stack[i] == (stack + [due])[i];
    }
  }

  lemma LastDueOk(vault: Address, stack: seq<Due>, due: Due)
    requires DuesOk(vault, stack + [due])
    ensures DueOk(vault, due)
  {
    assert (stack + [due])[|stack|] == due;
  }

  // ---- One call's steps ---------------------------------------------------

  lemma BeginKeeps(h: Host, s: State, stack: seq<Due>, op: Op, p: Pending)
    requires Solvent(h.vault, s, stack) && Begin(h, s, op) == Ok(p)
    ensures Solvent(h.vault, p.s, stack + [p.due])
  {
    BeginBegun(h, s, op, p);
    CoveredOnPush(h.vault, s.books, p.s.books, stack, p.due);
  }

  /** Taking a line's fee moves it from what is to be paid out to what is owed to the fee recipient. */
  lemma TaxShifts(vault: Address, s: State, due: Due, s1: State, due1: Due)
    requires BooksInv(s.books) && CtlOk(s.ctl) && DueOk(vault, due)
    requires due.lines != [] && due.lines[0].Taxed? && Tax(s, due) == Ok((s1, due1))
    ensures var fee := LineDue(due.lines[0]) - LineDue(due1.lines[0]);
      && Posted(vault, s.books, s1.books, due.asset, -fee, TaskOf(due), 0)
      && Outstanding(due1) == Outstanding(due) - fee && TaskOutstanding(due1) == TaskOutstanding(due)
    ensures s1.ctl == s.ctl && DueOk(vault, due1)
    ensures due1.asset == due.asset && due1.task == due.task
  {
    var gross := due.lines[0].gross;
    var fee := ComputeFee(s.ctl, gross).value;
    FeeBounds(s.ctl, gross);
    AccruePosts(vault, s.books, s.ctl, due.asset, gross);
    ShiftNothing(vault, s.books, s1.books, due.asset, -fee, 0, due.asset, TaskOf(due));
    assert due1.lines[1..] == due.lines[1..];
  }

  lemma TaxKeeps(h: Host, s: State, stack: seq<Due>, due: Due, s1: State, due1: Due)
    requires due.lines != [] && Solvent(h.vault, s, stack + [due]) && Tax(s, due) == Ok((s1, due1))
    ensures Solvent(h.vault, s1, stack + [due1])
  {
    if due.lines[0].Taxed? {
      LastDueOk(h.vault, stack, due);
      TaxShifts(h.vault, s, due, s1, due1);
      DuesOkReplaced(h.vault, stack, due, due1);
      CoveredOnPay(h.vault, s.books, s1.books, stack, due, due1, LineDue(due.lines[0]) - LineDue(due1.lines[0]), 0);
    }
  }

  lemma RestDue(due: Due)
    requires due.lines != []
    ensures Outstanding(RestOf(due)) == Outstanding(due) - LineDue(due.lines[0])
    ensures due.task.Some? ==> TaskOutstanding(RestOf(due)) == TaskOutstanding(due) - LineGross(due.lines[0])
  {
  }

  lemma RestOk(vault: Address, due: Due)
    requires due.lines != [] && DueOk(vault, due)
    ensures DueOk(vault, RestOf(due))
    ensures due.lines[0].Pull? ==> due.lines[0].from != vault && due.lines[0].amount > 0 && due.task.None?
    ensures due.lines[0].Fixed? ==> due.lines[0].net >= 0 && due.lines[0].fee >= 0
  {
  }

  /** What a task is charged for its next line. */
  function TaskCharge(due: Due): int
    requires due.lines != []
  {
    if due.task.Some? then LineGross(due.lines[0]) else 0
  }

  lemma MoveAndLog(vault: Address, b: Books, b1: Books, e: Entry, asset: Address, to: Address, net: int, id: nat)
    requires BooksInv(b) && 0 <= net <= Held(b.tokens, vault, asset)
    requires b1 == Move(b, vault, to, asset, net) && e.Paid? && (e.payer == None || e.payer == Some(id))
    ensures Posted(vault, b, Log(b1, e), asset, VaultGain(vault, vault, to, net), id, -PaidPart(e, id))
  {
    var gain, y := VaultGain(vault, vault, to, net), -PaidPart(e, id);
    MovePosts(vault, b, vault, to, asset, net);
    PostedForTask(vault, b, b1, asset, gain, id);
    LogPosts(vault, b1, e, asset, id);
    PostTwice(vault, b, b1, Log(b1, e), asset, gain, gain, 0, id, y, 0, y);
  }

  lemma PayoutPosts(h: Host, b: Books, b2: Books, e: Entry, asset: Address, to: Address, net: int, id: nat)
    requires BooksInv(b) && 0 <= net <= Held(b.tokens, h.vault, asset)
    requires e.Paid? && (e.payer == None || e.payer == Some(id))
    requires b2 == Received(h, Log(Move(b, h.vault, to, asset, net), e), to, asset, net)
    ensures Posted(h.vault, b, b2, asset, -net, id, -PaidPart(e, id))
  {
    var b0 := Move(b, h.vault, to, asset, net);
    var b1 := Log(b0, e);
    var gain, y := VaultGain(h.vault, h.vault, to, net), -PaidPart(e, id);
    var x: int := if to == h.vault then -net else 0;
    MoveAndLog(h.vault, b, b0, e, asset, to, net, id);
    ReceivedPosts(h, b1, to, asset, net);
    PostedForTask(h.vault, b1, b2, asset, x, id);
    PostTwice(h.vault, b, b1, b2, asset, -net, gain, x, id, y, y, 0);
  }

  lemma PullPosts(h: Host, b: Books, asset: Address, from: Address, amount: int)
    requires BooksInv(b) && from != h.vault && 0 < amount <= Held(b.tokens, from, asset)
    ensures Posted(h.vault, b, Move(b, from, h.vault, asset, amount), asset, amount, 0, 0)
  {
    MovePosts(h.vault, b, from, h.vault, asset, amount);
  }

  lemma TransferPosts(h: Host, s: State, due: Due, s1: State)
    requires BooksInv(s.books) && DueOk(h.vault, due) && due.lines != [] && !due.lines[0].Taxed?
    requires Transfer(h, s, due) == Ok(s1)
    ensures Posted(h.vault, s.books, s1.books, due.asset, -LineDue(due.lines[0]), TaskOf(due), -TaskCharge(due))
    ensures s1.ctl == s.ctl
  {
    RestOk(h.vault, due);
    TransferShape(h, s, due, s1);
    match due.lines[0]
    case Pull(from, amount) => PullPosts(h, s.books, due.asset, from, amount);
    case Fixed(to, net, fee, rate) => PayoutPosts(h, s.books, s1.books, Paid(due.task, due.asset, to, net, fee, rate), due.asset, to, net, TaskOf(due));
  }

  lemma TransferShape(h: Host, s: State, due: Due, s1: State)
    requires due.lines != [] && !due.lines[0].Taxed? && Transfer(h, s, due) == Ok(s1)
    ensures s1.ctl == s.ctl
    ensures due.lines[0].Pull? ==> var l := due.lines[0];
      l.amount <= Held(s.books.tokens, l.from, due.asset) && s1.books == Move(s.books, l.from, h.vault, due.asset, l.amount)
    ensures due.lines[0].Fixed? ==> var l := due.lines[0];
      && 0 <= l.net <= Held(s.books.tokens, h.vault, due.asset)
      && s1.books == Received(h, Log(Move(s.books, h.vault, l.to, due.asset, l.net), Paid(due.task, due.asset, l.to, l.net, l.fee, l.rate)),
                              l.to, due.asset, l.net)
  {
  }

  lemma TransferKeeps(h: Host, s: State, stack: seq<Due>, due: Due, s1: State)
    requires due.lines != [] && !due.lines[0].Taxed? && Solvent(h.vault, s, stack + [due])
    requires Transfer(h, s, due) == Ok(s1)
    ensures Solvent(h.vault, s1, stack + [RestOf(due)])
  {
    LastDueOk(h.vault, stack, due);
    TransferPosts(h, s, due, s1);
    RestDue(due);
    RestOk(h.vault, due);
    DuesOkReplaced(h.vault, stack, due, RestOf(due));
    CoveredOnPay(h.vault, s.books, s1.books, stack, due, RestOf(due), LineDue(due.lines[0]), TaskCharge(due));
  }

  lemma FinishPosts(vault: Address, s: State, due: Due, s1: State)
    requires BooksInv(s.books) && DueOk(vault, due) && due.lines == [] && Finish(s, due) == Ok(s1)
    ensures Posted(vault, s.books, s1.books, due.asset, -Outstanding(due), 0, 0) && s1.ctl == s.ctl
  {
    match due.fin
    case Emit(events) =>
      PublishPosts(vault, s.books, events);
      ShiftNothing(vault, s.books, s1.books, 0, 0, 0, due.asset, 0);
    case CreditUser(user, amount) => CreditPosts(vault, s.books, user, due.asset, amount);
  }

  lemma FinishKeeps(h: Host, s: State, stack: seq<Due>, due: Due, s1: State)
    requires due.lines == [] && Solvent(h.vault, s, stack + [due]) && Finish(s, due) == Ok(s1)
    ensures Solvent(h.vault, s1, stack)
  {
    DuesOkReplaced(h.vault, stack, due, Nothing);
    FinishPosts(h.vault, s, due, s1);
    CoveredOnPop(h.vault, s.books, s1.books, stack, due);
  }

  lemma SolventInductive(h: Host)
    ensures Inductive(h, SolventIn(h)) && OnWait(h, SolventIn(h))
  {
    var J := SolventIn(h);
    forall s, stack, op | J(s, stack) && Begin(h, Noted(s, op), op).Ok?
      ensures J(Begin(h, Noted(s, op), op).value.s, stack + [Begin(h, Noted(s, op), op).value.due])
    {
      var s0 := Noted(s, op);
      assert J(s0, stack);
      BeginKeeps(h, s0, stack, op, Begin(h, s0, op).value);
    }
    forall s, stack, due: Due | due.lines != [] && J(s, stack + [due]) && Tax(s, due).Ok?
      ensures J(Tax(s, due).value.0, stack + [Tax(s, due).value.1])
    {
      TaxKeeps(h, s, stack, due, Tax(s, due).value.0, Tax(s, due).value.1);
    }
    forall s, stack, due: Due |
      due.lines != [] && !due.lines[0].Taxed? && J(s, stack + [due]) && Transfer(h, s, due).Ok?
      ensures J(Transfer(h, s, due).value, stack + [RestOf(due)])
    {
      TransferKeeps(h, s, stack, due, Transfer(h, s, due).value);
    }
    forall s, stack, due: Due | due.lines == [] && J(s, stack + [due]) && Finish(s, due).Ok?
      ensures J(Finish(s, due).value, stack)
    {
      FinishKeeps(h, s, stack, due, Finish(s, due).value);
    }
  }

  // ---- Consequences -------------------------------------------------------

  /** Money is never owed in the negative: what open tasks spent is covered by what they lock. */
  lemma OwedNonNegative(b: Books, asset: Address)
    requires BooksInv(b)
    ensures Owed(b, asset) >= 0
  {
    forall id | id in b.tasks ensures OpenSpentIn(asset)(id, b.tasks[id]) <= OpenPlanIn(asset)(id, b.tasks[id]) {
      assert TaskOk(b.tasks, b.counter, b.accounts.Keys, b.configs.Keys, id);
    }
    TotalMonotone(b.tasks, OpenSpentIn(asset), OpenPlanIn(asset));
    forall k | k in b.accounts ensures LockedIn(asset)(k, b.accounts[k]) <= BalanceIn(asset)(k, b.accounts[k]) {
      assert AccountOk(b.accounts, b.tasks, k);
    }
    TotalMonotone(b.accounts, LockedIn(asset), BalanceIn(asset));
    assert LockOk(b.accounts, b.tasks, asset);
    assert FeeIn(b.fees, asset) >= 0;
  }

  lemma {:induction false} GiftsNonNegative(journal: seq<Entry>, asset: Address)
    ensures Sum(journal, GiftsOf(asset)) >= 0
  {
    if journal != [] {
      GiftsNonNegative(journal[..|journal| - 1], asset);
    }
  }

  lemma {:induction false} StackNonNegative(vault: Address, stack: seq<Due>, asset: Address)
    requires DuesOk(vault, stack)
    ensures StackDue(stack, asset) >= 0
  {
    if stack != [] {
      var last := stack[|stack| - 1];
      var rest := stack[..|stack| - 1];
      assert stack == rest + [last];
      LastDueOk(vault, rest, last);
      DuesOkReplaced(vault, rest, last, last);
      StackNonNegative(vault, rest, asset);
      OutstandingNonNegative(vault, last);
    }
  }

  /** The vault's tokens cover what it owes and, on top, all that the innermost call has still to pay. */
  ghost predicate Funded(vault: Address, b: Books, due: Due) {
    && BooksInv(b)
    && forall asset :: FundedIn(vault, b, due, asset)
  }

  ghost predicate FundedIn(vault: Address, b: Books, due: Due, asset: Address) {
    Excess(vault, b, asset) >= if asset == due.asset then Outstanding(due) else 0
  }

  lemma InnermostFunded(h: Host, s: State, stack: seq<Due>, due: Due)
    requires Solvent(h.vault, s, stack + [due])
    ensures Funded(h.vault, s.books, due)
  {
    LastDueOk(h.vault, stack, due);
    DuesOkReplaced(h.vault, stack, due, due);
    Pushed(stack, due);
    forall asset ensures FundedIn(h.vault, s.books, due, asset) {
      assert ExcessIs(h.vault, s.books, stack + [due], asset);
      StackNonNegative(h.vault, stack, asset);
    }
  }

  lemma InitialSolvent(h: Host, s: State)
    requires Initial(h, s)
    ensures Solvent(h.vault, s, [])
  {
    forall asset ensures ExcessIs(h.vault, s.books, [], asset) {
    }
  }

  /** No money is in flight between calls: the vault holds exactly what it owes and what it was given. */
  ghost predicate Balanced(vault: Address, b: Books) {
    && (forall asset :: Held(b.tokens, vault, asset) == Owed(b, asset) + Sum(b.journal, GiftsOf(asset)))
    && (forall id | id in b.tasks :: b.tasks[id].spent == Sum(b.journal, PaidFor(id)))
  }

  lemma SolventBalanced(h: Host, s: State)
    requires Solvent(h.vault, s, [])
    ensures BooksInv(s.books) && Balanced(h.vault, s.books)
  {
    forall asset ensures Held(s.books.tokens, h.vault, asset) == Owed(s.books, asset) + Sum(s.books.journal, GiftsOf(asset)) {
      assert ExcessIs(h.vault, s.books, [], asset);
    }
    forall id | id in s.books.tasks ensures s.books.tasks[id].spent == Sum(s.books.journal, PaidFor(id)) {
      assert GapIs(s.books, [], id);
    }
  }

  /**
   * The main theorem. After every run the books balance, and every transfer of
   * the run, however deep in re-entrant calls, was handed over by a vault whose
   * tokens covered all debts and all that the paying call had still to pay.
   */
  lemma AlwaysSolvent(h: Host, s0: State, steps: seq<Step>)
    requires Initial(h, s0)
    ensures var r := Run(h, s0, steps);
      && BooksInv(r.s.books) && CtlOk(r.s.ctl) && Balanced(h.vault, r.s.books)
      && forall i | 0 <= i < |r.seen| :: Funded(h.vault, r.seen[i].s.books, r.seen[i].due)
  {
    InitialSolvent(h, s0);
    SolventInductive(h);
    RunKeeps(h, SolventIn(h), s0, steps);
    var r := Run(h, s0, steps);
    SolventBalanced(h, r.s);
    forall i | 0 <= i < |r.seen| ensures Funded(h.vault, r.seen[i].s.books, r.seen[i].due) {
      assert HeldAt(SolventIn(h), r.seen[i]);
      var stack :| SolventIn(h)(r.seen[i].s, stack + [r.seen[i].due]);
      InnermostFunded(h, r.seen[i].s, stack, r.seen[i].due);
    }
  }

  /** A funded vault has the tokens for the next payment. */
  lemma PayoutSucceeds(h: Host, s: State, stack: seq<Due>, due: Due)
    requires Solvent(h.vault, s, stack + [due]) && due.lines != [] && due.lines[0].Fixed?
    ensures Transfer(h, s, due).Ok?
  {
    LastDueOk(h.vault, stack, due);
    InnermostFunded(h, s, stack, due);
    assert FundedIn(h.vault, s.books, due, due.asset);
    OwedNonNegative(s.books, due.asset);
    GiftsNonNegative(s.books.journal, due.asset);
    LinesNonNegative(due.lines);
  }

  /**
   * No payment of any run ever fails for want of tokens, whatever calls the
   * token contract makes before it moves them.
   */
  lemma PayoutsNeverFail(h: Host, s0: State, steps: seq<Step>, i: nat, calls: seq<Call>)
    requires Initial(h, s0) && i < |Run(h, s0, steps).seen|
    requires var x := Run(h, s0, steps).seen[i]; x.due.lines != [] && x.due.lines[0].Fixed?
    ensures var x := Run(h, s0, steps).seen[i]; Transfer(h, RunAll(h, x.s, calls).s, x.due).Ok?
  {
    var J := SolventIn(h);
    InitialSolvent(h, s0);
    SolventInductive(h);
    RunKeeps(h, J, s0, steps);
    var x := Run(h, s0, steps).seen[i];
    assert HeldAt(J, x);
    var stack :| J(x.s, stack + [x.due]);
    RunAllKeeps(h, J, x.s, stack + [x.due], calls);
    PayoutSucceeds(h, RunAll(h, x.s, calls).s, stack, x.due);
  }

  lemma ReachableSolvent(h: Host, s: State)
    requires Reachable(h, s)
    ensures Solvent(h.vault, s, [])
  {
    var s0, steps :| Initial(h, s0) && s == Run(h, s0, steps).s;
    InitialSolvent(h, s0);
    SolventInductive(h);
    RunKeeps(h, SolventIn(h), s0, steps);
  }
}
