/**
 * A user can always leave: from every solvent state, paused or not, cancelling
 * all undisputed tasks succeeds, and then the whole balance but the plan costs
 * of the disputed ones can be withdrawn.
 */
module UserExit {
  import opened Base
  import opened Totals
  import opened VaultState
  import opened BookKeeping
  import opened Vault
  import opened Execution
  import opened Ledger
  import opened EntryPoints
  import opened Solvency

  // ---- Room for what open tasks may still realise -------------------------

  lemma {:induction false} OutflowsNonNegative(journal: seq<Entry>, user: Address, asset: Address)
    ensures Sum(journal, WithdrawnFrom(user, asset)) >= 0 && Sum(journal, RefundedTo(user, asset)) >= 0
  {
    if journal != [] {
      OutflowsNonNegative(journal[..|journal| - 1], user, asset);
    }
  }

  /** What an account has spent and still holds never exceeds what was deposited. */
  lemma SpentWithinDeposits(b: Books, user: Address, asset: Address)
    requires BooksInv(b) && (user, asset) in b.accounts
    ensures var acc := b.accounts[(user, asset)]; acc.totalSpent + acc.balance <= acc.totalDeposited <= I128_MAX
  {
    assert AccountOk(b.accounts, b.tasks, (user, asset));
    assert HistoryOf(b.accounts, b.journal, user, asset);
    OutflowsNonNegative(b.journal, user, asset);
  }

  lemma OpenTaskFits(b: Books, id: nat)
    requires BooksInv(b) && id in b.tasks && !b.tasks[id].completed
    ensures var t := b.tasks[id];
      && Closable(b, id, None)
      && b.accounts[(t.user, t.asset)].totalSpent + t.spent <= I128_MAX
      && b.configs[t.user].activeTasks >= 1
  {
    var t := b.tasks[id];
    assert TaskOk(b.tasks, b.counter, b.accounts.Keys, b.configs.Keys, id);
    SpentWithinDeposits(b, t.user, t.asset);
    assert AccountOk(b.accounts, b.tasks, (t.user, t.asset));
    forall i | i in b.tasks ensures OpenPlanOf(t.user, t.asset)(i, b.tasks[i]) >= 0 && OpenTaskOf(t.user)(i, b.tasks[i]) >= 0 {
      assert TaskOk(b.tasks, b.counter, b.accounts.Keys, b.configs.Keys, i);
    }
    TotalBounds(b.tasks, OpenPlanOf(t.user, t.asset));
    TotalBounds(b.tasks, OpenTaskOf(t.user));
    assert OpenPlanOf(t.user, t.asset)(id, t) == t.planCost && OpenTaskOf(t.user)(id, t) == 1;
    assert CountOk(b.configs, b.tasks, t.user);
  }

  // ---- Cancelling ---------------------------------------------------------

  predicate Cancellable(tasks: Tasks, user: Address, id: nat) {
    id in tasks && tasks[id].user == user && !tasks[id].completed && !tasks[id].disputed
  }

  function Quietly(op: Op): Call {
    Call(op, [])
  }

  function Cancels(user: Address, ids: seq<U64>): seq<Call> {
    if ids == [] then [] else [Quietly(CancelTask(user, ids[0]))] + Cancels(user, ids[1..])
  }

  /** Every call of a sequence succeeds in its turn. */
  ghost predicate AllSucceed(h: Host, s: State, calls: seq<Call>)
    decreases |calls|
  {
    calls != [] ==> Exec(h, s, calls[0]).r.Ok? && AllSucceed(h, Exec(h, s, calls[0]).r.value, calls[1..])
  }

  function Cancelled(s: State, user: Address, id: U64): State
    requires id in s.books.tasks
    requires (s.books.tasks[id].user, s.books.tasks[id].asset) in s.books.accounts && s.books.tasks[id].user in s.books.configs
  {
    Noted(s, CancelTask(user, id)).(books := Publish(CloseTask(s.books, id, None), []))
  }

  lemma CancelSucceeds(h: Host, s: State, user: Address, id: U64)
    requires Solvent(h.vault, s, []) && user != h.vault && Cancellable(s.books.tasks, user, id)
    ensures Closable(s.books, id, None)
    ensures Exec(h, s, Quietly(CancelTask(user, id))).r == Ok(Cancelled(s, user, id))
    ensures Solvent(h.vault, Cancelled(s, user, id), [])
  {
    OpenTaskFits(s.books, id);
    CancelExec(h, s, user, id);
    SolventInductive(h);
    ExecKeeps(h, SolventIn(h), s, [], Quietly(CancelTask(user, id)));
  }

  lemma CancelExec(h: Host, s: State, user: Address, id: U64)
    requires user != h.vault && Cancellable(s.books.tasks, user, id) && Closable(s.books, id, None)
    requires var t := s.books.tasks[id];
      s.books.accounts[(t.user, t.asset)].totalSpent + t.spent <= I128_MAX && s.books.configs[t.user].activeTasks >= 1
    ensures Exec(h, s, Quietly(CancelTask(user, id))).r == Ok(Cancelled(s, user, id))
  {
    var s0 := Noted(s, CancelTask(user, id));
    assert BeginCancel(h, s0, user, id) == Ok(Pending(s0.(books := CloseTask(s.books, id, None)), Nothing));
  }

  /** A disputed open task of an account, with its plan cost. */
  ghost function DisputedPlanOf(user: Address, asset: Address): (nat, Task) -> int {
    (id: nat, t: Task) => if t.user == user && t.asset == asset && !t.completed && t.disputed then t.planCost else 0
  }

  ghost function UndisputedSpentOf(user: Address, asset: Address): (nat, Task) -> int {
    (id: nat, t: Task) => if t.user == user && t.asset == asset && !t.completed && !t.disputed then t.spent else 0
  }

  /** One cancellation: the task is completed, and the account gives up what the task spent. */
  lemma CancelEffect(s: State, user: Address, asset: Address, id: U64)
    requires Cancellable(s.books.tasks, user, id) && Closable(s.books, id, None)
    ensures var b, b1 := s.books, Cancelled(s, user, id).books;
      && b1.tasks == b.tasks[id := b.tasks[id].(completed := true)]
      && b1.accounts.Keys == b.accounts.Keys
      && Total(b1.tasks, DisputedPlanOf(user, asset)) == Total(b.tasks, DisputedPlanOf(user, asset))
      && ((user, asset) in b.accounts ==>
            b1.accounts[(user, asset)].balance - Total(b1.tasks, UndisputedSpentOf(user, asset))
            == b.accounts[(user, asset)].balance - Total(b.tasks, UndisputedSpentOf(user, asset)))
  {
    var b, t := s.books, s.books.tasks[id];
    CloseShape(b, id, None);
    TotalUpdate<nat, Task>(b.tasks, DisputedPlanOf(user, asset), id, t.(completed := true));
    TotalUpdate<nat, Task>(b.tasks, UndisputedSpentOf(user, asset), id, t.(completed := true));
  }

  lemma {:induction false} CancelAll(h: Host, s: State, user: Address, asset: Address, ids: seq<U64>)
    requires Solvent(h.vault, s, []) && user != h.vault && Distinct(ids)
    requires forall id :: Cancellable(s.books.tasks, user, id) <==> id in ids
    ensures AllSucceed(h, s, Cancels(user, ids))
    ensures var s1 := RunAll(h, s, Cancels(user, ids)).s;
      && Solvent(h.vault, s1, [])
      && (forall id :: !Cancellable(s1.books.tasks, user, id))
      && s1.books.accounts.Keys == s.books.accounts.Keys
      && Total(s1.books.tasks, DisputedPlanOf(user, asset)) == Total(s.books.tasks, DisputedPlanOf(user, asset))
      && ((user, asset) in s.books.accounts ==>
            s1.books.accounts[(user, asset)].balance - Total(s1.books.tasks, UndisputedSpentOf(user, asset))
            == s.books.accounts[(user, asset)].balance - Total(s.books.tasks, UndisputedSpentOf(user, asset)))
    decreases |ids|
  {
    if ids != [] {
      assert Cancellable(s.books.tasks, user, ids[0]);
      CancelSucceeds(h, s, user, ids[0]);
      CancelEffect(s, user, asset, ids[0]);
      var s1 := Cancelled(s, user, ids[0]);
      forall id ensures Cancellable(s1.books.tasks, user, id) <==> id in ids[1..] {
        assert Cancellable(s.books.tasks, user, id) <==> id in ids;
        assert id in ids <==> id == ids[0] || id in ids[1..];
      }
      CancelAll(h, s1, user, asset, ids[1..]);
      var calls := Cancels(user, ids);
      assert calls[0] == Quietly(CancelTask(user, ids[0])) && calls[1..] == Cancels(user, ids[1..]);
    }
  }

  // ---- Withdrawing --------------------------------------------------------

  /** With nothing left to cancel, only disputed tasks keep money locked. */
  lemma OnlyDisputedLocked(b: Books, user: Address, asset: Address)
    requires BooksInv(b) && (user, asset) in b.accounts
    requires forall id :: !Cancellable(b.tasks, user, id)
    ensures b.accounts[(user, asset)].locked == Total(b.tasks, DisputedPlanOf(user, asset))
    ensures Total(b.tasks, UndisputedSpentOf(user, asset)) == 0
  {
    forall id | id in b.tasks
      ensures OpenPlanOf(user, asset)(id, b.tasks[id]) == DisputedPlanOf(user, asset)(id, b.tasks[id])
      ensures UndisputedSpentOf(user, asset)(id, b.tasks[id]) == 0
    {
      assert !Cancellable(b.tasks, user, id);
    }
    TotalEqual(b.tasks, OpenPlanOf(user, asset), DisputedPlanOf(user, asset));
    ZeroTotal(b.tasks, UndisputedSpentOf(user, asset));
    assert AccountOk(b.accounts, b.tasks, (user, asset));
  }

  /** What a withdrawal leaves behind. */
  function Withdrawn(h: Host, s: State, user: Address, asset: Address, amount: I128): State
    requires (user, asset) in s.books.accounts && amount > 0
  {
    var b1 := Debit(s.books, user, asset, amount);
    var b2 := Log(Move(b1, h.vault, user, asset, amount), Paid(None, asset, user, amount, 0, NoFee));
    Noted(s, Withdraw(user, asset, amount)).(books := Publish(b2, [WithdrawEvent(user, asset, amount)]))
  }

  lemma WithdrawSucceeds(h: Host, s: State, user: Address, asset: Address, amount: I128)
    requires Solvent(h.vault, s, []) && user != h.vault && (user, asset) in s.books.accounts
    requires 0 < amount <= Available(s.books, user, asset)
    ensures Exec(h, s, Quietly(Withdraw(user, asset, amount))).r == Ok(Withdrawn(h, s, user, asset, amount))
  {
    OwnerKnown(s.books, user, asset);
    assert AccountOk(s.books.accounts, s.books.tasks, (user, asset));
    var s0 := Noted(s, Withdraw(user, asset, amount));
    var p := Pending(s0.(books := Debit(s.books, user, asset, amount)),
                     Due(asset, None, [Fixed(user, amount, 0, NoFee)], Emit([WithdrawEvent(user, asset, amount)])));
    assert BeginWithdraw(h, s0, user, asset, amount) == Ok(p);
    BeginKeeps(h, s0, [], Withdraw(user, asset, amount), p);
    PayoutSucceeds(h, p.s, [], p.due);
    WithdrawExec(h, s, p, user, asset, amount);
  }

  lemma WithdrawExec(h: Host, s: State, p: Pending, user: Address, asset: Address, amount: I128)
    requires (user, asset) in s.books.accounts && amount > 0 && user != h.vault
    requires var s0 := Noted(s, Withdraw(user, asset, amount));
      && Begin(h, s0, Withdraw(user, asset, amount)) == Ok(p)
      && p == Pending(s0.(books := Debit(s.books, user, asset, amount)),
                      Due(asset, None, [Fixed(user, amount, 0, NoFee)], Emit([WithdrawEvent(user, asset, amount)])))
    requires Transfer(h, p.s, p.due).Ok?
    ensures Exec(h, s, Quietly(Withdraw(user, asset, amount))).r == Ok(Withdrawn(h, s, user, asset, amount))
  {
    var s2 := Transfer(h, p.s, p.due).value;
    assert RestOf(p.due).lines == [];
    assert Settle(h, s2, RestOf(p.due), []).r == Finish(s2, RestOf(p.due));
    assert Settle(h, p.s, p.due, []).r == Finish(s2, RestOf(p.due));
  }

  /** A withdrawal of `free` succeeds, reaches the user, and leaves `rest` in the account. */
  ghost predicate TakesOut(h: Host, s: State, user: Address, asset: Address, free: I128, rest: int) {
    match Exec(h, s, Quietly(Withdraw(user, asset, free))).r
    case Err(_) => false
    case Ok(s1) =>
      && AccountIn(s1.books.accounts, user, asset).balance == rest
      && Held(s1.books.tokens, user, asset) == Held(s.books.tokens, user, asset) + free
  }

  lemma WithdrawTakesOut(h: Host, s: State, user: Address, asset: Address, amount: I128)
    requires Solvent(h.vault, s, []) && user != h.vault && (user, asset) in s.books.accounts
    requires 0 < amount <= Available(s.books, user, asset)
    ensures TakesOut(h, s, user, asset, amount, s.books.accounts[(user, asset)].balance - amount)
  {
    WithdrawSucceeds(h, s, user, asset, amount);
  }

  lemma TakeOutFree(h: Host, s: State, user: Address, asset: Address)
    requires Solvent(h.vault, s, []) && user != h.vault && (user, asset) in s.books.accounts
    requires forall id :: !Cancellable(s.books.tasks, user, id)
    ensures var disputed := Total(s.books.tasks, DisputedPlanOf(user, asset));
      var free := s.books.accounts[(user, asset)].balance - disputed;
      && Total(s.books.tasks, UndisputedSpentOf(user, asset)) == 0
      && 0 <= free <= I128_MAX && (free > 0 ==> TakesOut(h, s, user, asset, free, disputed))
  {
    OnlyDisputedLocked(s.books, user, asset);
    assert AccountOk(s.books.accounts, s.books.tasks, (user, asset));
    SpentWithinDeposits(s.books, user, asset);
    var free := Available(s.books, user, asset);
    if free > 0 {
      WithdrawTakesOut(h, s, user, asset, free);
    }
  }

  /** What the user gets out at once: the balance, less what undisputed tasks have spent and disputed ones reserve. */
  ghost function ExitAmount(b: Books, user: Address, asset: Address): int
    requires (user, asset) in b.accounts
  {
    b.accounts[(user, asset)].balance - Total(b.tasks, UndisputedSpentOf(user, asset)) - Total(b.tasks, DisputedPlanOf(user, asset))
  }

  /** After these cancellations the exit amount can be withdrawn, and only disputed plans are left behind. */
  ghost predicate CanExit(h: Host, s: State, user: Address, asset: Address, ids: seq<U64>)
    requires (user, asset) in s.books.accounts
  {
    var free, s1 := ExitAmount(s.books, user, asset), RunAll(h, s, Cancels(user, ids)).s;
    && 0 <= free <= I128_MAX
    && (free > 0 ==> TakesOut(h, s1, user, asset, free, Total(s.books.tasks, DisputedPlanOf(user, asset))))
  }

  /** The exit: all cancellations succeed, then the free balance can be withdrawn and leaves only disputed plans behind. */
  lemma Exit(h: Host, s: State, user: Address, asset: Address, ids: seq<U64>)
    requires Solvent(h.vault, s, []) && user != h.vault && Distinct(ids) && (user, asset) in s.books.accounts
    requires forall id :: Cancellable(s.books.tasks, user, id) <==> id in ids
    ensures AllSucceed(h, s, Cancels(user, ids)) && CanExit(h, s, user, asset, ids)
  {
    CancelAll(h, s, user, asset, ids);
    assert (user, asset) in s.books.accounts.Keys;
    ExitWith(h, s, RunAll(h, s, Cancels(user, ids)).s, user, asset);
  }

  /** The withdrawal after the cancellations, which led to `s1`. */
  lemma ExitWith(h: Host, s: State, s1: State, user: Address, asset: Address)
    requires Solvent(h.vault, s1, []) && user != h.vault && (user, asset) in s.books.accounts && (user, asset) in s1.books.accounts
    requires forall id :: !Cancellable(s1.books.tasks, user, id)
    requires Total(s1.books.tasks, DisputedPlanOf(user, asset)) == Total(s.books.tasks, DisputedPlanOf(user, asset))
    requires s1.books.accounts[(user, asset)].balance - Total(s1.books.tasks, UndisputedSpentOf(user, asset))
      == s.books.accounts[(user, asset)].balance - Total(s.books.tasks, UndisputedSpentOf(user, asset))
    ensures var free := ExitAmount(s.books, user, asset);
      && 0 <= free <= I128_MAX
      && (free > 0 ==> TakesOut(h, s1, user, asset, free, Total(s.books.tasks, DisputedPlanOf(user, asset))))
  {
    TakeOutFree(h, s1, user, asset);
    SameExit(h, s.books, s1, user, asset, ExitAmount(s.books, user, asset));
  }

  lemma SameExit(h: Host, b: Books, s1: State, user: Address, asset: Address, free: int)
    requires (user, asset) in b.accounts && (user, asset) in s1.books.accounts && free == ExitAmount(b, user, asset)
    requires Total(s1.books.tasks, DisputedPlanOf(user, asset)) == Total(b.tasks, DisputedPlanOf(user, asset))
    requires Total(s1.books.tasks, UndisputedSpentOf(user, asset)) == 0
    requires s1.books.accounts[(user, asset)].balance == b.accounts[(user, asset)].balance - Total(b.tasks, UndisputedSpentOf(user, asset))
    ensures free == s1.books.accounts[(user, asset)].balance - Total(s1.books.tasks, DisputedPlanOf(user, asset))
  {
  }

  /** A finite set of task ids can be listed, each once. */
  lemma {:induction false} Listed(tasks: set<nat>) returns (ids: seq<U64>)
    requires forall id | id in tasks :: id <= U64_MAX
    ensures Distinct(ids) && forall id: nat :: id in ids <==> id in tasks
    decreases |tasks|
  {
    if tasks == {} {
      ids := [];
    } else {
      var last :| last in tasks;
      var init := Listed(tasks - {last});
      ids := init + [last];
      forall id: nat ensures id in ids <==> id in tasks {
        assert id in ids <==> id in init || id == last;
      }
    }
  }

  /**
   * A list of cancellations with which a user leaves: exactly the open,
   * undisputed tasks, all cancelled successfully in turn, after which the exit
   * amount of each of the user's accounts can be withdrawn.
   */
  ghost predicate Leaves(h: Host, s: State, user: Address, ids: seq<U64>) {
    && Distinct(ids) && (forall id :: Cancellable(s.books.tasks, user, id) <==> id in ids)
    && AllSucceed(h, s, Cancels(user, ids))
    && forall asset | (user, asset) in s.books.accounts :: CanExit(h, s, user, asset, ids)
  }

  lemma CancellableListed(b: Books, user: Address) returns (ids: seq<U64>)
    requires BooksInv(b)
    ensures Distinct(ids) && forall id :: Cancellable(b.tasks, user, id) <==> id in ids
  {
    var open := set id | id in b.tasks && Cancellable(b.tasks, user, id);
    forall id | id in open ensures id <= U64_MAX {
      assert TaskOk(b.tasks, b.counter, b.accounts.Keys, b.configs.Keys, id);
    }
    ids := Listed(open);
    forall id ensures Cancellable(b.tasks, user, id) <==> id in ids {
      assert Cancellable(b.tasks, user, id) <==> id in open;
    }
  }

  /** From every reachable state, paused or not, every user can leave. */
  lemma ExitFromReachable(h: Host, s: State, user: Address)
    requires Reachable(h, s) && user != h.vault
    ensures exists ids :: Leaves(h, s, user, ids)
  {
    ReachableSolvent(h, s);
    var ids := CancellableListed(s.books, user);
    CancelAll(h, s, user, 0, ids);
    forall asset | (user, asset) in s.books.accounts ensures CanExit(h, s, user, asset, ids) {
      Exit(h, s, user, asset, ids);
    }
    assert Leaves(h, s, user, ids);
  }
}
