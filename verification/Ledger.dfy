/**
 * The invariant of the books, posting by posting: locks, counts and indexes
 * agree with the tasks, accounts agree with their history, and every posting
 * changes what the vault owes by a known amount.
 */
module Ledger {
  import opened Base
  import opened Bytes
  import opened Totals
  import opened VaultState
  import opened BookKeeping

  type AccountKey = (Address, Address)

  // ---- Weights ------------------------------------------------------------

  ghost function BalanceIn(asset: Address): (AccountKey, Account) -> int {
    (k: AccountKey, acc: Account) => if k.1 == asset then acc.balance else 0
  }

  ghost function LockedIn(asset: Address): (AccountKey, Account) -> int {
    (k: AccountKey, acc: Account) => if k.1 == asset then acc.locked else 0
  }

  /** What an open task reserves, has spent, and counts for; a completed one nothing. */
  function OpenPlan(t: Task): int {
    if t.completed then 0 else t.planCost
  }

  function OpenSpent(t: Task): int {
    if t.completed then 0 else t.spent
  }

  function OpenCount(t: Task): int {
    if t.completed then 0 else 1
  }

  ghost function OpenSpentIn(asset: Address): (nat, Task) -> int {
    (id: nat, t: Task) => if t.asset == asset then OpenSpent(t) else 0
  }

  ghost function OpenPlanIn(asset: Address): (nat, Task) -> int {
    (id: nat, t: Task) => if t.asset == asset then OpenPlan(t) else 0
  }

  ghost function OpenPlanOf(user: Address, asset: Address): (nat, Task) -> int {
    (id: nat, t: Task) => if t.user == user && t.asset == asset then OpenPlan(t) else 0
  }

  ghost function OpenTaskOf(user: Address): (nat, Task) -> int {
    (id: nat, t: Task) => if t.user == user then OpenCount(t) else 0
  }

  /** The account an entry is about, if it is about one. */
  predicate About(e: Entry, user: Address, asset: Address) {
    (e.Deposited? || e.Withdrew? || e.Direct? || e.Finished? || e.Settled?) && e.user == user && e.asset == asset
  }

  function DepositPart(e: Entry): int {
    if e.Deposited? then e.amount else 0
  }

  function WithdrawPart(e: Entry): int {
    if e.Withdrew? then e.quantity else 0
  }

  function RefundPart(e: Entry): int {
    if e.Settled? then e.refund else 0
  }

  /** What leaves an account for good as spending: a direct spend, a finished task, a settled dispute. */
  function SpentPart(e: Entry): int {
    match e
    case Direct(_, _, amount) => amount
    case Finished(_, _, _, _, spent) => spent
    case Settled(_, _, _, _, spent, _, payout) => spent + payout
    case _ => 0
  }

  ghost function DepositedTo(user: Address, asset: Address): Entry -> int {
    (e: Entry) => if About(e, user, asset) then DepositPart(e) else 0
  }

  ghost function WithdrawnFrom(user: Address, asset: Address): Entry -> int {
    (e: Entry) => if About(e, user, asset) then WithdrawPart(e) else 0
  }

  ghost function RefundedTo(user: Address, asset: Address): Entry -> int {
    (e: Entry) => if About(e, user, asset) then RefundPart(e) else 0
  }

  ghost function SpentBy(user: Address, asset: Address): Entry -> int {
    (e: Entry) => if About(e, user, asset) then SpentPart(e) else 0
  }

  function GiftPart(e: Entry, asset: Address): int {
    if e.Gift? && e.asset == asset then e.quantity else 0
  }

  /** A payout made for a task, with the fee kept from it. */
  function PaidPart(e: Entry, id: nat): int {
    if e.Paid? && e.payer == Some(id) then e.net + e.fee else 0
  }

  ghost function GiftsOf(asset: Address): Entry -> int {
    (e: Entry) => GiftPart(e, asset)
  }

  ghost function PaidFor(id: nat): Entry -> int {
    (e: Entry) => PaidPart(e, id)
  }

  // ---- The invariant ------------------------------------------------------

  type Accounts = map<AccountKey, Account>
  type Tasks = map<nat, Task>

  ghost predicate AccountOk(accounts: Accounts, tasks: Tasks, k: AccountKey)
    requires k in accounts
  {
    var acc := accounts[k];
    && 0 <= acc.locked <= acc.balance
    && 0 <= acc.totalSpent && 0 <= acc.totalDeposited <= I128_MAX
    && acc.locked == Total(tasks, OpenPlanOf(k.0, k.1))
  }

  ghost predicate AccountsOk(accounts: Accounts, tasks: Tasks) {
    forall k {:trigger AccountOk(accounts, tasks, k)} | k in accounts :: AccountOk(accounts, tasks, k)
  }

  /** Whoever has an account has a configuration record. */
  ghost predicate OwnersOk(accounts: set<AccountKey>, configs: set<Address>) {
    forall k | k in accounts :: k.0 in configs
  }

  ghost predicate TaskOk(tasks: Tasks, counter: nat, accounts: set<AccountKey>, configs: set<Address>, id: nat)
    requires id in tasks
  {
    var t := tasks[id];
    && 1 <= id <= counter <= U64_MAX
    && 0 <= t.spent <= t.planCost && 0 < t.planCost <= I128_MAX
    && (t.user, t.asset) in accounts && t.user in configs
  }

  ghost predicate TasksOk(tasks: Tasks, counter: nat, accounts: set<AccountKey>, configs: set<Address>) {
    forall id {:trigger TaskOk(tasks, counter, accounts, configs, id)} | id in tasks ::
      TaskOk(tasks, counter, accounts, configs, id)
  }

  ghost predicate LockOk(accounts: Accounts, tasks: Tasks, asset: Address) {
    Total(accounts, LockedIn(asset)) == Total(tasks, OpenPlanIn(asset))
  }

  ghost predicate LocksOk(accounts: Accounts, tasks: Tasks) {
    forall asset :: LockOk(accounts, tasks, asset)
  }

  ghost predicate CountOk(configs: map<Address, Config>, tasks: Tasks, user: Address)
    requires user in configs
  {
    configs[user].activeTasks == Total(tasks, OpenTaskOf(user))
  }

  ghost predicate CountsOk(configs: map<Address, Config>, tasks: Tasks) {
    forall user {:trigger CountOk(configs, tasks, user)} | user in configs :: CountOk(configs, tasks, user)
  }

  ghost predicate Distinct<T(!new)>(s: seq<T>) {
    forall i, j | 0 <= i < j < |s| :: s[i] != s[j]
  }

  type Steps = map<(nat, U64), int>

  /** The sum of a task's step records, taken along its index. */
  ghost function SumSteps(steps: Steps, id: nat, ids: seq<U64>): int {
    if ids == [] then 0
    else
      var last := ids[|ids| - 1];
      SumSteps(steps, id, ids[..|ids| - 1]) + if (id, last) in steps then steps[(id, last)] else 0
  }

  ghost predicate IndexOk(tasks: Tasks, stepIds: map<nat, seq<U64>>, steps: Steps,
                          nullifierIds: map<nat, seq<Bytes32>>, marks: set<(nat, Bytes32)>, id: nat)
  {
    var ids, ns := ListAt(stepIds, id), ListAt(nullifierIds, id);
    && Distinct(ids) && Distinct(ns)
    && |ns| <= |ids| <= MAX_RELEASE_STEPS_PER_TASK
    && (forall i :: (id, i) in steps <==> i in ids)
    && (forall n :: (id, n) in marks <==> n in ns)
    && (id in tasks && !tasks[id].completed ==> tasks[id].spent == SumSteps(steps, id, ids))
    && (id !in tasks || tasks[id].completed ==> ids == [])
  }

  ghost predicate IndexesOk(tasks: Tasks, stepIds: map<nat, seq<U64>>, steps: Steps,
                            nullifierIds: map<nat, seq<Bytes32>>, marks: set<(nat, Bytes32)>)
  {
    forall id: nat :: IndexOk(tasks, stepIds, steps, nullifierIds, marks, id)
  }

  ghost predicate FeesOk(fees: map<Address, int>) {
    forall asset :: FeeIn(fees, asset) >= 0
  }

  ghost predicate TokensOk(tokens: map<(Address, Address), int>) {
    forall who, asset :: Held(tokens, who, asset) >= 0
  }

  /** An account is exactly what its history says. */
  ghost predicate HistoryOf(accounts: Accounts, journal: seq<Entry>, user: Address, asset: Address) {
    var acc := AccountIn(accounts, user, asset);
    && acc.totalDeposited == Sum(journal, DepositedTo(user, asset))
    && acc.totalSpent == Sum(journal, SpentBy(user, asset))
    && acc.balance == acc.totalDeposited - acc.totalSpent
         - Sum(journal, WithdrawnFrom(user, asset)) - Sum(journal, RefundedTo(user, asset))
  }

  ghost predicate HistoryOk(accounts: Accounts, journal: seq<Entry>) {
    forall user, asset :: HistoryOf(accounts, journal, user, asset)
  }

  /** A released step stays on record as long as its task is open, so it is never released again. */
  ghost predicate OnRecord(e: Entry, tasks: Tasks, steps: Steps) {
    e.Released? ==> e.task in tasks && (tasks[e.task].completed || (e.task, e.step) in steps)
  }

  ghost predicate SameStep(e: Entry, f: Entry) {
    e.Released? && f.Released? && e.task == f.task && e.step == f.step
  }

  ghost predicate ReleasesOk(journal: seq<Entry>, tasks: Tasks, steps: Steps) {
    && (forall i | 0 <= i < |journal| :: OnRecord(journal[i], tasks, steps))
    && (forall i, j | 0 <= i < j < |journal| :: !SameStep(journal[i], journal[j]))
  }

  ghost predicate BooksInv(b: Books) {
    && AccountsOk(b.accounts, b.tasks)
    && OwnersOk(b.accounts.Keys, b.configs.Keys)
    && TasksOk(b.tasks, b.counter, b.accounts.Keys, b.configs.Keys)
    && LocksOk(b.accounts, b.tasks)
    && CountsOk(b.configs, b.tasks)
    && IndexesOk(b.tasks, b.stepIds, b.steps, b.nullifierIds, b.taskNullifiers)
    && FeesOk(b.fees) && TokensOk(b.tokens)
    && HistoryOk(b.accounts, b.journal)
    && ReleasesOk(b.journal, b.tasks, b.steps)
  }

  // ---- What the vault owes ------------------------------------------------

  /** User balances, less what open tasks have already paid out, plus unclaimed fees. */
  ghost function Owed(b: Books, asset: Address): int {
    Total(b.accounts, BalanceIn(asset)) - Total(b.tasks, OpenSpentIn(asset)) + FeeIn(b.fees, asset)
  }

  ghost function Excess(vault: Address, b: Books, asset: Address): int {
    Held(b.tokens, vault, asset) - Owed(b, asset) - Sum(b.journal, GiftsOf(asset))
  }

  /** What a task is recorded to have spent beyond what has been paid for it. */
  ghost function TaskGap(b: Books, id: nat): int {
    (if id in b.tasks then b.tasks[id].spent else 0) - Sum(b.journal, PaidFor(id))
  }

  /** `b1` keeps the invariant and differs from `b` by `x` in what is free in one asset, by `y` in one task's gap. */
  ghost predicate Posted(vault: Address, b: Books, b1: Books, asset: Address, x: int, id: nat, y: int) {
    BooksInv(b1) && Shifted(vault, b, b1, asset, x, id, y)
  }

  ghost predicate Shifted(vault: Address, b: Books, b1: Books, asset: Address, x: int, id: nat, y: int) {
    && (forall a :: ExcessBy(vault, b, b1, asset, x, a))
    && (forall i :: GapBy(b, b1, id, y, i))
  }

  ghost predicate ExcessBy(vault: Address, b: Books, b1: Books, asset: Address, x: int, a: Address) {
    Excess(vault, b1, a) == Excess(vault, b, a) + if a == asset then x else 0
  }

  ghost predicate GapBy(b: Books, b1: Books, id: nat, y: int, i: nat) {
    TaskGap(b1, i) == TaskGap(b, i) + if i == id then y else 0
  }

  // ---- Postings -----------------------------------------------------------

  /** What one more entry adds to the gifts and to the payouts of each task. */
  lemma EntryCounts(journal: seq<Entry>, e: Entry)
    ensures forall a :: Sum(journal + [e], GiftsOf(a)) == Sum(journal, GiftsOf(a)) + GiftPart(e, a)
    ensures forall i :: Sum(journal + [e], PaidFor(i)) == Sum(journal, PaidFor(i)) + PaidPart(e, i)
  {
    forall a ensures Sum(journal + [e], GiftsOf(a)) == Sum(journal, GiftsOf(a)) + GiftPart(e, a) {
      SumSnoc(journal, e, GiftsOf(a));
    }
    forall i ensures Sum(journal + [e], PaidFor(i)) == Sum(journal, PaidFor(i)) + PaidPart(e, i) {
      SumSnoc(journal, e, PaidFor(i));
    }
  }

  /** An entry about one account keeps the history exact if the account moves with it. */
  lemma HistoryAfter(accounts: Accounts, journal: seq<Entry>, user: Address, asset: Address, acc: Account, e: Entry)
    requires HistoryOk(accounts, journal) && About(e, user, asset)
    requires var old' := AccountIn(accounts, user, asset);
      && acc.totalDeposited == old'.totalDeposited + DepositPart(e)
      && acc.totalSpent == old'.totalSpent + SpentPart(e)
      && acc.balance == old'.balance + DepositPart(e) - SpentPart(e) - WithdrawPart(e) - RefundPart(e)
    ensures HistoryOk(accounts[(user, asset) := acc], journal + [e])
  {
    var m := accounts[(user, asset) := acc];
    forall u, a ensures HistoryOf(m, journal + [e], u, a) {
      assert HistoryOf(accounts, journal, u, a);
      HistorySums(journal, e, u, a);
    }
  }

  lemma HistorySums(journal: seq<Entry>, e: Entry, u: Address, a: Address)
    ensures var on := About(e, u, a);
      && Sum(journal + [e], DepositedTo(u, a)) == Sum(journal, DepositedTo(u, a)) + (if on then DepositPart(e) else 0)
      && Sum(journal + [e], SpentBy(u, a)) == Sum(journal, SpentBy(u, a)) + (if on then SpentPart(e) else 0)
      && Sum(journal + [e], WithdrawnFrom(u, a)) == Sum(journal, WithdrawnFrom(u, a)) + (if on then WithdrawPart(e) else 0)
      && Sum(journal + [e], RefundedTo(u, a)) == Sum(journal, RefundedTo(u, a)) + (if on then RefundPart(e) else 0)
  {
    SumSnoc(journal, e, DepositedTo(u, a));
    SumSnoc(journal, e, SpentBy(u, a));
    SumSnoc(journal, e, WithdrawnFrom(u, a));
    SumSnoc(journal, e, RefundedTo(u, a));
  }

  /** An entry about no account leaves every history as it is. */
  lemma HistorySame(accounts: Accounts, journal: seq<Entry>, e: Entry)
    requires HistoryOk(accounts, journal) && (e.Released? || e.Paid? || e.Gift?)
    ensures HistoryOk(accounts, journal + [e])
  {
    forall u, a ensures HistoryOf(accounts, journal + [e], u, a) {
      assert HistoryOf(accounts, journal, u, a);
      HistorySums(journal, e, u, a);
    }
  }

  /** One account's balance and totals change; what is locked does not. */
  lemma AccountPosted(accounts: Accounts, tasks: Tasks, user: Address, asset: Address, acc: Account)
    requires AccountsOk(accounts, tasks) && LocksOk(accounts, tasks)
    requires AccountIn(accounts, user, asset).locked == acc.locked && AccountOk(accounts[(user, asset) := acc], tasks, (user, asset))
    ensures var m := accounts[(user, asset) := acc];
      && AccountsOk(m, tasks) && LocksOk(m, tasks)
      && (forall a :: Total(m, BalanceIn(a)) == Total(accounts, BalanceIn(a))
                        + if a == asset then acc.balance - AccountIn(accounts, user, asset).balance else 0)
  {
    var m := accounts[(user, asset) := acc];
    forall k | k in m ensures AccountOk(m, tasks, k) {
      assert k in accounts ==> AccountOk(accounts, tasks, k);
    }
    forall a ensures LockOk(m, tasks, a) {
      assert LockOk(accounts, tasks, a);
      TotalUpdate(accounts, LockedIn(a), (user, asset), acc);
    }
    forall a ensures Total(m, BalanceIn(a)) == Total(accounts, BalanceIn(a))
        + if a == asset then acc.balance - AccountIn(accounts, user, asset).balance else 0 {
      TotalUpdate(accounts, BalanceIn(a), (user, asset), acc);
    }
  }

  lemma {:induction false} ZeroTotal<K(!new), V(!new)>(m: map<K, V>, w: (K, V) -> int)
    requires forall k | k in m :: w(k, m[k]) == 0
    ensures Total(m, w) == 0
    decreases |m|
  {
    if m != map[] {
      var k :| k in m && Total(m, w) == w(k, m[k]) + Total(m - {k}, w);
      ZeroTotal(m - {k}, w);
    }
  }

  /** An entry other than a release leaves the record of releases as it is. */
  lemma ReleasesSame(journal: seq<Entry>, tasks: Tasks, steps: Steps, e: Entry)
    requires ReleasesOk(journal, tasks, steps) && !e.Released?
    ensures ReleasesOk(journal + [e], tasks, steps)
  {
  }

  lemma EnsureConfigKeeps(b: Books, user: Address)
    requires BooksInv(b)
    ensures BooksInv(EnsureConfig(b, user))
  {
    var b1 := EnsureConfig(b, user);
    assert CountsOk(b1.configs, b1.tasks) by {
      forall u | u in b1.configs ensures CountOk(b1.configs, b1.tasks, u) {
        if u in b.configs {
          assert CountOk(b.configs, b.tasks, u);
        } else {
          forall id | id in b.tasks ensures b.tasks[id].user != u {
            assert TaskOk(b.tasks, b.counter, b.accounts.Keys, b.configs.Keys, id);
          }
          ZeroTotal(b.tasks, OpenTaskOf(u));
        }
      }
    }
    assert TasksOk(b1.tasks, b1.counter, b1.accounts.Keys, b1.configs.Keys) by {
      forall id | id in b1.tasks ensures TaskOk(b1.tasks, b1.counter, b1.accounts.Keys, b1.configs.Keys, id) {
        assert TaskOk(b.tasks, b.counter, b.accounts.Keys, b.configs.Keys, id);
      }
    }
  }

  /** An account moves, with an entry that says why; `b1` may publish events besides. */
  ghost predicate AccountMoves(b: Books, b1: Books, user: Address, asset: Address, acc: Account, e: Entry) {
    var old' := AccountIn(b.accounts, user, asset);
    && About(e, user, asset) && user in b.configs
    && acc.totalDeposited == old'.totalDeposited + DepositPart(e) <= I128_MAX
    && acc.totalSpent == old'.totalSpent + SpentPart(e)
    && acc.balance == old'.balance + DepositPart(e) - SpentPart(e) - WithdrawPart(e) - RefundPart(e)
    && acc.locked == old'.locked <= acc.balance
    && DepositPart(e) >= 0 && SpentPart(e) >= 0
    && b1 == b.(accounts := b.accounts[(user, asset) := acc], journal := b.journal + [e], events := b1.events)
  }

  /** The common part of credits, debits and direct spends: the invariant. */
  lemma AccountMoveKeeps(b: Books, b1: Books, user: Address, asset: Address, acc: Account, e: Entry)
    requires BooksInv(b) && AccountMoves(b, b1, user, asset, acc, e)
    ensures BooksInv(b1)
  {
    assert AccountOk(b1.accounts, b1.tasks, (user, asset)) by {
      if (user, asset) !in b.accounts {
        forall id | id in b.tasks ensures b.tasks[id].user != user || b.tasks[id].asset != asset {
          assert TaskOk(b.tasks, b.counter, b.accounts.Keys, b.configs.Keys, id);
        }
        ZeroTotal(b.tasks, OpenPlanOf(user, asset));
      } else {
        assert AccountOk(b.accounts, b.tasks, (user, asset));
      }
    }
    assert TasksOk(b1.tasks, b1.counter, b1.accounts.Keys, b1.configs.Keys) by {
      forall id | id in b1.tasks ensures TaskOk(b1.tasks, b1.counter, b1.accounts.Keys, b1.configs.Keys, id) {
        assert TaskOk(b.tasks, b.counter, b.accounts.Keys, b.configs.Keys, id);
      }
    }
    AccountPosted(b.accounts, b.tasks, user, asset, acc);
    HistoryAfter(b.accounts, b.journal, user, asset, acc, e);
    ReleasesSame(b.journal, b.tasks, b.steps, e);
  }

  /** The common part of credits, debits and direct spends: what becomes free. */
  lemma AccountMoveShifts(vault: Address, b: Books, b1: Books, user: Address, asset: Address, acc: Account, e: Entry)
    requires AccountsOk(b.accounts, b.tasks) && LocksOk(b.accounts, b.tasks)
    requires AccountMoves(b, b1, user, asset, acc, e) && AccountOk(b1.accounts, b1.tasks, (user, asset))
    ensures Shifted(vault, b, b1, asset, AccountIn(b.accounts, user, asset).balance - acc.balance, 0, 0)
  {
    AccountPosted(b.accounts, b.tasks, user, asset, acc);
    EntryCounts(b.journal, e);
  }

  lemma AccountMovePosts(vault: Address, b: Books, b1: Books, user: Address, asset: Address, acc: Account, e: Entry)
    requires BooksInv(b) && AccountMoves(b, b1, user, asset, acc, e)
    ensures Posted(vault, b, b1, asset, AccountIn(b.accounts, user, asset).balance - acc.balance, 0, 0)
  {
    AccountMoveKeeps(b, b1, user, asset, acc, e);
    assert AccountOk(b1.accounts, b1.tasks, (user, asset));
    AccountMoveShifts(vault, b, b1, user, asset, acc, e);
  }

  lemma CreditAccountPosts(vault: Address, b: Books, user: Address, asset: Address, amount: int)
    requires BooksInv(b) && amount > 0 && user in b.configs
    requires AccountOrNew(b, user, asset).totalDeposited + amount <= I128_MAX
    ensures Posted(vault, b, CreditAccount(b, user, asset, amount), asset, -amount, 0, 0)
  {
    var acc := AccountOrNew(b, user, asset);
    assert (user, asset) in b.accounts ==> AccountOk(b.accounts, b.tasks, (user, asset));
    AccountMovePosts(vault, b, CreditAccount(b, user, asset, amount), user, asset,
      acc.(balance := acc.balance + amount, totalDeposited := acc.totalDeposited + amount),
      Deposited(user, asset, amount));
  }

  /** A shift from books that differ only in configuration records is the same shift. */
  lemma ShiftedFrom(vault: Address, b: Books, configs: map<Address, Config>, b1: Books, asset: Address, x: int, id: nat, y: int)
    ensures Shifted(vault, b.(configs := configs), b1, asset, x, id, y) ==> Shifted(vault, b, b1, asset, x, id, y)
  {
    var b0 := b.(configs := configs);
    if Shifted(vault, b0, b1, asset, x, id, y) {
      forall a ensures ExcessBy(vault, b, b1, asset, x, a) {
        assert ExcessBy(vault, b0, b1, asset, x, a);
      }
      forall i ensures GapBy(b, b1, id, y, i) {
        assert GapBy(b0, b1, id, y, i);
      }
    }
  }

  lemma CreditPosts(vault: Address, b: Books, user: Address, asset: Address, amount: int)
    requires BooksInv(b) && amount > 0
    requires AccountOrNew(b, user, asset).totalDeposited + amount <= I128_MAX
    ensures Posted(vault, b, Credit(b, user, asset, amount), asset, -amount, 0, 0)
  {
    var b0 := EnsureConfig(b, user);
    var b1 := Credit(b, user, asset, amount);
    EnsureConfigKeeps(b, user);
    CreditAccountPosts(vault, b0, user, asset, amount);
    ShiftedFrom(vault, b, b0.configs, b1, asset, -amount, 0, 0);
  }

  lemma DebitPosts(vault: Address, b: Books, user: Address, asset: Address, amount: nat)
    requires BooksInv(b) && (user, asset) in b.accounts && user in b.configs
    requires 0 < amount <= b.accounts[(user, asset)].balance - b.accounts[(user, asset)].locked
    ensures Posted(vault, b, Debit(b, user, asset, amount), asset, amount, 0, 0)
  {
    var acc := b.accounts[(user, asset)];
    assert AccountOk(b.accounts, b.tasks, (user, asset));
    AccountMovePosts(vault, b, Debit(b, user, asset, amount), user, asset,
      acc.(balance := acc.balance - amount), Withdrew(user, asset, amount));
  }

  lemma SpendDirectPosts(vault: Address, b: Books, user: Address, asset: Address, amount: int)
    requires BooksInv(b) && (user, asset) in b.accounts && user in b.configs
    requires 0 < amount <= b.accounts[(user, asset)].balance - b.accounts[(user, asset)].locked
    ensures Posted(vault, b, SpendDirect(b, user, asset, amount), asset, amount, 0, 0)
  {
    var acc := b.accounts[(user, asset)];
    assert AccountOk(b.accounts, b.tasks, (user, asset));
    AccountMovePosts(vault, b, SpendDirect(b, user, asset, amount), user, asset,
      acc.(balance := acc.balance - amount, totalSpent := acc.totalSpent + amount), Direct(user, asset, amount));
  }

  // ---- Postings on tasks --------------------------------------------------

  /** The same task, further on: owner, asset and plan stay. */
  predicate SameTask(t: Task, t': Task) {
    t'.user == t.user && t'.asset == t.asset && t'.planCost == t.planCost
  }

  /** How the sums over tasks change when one task moves on. */
  lemma TaskSums(tasks: Tasks, id: nat, t: Task)
    requires id in tasks && SameTask(tasks[id], t)
    ensures var m, old' := tasks[id := t], tasks[id];
      && (forall a :: Total(m, OpenPlanIn(a)) == Total(tasks, OpenPlanIn(a))
                        + if a == t.asset then OpenPlan(t) - OpenPlan(old') else 0)
      && (forall a :: Total(m, OpenSpentIn(a)) == Total(tasks, OpenSpentIn(a))
                        + if a == t.asset then OpenSpent(t) - OpenSpent(old') else 0)
      && (forall u, a :: Total(m, OpenPlanOf(u, a)) == Total(tasks, OpenPlanOf(u, a))
                        + if u == t.user && a == t.asset then OpenPlan(t) - OpenPlan(old') else 0)
      && (forall u :: Total(m, OpenTaskOf(u)) == Total(tasks, OpenTaskOf(u))
                        + if u == t.user then OpenCount(t) - OpenCount(old') else 0)
  {
    var m, old' := tasks[id := t], tasks[id];
    forall a ensures Total(m, OpenPlanIn(a)) == Total(tasks, OpenPlanIn(a))
        + if a == t.asset then OpenPlan(t) - OpenPlan(old') else 0 {
      TotalUpdate(tasks, OpenPlanIn(a), id, t);
    }
    forall a ensures Total(m, OpenSpentIn(a)) == Total(tasks, OpenSpentIn(a))
        + if a == t.asset then OpenSpent(t) - OpenSpent(old') else 0 {
      TotalUpdate(tasks, OpenSpentIn(a), id, t);
    }
    forall u, a ensures Total(m, OpenPlanOf(u, a)) == Total(tasks, OpenPlanOf(u, a))
        + if u == t.user && a == t.asset then OpenPlan(t) - OpenPlan(old') else 0 {
      TotalUpdate(tasks, OpenPlanOf(u, a), id, t);
    }
    forall u ensures Total(m, OpenTaskOf(u)) == Total(tasks, OpenTaskOf(u))
        + if u == t.user then OpenCount(t) - OpenCount(old') else 0 {
      TotalUpdate(tasks, OpenTaskOf(u), id, t);
    }
  }

  /** How the sums over tasks change when a task is added. */
  lemma NewTaskSums(tasks: Tasks, id: nat, t: Task)
    requires id !in tasks
    ensures var m := tasks[id := t];
      && (forall a :: Total(m, OpenPlanIn(a)) == Total(tasks, OpenPlanIn(a)) + if a == t.asset then OpenPlan(t) else 0)
      && (forall a :: Total(m, OpenSpentIn(a)) == Total(tasks, OpenSpentIn(a)) + if a == t.asset then OpenSpent(t) else 0)
      && (forall u, a :: Total(m, OpenPlanOf(u, a)) == Total(tasks, OpenPlanOf(u, a))
                        + if u == t.user && a == t.asset then OpenPlan(t) else 0)
      && (forall u :: Total(m, OpenTaskOf(u)) == Total(tasks, OpenTaskOf(u)) + if u == t.user then OpenCount(t) else 0)
  {
    var m := tasks[id := t];
    forall a ensures Total(m, OpenPlanIn(a)) == Total(tasks, OpenPlanIn(a)) + if a == t.asset then OpenPlan(t) else 0 {
      TotalUpdate(tasks, OpenPlanIn(a), id, t);
    }
    forall a ensures Total(m, OpenSpentIn(a)) == Total(tasks, OpenSpentIn(a)) + if a == t.asset then OpenSpent(t) else 0 {
      TotalUpdate(tasks, OpenSpentIn(a), id, t);
    }
    forall u, a ensures Total(m, OpenPlanOf(u, a)) == Total(tasks, OpenPlanOf(u, a))
        + if u == t.user && a == t.asset then OpenPlan(t) else 0 {
      TotalUpdate(tasks, OpenPlanOf(u, a), id, t);
    }
    forall u ensures Total(m, OpenTaskOf(u)) == Total(tasks, OpenTaskOf(u)) + if u == t.user then OpenCount(t) else 0 {
      TotalUpdate(tasks, OpenTaskOf(u), id, t);
    }
  }

  /** How the sums over accounts change when one account is rewritten. */
  lemma AccountSums(accounts: Accounts, k: AccountKey, acc: Account)
    requires k in accounts
    ensures var m := accounts[k := acc];
      && (forall a :: Total(m, LockedIn(a)) == Total(accounts, LockedIn(a))
                        + if a == k.1 then acc.locked - accounts[k].locked else 0)
      && (forall a :: Total(m, BalanceIn(a)) == Total(accounts, BalanceIn(a))
                        + if a == k.1 then acc.balance - accounts[k].balance else 0)
  {
    var m := accounts[k := acc];
    forall a ensures Total(m, LockedIn(a)) == Total(accounts, LockedIn(a))
        + if a == k.1 then acc.locked - accounts[k].locked else 0 {
      TotalUpdate(accounts, LockedIn(a), k, acc);
    }
    forall a ensures Total(m, BalanceIn(a)) == Total(accounts, BalanceIn(a))
        + if a == k.1 then acc.balance - accounts[k].balance else 0 {
      TotalUpdate(accounts, BalanceIn(a), k, acc);
    }
  }

  /** An account's lock and its owner's count follow a new task. */
  lemma LockForTask(accounts: Accounts, configs: map<Address, Config>, tasks: Tasks, id: nat, t: Task)
    requires AccountsOk(accounts, tasks) && LocksOk(accounts, tasks) && CountsOk(configs, tasks)
    requires id !in tasks && (t.user, t.asset) in accounts && t.user in configs && !t.completed
    requires var acc := accounts[(t.user, t.asset)]; 0 <= t.planCost <= acc.balance - acc.locked
    ensures var acc, cfg := accounts[(t.user, t.asset)], configs[t.user];
      var accounts1 := accounts[(t.user, t.asset) := acc.(locked := acc.locked + t.planCost)];
      && AccountsOk(accounts1, tasks[id := t]) && LocksOk(accounts1, tasks[id := t])
      && CountsOk(configs[t.user := cfg.(activeTasks := cfg.activeTasks + 1)], tasks[id := t])
      && (forall a :: Total(accounts1, BalanceIn(a)) == Total(accounts, BalanceIn(a)))
  {
    var k := (t.user, t.asset);
    var acc := accounts[k];
    var acc1 := acc.(locked := acc.locked + t.planCost);
    NewTaskSums(tasks, id, t);
    AccountSums(accounts, k, acc1);
    var m, tasks1 := accounts[k := acc1], tasks[id := t];
    forall j | j in m ensures AccountOk(m, tasks1, j) {
      assert AccountOk(accounts, tasks, j);
    }
    forall a ensures LockOk(m, tasks1, a) {
      assert LockOk(accounts, tasks, a);
    }
    var configs1 := configs[t.user := configs[t.user].(activeTasks := configs[t.user].activeTasks + 1)];
    forall u | u in configs1 ensures CountOk(configs1, tasks1, u) {
      assert CountOk(configs, tasks, u);
    }
  }

  lemma HistoryUnmoved(accounts: Accounts, journal: seq<Entry>, user: Address, asset: Address, acc: Account)
    requires HistoryOk(accounts, journal) && (user, asset) in accounts
    requires acc == accounts[(user, asset)].(locked := acc.locked)
    ensures HistoryOk(accounts[(user, asset) := acc], journal)
  {
    var m := accounts[(user, asset) := acc];
    forall u, a ensures HistoryOf(m, journal, u, a) {
      assert HistoryOf(accounts, journal, u, a);
    }
  }

  /** A task record can be added or changed where its indexes still agree with it. */
  lemma IndexesWithTask(b: Books, id: nat, t: Task)
    requires IndexesOk(b.tasks, b.stepIds, b.steps, b.nullifierIds, b.taskNullifiers)
    requires if id in b.tasks then !b.tasks[id].completed && !t.completed && t.spent == b.tasks[id].spent
             else !t.completed && t.spent == 0
    ensures IndexesOk(b.tasks[id := t], b.stepIds, b.steps, b.nullifierIds, b.taskNullifiers)
  {
    var m := b.tasks[id := t];
    forall i: nat ensures IndexOk(m, b.stepIds, b.steps, b.nullifierIds, b.taskNullifiers, i) {
      assert IndexOk(b.tasks, b.stepIds, b.steps, b.nullifierIds, b.taskNullifiers, i);
    }
  }

  lemma OpenTaskKeeps(b: Books, t: Task)
    requires BooksInv(b) && (t.user, t.asset) in b.accounts && t.user in b.configs
    requires t.spent == 0 && !t.completed && 0 < t.planCost <= I128_MAX && b.counter + 1 <= U64_MAX
    requires t.planCost <= b.accounts[(t.user, t.asset)].balance - b.accounts[(t.user, t.asset)].locked
    ensures BooksInv(OpenTask(b, t))
  {
    var id := b.counter + 1;
    var acc := b.accounts[(t.user, t.asset)];
    var b1 := OpenTask(b, t);
    assert id !in b.tasks by {
      assert id in b.tasks ==> TaskOk(b.tasks, b.counter, b.accounts.Keys, b.configs.Keys, id);
    }
    assert AccountsOk(b1.accounts, b1.tasks) && LocksOk(b1.accounts, b1.tasks) && CountsOk(b1.configs, b1.tasks) by {
      LockForTask(b.accounts, b.configs, b.tasks, id, t);
    }
    assert HistoryOk(b1.accounts, b1.journal) by {
      HistoryUnmoved(b.accounts, b.journal, t.user, t.asset, acc.(locked := acc.locked + t.planCost));
    }
    assert IndexesOk(b1.tasks, b1.stepIds, b1.steps, b1.nullifierIds, b1.taskNullifiers) by {
      IndexesWithTask(b, id, t);
    }
    assert TasksOk(b1.tasks, b1.counter, b1.accounts.Keys, b1.configs.Keys) by {
      forall i | i in b1.tasks ensures TaskOk(b1.tasks, b1.counter, b1.accounts.Keys, b1.configs.Keys, i) {
        assert i != id ==> TaskOk(b.tasks, b.counter, b.accounts.Keys, b.configs.Keys, i);
      }
    }
  }

  lemma OpenTaskShifts(vault: Address, b: Books, t: Task)
    requires (t.user, t.asset) in b.accounts && t.user in b.configs
    requires b.counter + 1 !in b.tasks && t.spent == 0
    ensures Shifted(vault, b, OpenTask(b, t), 0, 0, 0, 0)
  {
    var acc := b.accounts[(t.user, t.asset)];
    NewTaskSums(b.tasks, b.counter + 1, t);
    AccountSums(b.accounts, (t.user, t.asset), acc.(locked := acc.locked + t.planCost));
  }

  lemma OpenTaskPosts(vault: Address, b: Books, t: Task)
    requires BooksInv(b) && (t.user, t.asset) in b.accounts && t.user in b.configs
    requires t.spent == 0 && !t.completed && 0 < t.planCost <= I128_MAX && b.counter + 1 <= U64_MAX
    requires t.planCost <= b.accounts[(t.user, t.asset)].balance - b.accounts[(t.user, t.asset)].locked
    ensures Posted(vault, b, OpenTask(b, t), 0, 0, 0, 0)
  {
    OpenTaskKeeps(b, t);
    assert b.counter + 1 in b.tasks ==> TaskOk(b.tasks, b.counter, b.accounts.Keys, b.configs.Keys, b.counter + 1);
    OpenTaskShifts(vault, b, t);
  }

  /** What a task that stays open may change without touching locks, counts or records. */
  lemma TaskMoves(accounts: Accounts, configs: map<Address, Config>, tasks: Tasks, counter: nat, id: nat, t: Task)
    requires AccountsOk(accounts, tasks) && LocksOk(accounts, tasks) && CountsOk(configs, tasks)
    requires TasksOk(tasks, counter, accounts.Keys, configs.Keys)
    requires id in tasks && SameTask(tasks[id], t) && t.completed == tasks[id].completed && 0 <= t.spent <= t.planCost
    ensures var m := tasks[id := t];
      AccountsOk(accounts, m) && LocksOk(accounts, m) && CountsOk(configs, m)
      && TasksOk(m, counter, accounts.Keys, configs.Keys)
  {
    var m := tasks[id := t];
    TaskSums(tasks, id, t);
    forall k | k in accounts ensures AccountOk(accounts, m, k) {
      assert AccountOk(accounts, tasks, k);
    }
    forall a ensures LockOk(accounts, m, a) {
      assert LockOk(accounts, tasks, a);
    }
    forall u | u in configs ensures CountOk(configs, m, u) {
      assert CountOk(configs, tasks, u);
    }
    forall i | i in m ensures TaskOk(m, counter, accounts.Keys, configs.Keys, i) {
      assert TaskOk(tasks, counter, accounts.Keys, configs.Keys, i);
    }
  }

  lemma FreezePosts(vault: Address, b: Books, id: nat)
    requires BooksInv(b) && id in b.tasks && !b.tasks[id].completed
    ensures Posted(vault, b, Freeze(b, id), 0, 0, 0, 0)
  {
    var t := b.tasks[id].(disputed := true);
    var b1 := Freeze(b, id);
    assert BooksInv(b1) by {
      assert TaskOk(b.tasks, b.counter, b.accounts.Keys, b.configs.Keys, id);
      TaskMoves(b.accounts, b.configs, b.tasks, b.counter, id, t);
      IndexesWithTask(b, id, t);
    }
    assert Shifted(vault, b, b1, 0, 0, 0, 0) by {
      TaskSums(b.tasks, id, t);
    }
  }

  lemma {:induction false} SumStepsFrame(steps: Steps, steps1: Steps, id: nat, ids: seq<U64>)
    requires forall i | i in ids :: (id, i) in steps <==> (id, i) in steps1
    requires forall i | i in ids && (id, i) in steps :: steps[(id, i)] == steps1[(id, i)]
    ensures SumSteps(steps, id, ids) == SumSteps(steps1, id, ids)
  {
    if ids != [] {
      var last := ids[|ids| - 1];
      assert last in ids;
      forall i | i in ids[..|ids| - 1] ensures i in ids {}
      SumStepsFrame(steps, steps1, id, ids[..|ids| - 1]);
    }
  }

  ghost predicate TaskIndexOk(b: Books, id: nat) {
    IndexOk(b.tasks, b.stepIds, b.steps, b.nullifierIds, b.taskNullifiers, id)
  }

  /** A task whose record, lists, steps and markers are as before has its indexes as before. */
  lemma IndexFrame(b: Books, b1: Books, id: nat)
    requires TaskIndexOk(b, id)
    requires StepIds(b1, id) == StepIds(b, id) && NullifierIds(b1, id) == NullifierIds(b, id)
    requires forall i: U64 :: (id, i) in b1.steps <==> (id, i) in b.steps
    requires forall i: U64 | (id, i) in b.steps :: b1.steps[(id, i)] == b.steps[(id, i)]
    requires forall n: Bytes32 :: (id, n) in b1.taskNullifiers <==> (id, n) in b.taskNullifiers
    requires id in b1.tasks <==> id in b.tasks
    requires id in b.tasks ==> b1.tasks[id] == b.tasks[id]
    ensures TaskIndexOk(b1, id)
  {
    SumStepsFrame(b.steps, b1.steps, id, StepIds(b, id));
  }

  lemma IndexOfReleased(b: Books, id: nat, step: U64, amount: int)
    requires TaskIndexOk(b, id)
    requires id in b.tasks && !b.tasks[id].completed && (id, step) !in b.steps
    requires |StepIds(b, id)| < MAX_RELEASE_STEPS_PER_TASK
    ensures TaskIndexOk(RecordRelease(b, id, step, amount), id)
    ensures |StepIds(RecordRelease(b, id, step, amount), id)| == |StepIds(b, id)| + 1
  {
    var b1 := RecordRelease(b, id, step, amount);
    var ids := StepIds(b, id);
    assert step !in ids;
    assert StepIds(b1, id) == ids + [step];
    assert (ids + [step])[..|ids|] == ids;
    SumStepsFrame(b.steps, b1.steps, id, ids);
  }

  lemma IndexBesideRelease(b: Books, id: nat, step: U64, amount: int, other: nat)
    requires TaskIndexOk(b, other) && other != id && id in b.tasks
    ensures TaskIndexOk(RecordRelease(b, id, step, amount), other)
  {
    IndexFrame(b, RecordRelease(b, id, step, amount), other);
  }

  /** The indexes after one more step has been recorded. */
  lemma IndexesAfterRelease(b: Books, id: nat, step: U64, amount: int)
    requires IndexesOk(b.tasks, b.stepIds, b.steps, b.nullifierIds, b.taskNullifiers)
    requires id in b.tasks && !b.tasks[id].completed && (id, step) !in b.steps
    requires |StepIds(b, id)| < MAX_RELEASE_STEPS_PER_TASK
    ensures var b1 := RecordRelease(b, id, step, amount);
      && IndexesOk(b1.tasks, b1.stepIds, b1.steps, b1.nullifierIds, b1.taskNullifiers)
      && |StepIds(b1, id)| == |StepIds(b, id)| + 1 && b1.nullifierIds == b.nullifierIds
  {
    var b1 := RecordRelease(b, id, step, amount);
    assert TaskIndexOk(b, id);
    IndexOfReleased(b, id, step, amount);
    forall i: nat ensures IndexOk(b1.tasks, b1.stepIds, b1.steps, b1.nullifierIds, b1.taskNullifiers, i) {
      assert TaskIndexOk(b, i);
      if i != id {
        IndexBesideRelease(b, id, step, amount, i);
      }
    }
  }

  lemma ReleasesAfter(journal: seq<Entry>, tasks: Tasks, steps: Steps, id: nat, t: Task, step: U64, amount: int)
    requires ReleasesOk(journal, tasks, steps)
    requires id in tasks && !tasks[id].completed && !t.completed && (id, step) !in steps
    ensures ReleasesOk(journal + [Released(id, step, amount)], tasks[id := t], steps[(id, step) := amount])
  {
    forall i | 0 <= i < |journal| ensures !SameStep(journal[i], Released(id, step, amount)) {
      assert OnRecord(journal[i], tasks, steps);
    }
    forall i | 0 <= i < |journal| ensures OnRecord(journal[i], tasks[id := t], steps[(id, step) := amount]) {
      assert OnRecord(journal[i], tasks, steps);
    }
  }

  /** Recording a release leaves the vault owing less by its amount: that much is now to be paid out. */
  lemma RecordReleasePosts(vault: Address, b: Books, id: nat, step: U64, amount: int)
    requires BooksInv(b) && id in b.tasks && !b.tasks[id].completed && (id, step) !in b.steps
    requires 0 < amount && b.tasks[id].spent + amount <= b.tasks[id].planCost
    requires |StepIds(b, id)| < MAX_RELEASE_STEPS_PER_TASK
    ensures Posted(vault, b, RecordRelease(b, id, step, amount), b.tasks[id].asset, amount, id, amount)
    ensures var b1 := RecordRelease(b, id, step, amount);
      |StepIds(b1, id)| == |StepIds(b, id)| + 1 && b1.nullifierIds == b.nullifierIds
  {
    var t := b.tasks[id].(spent := b.tasks[id].spent + amount);
    var e := Released(id, step, amount);
    var b1 := RecordRelease(b, id, step, amount);
    IndexesAfterRelease(b, id, step, amount);
    assert BooksInv(b1) by {
      assert TaskOk(b.tasks, b.counter, b.accounts.Keys, b.configs.Keys, id);
      TaskMoves(b.accounts, b.configs, b.tasks, b.counter, id, t);
      HistorySame(b.accounts, b.journal, e);
      ReleasesAfter(b.journal, b.tasks, b.steps, id, t, step, amount);
    }
    assert Shifted(vault, b, b1, t.asset, amount, id, amount) by {
      TaskSums(b.tasks, id, t);
      EntryCounts(b.journal, e);
    }
  }

  lemma IndexOfMarked(b: Books, id: nat, n: Bytes32)
    requires TaskIndexOk(b, id) && (id, n) !in b.taskNullifiers && |NullifierIds(b, id)| < |StepIds(b, id)|
    ensures TaskIndexOk(MarkTaskNullifier(b, id, n), id)
  {
    assert n !in NullifierIds(b, id);
    assert NullifierIds(MarkTaskNullifier(b, id, n), id) == NullifierIds(b, id) + [n];
  }

  lemma IndexesAfterMark(b: Books, id: nat, n: Bytes32)
    requires IndexesOk(b.tasks, b.stepIds, b.steps, b.nullifierIds, b.taskNullifiers)
    requires (id, n) !in b.taskNullifiers && |NullifierIds(b, id)| < |StepIds(b, id)|
    ensures var b1 := MarkTaskNullifier(b, id, n);
      IndexesOk(b1.tasks, b1.stepIds, b1.steps, b1.nullifierIds, b1.taskNullifiers)
  {
    var b1 := MarkTaskNullifier(b, id, n);
    assert TaskIndexOk(b, id);
    IndexOfMarked(b, id, n);
    forall i: nat ensures IndexOk(b1.tasks, b1.stepIds, b1.steps, b1.nullifierIds, b1.taskNullifiers, i) {
      if i != id {
        assert TaskIndexOk(b, i);
        IndexFrame(b, b1, i);
      }
    }
  }

  lemma MarkTaskNullifierPosts(vault: Address, b: Books, id: nat, n: Bytes32)
    requires BooksInv(b) && (id, n) !in b.taskNullifiers
    requires |NullifierIds(b, id)| < |StepIds(b, id)|
    ensures Posted(vault, b, MarkTaskNullifier(b, id, n), 0, 0, 0, 0)
  {
    var b1 := MarkTaskNullifier(b, id, n);
    IndexesAfterMark(b, id, n);
  }

  // ---- Ending a task ------------------------------------------------------

  /** The accounts, counts and task records after a task of `b` has ended with account `acc`. */
  lemma CloseMoves(accounts: Accounts, configs: map<Address, Config>, tasks: Tasks, counter: nat, id: nat, acc: Account)
    requires AccountsOk(accounts, tasks) && LocksOk(accounts, tasks) && CountsOk(configs, tasks)
    requires TasksOk(tasks, counter, accounts.Keys, configs.Keys)
    requires id in tasks && !tasks[id].completed
    requires (tasks[id].user, tasks[id].asset) in accounts && tasks[id].user in configs
    requires var t := tasks[id]; var old' := accounts[(t.user, t.asset)];
      && acc.locked == old'.locked - t.planCost && acc.locked <= acc.balance
      && acc.totalSpent >= 0 && acc.totalDeposited == old'.totalDeposited
    ensures var t := tasks[id]; var cfg := configs[t.user];
      var accounts1, tasks1 := accounts[(t.user, t.asset) := acc], tasks[id := t.(completed := true)];
      var configs1 := configs[t.user := cfg.(activeTasks := cfg.activeTasks - 1)];
      && AccountsOk(accounts1, tasks1) && LocksOk(accounts1, tasks1) && CountsOk(configs1, tasks1)
      && TasksOk(tasks1, counter, accounts1.Keys, configs1.Keys)
  {
    var t := tasks[id];
    var t1 := t.(completed := true);
    var k := (t.user, t.asset);
    var cfg := configs[t.user];
    var accounts1, tasks1 := accounts[k := acc], tasks[id := t1];
    var configs1 := configs[t.user := cfg.(activeTasks := cfg.activeTasks - 1)];
    TaskSums(tasks, id, t1);
    AccountSums(accounts, k, acc);
    NoNegativeLock(tasks1, counter, accounts.Keys, configs.Keys, t.user, t.asset, tasks, id);
    forall j | j in accounts1 ensures AccountOk(accounts1, tasks1, j) {
      assert AccountOk(accounts, tasks, j);
    }
    forall a ensures LockOk(accounts1, tasks1, a) {
      assert LockOk(accounts, tasks, a);
    }
    forall u | u in configs1 ensures CountOk(configs1, tasks1, u) {
      assert CountOk(configs, tasks, u);
    }
    forall i | i in tasks1 ensures TaskOk(tasks1, counter, accounts1.Keys, configs1.Keys, i) {
      assert TaskOk(tasks, counter, accounts.Keys, configs.Keys, i);
    }
  }

  /** Whatever tasks remain open, their plan costs do not add up to less than nothing. */
  lemma NoNegativeLock(tasks1: Tasks, counter: nat, accounts: set<AccountKey>, configs: set<Address>,
                       user: Address, asset: Address, tasks: Tasks, id: nat)
    requires TasksOk(tasks, counter, accounts, configs) && id in tasks
    requires tasks1 == tasks[id := tasks[id].(completed := true)]
    ensures Total(tasks1, OpenPlanOf(user, asset)) >= 0
  {
    forall i | i in tasks1 ensures OpenPlanOf(user, asset)(i, tasks1[i]) >= 0 {
      assert TaskOk(tasks, counter, accounts, configs, i);
    }
    TotalBounds(tasks1, OpenPlanOf(user, asset));
  }

  lemma IndexOfClosed(b: Books, id: nat, t: Task)
    requires TaskIndexOk(b, id) && t.completed
    ensures TaskIndexOk(DropIndexes(b.(tasks := b.tasks[id := t]), id), id)
  {
    var b1 := DropIndexes(b.(tasks := b.tasks[id := t]), id);
    assert StepIds(b1, id) == [] && NullifierIds(b1, id) == [];
  }

  lemma IndexBesideClosed(b: Books, id: nat, t: Task, other: nat)
    requires TaskIndexOk(b, other) && other != id
    ensures TaskIndexOk(DropIndexes(b.(tasks := b.tasks[id := t]), id), other)
  {
    IndexFrame(b, DropIndexes(b.(tasks := b.tasks[id := t]), id), other);
  }

  lemma IndexesAfterClose(b: Books, id: nat, t: Task)
    requires IndexesOk(b.tasks, b.stepIds, b.steps, b.nullifierIds, b.taskNullifiers) && t.completed
    ensures var b1 := DropIndexes(b.(tasks := b.tasks[id := t]), id);
      IndexesOk(b1.tasks, b1.stepIds, b1.steps, b1.nullifierIds, b1.taskNullifiers)
  {
    var b1 := DropIndexes(b.(tasks := b.tasks[id := t]), id);
    forall i: nat ensures IndexOk(b1.tasks, b1.stepIds, b1.steps, b1.nullifierIds, b1.taskNullifiers, i) {
      assert TaskIndexOk(b, i);
      if i == id {
        IndexOfClosed(b, id, t);
      } else {
        IndexBesideClosed(b, id, t, i);
      }
    }
  }

  lemma ReleasesAfterClose(b: Books, id: nat, t: Task, e: Entry)
    requires ReleasesOk(b.journal, b.tasks, b.steps) && t.completed && !e.Released?
    ensures ReleasesOk(b.journal + [e], b.tasks[id := t], DropIndexes(b, id).steps)
  {
    var journal, tasks, steps := b.journal + [e], b.tasks[id := t], DropIndexes(b, id).steps;
    forall i | 0 <= i < |journal| ensures OnRecord(journal[i], tasks, steps) {
      assert i < |b.journal| ==> OnRecord(b.journal[i], b.tasks, b.steps);
    }
  }

  /** What a split closing leaves to be paid out. */
  function SplitDue(split: Option<(nat, nat)>): int {
    match split
    case None => 0
    case Some(shares) => shares.0 + shares.1
  }

  ghost predicate Closable(b: Books, id: nat, split: Option<(nat, nat)>) {
    && id in b.tasks && !b.tasks[id].completed
    && (b.tasks[id].user, b.tasks[id].asset) in b.accounts && b.tasks[id].user in b.configs
    && (split.Some? ==> split.value.0 + split.value.1 == b.tasks[id].planCost - b.tasks[id].spent)
  }

  lemma CloseShape(b: Books, id: nat, split: Option<(nat, nat)>)
    requires Closable(b, id, split)
    ensures var t := b.tasks[id]; var k := (t.user, t.asset); var cfg := b.configs[t.user];
      var b1, b2 := CloseTask(b, id, split), DropIndexes(b.(tasks := b.tasks[id := t.(completed := true)]), id);
      && b1.accounts == b.accounts[k := ClosedAccount(b.accounts[k], t, split)]
      && b1.configs == b.configs[t.user := cfg.(activeTasks := cfg.activeTasks - 1)]
      && b1.tasks == b2.tasks && b1.stepIds == b2.stepIds && b1.steps == b2.steps
      && b1.nullifierIds == b2.nullifierIds && b1.taskNullifiers == b2.taskNullifiers
      && b1.counter == b.counter && b1.fees == b.fees && b1.tokens == b.tokens
      && b1.journal == b.journal + [ClosingEntry(id, t, split)]
  {
  }

  lemma CloseKeeps(b: Books, id: nat, split: Option<(nat, nat)>)
    requires BooksInv(b) && Closable(b, id, split)
    ensures BooksInv(CloseTask(b, id, split))
  {
    var t := b.tasks[id];
    var k := (t.user, t.asset);
    var acc := ClosedAccount(b.accounts[k], t, split);
    var b1 := CloseTask(b, id, split);
    CloseShape(b, id, split);
    assert TaskOk(b.tasks, b.counter, b.accounts.Keys, b.configs.Keys, id);
    assert AccountOk(b.accounts, b.tasks, k);
    assert AccountsOk(b1.accounts, b1.tasks) && LocksOk(b1.accounts, b1.tasks) && CountsOk(b1.configs, b1.tasks)
        && TasksOk(b1.tasks, b1.counter, b1.accounts.Keys, b1.configs.Keys) by {
      CloseMoves(b.accounts, b.configs, b.tasks, b.counter, id, acc);
    }
    assert IndexesOk(b1.tasks, b1.stepIds, b1.steps, b1.nullifierIds, b1.taskNullifiers) by {
      IndexesAfterClose(b, id, t.(completed := true));
    }
    assert HistoryOk(b1.accounts, b1.journal) by {
      HistoryAfter(b.accounts, b.journal, t.user, t.asset, acc, ClosingEntry(id, t, split));
    }
    assert ReleasesOk(b1.journal, b1.tasks, b1.steps) by {
      ReleasesAfterClose(b, id, t.(completed := true), ClosingEntry(id, t, split));
    }
  }

  lemma CloseShifts(vault: Address, b: Books, id: nat, split: Option<(nat, nat)>)
    requires Closable(b, id, split)
    ensures Shifted(vault, b, CloseTask(b, id, split), b.tasks[id].asset, SplitDue(split), 0, 0)
  {
    var t := b.tasks[id];
    var k := (t.user, t.asset);
    CloseShape(b, id, split);
    TaskSums(b.tasks, id, t.(completed := true));
    AccountSums(b.accounts, k, ClosedAccount(b.accounts[k], t, split));
    EntryCounts(b.journal, ClosingEntry(id, t, split));
  }

  // ---- Fees and tokens ----------------------------------------------------

  lemma AddFeePosts(vault: Address, b: Books, asset: Address, fee: int)
    requires BooksInv(b) && fee >= 0
    ensures Posted(vault, b, AddFee(b, asset, fee), asset, -fee, 0, 0)
  {
    var b1 := AddFee(b, asset, fee);
    forall a ensures FeeIn(b1.fees, a) >= 0 {
      assert FeeIn(b.fees, a) >= 0;
    }
  }

  lemma ClearFeesPosts(vault: Address, b: Books, asset: Address)
    requires BooksInv(b)
    ensures Posted(vault, b, ClearFees(b, asset), asset, Fees(b, asset), 0, 0)
  {
    var b1 := ClearFees(b, asset);
    forall a ensures FeeIn(b1.fees, a) >= 0 {
      assert FeeIn(b.fees, a) >= 0;
    }
  }

  /** Tokens reaching or leaving a holder: only the vault's own holding matters to it. */
  lemma AddTokensPosts(vault: Address, b: Books, who: Address, asset: Address, amount: int)
    requires BooksInv(b) && Held(b.tokens, who, asset) + amount >= 0
    ensures Posted(vault, b, AddTokens(b, who, asset, amount), asset, if who == vault then amount else 0, 0, 0)
  {
    var b1 := AddTokens(b, who, asset, amount);
    forall w, a ensures Held(b1.tokens, w, a) >= 0 {
      assert Held(b.tokens, w, a) >= 0;
    }
  }

  /** An entry about payouts or gifts. */
  lemma LogPosts(vault: Address, b: Books, e: Entry, asset: Address, id: nat)
    requires BooksInv(b)
    requires (e.Paid? && (e.payer == None || e.payer == Some(id))) || (e.Gift? && e.asset == asset)
    ensures Posted(vault, b, Log(b, e), asset, -GiftPart(e, asset), id, -PaidPart(e, id))
  {
    HistorySame(b.accounts, b.journal, e);
    ReleasesSame(b.journal, b.tasks, b.steps, e);
    EntryCounts(b.journal, e);
  }

  lemma PublishPosts(vault: Address, b: Books, events: seq<Event>)
    requires BooksInv(b)
    ensures Posted(vault, b, Publish(b, events), 0, 0, 0, 0)
  {
  }

  /** One posting after another. */
  lemma ShiftTwice(vault: Address, b: Books, b1: Books, b2: Books, asset: Address, x: int, x2: int, id: nat, y: int, y2: int)
    ensures Shifted(vault, b, b1, asset, x, id, y) && Shifted(vault, b1, b2, asset, x2, id, y2)
      ==> Shifted(vault, b, b2, asset, x + x2, id, y + y2)
  {
    if Shifted(vault, b, b1, asset, x, id, y) && Shifted(vault, b1, b2, asset, x2, id, y2) {
      var xx, yy := x + x2, y + y2;
      forall a ensures ExcessBy(vault, b, b2, asset, xx, a) {
        assert ExcessBy(vault, b, b1, asset, x, a) && ExcessBy(vault, b1, b2, asset, x2, a);
      }
      forall i ensures GapBy(b, b2, id, yy, i) {
        assert GapBy(b, b1, id, y, i) && GapBy(b1, b2, id, y2, i);
      }
    }
  }

  lemma PostTwice(vault: Address, b: Books, b1: Books, b2: Books, asset: Address, x: int, x1: int, x2: int, id: nat, y: int,
                  y1: int, y2: int)
    requires x == x1 + x2 && y == y1 + y2
    ensures Posted(vault, b, b1, asset, x1, id, y1) && Posted(vault, b1, b2, asset, x2, id, y2)
      ==> Posted(vault, b, b2, asset, x, id, y)
  {
    ShiftTwice(vault, b, b1, b2, asset, x1, x2, id, y1, y2);
  }

  /** A posting that touches no task may be read for any task. */
  lemma PostedForTask(vault: Address, b: Books, b1: Books, asset: Address, x: int, id: nat)
    ensures Posted(vault, b, b1, asset, x, 0, 0) ==> Posted(vault, b, b1, asset, x, id, 0)
  {
    ShiftNothing(vault, b, b1, asset, x, 0, asset, id);
  }

  /** A shift of nothing may be read in any asset and for any task. */
  lemma ShiftNothing(vault: Address, b: Books, b1: Books, asset: Address, x: int, id: nat, asset': Address, id': nat)
    ensures Shifted(vault, b, b1, asset, x, id, 0) ==> Shifted(vault, b, b1, asset, x, id', 0)
    ensures Shifted(vault, b, b1, asset, 0, id, 0) ==> Shifted(vault, b, b1, asset', 0, id', 0)
  {
    if Shifted(vault, b, b1, asset, x, id, 0) {
      forall i ensures GapBy(b, b1, id', 0, i) {
        assert GapBy(b, b1, id, 0, i);
      }
      forall a ensures x == 0 ==> ExcessBy(vault, b, b1, asset', 0, a) {
        assert ExcessBy(vault, b, b1, asset, x, a);
      }
    }
    if Shifted(vault, b, b1, asset, 0, id, 0) {
      forall i ensures GapBy(b, b1, id', 0, i) {
        assert GapBy(b, b1, id, 0, i);
      }
      forall a ensures ExcessBy(vault, b, b1, asset', 0, a) {
        assert ExcessBy(vault, b, b1, asset, 0, a);
      }
    }
  }
}
