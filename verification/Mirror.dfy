/**
 * The event mirror refines the contract: folding the vault's events into rows
 * gives back every account, apart from a drift that is exactly the session and
 * keyless spends and the settled disputes, which publish no account event.
 */
module Mirror {
  import opened Base
  import opened Bytes
  import opened Totals
  import opened VaultState
  import opened BookKeeping
  import opened Vault
  import opened OpShapes
  import opened Execution
  import opened Ledger
  import opened EntryPoints
  import C = Conservation
  import S = Signals

  // ---- The projection -----------------------------------------------------

  datatype Row = Row(balance: int, locked: int, totalDeposited: int, totalSpent: int, activeTasks: int)

  type Rows = map<AccountKey, Row>

  const EmptyRow := Row(0, 0, 0, 0, 0)

  function RowIn(rows: Rows, user: Address, asset: Address): Row {
    if (user, asset) in rows then rows[(user, asset)] else EmptyRow
  }

  /** One event: an upsert of the row it is about. A withdrawal or a task end for an unseen account creates an empty row. */
  function Project(rows: Rows, e: Event): Rows {
    match e
    case DepositEvent(user, asset, amount) =>
      var r := RowIn(rows, user, asset);
      rows[(user, asset) := r.(balance := r.balance + amount, totalDeposited := r.totalDeposited + amount)]
    case WithdrawEvent(user, asset, amount) =>
      if (user, asset) !in rows then rows[(user, asset) := EmptyRow]
      else
        var r := rows[(user, asset)];
        rows[(user, asset) := r.(balance := r.balance - amount)]
    case TaskNewEvent(user, asset, planCost) =>
      var r := RowIn(rows, user, asset);
      rows[(user, asset) := r.(locked := r.locked + planCost, activeTasks := r.activeTasks + 1)]
    case TaskDoneEvent(user, asset, spent, refund) =>
      if (user, asset) !in rows then rows[(user, asset) := EmptyRow]
      else
        var r := rows[(user, asset)];
        rows[(user, asset) := r.(locked := r.locked - (spent + refund), balance := r.balance - spent,
                                 totalSpent := r.totalSpent + spent, activeTasks := r.activeTasks - 1)]
    case Other => rows
  }

  function Fold(events: seq<Event>): Rows {
    if events == [] then map[] else Project(Fold(events[..|events| - 1]), events[|events| - 1])
  }

  lemma FoldOne(events: seq<Event>, e: Event)
    ensures Fold(events + [e]) == Project(Fold(events), e)
  {
    assert (events + [e])[..|events|] == events;
  }

  // ---- The drift ----------------------------------------------------------

  function DirectPart(e: Entry): int {
    if e.Direct? then e.amount else 0
  }

  function SettledPlan(e: Entry): int {
    if e.Settled? then e.planCost else 0
  }

  function SettledSpent(e: Entry): int {
    if e.Settled? then e.spent + e.payout else 0
  }

  ghost function BalanceDrift(user: Address, asset: Address): Entry -> int {
    (e: Entry) => if About(e, user, asset) then DirectPart(e) + SettledPlan(e) else 0
  }

  ghost function SpentDrift(user: Address, asset: Address): Entry -> int {
    (e: Entry) => if About(e, user, asset) then DirectPart(e) + SettledSpent(e) else 0
  }

  ghost function LockDrift(user: Address, asset: Address): Entry -> int {
    (e: Entry) => if About(e, user, asset) then SettledPlan(e) else 0
  }

  ghost function CountDrift(user: Address): Entry -> int {
    (e: Entry) => if e.Settled? && e.user == user then 1 else 0
  }

  /** Withdrawals debited but not yet published, in the calls in flight. */
  function Unpublished(events: seq<Event>, user: Address, asset: Address): int {
    if events == [] then 0
    else
      var e := events[|events| - 1];
      Unpublished(events[..|events| - 1], user, asset)
      + if e.WithdrawEvent? && e.user == user && e.asset == asset then e.amount else 0
  }

  function InFlight(stack: seq<Due>, user: Address, asset: Address): int {
    if stack == [] then 0
    else
      var last := stack[|stack| - 1];
      InFlight(stack[..|stack| - 1], user, asset) + if last.fin.Emit? then Unpublished(last.fin.events, user, asset) else 0
  }

  // ---- The invariant ------------------------------------------------------

  ghost predicate Reflects(accounts: Accounts, journal: seq<Entry>, rows: Rows, user: Address, asset: Address, flight: int) {
    var acc, row := AccountIn(accounts, user, asset), RowIn(rows, user, asset);
    && acc.balance == row.balance - Sum(journal, BalanceDrift(user, asset)) - flight
    && acc.locked == row.locked - Sum(journal, LockDrift(user, asset))
    && acc.totalDeposited == row.totalDeposited
    && acc.totalSpent == row.totalSpent + Sum(journal, SpentDrift(user, asset))
  }

  ghost function ActiveOf(user: Address): (AccountKey, Row) -> int {
    (k: AccountKey, r: Row) => if k.0 == user then r.activeTasks else 0
  }

  function ActiveIn(configs: map<Address, Config>, user: Address): int {
    if user in configs then configs[user].activeTasks else 0
  }

  ghost predicate CountsReflected(configs: map<Address, Config>, journal: seq<Entry>, rows: Rows, user: Address) {
    Total(rows, ActiveOf(user)) == ActiveIn(configs, user) + Sum(journal, CountDrift(user))
  }

  /** What a call in flight will publish: nothing about accounts but withdrawals from existing ones. */
  predicate EmitsOk(due: Due, accounts: set<AccountKey>) {
    due.fin.Emit? ==> |due.fin.events| <= 1 && forall i | 0 <= i < |due.fin.events| :: EventOk(due.fin.events[i], accounts)
  }

  predicate EventOk(e: Event, accounts: set<AccountKey>) {
    e.Other? || (e.WithdrawEvent? && (e.user, e.asset) in accounts)
  }

  predicate StackOk(stack: seq<Due>, accounts: set<AccountKey>) {
    forall i | 0 <= i < |stack| :: EmitsOk(stack[i], accounts)
  }

  ghost predicate Mirrored(accounts: Accounts, configs: map<Address, Config>, journal: seq<Entry>, rows: Rows, stack: seq<Due>) {
    && (forall user, asset :: Reflects(accounts, journal, rows, user, asset, InFlight(stack, user, asset)))
    && (forall user :: CountsReflected(configs, journal, rows, user))
    && accounts.Keys <= rows.Keys
    && StackOk(stack, accounts.Keys)
  }

  ghost predicate MirrorInv(b: Books, stack: seq<Due>) {
    Mirrored(b.accounts, b.configs, b.journal, Fold(b.events), stack)
  }

  ghost function MirrorProperty(): (State, seq<Due>) -> bool {
    (s: State, stack: seq<Due>) => MirrorInv(s.books, stack)
  }

  // ---- Journal entries ----------------------------------------------------

  lemma DriftSums(journal: seq<Entry>, e: Entry, user: Address, asset: Address)
    ensures var on := About(e, user, asset);
      && Sum(journal + [e], BalanceDrift(user, asset))
           == Sum(journal, BalanceDrift(user, asset)) + (if on then DirectPart(e) + SettledPlan(e) else 0)
      && Sum(journal + [e], SpentDrift(user, asset))
           == Sum(journal, SpentDrift(user, asset)) + (if on then DirectPart(e) + SettledSpent(e) else 0)
      && Sum(journal + [e], LockDrift(user, asset)) == Sum(journal, LockDrift(user, asset)) + (if on then SettledPlan(e) else 0)
      && Sum(journal + [e], CountDrift(user)) == Sum(journal, CountDrift(user)) + (if e.Settled? && e.user == user then 1 else 0)
  {
    SumSnoc(journal, e, BalanceDrift(user, asset));
    SumSnoc(journal, e, SpentDrift(user, asset));
    SumSnoc(journal, e, LockDrift(user, asset));
    SumSnoc(journal, e, CountDrift(user));
  }

  /** An entry that is neither a direct spend nor a settlement causes no drift. */
  lemma QuietEntry(accounts: Accounts, configs: map<Address, Config>, journal: seq<Entry>, rows: Rows, stack: seq<Due>, e: Entry)
    requires Mirrored(accounts, configs, journal, rows, stack) && !e.Direct? && !e.Settled?
    ensures Mirrored(accounts, configs, journal + [e], rows, stack)
  {
    forall user, asset ensures Reflects(accounts, journal + [e], rows, user, asset, InFlight(stack, user, asset)) {
      assert Reflects(accounts, journal, rows, user, asset, InFlight(stack, user, asset));
      DriftSums(journal, e, user, asset);
    }
    forall user ensures CountsReflected(configs, journal + [e], rows, user) {
      assert CountsReflected(configs, journal, rows, user);
      DriftSums(journal, e, user, 0);
    }
  }

  /**
   * One account and one row move together: the row by `row`, the account by
   * the row's change less the drift of the entry. Active counts move alike.
   */
  lemma MovedTogether(accounts: Accounts, configs: map<Address, Config>, journal: seq<Entry>, rows: Rows, stack: seq<Due>,
                      user: Address, asset: Address, acc: Account, row: Row, e: Entry, configs1: map<Address, Config>)
    requires Mirrored(accounts, configs, journal, rows, stack)
    requires e.Direct? || e.Settled? ==> About(e, user, asset)
    requires var old', r := AccountIn(accounts, user, asset), RowIn(rows, user, asset);
      && acc.balance - old'.balance == row.balance - r.balance - DirectPart(e) - SettledPlan(e)
      && acc.locked - old'.locked == row.locked - r.locked - SettledPlan(e)
      && acc.totalDeposited - old'.totalDeposited == row.totalDeposited - r.totalDeposited
      && acc.totalSpent - old'.totalSpent == row.totalSpent - r.totalSpent + DirectPart(e) + SettledSpent(e)
      && ActiveIn(configs1, user) - ActiveIn(configs, user) == row.activeTasks - r.activeTasks - (if e.Settled? then 1 else 0)
    requires forall u | u != user :: ActiveIn(configs1, u) == ActiveIn(configs, u)
    ensures Mirrored(accounts[(user, asset) := acc], configs1, journal + [e], rows[(user, asset) := row], stack)
  {
    var accounts1, journal1, rows1 := accounts[(user, asset) := acc], journal + [e], rows[(user, asset) := row];
    forall u, a ensures Reflects(accounts1, journal1, rows1, u, a, InFlight(stack, u, a)) {
      assert Reflects(accounts, journal, rows, u, a, InFlight(stack, u, a));
      DriftSums(journal, e, u, a);
    }
    forall u ensures CountsReflected(configs1, journal1, rows1, u) {
      assert CountsReflected(configs, journal, rows, u);
      DriftSums(journal, e, u, 0);
      TotalUpdate(rows, ActiveOf(u), (user, asset), row);
    }
    forall i | 0 <= i < |stack| ensures EmitsOk(stack[i], accounts1.Keys) {
      assert EmitsOk(stack[i], accounts.Keys);
    }
  }

  // ---- The stack ----------------------------------------------------------

  lemma FlightPush(stack: seq<Due>, due: Due, user: Address, asset: Address)
    ensures InFlight(stack + [due], user, asset)
         == InFlight(stack, user, asset) + if due.fin.Emit? then Unpublished(due.fin.events, user, asset) else 0
  {
    assert (stack + [due])[..|stack|] == stack;
  }

  lemma StackPush(stack: seq<Due>, due: Due, accounts: set<AccountKey>)
    ensures StackOk(stack + [due], accounts) <==> StackOk(stack, accounts) && EmitsOk(due, accounts)
  {
    if StackOk(stack + [due], accounts) {
      assert (stack + [due])[|stack|] == due;
      forall i | 0 <= i < |stack| ensures EmitsOk(stack[i], accounts) {
        assert (stack + [due])[i] == stack[i];
      }
    }
  }

  predicate Silent(due: Due) {
    due.fin.Emit? ==> |due.fin.events| <= 1 && forall i | 0 <= i < |due.fin.events| :: due.fin.events[i].Other?
  }

  /** A due that will publish nothing about accounts may come and go. */
  lemma QuietDue(accounts: Accounts, configs: map<Address, Config>, journal: seq<Entry>, rows: Rows, stack: seq<Due>, due: Due)
    requires Silent(due)
    ensures Mirrored(accounts, configs, journal, rows, stack) <==> Mirrored(accounts, configs, journal, rows, stack + [due])
  {
    StackPush(stack, due, accounts.Keys);
    forall u, a ensures InFlight(stack + [due], u, a) == InFlight(stack, u, a) {
      FlightPush(stack, due, u, a);
      if due.fin.Emit? {
        NothingUnpublished(due.fin.events, u, a);
      }
    }
    if Mirrored(accounts, configs, journal, rows, stack) {
      forall u, a ensures Reflects(accounts, journal, rows, u, a, InFlight(stack + [due], u, a)) {
        assert Reflects(accounts, journal, rows, u, a, InFlight(stack, u, a));
      }
    }
    if Mirrored(accounts, configs, journal, rows, stack + [due]) {
      forall u, a ensures Reflects(accounts, journal, rows, u, a, InFlight(stack, u, a)) {
        assert Reflects(accounts, journal, rows, u, a, InFlight(stack + [due], u, a));
      }
    }
  }

  lemma {:induction false} NothingUnpublished(events: seq<Event>, user: Address, asset: Address)
    requires forall i | 0 <= i < |events| :: events[i].Other?
    ensures Unpublished(events, user, asset) == 0
  {
    if events != [] {
      NothingUnpublished(events[..|events| - 1], user, asset);
    }
  }

  /** A due is replaced by one that will publish the same. */
  lemma SameEmission(accounts: Accounts, configs: map<Address, Config>, journal: seq<Entry>, rows: Rows, stack: seq<Due>,
                     due: Due, due1: Due)
    requires Mirrored(accounts, configs, journal, rows, stack + [due]) && due1.fin == due.fin
    ensures Mirrored(accounts, configs, journal, rows, stack + [due1])
  {
    StackPush(stack, due, accounts.Keys);
    StackPush(stack, due1, accounts.Keys);
    forall u, a ensures Reflects(accounts, journal, rows, u, a, InFlight(stack + [due1], u, a)) {
      assert Reflects(accounts, journal, rows, u, a, InFlight(stack + [due], u, a));
      FlightPush(stack, due, u, a);
      FlightPush(stack, due1, u, a);
    }
  }

  /** Publishing what is in flight. */
  lemma Published(accounts: Accounts, configs: map<Address, Config>, journal: seq<Entry>, rows: Rows, stack: seq<Due>,
                  due: Due, e: Event)
    requires Mirrored(accounts, configs, journal, rows, stack + [due]) && due.fin == Emit([e])
    ensures Mirrored(accounts, configs, journal, Project(rows, e), stack)
  {
    StackPush(stack, due, accounts.Keys);
    assert EventOk(due.fin.events[0], accounts.Keys);
    var rows1 := Project(rows, e);
    forall u, a ensures Reflects(accounts, journal, rows1, u, a, InFlight(stack, u, a)) {
      assert Reflects(accounts, journal, rows, u, a, InFlight(stack + [due], u, a));
      FlightPush(stack, due, u, a);
      assert [e][..0] == [];
      assert Unpublished([], u, a) == 0;
    }
    forall u ensures CountsReflected(configs, journal, rows1, u) {
      assert CountsReflected(configs, journal, rows, u);
      if e.WithdrawEvent? {
        TotalUpdate(rows, ActiveOf(u), (e.user, e.asset), rows1[(e.user, e.asset)]);
      }
    }
  }

  // ---- Postings -----------------------------------------------------------

  /** Books that differ only where the mirror does not look, or by entries and events it ignores. */
  ghost predicate Alike(b: Books, b1: Books) {
    && b1.accounts == b.accounts
    && (forall u :: ActiveIn(b1.configs, u) == ActiveIn(b.configs, u))
    && b1.journal == b.journal && b1.events == b.events
  }

  lemma AlikeKeeps(b: Books, b1: Books, stack: seq<Due>)
    requires Alike(b, b1) && MirrorInv(b, stack)
    ensures MirrorInv(b1, stack)
  {
    forall u ensures CountsReflected(b1.configs, b1.journal, Fold(b1.events), u) {
      assert CountsReflected(b.configs, b.journal, Fold(b.events), u);
    }
  }

  lemma LogKeeps(b: Books, e: Entry, stack: seq<Due>)
    requires MirrorInv(b, stack) && !e.Direct? && !e.Settled?
    ensures MirrorInv(Log(b, e), stack)
  {
    QuietEntry(b.accounts, b.configs, b.journal, Fold(b.events), stack, e);
  }

  lemma PublishOther(b: Books, stack: seq<Due>)
    requires MirrorInv(b, stack)
    ensures MirrorInv(Publish(b, [Other]), stack) && MirrorInv(Publish(b, []), stack)
  {
    FoldOne(b.events, Other);
    SameFold(b, Publish(b, [Other]), stack);
    assert b.events + [] == b.events;
    SameFold(b, Publish(b, []), stack);
  }

  lemma SameFold(b: Books, b1: Books, stack: seq<Due>)
    requires MirrorInv(b, stack) && Fold(b1.events) == Fold(b.events)
    requires b1.accounts == b.accounts && b1.configs == b.configs && b1.journal == b.journal
    ensures MirrorInv(b1, stack)
  {
  }

  lemma CreditKeeps(b: Books, user: Address, asset: Address, amount: int, stack: seq<Due>)
    requires MirrorInv(b, stack)
    ensures MirrorInv(CreditAccount(b, user, asset, amount), stack)
  {
    var acc, row := AccountIn(b.accounts, user, asset), RowIn(Fold(b.events), user, asset);
    var acc1 := acc.(balance := acc.balance + amount, totalDeposited := acc.totalDeposited + amount);
    var row1 := row.(balance := row.balance + amount, totalDeposited := row.totalDeposited + amount);
    MovedTogether(b.accounts, b.configs, b.journal, Fold(b.events), stack, user, asset, acc1, row1,
                  Deposited(user, asset, amount), b.configs);
    CreditShape(b, user, asset, amount, acc1, row1);
  }

  lemma CreditShape(b: Books, user: Address, asset: Address, amount: int, acc1: Account, row1: Row)
    requires var acc, row := AccountIn(b.accounts, user, asset), RowIn(Fold(b.events), user, asset);
      && acc1 == acc.(balance := acc.balance + amount, totalDeposited := acc.totalDeposited + amount)
      && row1 == row.(balance := row.balance + amount, totalDeposited := row.totalDeposited + amount)
    ensures var b1 := CreditAccount(b, user, asset, amount);
      && b1.accounts == b.accounts[(user, asset) := acc1] && b1.configs == b.configs
      && b1.journal == b.journal + [Deposited(user, asset, amount)]
      && Fold(b1.events) == Fold(b.events)[(user, asset) := row1]
  {
    FoldOne(b.events, DepositEvent(user, asset, amount));
  }

  lemma EnsureConfigAlike(b: Books, user: Address)
    ensures Alike(b, EnsureConfig(b, user))
  {
  }

  /** A direct spend is drift from the start: the row does not move. */
  lemma SpendDirectKeeps(b: Books, user: Address, asset: Address, amount: int, stack: seq<Due>)
    requires MirrorInv(b, stack) && (user, asset) in b.accounts
    ensures MirrorInv(SpendDirect(b, user, asset, amount), stack)
  {
    var acc, rows := b.accounts[(user, asset)], Fold(b.events);
    assert (user, asset) in b.accounts.Keys;
    MovedTogether(b.accounts, b.configs, b.journal, rows, stack, user, asset,
      acc.(balance := acc.balance - amount, totalSpent := acc.totalSpent + amount), rows[(user, asset)],
      Direct(user, asset, amount), b.configs);
    assert rows[(user, asset) := rows[(user, asset)]] == rows;
  }

  lemma OpenTaskKeepsMirror(b: Books, t: Task, stack: seq<Due>)
    requires MirrorInv(b, stack) && (t.user, t.asset) in b.accounts && t.user in b.configs
    ensures MirrorInv(OpenTask(b, t), stack)
  {
    var b1 := OpenTask(b, t);
    var acc, rows, cfg := b.accounts[(t.user, t.asset)], Fold(b.events), b.configs[t.user];
    var row, e := RowIn(rows, t.user, t.asset), TaskNewEvent(t.user, t.asset, t.planCost);
    FoldOne(b.events, e);
    Moved1(b, stack, t.user, t.asset, acc.(locked := acc.locked + t.planCost),
      row.(locked := row.locked + t.planCost, activeTasks := row.activeTasks + 1), b1.configs);
  }

  /** The same without an entry. */
  lemma Moved1(b: Books, stack: seq<Due>, user: Address, asset: Address, acc: Account, row: Row, configs1: map<Address, Config>)
    requires MirrorInv(b, stack) && (user, asset) in b.accounts
    requires var old', r := b.accounts[(user, asset)], RowIn(Fold(b.events), user, asset);
      && acc == old'.(locked := acc.locked) && row == r.(locked := row.locked, activeTasks := row.activeTasks)
      && acc.locked - old'.locked == row.locked - r.locked
      && ActiveIn(configs1, user) - ActiveIn(b.configs, user) == row.activeTasks - r.activeTasks
    requires forall u | u != user :: ActiveIn(configs1, u) == ActiveIn(b.configs, u)
    ensures Mirrored(b.accounts[(user, asset) := acc], configs1, b.journal, Fold(b.events)[(user, asset) := row], stack)
  {
    var accounts, rows := b.accounts, Fold(b.events);
    var accounts1, rows1 := accounts[(user, asset) := acc], rows[(user, asset) := row];
    forall u, a ensures Reflects(accounts1, b.journal, rows1, u, a, InFlight(stack, u, a)) {
      assert Reflects(accounts, b.journal, rows, u, a, InFlight(stack, u, a));
    }
    forall u ensures CountsReflected(configs1, b.journal, rows1, u) {
      assert CountsReflected(b.configs, b.journal, rows, u);
      TotalUpdate(rows, ActiveOf(u), (user, asset), row);
    }
    assert accounts1.Keys == accounts.Keys;
  }

  lemma CloseTaskKeeps(b: Books, id: nat, split: Option<(nat, nat)>, stack: seq<Due>)
    requires MirrorInv(b, stack) && Closable(b, id, split)
    ensures MirrorInv(CloseTask(b, id, split), stack)
  {
    var t := b.tasks[id];
    var b1, cfg, rows := CloseTask(b, id, split), b.configs[t.user], Fold(b.events);
    var acc := b.accounts[(t.user, t.asset)];
    CloseShape(b, id, split);
    assert (t.user, t.asset) in b.accounts.Keys;
    var r := rows[(t.user, t.asset)];
    var row := if split.Some? then r
               else r.(locked := r.locked - t.planCost, balance := r.balance - t.spent, totalSpent := r.totalSpent + t.spent,
                       activeTasks := r.activeTasks - 1);
    MovedTogether(b.accounts, b.configs, b.journal, rows, stack, t.user, t.asset, ClosedAccount(acc, t, split), row,
                  ClosingEntry(id, t, split), b1.configs);
    ClosePublishes(b, id, split, row);
  }

  lemma ClosePublishes(b: Books, id: nat, split: Option<(nat, nat)>, row: Row)
    requires Closable(b, id, split)
    requires var t := b.tasks[id]; (t.user, t.asset) in Fold(b.events)
    requires var t := b.tasks[id]; var r := Fold(b.events)[(t.user, t.asset)];
      row == if split.Some? then r
             else r.(locked := r.locked - t.planCost, balance := r.balance - t.spent, totalSpent := r.totalSpent + t.spent,
                     activeTasks := r.activeTasks - 1)
    ensures var t, b1 := b.tasks[id], CloseTask(b, id, split);
      && b1.journal == b.journal + [ClosingEntry(id, t, split)]
      && Fold(b1.events) == Fold(b.events)[(t.user, t.asset) := row]
  {
    var t, rows := b.tasks[id], Fold(b.events);
    if split.None? {
      FoldOne(b.events, TaskDoneEvent(t.user, t.asset, t.spent, t.planCost - t.spent));
    } else {
      assert rows[(t.user, t.asset) := rows[(t.user, t.asset)]] == rows;
    }
  }

  lemma DebitKeeps(b: Books, user: Address, asset: Address, amount: nat, stack: seq<Due>, due: Due)
    requires MirrorInv(b, stack) && (user, asset) in b.accounts && due.fin == Emit([WithdrawEvent(user, asset, amount)])
    ensures MirrorInv(Debit(b, user, asset, amount), stack + [due])
  {
    var b1, e, rows := Debit(b, user, asset, amount), Withdrew(user, asset, amount), Fold(b.events);
    assert b1.accounts.Keys == b.accounts.Keys;
    StackPush(stack, due, b1.accounts.Keys);
    forall u, a ensures Reflects(b1.accounts, b1.journal, rows, u, a, InFlight(stack + [due], u, a)) {
      assert Reflects(b.accounts, b.journal, rows, u, a, InFlight(stack, u, a));
      DriftSums(b.journal, e, u, a);
      FlightPush(stack, due, u, a);
      assert due.fin.events[..0] == [] && Unpublished([], u, a) == 0;
    }
    forall u ensures CountsReflected(b1.configs, b1.journal, rows, u) {
      assert CountsReflected(b.configs, b.journal, rows, u);
      DriftSums(b.journal, e, u, 0);
    }
  }

  // ---- Entry points and transfers ----------------------------------------

  lemma RecordKeeps(b: Books, id: nat, step: U64, amount: int, stack: seq<Due>)
    requires MirrorInv(b, stack) && id in b.tasks
    ensures MirrorInv(RecordRelease(b, id, step, amount), stack)
  {
    var b1 := RecordRelease(b, id, step, amount);
    var b0 := b1.(journal := b.journal);
    AlikeKeeps(b, b0, stack);
    LogKeeps(b0, Released(id, step, amount), stack);
  }

  lemma AccrueAlike(b: Books, ctl: Control, asset: Address, fee: int)
    ensures Accrue(b, ctl, asset, fee).Ok? ==> Alike(b, Accrue(b, ctl, asset, fee).value)
  {
    AddFeeAlike(b, asset, fee);
  }

  lemma AddFeeAlike(b: Books, asset: Address, fee: int)
    ensures Alike(b, AddFee(b, asset, fee)) && Alike(b, b)
  {
  }

  lemma PaysOneKeeps(s: State, p: Pending, b0: Books, asset: Address, task: Option<nat>, to: Address, amount: int, stack: seq<Due>)
    requires PaysOne(s, p, b0, asset, task, to, amount) && MirrorInv(b0, stack)
    ensures MirrorInv(p.s.books, stack) && Silent(p.due)
  {
    AccrueAlike(b0, s.ctl, asset, ComputeFee(s.ctl, amount).value);
    AlikeKeeps(b0, p.s.books, stack);
  }

  lemma ProvedKeeps(b: Books, id: nat, step: U64, amount: int, n: Bytes32, stack: seq<Due>)
    requires MirrorInv(b, stack) && id in b.tasks
    ensures MirrorInv(Proved(b, id, step, amount, n), stack)
  {
    RecordKeeps(b, id, step, amount, stack);
    AlikeKeeps(RecordRelease(b, id, step, amount), Proved(b, id, step, amount, n), stack);
  }

  lemma ReleasesKeep(h: Host, s: State, op: Op, p: Pending, stack: seq<Due>)
    requires op.ReleasePayment? || op.ReleaseProved? || op.ReleaseBatch?
    requires MirrorInv(s.books, stack) && Begin(h, s, op) == Ok(p)
    ensures MirrorInv(p.s.books, stack) && Silent(p.due)
  {
    match op
    case ReleasePayment(orch, id, step, asset, amount) =>
      ReleasePaymentShape(h, s, orch, id, step, asset, amount, p);
      if (id, step) !in s.books.steps {
        RecordKeeps(s.books, id, step, amount, stack);
        PaysOneKeeps(s, p, RecordRelease(s.books, id, step, amount), asset, Some(id), orch, amount, stack);
      }
    case ReleaseProved(orch, id, step, asset, amount, payee, n, proof) =>
      ReleaseProvedShape(h, s, orch, id, step, asset, amount, payee, n, proof, p);
      if (id, step) !in s.books.steps {
        ProvedKeeps(s.books, id, step, amount, n, stack);
        PaysOneKeeps(s, p, Proved(s.books, id, step, amount, n), asset, Some(id), payee, amount, stack);
      }
    case ReleaseBatch(orch, id, step, asset, q, proof) =>
      ReleaseBatchShape(h, s, orch, id, step, asset, q, proof, p);
      if (id, step) !in s.books.steps {
        RecordKeeps(s.books, id, step, S.SumAmounts(q.amounts), stack);
      }
  }

  lemma SpendsKeep(h: Host, s: State, op: Op, p: Pending, stack: seq<Due>)
    requires op.ReleaseSession? || op.ReleaseKeyless?
    requires MirrorInv(s.books, stack) && Begin(h, s, op) == Ok(p)
    ensures MirrorInv(p.s.books, stack) && Silent(p.due)
  {
    match op
    case ReleaseSession(session, payee, amount, rid) =>
      ReleaseSessionShape(h, s, session, payee, amount, rid, p);
      var info := s.lanes.sessions[session];
      SpendDirectKeeps(s.books, info.user, info.asset, amount, stack);
      PaysOneKeeps(s, p, SpendDirect(s.books, info.user, info.asset, amount), info.asset, None, payee, amount, stack);
    case ReleaseKeyless(user, asset, c, q, proof, global) =>
      ReleaseKeylessShape(h, s, user, asset, c, q, proof, global, p);
      SpendDirectKeeps(s.books, user, asset, S.SumAmounts(q.amounts), stack);
  }

  lemma ReceivedKeeps(h: Host, b: Books, to: Address, asset: Address, amount: nat, stack: seq<Due>)
    requires MirrorInv(b, stack)
    ensures MirrorInv(Received(h, b, to, asset, amount), stack)
  {
    if to == h.vault {
      LogKeeps(b, Gift(asset, amount), stack);
    }
  }

  lemma CreateTaskShape(h: Host, s: State, orch: Address, asset: Address, planCost: I128, c: Option<Bytes32>, p: Pending)
    requires BeginCreateTask(h, s, orch, asset, planCost, c) == Ok(p)
    ensures orch in s.ctl.owners && p.due == Nothing
    ensures var t := Task(s.ctl.owners[orch], orch, asset, planCost, 0, false, false, c, s.now);
      && (t.user, t.asset) in s.books.accounts && t.user in s.books.configs && p.s.books == OpenTask(s.books, t)
  {
  }

  lemma TasksKeep(h: Host, s: State, op: Op, p: Pending, stack: seq<Due>)
    requires op.CreateTask? || op.CreateTaskWithPolicy? || op.ResolveDispute? || Ending(op)
    requires MirrorInv(s.books, stack) && Begin(h, s, op) == Ok(p)
    ensures MirrorInv(p.s.books, stack) && Silent(p.due)
  {
    if op.CreateTask? || op.CreateTaskWithPolicy? {
      var c := if op.CreateTask? then None else Some(op.commitment);
      CreateTaskShape(h, s, op.orchestrator, op.asset, op.planCost, c, p);
      OpenTaskKeepsMirror(s.books, Task(s.ctl.owners[op.orchestrator], op.orchestrator, op.asset, op.planCost, 0, false, false, c, s.now),
                          stack);
    } else if op.ResolveDispute? {
      ResolveShape(h, s, op.resolver, op.task, op.refund, op.payout, p);
      CloseTaskKeeps(s.books, op.task, Some((op.refund as nat, op.payout as nat)), stack);
    } else {
      EndingShape(h, s, op, p);
      CloseTaskKeeps(s.books, op.task, None, stack);
    }
  }

  lemma ConfigAlike(b: Books, user: Address, orch: Address)
    requires user in b.configs
    ensures Alike(b, b.(configs := b.configs[user := b.configs[user].(orchestrator := Some(orch))]))
  {
  }

  lemma RegisterOrchestratorKeeps(h: Host, s: State, user: Address, orch: Address, p: Pending, stack: seq<Due>)
    requires MirrorInv(s.books, stack) && BeginRegisterOrchestrator(h, s, user, orch) == Ok(p)
    ensures MirrorInv(p.s.books, stack) && Silent(p.due)
  {
    EnsureConfigAlike(s.books, user);
    ConfigAlike(EnsureConfig(s.books, user), user, orch);
    AlikeKeeps(s.books, p.s.books, stack);
  }

  lemma UpdateOrchestratorKeeps(h: Host, s: State, user: Address, orch: Address, p: Pending, stack: seq<Due>)
    requires MirrorInv(s.books, stack) && BeginUpdateOrchestrator(h, s, user, orch) == Ok(p)
    ensures MirrorInv(p.s.books, stack) && Silent(p.due)
  {
    ConfigAlike(s.books, user, orch);
    AlikeKeeps(s.books, p.s.books, stack);
  }

  lemma RaiseDisputeKeeps(h: Host, s: State, user: Address, id: U64, p: Pending, stack: seq<Due>)
    requires MirrorInv(s.books, stack) && BeginRaiseDispute(h, s, user, id) == Ok(p)
    ensures MirrorInv(p.s.books, stack) && Silent(p.due)
  {
    AlikeKeeps(s.books, Freeze(s.books, id), stack);
    PublishOther(Freeze(s.books, id), stack);
  }

  lemma OthersKeep(h: Host, s: State, op: Op, p: Pending, stack: seq<Due>)
    requires op.RegisterSession? || op.RegisterOrchestrator? || op.UpdateOrchestrator? || op.RaiseDispute? || op.ClaimFees?
    requires MirrorInv(s.books, stack) && Begin(h, s, op) == Ok(p)
    ensures MirrorInv(p.s.books, stack) && Silent(p.due)
  {
    match op
    case RegisterSession(user, session, asset, expiry, cap, rid, server) =>
      RegisterSessionKeeps(h, s, user, session, asset, expiry, cap, rid, server, p, stack);
    case RegisterOrchestrator(user, orch) => RegisterOrchestratorKeeps(h, s, user, orch, p, stack);
    case UpdateOrchestrator(user, orch) => UpdateOrchestratorKeeps(h, s, user, orch, p, stack);
    case RaiseDispute(user, id) => RaiseDisputeKeeps(h, s, user, id, p, stack);
    case ClaimFees(recipient, asset) => ClaimFeesKeeps(h, s, recipient, asset, p, stack);
  }

  lemma RegisterSessionKeeps(h: Host, s: State, user: Address, session: Address, asset: Address, expiry: U64, cap: I128,
                             rid: Option<Bytes32>, server: bool, p: Pending, stack: seq<Due>)
    requires MirrorInv(s.books, stack) && BeginRegisterSession(h, s, user, session, asset, expiry, cap, rid, server) == Ok(p)
    ensures MirrorInv(p.s.books, stack) && Silent(p.due)
  {
    EnsureConfigAlike(s.books, user);
    AlikeKeeps(s.books, p.s.books, stack);
  }

  lemma ClaimFeesKeeps(h: Host, s: State, recipient: Address, asset: Address, p: Pending, stack: seq<Due>)
    requires MirrorInv(s.books, stack) && BeginClaimFees(h, s, recipient, asset) == Ok(p)
    ensures MirrorInv(p.s.books, stack) && Silent(p.due)
  {
    AlikeKeeps(s.books, p.s.books, stack);
  }

  lemma MintKeeps(h: Host, s: State, to: Address, asset: Address, amount: nat, p: Pending, stack: seq<Due>)
    requires MirrorInv(s.books, stack) && BeginMint(h, s, to, asset, amount) == Ok(p)
    ensures MirrorInv(p.s.books, stack) && Silent(p.due)
  {
    var b1 := AddTokens(s.books, to, asset, amount);
    AlikeKeeps(s.books, b1, stack);
    ReceivedKeeps(h, b1, to, asset, amount, stack);
  }

  lemma TokenTransferKeeps(h: Host, s: State, from: Address, to: Address, asset: Address, amount: nat, p: Pending, stack: seq<Due>)
    requires MirrorInv(s.books, stack) && BeginTransfer(h, s, from, to, asset, amount) == Ok(p)
    ensures MirrorInv(p.s.books, stack) && Silent(p.due)
  {
    var b1 := Move(s.books, from, to, asset, amount);
    AlikeKeeps(s.books, b1, stack);
    ReceivedKeeps(h, b1, to, asset, amount, stack);
  }

  lemma TokensKeep(h: Host, s: State, op: Op, p: Pending, stack: seq<Due>)
    requires op.TokenMint? || op.TokenTransfer?
    requires MirrorInv(s.books, stack) && Begin(h, s, op) == Ok(p)
    ensures MirrorInv(p.s.books, stack) && Silent(p.due)
  {
    if op.TokenMint? {
      MintKeeps(h, s, op.to, op.asset, op.quantity, p, stack);
    } else {
      TokenTransferKeeps(h, s, op.from, op.to, op.asset, op.quantity, p, stack);
    }
  }

  lemma BeginKeeps(h: Host, s: State, op: Op, p: Pending, stack: seq<Due>)
    requires MirrorInv(s.books, stack) && Begin(h, s, op) == Ok(p) && !op.Withdraw? && !op.Deposit?
    ensures MirrorInv(p.s.books, stack) && Silent(p.due)
  {
    if BooksUntouched(op) {
      UntouchedBegun(h, s, op, p);
    } else if op.ReleasePayment? || op.ReleaseProved? || op.ReleaseBatch? {
      ReleasesKeep(h, s, op, p, stack);
    } else if op.ReleaseSession? || op.ReleaseKeyless? {
      SpendsKeep(h, s, op, p, stack);
    } else if op.TokenMint? || op.TokenTransfer? {
      TokensKeep(h, s, op, p, stack);
    } else if op.CreateTask? || op.CreateTaskWithPolicy? || op.ResolveDispute? || Ending(op) {
      TasksKeep(h, s, op, p, stack);
    } else {
      OthersKeep(h, s, op, p, stack);
    }
  }

  lemma BeginPushes(h: Host, s: State, op: Op, p: Pending, stack: seq<Due>)
    requires MirrorInv(s.books, stack) && Begin(h, s, op) == Ok(p)
    ensures MirrorInv(p.s.books, stack + [p.due])
  {
    if op.Withdraw? {
      WithdrawPushes(h, s, op.user, op.asset, op.amount, p, stack);
    } else {
      if op.Deposit? {
        DepositShape(h, s, op.user, op.asset, op.amount, p);
      } else {
        BeginKeeps(h, s, op, p, stack);
      }
      QuietDue(p.s.books.accounts, p.s.books.configs, p.s.books.journal, Fold(p.s.books.events), stack, p.due);
    }
  }

  lemma DepositShape(h: Host, s: State, user: Address, asset: Address, amount: I128, p: Pending)
    requires BeginDeposit(h, s, user, asset, amount) == Ok(p)
    ensures p.s == s && p.due.fin.CreditUser?
  {
  }

  lemma WithdrawPushes(h: Host, s: State, user: Address, asset: Address, amount: I128, p: Pending, stack: seq<Due>)
    requires MirrorInv(s.books, stack) && BeginWithdraw(h, s, user, asset, amount) == Ok(p)
    ensures MirrorInv(p.s.books, stack + [p.due])
  {
    DebitKeeps(s.books, user, asset, amount, stack, p.due);
  }

  lemma TaxKeeps(s: State, due: Due, s1: State, due1: Due, stack: seq<Due>)
    requires due.lines != [] && MirrorInv(s.books, stack + [due]) && Tax(s, due) == Ok((s1, due1))
    ensures MirrorInv(s1.books, stack + [due1])
  {
    if due.lines[0].Taxed? {
      AccrueAlike(s.books, s.ctl, due.asset, ComputeFee(s.ctl, due.lines[0].gross).value);
      AlikeKeeps(s.books, s1.books, stack + [due]);
      SameEmission(s1.books.accounts, s1.books.configs, s1.books.journal, Fold(s1.books.events), stack, due, due1);
    }
  }

  lemma TransferKeeps(h: Host, s: State, due: Due, s1: State, stack: seq<Due>)
    requires due.lines != [] && !due.lines[0].Taxed? && MirrorInv(s.books, stack + [due]) && Transfer(h, s, due) == Ok(s1)
    ensures MirrorInv(s1.books, stack + [RestOf(due)])
  {
    match due.lines[0] {
      case Pull(from, amount) =>
        AlikeKeeps(s.books, s1.books, stack + [due]);
      case Fixed(to, net, fee, rate) =>
        var b1 := Move(s.books, h.vault, to, due.asset, net);
        var e := Paid(due.task, due.asset, to, net, fee, rate);
        AlikeKeeps(s.books, b1, stack + [due]);
        LogKeeps(b1, e, stack + [due]);
        ReceivedKeeps(h, Log(b1, e), to, due.asset, net, stack + [due]);
    }
    SameEmission(s1.books.accounts, s1.books.configs, s1.books.journal, Fold(s1.books.events), stack, due, RestOf(due));
  }

  lemma FinishKeeps(s: State, due: Due, s1: State, stack: seq<Due>)
    requires due.lines == [] && MirrorInv(s.books, stack + [due]) && Finish(s, due) == Ok(s1)
    ensures MirrorInv(s1.books, stack)
  {
    var b := s.books;
    StackPush(stack, due, b.accounts.Keys);
    match due.fin
    case CreditUser(user, amount) =>
      QuietDue(b.accounts, b.configs, b.journal, Fold(b.events), stack, due);
      EnsureConfigAlike(b, user);
      AlikeKeeps(b, EnsureConfig(b, user), stack);
      CreditKeeps(EnsureConfig(b, user), user, due.asset, amount, stack);
    case Emit(events) =>
      if Silent(due) {
        QuietDue(b.accounts, b.configs, b.journal, Fold(b.events), stack, due);
        PublishOther(b, stack);
        assert events == [] || events == [Other];
      } else {
        assert events == [events[0]];
        Published(b.accounts, b.configs, b.journal, Fold(b.events), stack, due, events[0]);
        FoldOne(b.events, events[0]);
      }
  }

  lemma MirrorInductive(h: Host)
    ensures Inductive(h, MirrorProperty()) && OnWait(h, MirrorProperty())
  {
    var J := MirrorProperty();
    forall s, stack, op | J(s, stack) && Begin(h, Noted(s, op), op).Ok?
      ensures J(Begin(h, Noted(s, op), op).value.s, stack + [Begin(h, Noted(s, op), op).value.due])
    {
      var s0 := Noted(s, op);
      assert J(s0, stack);
      BeginPushes(h, s0, op, Begin(h, s0, op).value, stack);
    }
    forall s, stack, due: Due | due.lines != [] && J(s, stack + [due]) && Tax(s, due).Ok?
      ensures J(Tax(s, due).value.0, stack + [Tax(s, due).value.1])
    {
      TaxKeeps(s, due, Tax(s, due).value.0, Tax(s, due).value.1, stack);
    }
    forall s, stack, due: Due |
      due.lines != [] && !due.lines[0].Taxed? && J(s, stack + [due]) && Transfer(h, s, due).Ok?
      ensures J(Transfer(h, s, due).value, stack + [RestOf(due)])
    {
      TransferKeeps(h, s, due, Transfer(h, s, due).value, stack);
    }
    forall s, stack, due: Due | due.lines == [] && J(s, stack + [due]) && Finish(s, due).Ok?
      ensures J(Finish(s, due).value, stack)
    {
      FinishKeeps(s, due, Finish(s, due).value, stack);
    }
  }

  // ---- Main results -------------------------------------------------------

  lemma InitialMirrored(h: Host, s: State)
    requires Initial(h, s)
    ensures MirrorInv(s.books, [])
  {
    assert Fold([]) == map[];
    forall user, asset ensures Reflects(s.books.accounts, [], map[], user, asset, 0) {
    }
    assert forall user :: CountsReflected(s.books.configs, [], map[], user);
  }

  /**
   * After every run, an account is its mirror row less the session and keyless
   * spends and settled disputes of that account, and a user's open tasks are the
   * mirrored ones, over all assets, less the settled ones.
   */
  lemma MirrorRefines(h: Host, s0: State, steps: seq<Step>, user: Address, asset: Address)
    requires Initial(h, s0)
    ensures var b := Run(h, s0, steps).s.books; var rows := Fold(b.events);
      && Reflects(b.accounts, b.journal, rows, user, asset, 0)
      && Total(rows, ActiveOf(user)) == ActiveIn(b.configs, user) + Sum(b.journal, CountDrift(user))
      && ((user, asset) in b.accounts ==> (user, asset) in rows)
  {
    InitialMirrored(h, s0);
    MirrorInductive(h);
    RunKeeps(h, MirrorProperty(), s0, steps);
    var b := Run(h, s0, steps).s.books;
    assert Reflects(b.accounts, b.journal, Fold(b.events), user, asset, InFlight([], user, asset));
    assert CountsReflected(b.configs, b.journal, Fold(b.events), user);
    if (user, asset) in b.accounts {
      assert (user, asset) in b.accounts.Keys;
    }
  }

  // ---- When the mirror is exact -------------------------------------------

  /** The entries that publish no account event. */
  predicate Unseen(e: Entry, user: Address, asset: Address) {
    About(e, user, asset) && (e.Direct? || e.Settled?)
  }

  predicate HasUnseen(journal: seq<Entry>, user: Address, asset: Address) {
    exists i :: 0 <= i < |journal| && Unseen(journal[i], user, asset)
  }

  predicate HasSettled(journal: seq<Entry>, user: Address) {
    exists i :: 0 <= i < |journal| && journal[i].Settled? && journal[i].user == user
  }

  predicate Positive(e: Entry) {
    (e.Direct? ==> e.amount > 0) && (e.Settled? ==> e.planCost > 0)
  }

  /** Unseen entries take something from the balance, so it drifts as soon as there is one. */
  lemma {:induction false} BalanceDrifts(journal: seq<Entry>, user: Address, asset: Address)
    requires forall i | 0 <= i < |journal| :: Positive(journal[i])
    ensures Sum(journal, BalanceDrift(user, asset)) >= 0
    ensures Sum(journal, BalanceDrift(user, asset)) > 0 <==> HasUnseen(journal, user, asset)
    ensures !HasUnseen(journal, user, asset) ==>
      Sum(journal, SpentDrift(user, asset)) == 0 && Sum(journal, LockDrift(user, asset)) == 0
  {
    if journal != [] {
      var n := |journal| - 1;
      var init, e := journal[..n], journal[n];
      BalanceDrifts(init, user, asset);
      assert Positive(e);
      if HasUnseen(init, user, asset) {
        var i :| 0 <= i < n && Unseen(init[i], user, asset);
        assert Unseen(journal[i], user, asset);
      }
      assert HasUnseen(journal, user, asset) <==> HasUnseen(init, user, asset) || Unseen(e, user, asset);
    }
  }

  lemma {:induction false} CountDrifts(journal: seq<Entry>, user: Address)
    ensures Sum(journal, CountDrift(user)) >= 0
    ensures Sum(journal, CountDrift(user)) > 0 <==> HasSettled(journal, user)
  {
    if journal != [] {
      var n := |journal| - 1;
      var init, e := journal[..n], journal[n];
      CountDrifts(init, user);
      if HasSettled(init, user) {
        var i :| 0 <= i < n && init[i].Settled? && init[i].user == user;
        assert journal[i].Settled? && journal[i].user == user;
      }
      assert HasSettled(journal, user) <==> HasSettled(init, user) || (e.Settled? && e.user == user);
    }
  }

  lemma EntriesPositive(h: Host, s0: State, steps: seq<Step>)
    requires Initial(h, s0)
    ensures var j := Run(h, s0, steps).s.books.journal; forall i | 0 <= i < |j| :: Positive(j[i])
  {
    C.KeptAfter(h, s0, steps);
    var b := Run(h, s0, steps).s.books;
    forall i | 0 <= i < |b.journal| ensures Positive(b.journal[i]) {
      var e := b.journal[i];
      assert C.ClosingOk(e, b.tasks) && C.DirectOk(e);
      if e.Settled? {
        assert TaskOk(b.tasks, b.counter, b.accounts.Keys, b.configs.Keys, e.task);
      }
    }
  }

  predicate SameFigures(acc: Account, row: Row) {
    row.balance == acc.balance && row.locked == acc.locked && row.totalDeposited == acc.totalDeposited && row.totalSpent == acc.totalSpent
  }

  /**
   * The mirror shows an account exactly if and only if no session spend, keyless
   * spend or settled dispute was ever charged to it; its balance alone tells.
   * The mirrored active tasks of a user are exact if and only if no dispute of
   * the user was settled.
   */
  lemma MirrorExact(h: Host, s0: State, steps: seq<Step>, user: Address, asset: Address)
    requires Initial(h, s0)
    ensures var b := Run(h, s0, steps).s.books; var acc, row := AccountIn(b.accounts, user, asset), RowIn(Fold(b.events), user, asset);
      && (SameFigures(acc, row) <==> !HasUnseen(b.journal, user, asset))
      && (row.balance == acc.balance <==> !HasUnseen(b.journal, user, asset))
      && (Total(Fold(b.events), ActiveOf(user)) == ActiveIn(b.configs, user) <==> !HasSettled(b.journal, user))
  {
    MirrorRefines(h, s0, steps, user, asset);
    EntriesPositive(h, s0, steps);
    var j := Run(h, s0, steps).s.books.journal;
    BalanceDrifts(j, user, asset);
    CountDrifts(j, user);
  }

  // ---- A run at which it is not -------------------------------------------

  /** A call with one token transfer and no re-entry. */
  lemma OneTransfer(h: Host, s: State, due: Due, s1: State)
    requires |due.lines| == 1 && !due.lines[0].Taxed? && Transfer(h, s, due) == Ok(s1)
    ensures Settle(h, s, due, []).r == Finish(s1, due.(lines := []))
  {
    assert Tax(s, due) == Ok((s, due));
    assert RestOf(due) == due.(lines := []);
    assert Settle(h, s1, RestOf(due), []).r == Finish(s1, RestOf(due));
  }

  /** What the deposit, the new key and the key's first payment do, one after the other. */
  lemma DepositRuns(h: Host, s: State, user: Address, asset: Address, amount: I128)
    requires s.books.accounts == map[] && !s.ctl.paused && asset in s.ctl.supported && user != h.vault
    requires 0 < amount <= Held(s.books.tokens, user, asset)
    ensures Exec(h, s, Call(Deposit(user, asset, amount), [])).r
      == Ok(Noted(s, Deposit(user, asset, amount)).(books := Credit(Move(s.books, user, h.vault, asset, amount), user, asset, amount)))
  {
    var due := Due(asset, None, [Pull(user, amount)], CreditUser(user, amount));
    var s0 := Noted(s, Deposit(user, asset, amount));
    assert BeginDeposit(h, s0, user, asset, amount) == Ok(Pending(s0, due));
    OneTransfer(h, s0, due, s0.(books := Move(s.books, user, h.vault, asset, amount)));
  }

  lemma KeyRuns(h: Host, s: State, user: Address, key: Address, asset: Address, cap: I128, info: Session)
    requires !s.ctl.paused && asset in s.ctl.supported && user != h.vault && key !in s.lanes.sessions && cap > 0
    requires user in s.books.configs && info == Session(user, asset, 0, cap, None, false, false, 0, 0)
    ensures Exec(h, s, Call(RegisterSession(user, key, asset, 0, cap, None, false), [])).r
      == Ok(Noted(s, RegisterSession(user, key, asset, 0, cap, None, false)).(
              lanes := s.lanes.(sessions := s.lanes.sessions[key := info], log := s.lanes.log + [SessionOpened(key)])))
  {
    var s0 := Noted(s, RegisterSession(user, key, asset, 0, cap, None, false));
    var s1 := s0.(lanes := s.lanes.(sessions := s.lanes.sessions[key := info], log := s.lanes.log + [SessionOpened(key)]));
    assert BeginRegisterSession(h, s0, user, key, asset, 0, cap, None, false) == Ok(Pending(s1, Nothing));
    assert s1.(books := Publish(s1.books, [])) == s1;
  }

  lemma PaymentRuns(h: Host, s: State, key: Address, payee: Address, info: Session, amount: I128)
    requires !s.ctl.paused && s.ctl.feeConfig == None && key != h.vault && key in s.lanes.sessions && info == s.lanes.sessions[key]
    requires info == Session(info.user, info.asset, 0, amount, None, false, false, 0, 0) && info.user !in s.lanes.globalPublic
    requires (info.user, info.asset) in s.books.accounts && s.books.accounts[(info.user, info.asset)] == Account(amount, 0, amount, 0)
    requires 0 < amount <= Held(s.books.tokens, h.vault, info.asset)
    ensures var r := Exec(h, s, Call(ReleaseSession(key, payee, amount, None), [])).r;
      && r.Ok? && r.value.books.events == s.books.events + [Other]
      && AccountIn(r.value.books.accounts, info.user, info.asset) == Account(0, 0, amount, amount)
  {
    var s0 := Noted(s, ReleaseSession(key, payee, amount, None));
    PaymentBegins(h, s0, key, payee, info, amount);
    var p := BeginReleaseSession(h, s0, key, payee, amount, None).value;
    PayoutLeaves(h, p.s, p.due, payee, amount, AtRate(None));
    OneTransfer(h, p.s, p.due, Transfer(h, p.s, p.due).value);
  }

  lemma PayoutLeaves(h: Host, s: State, due: Due, to: Address, net: int, rate: Rate)
    requires due.lines == [Fixed(to, net, 0, rate)] && 0 <= net <= Held(s.books.tokens, h.vault, due.asset)
    ensures var r := Transfer(h, s, due);
      r.Ok? && r.value.books.accounts == s.books.accounts && r.value.books.events == s.books.events
  {
    var b1 := Move(s.books, h.vault, to, due.asset, net);
    MoveLeaves(s.books, h.vault, to, due.asset, net);
    ReceivedLeaves(h, Log(b1, Paid(due.task, due.asset, to, net, 0, rate)), to, due.asset, net);
  }

  lemma MoveLeaves(b: Books, from: Address, to: Address, asset: Address, amount: int)
    ensures var b1 := Move(b, from, to, asset, amount); b1.accounts == b.accounts && b1.events == b.events
  {
  }

  lemma ReceivedLeaves(h: Host, b: Books, to: Address, asset: Address, amount: nat)
    ensures var b1 := Received(h, b, to, asset, amount); b1.accounts == b.accounts && b1.events == b.events
  {
  }

  lemma PaymentBegins(h: Host, s: State, key: Address, payee: Address, info: Session, amount: I128)
    requires !s.ctl.paused && s.ctl.feeConfig == None && key != h.vault && key in s.lanes.sessions && info == s.lanes.sessions[key]
    requires info == Session(info.user, info.asset, 0, amount, None, false, false, 0, 0) && info.user !in s.lanes.globalPublic
    requires (info.user, info.asset) in s.books.accounts && s.books.accounts[(info.user, info.asset)] == Account(amount, 0, amount, 0)
    requires amount > 0
    ensures var r := BeginReleaseSession(h, s, key, payee, amount, None);
      && r.Ok? && r.value.s.books == SpendDirect(s.books, info.user, info.asset, amount)
      && r.value.due == Due(info.asset, None, [Fixed(payee, amount, 0, AtRate(None))], Emit([Other]))
  {
    assert RollBothRules(s, info.user, None, payee, amount) == Ok(s.lanes);
  }

  /** One deposit and one payment by a key leave the mirror's row with the whole deposit. */
  lemma MirrorDrifts(h: Host, s0: State, user: Address, key: Address, payee: Address, asset: Address, amount: I128)
    requires Initial(h, s0) && !s0.ctl.paused && asset in s0.ctl.supported && user != h.vault && key != h.vault
    requires 0 < amount <= Held(s0.books.tokens, user, asset)
    ensures exists steps :: Shows(Run(h, s0, steps).s.books, user, asset, Account(0, 0, amount, amount), Row(amount, 0, amount, 0, 0))
  {
    var c1, c2 := Call(Deposit(user, asset, amount), []), Call(RegisterSession(user, key, asset, 0, amount, None, false), []);
    var c3 := Call(ReleaseSession(key, payee, amount, None), []);
    var info := Session(user, asset, 0, amount, None, false, false, 0, 0);
    DepositRuns(h, s0, user, asset, amount);
    var s1 := Exec(h, s0, c1).r.value;
    KeyRuns(h, s1, user, key, asset, amount, info);
    var s2 := Exec(h, s1, c2).r.value;
    PaymentRuns(h, s2, key, payee, info, amount);
    var s3 := Exec(h, s2, c3).r.value;
    ThreeCalls(h, s0, c1, c2, c3, s1, s2, s3);
    DepositThenOther(s0.books.events, user, asset, amount);
    assert Shows(Run(h, s0, [Invoke(c1), Invoke(c2), Invoke(c3)]).s.books, user, asset, Account(0, 0, amount, amount), Row(amount, 0, amount, 0, 0));
  }

  predicate Shows(b: Books, user: Address, asset: Address, acc: Account, row: Row) {
    AccountIn(b.accounts, user, asset) == acc && RowIn(Fold(b.events), user, asset) == row
  }

  lemma DepositThenOther(events: seq<Event>, user: Address, asset: Address, amount: int)
    requires events == []
    ensures RowIn(Fold(events + [DepositEvent(user, asset, amount)] + [Other]), user, asset) == Row(amount, 0, amount, 0, 0)
  {
    FoldOne(events, DepositEvent(user, asset, amount));
    FoldOne(events + [DepositEvent(user, asset, amount)], Other);
  }

  lemma OneMoreCall(h: Host, s0: State, steps: seq<Step>, c: Call, s1: State)
    requires Exec(h, Run(h, s0, steps).s, c).r == Ok(s1)
    ensures Run(h, s0, steps + [Invoke(c)]).s == s1
  {
    assert (steps + [Invoke(c)])[..|steps|] == steps;
  }

  lemma ThreeCalls(h: Host, s0: State, c1: Call, c2: Call, c3: Call, s1: State, s2: State, s3: State)
    requires Exec(h, s0, c1).r == Ok(s1) && Exec(h, s1, c2).r == Ok(s2) && Exec(h, s2, c3).r == Ok(s3)
    ensures Run(h, s0, [Invoke(c1), Invoke(c2), Invoke(c3)]).s == s3
  {
    assert Run(h, s0, []).s == s0;
    OneMoreCall(h, s0, [], c1, s1);
    OneMoreCall(h, s0, [] + [Invoke(c1)], c2, s2);
    OneMoreCall(h, s0, [] + [Invoke(c1)] + [Invoke(c2)], c3, s3);
    assert [] + [Invoke(c1)] + [Invoke(c2)] + [Invoke(c3)] == [Invoke(c1), Invoke(c2), Invoke(c3)];
  }
}
