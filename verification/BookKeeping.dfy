/** The elementary postings every entry point is made of. */
module BookKeeping {
  import opened Base
  import opened Bytes
  import opened VaultState

  function EnsureConfig(b: Books, user: Address): Books {
    b.(configs := if user in b.configs then b.configs else b.configs[user := Config(None, 0)])
  }

  function AccountOrNew(b: Books, user: Address, asset: Address): Account {
    AccountIn(b.accounts, user, asset)
  }

  function SetAccount(b: Books, user: Address, asset: Address, acc: Account): Books {
    b.(accounts := b.accounts[(user, asset) := acc])
  }

  function Log(b: Books, e: Entry): Books {
    b.(journal := b.journal + [e])
  }

  function Publish(b: Books, events: seq<Event>): Books {
    b.(events := b.events + events)
  }

  /** A deposit whose tokens have arrived. */
  function Credit(b: Books, user: Address, asset: Address, amount: int): Books {
    CreditAccount(EnsureConfig(b, user), user, asset, amount)
  }

  function CreditAccount(b: Books, user: Address, asset: Address, amount: int): Books {
    var acc := AccountOrNew(b, user, asset);
    Publish(
      Log(SetAccount(b, user, asset, acc.(balance := acc.balance + amount, totalDeposited := acc.totalDeposited + amount)),
          Deposited(user, asset, amount)),
      [DepositEvent(user, asset, amount)])
  }

  function Debit(b: Books, user: Address, asset: Address, amount: nat): Books
    requires (user, asset) in b.accounts
  {
    var acc := b.accounts[(user, asset)];
    Log(SetAccount(b, user, asset, acc.(balance := acc.balance - amount)), Withdrew(user, asset, amount))
  }

  /** A session or keyless spend: straight out of the balance. */
  function SpendDirect(b: Books, user: Address, asset: Address, amount: int): Books
    requires (user, asset) in b.accounts
  {
    var acc := b.accounts[(user, asset)];
    Log(SetAccount(b, user, asset,
          acc.(balance := acc.balance - amount, totalSpent := acc.totalSpent + amount)),
        Direct(user, asset, amount))
  }

  /** Reserve a new task's plan cost; its id is the next counter value. */
  function OpenTask(b: Books, t: Task): Books
    requires (t.user, t.asset) in b.accounts && t.user in b.configs
  {
    var acc := b.accounts[(t.user, t.asset)];
    var cfg := b.configs[t.user];
    var b1 := SetAccount(b, t.user, t.asset, acc.(locked := acc.locked + t.planCost));
    Publish(
      b1.(configs := b.configs[t.user := cfg.(activeTasks := cfg.activeTasks + 1)],
          counter := b.counter + 1,
          tasks := b.tasks[b.counter + 1 := t]),
      [TaskNewEvent(t.user, t.asset, t.planCost)])
  }

  /** Mark a task as disputed. */
  function Freeze(b: Books, id: nat): Books
    requires id in b.tasks
  {
    b.(tasks := b.tasks[id := b.tasks[id].(disputed := true)])
  }

  /** One paid step: its record, its place in the index, and the task's running spend. */
  function RecordRelease(b: Books, id: nat, step: U64, amount: int): Books
    requires id in b.tasks
  {
    var ids := StepIds(b, id);
    Log(b.(stepIds := if step in ids then b.stepIds else b.stepIds[id := ids + [step]],
           steps := b.steps[(id, step) := amount],
           tasks := b.tasks[id := b.tasks[id].(spent := b.tasks[id].spent + amount)]),
        Released(id, step, amount))
  }

  function MarkTaskNullifier(b: Books, id: nat, n: Bytes32): Books {
    var ids := NullifierIds(b, id);
    b.(nullifierIds := if n in ids then b.nullifierIds else b.nullifierIds[id := ids + [n]],
       taskNullifiers := b.taskNullifiers + {(id, n)})
  }

  /** Forget a task's step records and nullifier markers, through their indexes. */
  function DropIndexes(b: Books, id: nat): Books {
    b.(steps := b.steps - (set i | i in StepIds(b, id) :: (id, i)),
       stepIds := b.stepIds - {id},
       taskNullifiers := b.taskNullifiers - (set n | n in NullifierIds(b, id) :: (id, n)),
       nullifierIds := b.nullifierIds - {id})
  }

  /** The account a closing task leaves behind. */
  function ClosedAccount(acc: Account, t: Task, split: Option<(nat, nat)>): Account {
    match split
    case None => Account(acc.balance - t.spent, acc.locked - t.planCost, acc.totalDeposited, acc.totalSpent + t.spent)
    case Some(shares) =>
      Account(acc.balance - t.planCost, acc.locked - t.planCost, acc.totalDeposited, acc.totalSpent + t.spent + shares.1)
  }

  function ClosingEntry(id: nat, t: Task, split: Option<(nat, nat)>): Entry {
    match split
    case None => Finished(id, t.user, t.asset, t.planCost, t.spent)
    case Some(shares) => Settled(id, t.user, t.asset, t.planCost, t.spent, shares.0, shares.1)
  }

  /** End a task: unlock its plan cost and realise what was spent, or the whole plan if a dispute split it. */
  function CloseTask(b: Books, id: nat, split: Option<(nat, nat)>): Books
    requires id in b.tasks
    requires (b.tasks[id].user, b.tasks[id].asset) in b.accounts && b.tasks[id].user in b.configs
  {
    var t := b.tasks[id];
    var cfg := b.configs[t.user];
    var b1 := SetAccount(b, t.user, t.asset, ClosedAccount(b.accounts[(t.user, t.asset)], t, split)).(
      configs := b.configs[t.user := cfg.(activeTasks := cfg.activeTasks - 1)],
      tasks := b.tasks[id := t.(completed := true)]);
    var b2 := Log(DropIndexes(b1, id), ClosingEntry(id, t, split));
    if split.None? then Publish(b2, [TaskDoneEvent(t.user, t.asset, t.spent, t.planCost - t.spent)]) else b2
  }

  function AddFee(b: Books, asset: Address, fee: int): Books {
    b.(fees := b.fees[asset := Fees(b, asset) + fee])
  }

  function ClearFees(b: Books, asset: Address): Books {
    b.(fees := b.fees[asset := 0])
  }

  function AddTokens(b: Books, who: Address, asset: Address, amount: int): Books {
    b.(tokens := b.tokens[(who, asset) := Held(b.tokens, who, asset) + amount])
  }

  /** Move tokens between two holders; what reaches the vault unasked is a gift. */
  function Move(b: Books, from: Address, to: Address, asset: Address, amount: int): Books {
    if from == to then b else AddTokens(AddTokens(b, from, asset, -amount), to, asset, amount)
  }
}
