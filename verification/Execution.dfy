/**
 * Running the vault: token transfers that may re-enter it, and whole runs.
 * A call carries a script for each of its transfers saying which further calls
 * the token makes before and after the tokens move, to any depth.
 */
module Execution {
  import opened Base
  import opened Bytes
  import opened VaultState
  import opened BookKeeping
  import opened Vault

  datatype Call = Call(op: Op, hooks: seq<Hook>)

  datatype Hook = Hook(before: seq<Call>, after: seq<Call>, traps: bool)

  /** The state in which the token contract is handed a transfer, and what the call still owes then. */
  datatype Sight = Sight(s: State, due: Due)

  datatype Out = Out(r: Result<State, Error>, seen: seq<Sight>)

  datatype Ran = Ran(s: State, seen: seq<Sight>)

  // ---- One transfer -------------------------------------------------------

  /** Take the fee of the next line, if that is still to be done. */
  function Tax(s: State, due: Due): Result<(State, Due), Error>
    requires due.lines != []
  {
    match due.lines[0]
    case Taxed(to, gross) =>
      var fee :- ComputeFee(s.ctl, gross);
      var b :- Accrue(s.books, s.ctl, due.asset, fee);
      Ok((s.(books := b), due.(lines := [Fixed(to, gross - fee, fee, InTurn(s.ctl.feeConfig))] + due.lines[1..])))
    case _ => Ok((s, due))
  }

  /** Move the next line's tokens; the token contract fails if they are not there. */
  function Transfer(h: Host, s: State, due: Due): Result<State, Error>
    requires due.lines != [] && !due.lines[0].Taxed?
  {
    match due.lines[0]
    case Pull(from, amount) =>
      :- Need(Held(s.books.tokens, from, due.asset) >= amount, Aborted);
      Ok(s.(books := Move(s.books, from, h.vault, due.asset, amount)))
    case Fixed(to, net, fee, rate) =>
      :- Need(0 <= net <= Held(s.books.tokens, h.vault, due.asset), Aborted);
      var b := Log(Move(s.books, h.vault, to, due.asset, net), Paid(due.task, due.asset, to, net, fee, rate));
      Ok(s.(books := Received(h, b, to, due.asset, net)))
  }

  function RestOf(due: Due): Due
    requires due.lines != []
  {
    due.(lines := due.lines[1..])
  }

  /** What happens after the last transfer. */
  function Finish(s: State, due: Due): Result<State, Error> {
    match due.fin
    case Emit(events) => Ok(s.(books := Publish(s.books, events)))
    case CreditUser(user, amount) =>
      var acc := AccountOrNew(s.books, user, due.asset);
      :- Fits(acc.balance + amount);
      :- Fits(acc.totalDeposited + amount);
      Ok(s.(books := Credit(s.books, user, due.asset, amount)))
  }

  // ---- Calls and their re-entries ----------------------------------------

  /** One call: it is noted and made; on an error the host reverts it as a whole. */
  function Exec(h: Host, s: State, c: Call): Out
    decreases c
  {
    match Begin(h, Noted(s, c.op), c.op)
    case Err(e) => Out(Err(e), [])
    case Ok(p) => Settle(h, p.s, p.due, c.hooks)
  }

  function Settle(h: Host, s: State, due: Due, hooks: seq<Hook>): Out
    decreases hooks, |due.lines|
  {
    if due.lines == [] then Out(Finish(s, due), [])
    else
      match Tax(s, due)
      case Err(e) => Out(Err(e), [])
      case Ok((s1, due1)) =>
        var seen := [Sight(s1, due1)];
        var o := if hooks == [] then Out(Transfer(h, s1, due1), []) else Hooked(h, s1, due1, hooks[0]);
        match o.r
        case Err(e) => Out(Err(e), seen + o.seen)
        case Ok(s2) =>
          var rest := Settle(h, s2, RestOf(due1), if hooks == [] then [] else hooks[1..]);
          Out(rest.r, seen + o.seen + rest.seen)
  }

  function Hooked(h: Host, s: State, due: Due, hook: Hook): Out
    requires due.lines != [] && !due.lines[0].Taxed?
    decreases hook
  {
    var b := RunAll(h, s, hook.before);
    match Transfer(h, b.s, due)
    case Err(e) => Out(Err(e), b.seen)
    case Ok(s1) =>
      var a := RunAll(h, s1, hook.after);
      Out(if hook.traps then Err(Aborted) else Ok(a.s), b.seen + a.seen)
  }

  /** Calls made one after the other; a failed one leaves no trace. */
  function RunAll(h: Host, s: State, calls: seq<Call>): Ran
    decreases calls
  {
    if calls == [] then Ran(s, [])
    else
      var o := Exec(h, s, calls[0]);
      var rest := RunAll(h, if o.r.Ok? then o.r.value else s, calls[1..]);
      Ran(rest.s, o.seen + rest.seen)
  }

  // ---- Whole runs ---------------------------------------------------------

  datatype Step =
    | Invoke(call: Call)
    | Tick(ledgers: nat, seconds: nat)     // ledgers close at least MIN_SECS_PER_LEDGER apart
    | Lapse(nullifier: Bytes32)            // a marker past its life may be dropped from storage

  function Next(h: Host, s: State, step: Step): Ran {
    match step
    case Invoke(c) =>
      var o := Exec(h, s, c);
      Ran(if o.r.Ok? then o.r.value else s, o.seen)
    case Tick(ledgers, seconds) =>
      Ran(if seconds >= MIN_SECS_PER_LEDGER * ledgers && s.now + seconds <= U64_MAX
          then s.(now := s.now + seconds, ledger := s.ledger + ledgers) else s, [])
    case Lapse(n) =>
      Ran(if n in s.lanes.nullifiers && s.ledger >= s.lanes.nullifiers[n] + MARKER_LIFE_LEDGERS
          then s.(lanes := s.lanes.(nullifiers := s.lanes.nullifiers - {n})) else s, [])
  }

  function Run(h: Host, s: State, steps: seq<Step>): Ran {
    if steps == [] then Ran(s, [])
    else
      var before := Run(h, s, steps[..|steps| - 1]);
      var last := Next(h, before.s, steps[|steps| - 1]);
      Ran(last.s, before.seen + last.seen)
  }

  /** A freshly initialised vault: no accounts, no tasks, and none of its tokens. */
  ghost predicate Initial(h: Host, s: State) {
    && s.books.accounts == map[] && s.books.configs == map[] && s.books.tasks == map[] && s.books.counter == 0
    && s.books.stepIds == map[] && s.books.steps == map[]
    && s.books.nullifierIds == map[] && s.books.taskNullifiers == {}
    && s.books.fees == map[] && s.books.journal == [] && s.books.events == []
    && (forall k | k in s.books.tokens :: s.books.tokens[k] >= 0)
    && (forall asset :: Held(s.books.tokens, h.vault, asset) == 0)
    && s.notes == []
    && s.ctl.owners == map[] && s.ctl.feeConfig == None && s.ctl.admin != h.vault
    && s.lanes == Lanes(map[], map[], map[], map[], map[], map[], map[], map[], [])
  }

  ghost predicate Reachable(h: Host, s: State) {
    exists s0, steps :: Initial(h, s0) && s == Run(h, s0, steps).s
  }

  // ---- The induction principle -------------------------------------------

  /**
   * `J(s, stack)` relates a state to the debts of all calls now on the stack,
   * innermost last. It is inductive if each elementary move of a call keeps it.
   */
  ghost predicate OnBegin(h: Host, J: (State, seq<Due>) -> bool) {
    forall s, stack, op | J(s, stack) && Begin(h, Noted(s, op), op).Ok? ::
      J(Begin(h, Noted(s, op), op).value.s, stack + [Begin(h, Noted(s, op), op).value.due])
  }

  ghost predicate OnTax(J: (State, seq<Due>) -> bool) {
    forall s, stack, due: Due | due.lines != [] && J(s, stack + [due]) && Tax(s, due).Ok? ::
      J(Tax(s, due).value.0, stack + [Tax(s, due).value.1])
  }

  ghost predicate OnTransfer(h: Host, J: (State, seq<Due>) -> bool) {
    forall s, stack, due: Due |
      due.lines != [] && !due.lines[0].Taxed? && J(s, stack + [due]) && Transfer(h, s, due).Ok? ::
      J(Transfer(h, s, due).value, stack + [RestOf(due)])
  }

  ghost predicate OnFinish(J: (State, seq<Due>) -> bool) {
    forall s, stack, due: Due | due.lines == [] && J(s, stack + [due]) && Finish(s, due).Ok? ::
      J(Finish(s, due).value, stack)
  }

  ghost predicate Inductive(h: Host, J: (State, seq<Due>) -> bool) {
    OnBegin(h, J) && OnTax(J) && OnTransfer(h, J) && OnFinish(J)
  }

  /** Every transfer in `seen` was handed over in a state where the property held. */
  ghost predicate SeenUnder(J: (State, seq<Due>) -> bool, seen: seq<Sight>) {
    forall i | 0 <= i < |seen| :: HeldAt(J, seen[i])
  }

  ghost predicate HeldAt(J: (State, seq<Due>) -> bool, x: Sight) {
    exists stack :: J(x.s, stack + [x.due])
  }

  lemma SeenJoin(J: (State, seq<Due>) -> bool, a: seq<Sight>, b: seq<Sight>)
    requires SeenUnder(J, a) && SeenUnder(J, b)
    ensures SeenUnder(J, a + b)
  {
  }

  /** An inductive property survives any call with any tree of re-entries, and holds at every transfer in it. */
  lemma {:induction false} ExecKeeps(h: Host, J: (State, seq<Due>) -> bool, s: State, stack: seq<Due>, c: Call)
    requires Inductive(h, J) && J(s, stack)
    ensures Exec(h, s, c).r.Ok? ==> J(Exec(h, s, c).r.value, stack)
    ensures SeenUnder(J, Exec(h, s, c).seen)
    decreases c
  {
    match Begin(h, Noted(s, c.op), c.op)
    case Err(e) =>
    case Ok(p) => SettleKeeps(h, J, p.s, stack, p.due, c.hooks);
  }

  lemma {:induction false} SettleKeeps(h: Host, J: (State, seq<Due>) -> bool, s: State, stack: seq<Due>, due: Due,
                                       hooks: seq<Hook>)
    requires Inductive(h, J) && J(s, stack + [due])
    ensures Settle(h, s, due, hooks).r.Ok? ==> J(Settle(h, s, due, hooks).r.value, stack)
    ensures SeenUnder(J, Settle(h, s, due, hooks).seen)
    decreases hooks, |due.lines|
  {
    if due.lines != [] && Tax(s, due).Ok? {
      var (s1, due1) := Tax(s, due).value;
      assert J(s1, stack + [due1]);
      var seen := [Sight(s1, due1)];
      assert HeldAt(J, seen[0]);
      if hooks != [] {
        HookedKeeps(h, J, s1, stack, due1, hooks[0]);
      }
      var o := if hooks == [] then Out(Transfer(h, s1, due1), []) else Hooked(h, s1, due1, hooks[0]);
      SeenJoin(J, seen, o.seen);
      if o.r.Ok? {
        SettleKeeps(h, J, o.r.value, stack, RestOf(due1), if hooks == [] then [] else hooks[1..]);
        SeenJoin(J, seen + o.seen, Settle(h, o.r.value, RestOf(due1), if hooks == [] then [] else hooks[1..]).seen);
      }
    }
  }

  lemma {:induction false} HookedKeeps(h: Host, J: (State, seq<Due>) -> bool, s: State, stack: seq<Due>, due: Due,
                                       hook: Hook)
    requires due.lines != [] && !due.lines[0].Taxed?
    requires Inductive(h, J) && J(s, stack + [due])
    ensures Hooked(h, s, due, hook).r.Ok? ==> J(Hooked(h, s, due, hook).r.value, stack + [RestOf(due)])
    ensures SeenUnder(J, Hooked(h, s, due, hook).seen)
    decreases hook
  {
    RunAllKeeps(h, J, s, stack + [due], hook.before);
    var b := RunAll(h, s, hook.before);
    if Transfer(h, b.s, due).Ok? {
      var s1 := Transfer(h, b.s, due).value;
      RunAllKeeps(h, J, s1, stack + [RestOf(due)], hook.after);
      SeenJoin(J, b.seen, RunAll(h, s1, hook.after).seen);
    }
  }

  lemma {:induction false} RunAllKeeps(h: Host, J: (State, seq<Due>) -> bool, s: State, stack: seq<Due>,
                                       calls: seq<Call>)
    requires Inductive(h, J) && J(s, stack)
    ensures J(RunAll(h, s, calls).s, stack)
    ensures SeenUnder(J, RunAll(h, s, calls).seen)
    decreases calls
  {
    if calls != [] {
      ExecKeeps(h, J, s, stack, calls[0]);
      var o := Exec(h, s, calls[0]);
      var s1 := if o.r.Ok? then o.r.value else s;
      RunAllKeeps(h, J, s1, stack, calls[1..]);
      SeenJoin(J, o.seen, RunAll(h, s1, calls[1..]).seen);
    }
  }

  /** The passage of time and the lapse of markers, between calls. */
  ghost predicate OnWait(h: Host, J: (State, seq<Due>) -> bool) {
    forall s, step: Step | !step.Invoke? && J(s, []) :: J(Next(h, s, step).s, [])
  }

  /** An inductive property that holds initially holds after every run, and at every transfer of it. */
  lemma {:induction false} RunKeeps(h: Host, J: (State, seq<Due>) -> bool, s: State, steps: seq<Step>)
    requires Inductive(h, J) && OnWait(h, J) && J(s, [])
    ensures J(Run(h, s, steps).s, [])
    ensures SeenUnder(J, Run(h, s, steps).seen)
  {
    if steps != [] {
      var init := steps[..|steps| - 1];
      RunKeeps(h, J, s, init);
      var before := Run(h, s, init);
      var step := steps[|steps| - 1];
      if step.Invoke? {
        ExecKeeps(h, J, before.s, [], step.call);
      }
      SeenJoin(J, before.seen, Next(h, before.s, step).seen);
    }
  }
}
