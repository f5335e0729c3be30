/**
 * The vault contract itself: storage as maps updated in place, one method per
 * entry point, loops where the contract loops. Each method is proved to do
 * exactly what `Exec` says, so every result about runs is a result about it.
 */
module AgentVault {
  import opened Base
  import opened Bytes
  import opened VaultState
  import opened BookKeeping
  import opened Vault
  import opened Execution
  import S = Signals
  import R = PublicRules

  type Done = Result<(), Error>

  const DONE: Done := Ok(())

  // ---- Unrolling the specification ----------------------------------------

  /** The next transfer of a due, with its re-entries. */
  function Send(h: Host, s: State, due: Due, hooks: seq<Hook>): Result<State, Error>
    requires due.lines != [] && !due.lines[0].Taxed?
  {
    if hooks == [] then Transfer(h, s, due) else Hooked(h, s, due, hooks[0]).r
  }

  function Rest<T>(s: seq<T>): seq<T> {
    if s == [] then [] else s[1..]
  }

  lemma SettleSend(h: Host, s: State, due: Due, hooks: seq<Hook>)
    requires due.lines != [] && !due.lines[0].Taxed?
    ensures var sent := Send(h, s, due, hooks);
      Settle(h, s, due, hooks).r == if sent.Err? then sent else Settle(h, sent.value, RestOf(due), Rest(hooks)).r
  {
  }

  lemma SettleTaxed(h: Host, s: State, due: Due, hooks: seq<Hook>)
    requires due.lines != [] && due.lines[0].Taxed?
    ensures var t := Tax(s, due);
      Settle(h, s, due, hooks).r == if t.Err? then Err(t.error) else Settle(h, t.value.0, t.value.1, hooks).r
  {
  }

  /** A transfer does not look past its own line. */
  lemma SendLooksAtLine(h: Host, s: State, due: Due, due': Due, hooks: seq<Hook>)
    requires due.lines != [] && due'.lines != [] && due.lines[0] == due'.lines[0] && !due.lines[0].Taxed?
    requires due.asset == due'.asset && due.task == due'.task
    ensures Send(h, s, due, hooks) == Send(h, s, due', hooks)
  {
  }

  /** A call with one transfer left. */
  lemma SettleOne(h: Host, s: State, due: Due, hooks: seq<Hook>)
    requires |due.lines| == 1 && !due.lines[0].Taxed?
    ensures var sent := Send(h, s, Due(due.asset, due.task, due.lines, Emit([])), hooks);
      Settle(h, s, due, hooks).r == if sent.Err? then sent else Finish(sent.value, RestOf(due))
  {
    SettleSend(h, s, due, hooks);
    SendLooksAtLine(h, s, due, Due(due.asset, due.task, due.lines, Emit([])), hooks);
  }

  /** A call with nothing to transfer. */
  lemma SettleQuiet(h: Host, s: State, hooks: seq<Hook>)
    ensures Settle(h, s, Nothing, hooks).r == Ok(s)
  {
    assert s.books.events + [] == s.books.events;
  }

  /** A method's result against its specification. */
  predicate Outcome(spec: Result<State, Error>, r: Done, s: State) {
    match spec
    case Ok(s1) => r.Ok? && s == s1
    case Err(e) => r == Err(e)
  }

  /** What a method that makes no transfer has to reach. */
  predicate Reaches(begun: Result<Pending, Error>, r: Done, s: State) {
    match begun
    case Ok(p) => r.Ok? && p == Pending(s, Nothing)
    case Err(e) => r == Err(e)
  }

  /** What a method's checks and effects have to reach before its first transfer. */
  predicate Commits(begun: Result<Pending, Error>, r: Done, s: State, due: Due) {
    match begun
    case Ok(p) => r.Ok? && p == Pending(s, due)
    case Err(e) => r == Err(e)
  }

  /** The specification of a whole call, given how it begins. */
  function After(h: Host, begun: Result<Pending, Error>, hooks: seq<Hook>): Result<State, Error> {
    if begun.Err? then Err(begun.error) else Settle(h, begun.value.s, begun.value.due, hooks).r
  }

  lemma AfterCommit(h: Host, begun: Result<Pending, Error>, r: Done, s: State, due: Due, hooks: seq<Hook>)
    requires Commits(begun, r, s, due)
    ensures r.Err? ==> After(h, begun, hooks) == Err(r.error)
    ensures r.Ok? ==> After(h, begun, hooks) == Settle(h, s, due, hooks).r
  {
  }

  lemma ExecIsAfter(h: Host, s: State, op: Op, hooks: seq<Hook>)
    ensures Exec(h, s, Call(op, hooks)).r == After(h, Begin(h, Noted(s, op), op), hooks)
  {
  }

  lemma ReachesOutcome(h: Host, s0: State, op: Op, hooks: seq<Hook>, r: Done, s: State)
    ensures Reaches(Begin(h, s0, op), r, s) ==> Outcome(After(h, Begin(h, s0, op), hooks), r, s)
  {
    SettleQuiet(h, s, hooks);
  }

  /** The rolled usage of a rule that may not be there. */
  function RolledUsage(s: State, owner: Address, ruleId: Option<Bytes32>, payee: Address, amount: I128)
    : Result<Option<R.PublicUsage>, Error>
  {
    match ruleId
    case None => Ok(None)
    case Some(rid) =>
      var u :- CheckRule(s, owner, rid, payee, amount);
      Ok(Some(u))
  }

  function Charged(l: Lanes, now: U64, owner: Address, ruleId: Option<Bytes32>, rolled: Option<R.PublicUsage>, amount: I128): (l1: Lanes)
    requires ruleId.Some? ==> rolled.Some? && (owner, ruleId.value) in l.rules
    ensures l1.rules == l.rules
  {
    if ruleId.Some? then UseRule(l, l.rules[(owner, ruleId.value)], now, owner, ruleId.value, rolled.value, amount) else l
  }

  lemma RollIsCheckThenCharge(s: State, l: Lanes, owner: Address, ruleId: Option<Bytes32>, payee: Address, amount: I128)
    requires l.rules == s.lanes.rules
    ensures var u := RolledUsage(s, owner, ruleId, payee, amount);
      && (u.Ok? && ruleId.Some? ==> u.value.Some? && (owner, ruleId.value) in s.lanes.rules)
      && RollRule(s, l, owner, ruleId, payee, amount)
           == if u.Err? then Err(u.error) else Ok(Charged(l, s.now, owner, ruleId, u.value, amount))
  {
  }

  /** One line of a batch: its fee, then its transfer with the re-entries of the next hook. */
  lemma SettleLine(h: Host, s: State, due: Due, hooks: seq<Hook>, to: Address, gross: int, fee: int, s1: State, rest: Due,
                   left: seq<Hook>)
    requires due.lines != [] && due.lines[0] == Taxed(to, gross) && rest == RestOf(due) && left == Rest(hooks)
    requires ComputeFee(s.ctl, gross) == Ok(fee) && Accrue(s.books, s.ctl, due.asset, fee) == Ok(s1.books)
    requires s1 == s.(books := s1.books)
    ensures var sent := Send(h, s1, Due(due.asset, due.task, [Fixed(to, gross - fee, fee, InTurn(s.ctl.feeConfig))], Emit([])), hooks);
      Settle(h, s, due, hooks).r == if sent.Err? then sent else Settle(h, sent.value, rest, left).r
  {
    var due1 := due.(lines := [Fixed(to, gross - fee, fee, InTurn(s.ctl.feeConfig))] + due.lines[1..]);
    assert Tax(s, due) == Ok((s1, due1));
    assert RestOf(due1) == rest;
    SettleTaxed(h, s, due, hooks);
    SettleFixed(h, s1, due1, hooks, Due(due.asset, due.task, [Fixed(to, gross - fee, fee, InTurn(s.ctl.feeConfig))], Emit([])), rest, left);
  }

  lemma SettleFixed(h: Host, s: State, due: Due, hooks: seq<Hook>, line: Due, rest: Due, left: seq<Hook>)
    requires due.lines != [] && line.lines != [] && due.lines[0] == line.lines[0] && !due.lines[0].Taxed?
    requires due.asset == line.asset && due.task == line.task && rest == RestOf(due) && left == Rest(hooks)
    ensures var sent := Send(h, s, line, hooks);
      Settle(h, s, due, hooks).r == if sent.Err? then sent else Settle(h, sent.value, rest, left).r
  {
    SettleSend(h, s, due, hooks);
    SendLooksAtLine(h, s, due, line, hooks);
  }

  lemma SettleLineFails(h: Host, s: State, due: Due, hooks: seq<Hook>)
    requires due.lines != [] && due.lines[0].Taxed?
    ensures var fee := ComputeFee(s.ctl, due.lines[0].gross);
      (fee.Err? ==> Settle(h, s, due, hooks).r == Err(fee.error))
      && (fee.Ok? && Accrue(s.books, s.ctl, due.asset, fee.value).Err? ==>
            Settle(h, s, due, hooks).r == Err(Accrue(s.books, s.ctl, due.asset, fee.value).error))
  {
    SettleTaxed(h, s, due, hooks);
  }

  /** The checks of a session spend up to its rules: both rolled usages. */
  function SpendRolls(h: Host, s: State, session: Address, payee: Address, amount: I128, chosen: Option<Bytes32>)
    : Result<(Option<R.PublicUsage>, Option<R.PublicUsage>), Error>
  {
    var lanes := s.lanes;
    :- Auth(h, session);
    :- Running(s);
    :- Need(amount > 0, InvalidAmount);
    :- KeyAllows(s, session, amount);
    var info := lanes.sessions[session];
    BothUsages(s, info.user, SelectedRule(info, chosen), payee, amount)
  }

  function BothUsages(s: State, owner: Address, selected: Option<Bytes32>, payee: Address, amount: I128)
    : Result<(Option<R.PublicUsage>, Option<R.PublicUsage>), Error>
  {
    var u1 :- RolledUsage(s, owner, selected, payee, amount);
    var u2 :- RolledUsage(s, owner, GlobalRule(s.lanes, owner, selected), payee, amount);
    Ok((u1, u2))
  }

  predicate RulesThere(l: Lanes, owner: Address, selected: Option<Bytes32>, global: Option<Bytes32>,
                       rolls: (Option<R.PublicUsage>, Option<R.PublicUsage>))
  {
    && (selected.Some? ==> rolls.0.Some? && (owner, selected.value) in l.rules)
    && (global.Some? ==> rolls.1.Some? && (owner, global.value) in l.rules)
  }

  function ChargedBoth(l: Lanes, now: U64, owner: Address, selected: Option<Bytes32>, global: Option<Bytes32>,
                       rolls: (Option<R.PublicUsage>, Option<R.PublicUsage>), amount: I128): (l1: Lanes)
    requires RulesThere(l, owner, selected, global, rolls)
    ensures l1.rules == l.rules
  {
    Charged(Charged(l, now, owner, selected, rolls.0, amount), now, owner, global, rolls.1, amount)
  }

  /** Checking both rules and then charging them is rolling both. */
  lemma RollBothIsCheckThenCharge(s: State, owner: Address, selected: Option<Bytes32>, payee: Address, amount: I128)
    ensures var global, u := GlobalRule(s.lanes, owner, selected), BothUsages(s, owner, selected, payee, amount);
      && (u.Ok? ==> RulesThere(s.lanes, owner, selected, global, u.value))
      && RollBothRules(s, owner, selected, payee, amount)
           == if u.Err? then Err(u.error) else Ok(ChargedBoth(s.lanes, s.now, owner, selected, global, u.value, amount))
  {
    RollIsCheckThenCharge(s, s.lanes, owner, selected, payee, amount);
    var u1 := RolledUsage(s, owner, selected, payee, amount);
    if u1.Ok? {
      RollIsCheckThenCharge(s, Charged(s.lanes, s.now, owner, selected, u1.value, amount), owner,
                            GlobalRule(s.lanes, owner, selected), payee, amount);
    }
  }

  /** The effects of a session spend: rules, session, account, fee. */
  function SpentState(s: State, session: Address, selected: Option<Bytes32>, global: Option<Bytes32>,
                      rolls: (Option<R.PublicUsage>, Option<R.PublicUsage>), amount: I128, fee: int): Result<State, Error>
    requires session in s.lanes.sessions && RulesThere(s.lanes, s.lanes.sessions[session].user, selected, global, rolls)
    requires (s.lanes.sessions[session].user, s.lanes.sessions[session].asset) in s.books.accounts
  {
    var info := s.lanes.sessions[session];
    var b :- Accrue(SpendDirect(s.books, info.user, info.asset, amount), s.ctl, info.asset, fee);
    var l := ChargedBoth(s.lanes, s.now, info.user, selected, global, rolls, amount);
    Ok(s.(books := b, lanes := SpentFrom(l, session, info, selected, amount, s.now)))
  }

  /** A session spend, stage by stage. */
  lemma SessionSpendFails(h: Host, s: State, session: Address, payee: Address, amount: I128, chosen: Option<Bytes32>)
    ensures var rolls := SpendRolls(h, s, session, payee, amount, chosen);
      var begun := BeginReleaseSession(h, s, session, payee, amount, chosen);
      && (rolls.Err? ==> begun == Err(rolls.error))
      && (rolls.Ok? ==>
            && session in s.lanes.sessions
            && var fits, fee := SpendFits(s, s.lanes.sessions[session], amount), ComputeFee(s.ctl, amount);
            && (fits.Stop? ==> begun == Err(fits.error))
            && (fits.Pass? && fee.Err? ==> begun == Err(fee.error)))
  {
    if session in s.lanes.sessions {
      var info := s.lanes.sessions[session];
      RollBothIsCheckThenCharge(s, info.user, SelectedRule(info, chosen), payee, amount);
    }
  }

  lemma SessionSpendCommits(h: Host, s: State, session: Address, payee: Address, amount: I128, chosen: Option<Bytes32>, fee: int)
    requires SpendRolls(h, s, session, payee, amount, chosen).Ok? && session in s.lanes.sessions
    requires SpendFits(s, s.lanes.sessions[session], amount).Pass? && ComputeFee(s.ctl, amount) == Ok(fee)
    ensures var rolls := SpendRolls(h, s, session, payee, amount, chosen).value;
      var info := s.lanes.sessions[session];
      var selected := SelectedRule(info, chosen);
      var global := GlobalRule(s.lanes, info.user, selected);
      && RulesThere(s.lanes, info.user, selected, global, rolls) && (info.user, info.asset) in s.books.accounts
      && var s1 := SpentState(s, session, selected, global, rolls, amount, fee);
      && BeginReleaseSession(h, s, session, payee, amount, chosen)
           == if s1.Err? then Err(s1.error) else Ok(Pending(s1.value, SessionDue(info, payee, amount, fee, s.ctl.feeConfig)))
  {
    var info := s.lanes.sessions[session];
    RollBothIsCheckThenCharge(s, info.user, SelectedRule(info, chosen), payee, amount);
  }

  /** What a step release leaves to be paid: nothing when the step was paid before. */
  function StepDue(unpaid: bool, asset: Address, id: nat, to: Address, amount: int, fee: int, config: Option<FeeConfig>): Due {
    if unpaid then Due(asset, Some(id), [Fixed(to, amount - fee, fee, AtRate(config))], Emit([Other])) else Nothing
  }

  function PolicyVerdict(h: Host, s: State, task: Task, id: nat, amount: I128, payee: Address, nullifier: Bytes32, proof: Proof): Done
    requires task.commitment.Some?
  {
    var ctl := s.ctl;
    :- Need((id, nullifier) !in s.books.taskNullifiers, NullifierAlreadyUsed);
    :- Need(task.commitment.value in Pinned(s.lanes, task.user), CommitmentNotAuthorized);
    :- Need(ctl.verifier.Some?, PolicyVerifierNotSet);
    :- Need(h.verifyPolicy(ctl.verifier.value, task.commitment.value, payee, amount, nullifier, proof), PolicyProofRejected);
    DONE
  }

  function ReleaseEffects(s: State, id: nat, step: U64, asset: Address, amount: I128): Result<(Books, int), Error>
    requires id in s.books.tasks
  {
    var books := s.books;
    :- RoomForStep(books, id, step);
    var fee :- ComputeFee(s.ctl, amount);
    var b :- Accrue(RecordRelease(books, id, step, amount), s.ctl, asset, fee);
    Ok((b, fee))
  }

  function ProvedEffects(s: State, id: nat, step: U64, asset: Address, amount: I128, nullifier: Bytes32): Result<(Books, int), Error>
    requires id in s.books.tasks
  {
    var books := s.books;
    :- RoomForStep(books, id, step);
    :- Need(nullifier in NullifierIds(books, id) || |NullifierIds(books, id)| < MAX_RELEASE_STEPS_PER_TASK, TooManyStepReleases);
    var fee :- ComputeFee(s.ctl, amount);
    var b :- Accrue(MarkTaskNullifier(RecordRelease(books, id, step, amount), id, nullifier), s.ctl, asset, fee);
    Ok((b, fee))
  }

  /** Marking a nullifier and moving a task's spend touch different places. */
  lemma MarkCommutes(b: Books, id: nat, n: Bytes32, tasks: map<nat, Task>, e: Entry)
    ensures Log(MarkTaskNullifier(b, id, n).(tasks := tasks), e) == MarkTaskNullifier(Log(b.(tasks := tasks), e), id, n)
  {
  }

  function ShapeAndWindow(s: State, q: S.Batch): Done {
    var shape := BatchShape(q);
    if shape.Stop? then Err(shape.error)
    else
      :- InWindow(s, q);
      DONE
  }

  function BatchChecks(h: Host, s: State, orchestrator: Address, id: nat, asset: Address, q: S.Batch): Result<int, Error> {
    var books := s.books;
    :- Auth(h, orchestrator);
    :- Running(s);
    var _ :- ShapeAndWindow(s, q);
    :- Need(id in books.tasks, TaskNotFound);
    :- Need(books.tasks[id].commitment.Some?, NoPolicyCommitment);
    :- Releasable(books.tasks[id], orchestrator, asset);
    BatchTotal(q.amounts)
  }

  function BatchProof(h: Host, s: State, task: Task, q: S.Batch, proof: Proof): Result<S.Accumulator, Error>
    requires S.WellFormed(q) && S.BatchSum(q) <= I128_MAX && task.commitment.Some?
  {
    var lanes := s.lanes;
    :- WithinPlan(task, S.BatchSum(q));
    :- FreshFrom(lanes.nullifiers, q.nullifiers, 0);
    :- Need(task.commitment.value in Pinned(lanes, task.user), CommitmentNotAuthorized);
    :- Need(s.ctl.verifier.Some?, PolicyVerifierNotSet);
    VerifyBatch(h, s, s.ctl.verifier.value, task.commitment.value, q, proof)
  }

  function BatchEffects(s: State, id: nat, step: U64, commitment: Bytes32, q: S.Batch, accum: S.Accumulator): Result<State, Error>
    requires id in s.books.tasks && S.WellFormed(q) && S.BatchSum(q) <= I128_MAX
  {
    var books := s.books;
    :- RoomForStep(books, id, step);
    var l := SetAccum(MarkNullifiers(s.lanes, q.nullifiers, s.ledger), commitment, accum);
    Ok(s.(books := RecordRelease(books, id, step, S.BatchSum(q)),
          lanes := l.(log := l.log + [Consumed(q.nullifiers, [], q.validBefore, s.now, s.ledger), RolledBy(commitment, q)])))
  }

  function BatchDue(unpaid: bool, asset: Address, id: nat, q: S.Batch): Due {
    if unpaid && |q.amounts| == |q.payees| then Due(asset, Some(id), TaxedLines(q.payees, q.amounts), Emit([Other])) else Nothing
  }

  /** A batch release, step by step. */
  lemma BatchSteps(h: Host, s: State, orchestrator: Address, id: U64, step: U64, asset: Address, q: S.Batch, proof: Proof)
    ensures var checks := BatchChecks(h, s, orchestrator, id, asset, q);
      var begun := BeginReleaseBatch(h, s, orchestrator, id, step, asset, q, proof);
      && (checks.Err? ==> begun == Err(checks.error))
      && (checks.Ok? ==>
            && S.WellFormed(q) && checks.value == S.BatchSum(q) <= I128_MAX
            && id in s.books.tasks && s.books.tasks[id].commitment.Some?
            && ((id, step) in s.books.steps ==> begun == RepeatStep(s, id, step, checks.value))
            && ((id, step) !in s.books.steps ==>
                  var t := s.books.tasks[id];
                  var accum := BatchProof(h, s, t, q, proof);
                  && (accum.Err? ==> begun == Err(accum.error))
                  && (accum.Ok? ==>
                        var s1 := BatchEffects(s, id, step, t.commitment.value, q, accum.value);
                        begun == if s1.Err? then Err(s1.error) else Ok(Pending(s1.value, BatchDue(true, asset, id, q))))))
  {
  }

  lemma {:induction false} PrefixSum(amounts: seq<I128>, i: nat)
    requires i <= |amounts|
    ensures AllPositive(amounts) ==> S.SumAmounts(amounts[..i]) <= S.SumAmounts(amounts)
    decreases |amounts|
  {
    if i == |amounts| {
      assert amounts[..i] == amounts;
    } else {
      PrefixSum(amounts[..|amounts| - 1], i);
      assert amounts[..|amounts| - 1][..i] == amounts[..i];
    }
  }

  lemma MarkOneMore(l: Lanes, ns: seq<Bytes32>, i: nat, ledger: nat)
    requires i < |ns|
    ensures MarkNullifiers(l, ns[..i + 1], ledger)
      == MarkNullifiers(l, ns[..i], ledger).(nullifiers := MarkNullifiers(l, ns[..i], ledger).nullifiers[ns[i] := ledger])
  {
    assert ns[..i + 1] == ns[..i] + [ns[i]];
    assert MarkNullifiers(l, ns[..i + 1], ledger).nullifiers == MarkNullifiers(l, ns[..i], ledger).nullifiers[ns[i] := ledger];
  }

  lemma LineShape(asset: Address, task: Option<nat>, payees: seq<Address>, amounts: seq<I128>, i: nat, hooks: seq<Hook>)
    requires |amounts| == |payees| && i < |payees|
    ensures var due := LinesDue(asset, task, payees, amounts, i);
      && due.lines != [] && due.lines[0] == Taxed(payees[i], amounts[i])
      && RestOf(due) == LinesDue(asset, task, payees, amounts, i + 1)
    ensures Rest(HooksFrom(hooks, i)) == HooksFrom(hooks, i + 1)
  {
    LinesStep(payees, amounts, i);
  }

  /** A line whose fee cannot be taken fails with the fee's error. */
  lemma LineFails(h: Host, s: State, asset: Address, task: Option<nat>, payees: seq<Address>, amounts: seq<I128>, i: nat,
                  hooks: seq<Hook>)
    requires |amounts| == |payees| && i < |payees|
    ensures var fee := ComputeFee(s.ctl, amounts[i]); var all := Settle(h, s, LinesDue(asset, task, payees, amounts, i), HooksFrom(hooks, i)).r;
      (fee.Err? ==> all == Err(fee.error))
      && (fee.Ok? && Accrue(s.books, s.ctl, asset, fee.value).Err? ==> all == Err(Accrue(s.books, s.ctl, asset, fee.value).error))
  {
    LineShape(asset, task, payees, amounts, i, hooks);
    SettleLineFails(h, s, LinesDue(asset, task, payees, amounts, i), HooksFrom(hooks, i));
  }

  /** With its fee taken in `s1` and the rest sent in `s2`, a line is settled. */
  lemma LinePaid(h: Host, s: State, s1: State, s2: State, due: Due, rest: Due, hooks: seq<Hook>, left: seq<Hook>, to: Address,
                 gross: int, fee: int, r: Done)
    requires due.lines != [] && due.lines[0] == Taxed(to, gross) && rest == RestOf(due) && left == Rest(hooks)
    requires ComputeFee(s.ctl, gross) == Ok(fee) && Accrue(s.books, s.ctl, due.asset, fee) == Ok(s1.books)
    requires s1 == s.(books := s1.books)
    requires Outcome(Send(h, s1, Due(due.asset, due.task, [Fixed(to, gross - fee, fee, InTurn(s.ctl.feeConfig))], Emit([])), hooks), r, s2)
    ensures r.Ok? ==> Settle(h, s, due, hooks).r == Settle(h, s2, rest, left).r
    ensures r.Err? ==> Settle(h, s, due, hooks).r == Err(r.error)
  {
    SettleLine(h, s, due, hooks, to, gross, fee, s1, rest, left);
  }

  lemma AllLines(asset: Address, task: Option<nat>, payees: seq<Address>, amounts: seq<I128>, hooks: seq<Hook>)
    requires |amounts| == |payees|
    ensures LinesDue(asset, task, payees, amounts, 0) == Due(asset, task, TaxedLines(payees, amounts), Emit([Other]))
    ensures HooksFrom(hooks, 0) == hooks
  {
    assert payees[0..] == payees && amounts[0..] == amounts;
  }

  lemma FirstLines(h: Host, s: State, asset: Address, task: Option<nat>, payees: seq<Address>, amounts: seq<I128>, hooks: seq<Hook>)
    requires |amounts| == |payees|
    ensures Settle(h, s, Due(asset, task, TaxedLines(payees, amounts), Emit([Other])), hooks).r
      == Settle(h, s, LinesDue(asset, task, payees, amounts, 0), HooksFrom(hooks, 0)).r
  {
    AllLines(asset, task, payees, amounts, hooks);
  }

  lemma NoLinesLeft(h: Host, s: State, asset: Address, task: Option<nat>, payees: seq<Address>, amounts: seq<I128>, hooks: seq<Hook>)
    requires |amounts| == |payees|
    ensures Settle(h, s, LinesDue(asset, task, payees, amounts, |payees|), hooks).r
      == Ok(s.(books := s.books.(events := s.books.events + [Other])))
  {
  }

  /** Entry points after which nothing is left to transfer. */
  predicate MovesNothing(op: Op) {
    !(op.Deposit? || op.Withdraw? || op.ReleaseSession? || op.ReleasePayment? || op.ReleaseProved? || op.ReleaseBatch?
      || op.ReleaseKeyless? || op.ResolveDispute? || op.ClaimFees?)
  }

  /** Entry points that set up keys, rules, pins and roles. */
  predicate SetsUp(op: Op) {
    MovesNothing(op)
    && !(op.CreateTask? || op.CreateTaskWithPolicy? || op.CompleteTask? || op.CancelTask? || op.ForceComplete?
         || op.RaiseDispute? || op.TokenMint? || op.TokenTransfer?)
  }

  function KeylessDue(asset: Address, q: S.Batch): Due {
    if |q.amounts| == |q.payees| then Due(asset, None, TaxedLines(q.payees, q.amounts), Emit([Other])) else Nothing
  }

  function KeylessChecks(s: State, user: Address, asset: Address, commitment: Bytes32, q: S.Batch): Result<int, Error> {
    var books := s.books;
    :- Running(s);
    var _ :- ShapeAndWindow(s, q);
    var total :- BatchTotal(q.amounts);
    :- Need(commitment in Pinned(s.lanes, user), CommitmentNotAuthorized);
    :- Need(s.ctl.verifier.Some?, PolicyVerifierNotSet);
    :- Spendable(books, user, asset, total);
    Ok(total)
  }

  /** A keyless spend, step by step. */
  lemma KeylessSteps(h: Host, s: State, user: Address, asset: Address, c: Bytes32, q: S.Batch, proof: Proof, global: Option<GlobalProof>)
    ensures var checks := KeylessChecks(s, user, asset, c, q);
      var begun := BeginReleaseKeyless(h, s, user, asset, c, q, proof, global);
      && (checks.Err? ==> begun == Err(checks.error))
      && (checks.Ok? ==>
            && S.WellFormed(q) && checks.value == S.BatchSum(q) <= I128_MAX
            && s.ctl.verifier.Some? && (user, asset) in s.books.accounts
            && var l := SettleKeyless(h, s, s.ctl.verifier.value, user, c, q, proof, global);
            && (l.Err? ==> begun == Err(l.error))
            && (l.Ok? ==>
                  begun == if s.books.accounts[(user, asset)].totalSpent + checks.value > I128_MAX then Err(Aborted)
                           else Ok(Pending(s.(books := SpendDirect(s.books, user, asset, checks.value), lanes := l.value),
                                           KeylessDue(asset, q)))))
  {
  }

  lemma KeylessSized(h: Host, s: State, user: Address, asset: Address, c: Bytes32, q: S.Batch, proof: Proof, global: Option<GlobalProof>)
    ensures BeginReleaseKeyless(h, s, user, asset, c, q, proof, global).Ok? ==> |q.amounts| == |q.payees|
  {
  }

  /** The lanes after both proofs of a keyless spend. */
  function BothProofs(l: Lanes, now: U64, ledger: nat, commitment: Bytes32, accum: S.Accumulator, gc: Bytes32,
                      gaccum: S.Accumulator, q: S.Batch, g: GlobalProof): Lanes
    requires S.WellFormed(q) && S.BatchSum(q) <= I128_MAX && |g.nullifiers| == |q.payees|
  {
    var l1 := SetAccum(MarkNullifiers(l, q.nullifiers, ledger), commitment, accum);
    var l2 := SetAccum(MarkNullifiers(l1, g.nullifiers, ledger), gc, gaccum);
    var rolls := if gc == commitment then [RolledBy(gc, UnderGlobal(q, g))]
                 else [RolledBy(commitment, q), RolledBy(gc, UnderGlobal(q, g))];
    l2.(log := l2.log + [Consumed(q.nullifiers, g.nullifiers, q.validBefore, now, ledger)] + rolls)
  }

  function SplitDue(asset: Address, user: Address, refund: int, orchestrator: Address, payout: int): Due {
    Due(asset, None, LineIfPositive(user, refund) + LineIfPositive(orchestrator, payout), Emit([Other]))
  }

  lemma SplitSteps(h: Host, s: State, asset: Address, user: Address, refund: int, orchestrator: Address, payout: int, hooks: seq<Hook>)
    ensures var due, last := SplitDue(asset, user, refund, orchestrator, payout), Due(asset, None, LineIfPositive(orchestrator, payout), Emit([Other]));
      if refund > 0 then
        var sent := Send(h, s, Due(asset, None, [Fixed(user, refund, 0, NoFee)], Emit([])), hooks);
        Settle(h, s, due, hooks).r == if sent.Err? then sent else Settle(h, sent.value, last, Rest(hooks)).r
      else due == last
  {
    var due := SplitDue(asset, user, refund, orchestrator, payout);
    if refund > 0 {
      SettleSend(h, s, due, hooks);
      SendLooksAtLine(h, s, due, Due(asset, None, [Fixed(user, refund, 0, NoFee)], Emit([])), hooks);
    } else {
      assert [] + LineIfPositive(orchestrator, payout) == LineIfPositive(orchestrator, payout);
    }
  }

  function Outputs(commitment: Bytes32, q: S.Batch): seq<Bytes32>
    requires S.WellFormed(q)
  {
    [commitment] + S.Padded(q.nullifiers) + [S.FlagScalar(q.resetR2), S.FlagScalar(q.resetR7)]
  }

  /** Window and accumulator, the last of the signals. */
  function Closing(q: S.Batch, acc: S.Accumulator): seq<Bytes32> {
    [S.Scalar64(q.validAfter), S.Scalar64(q.validBefore), S.Scalar128(acc.windowSpent), S.Scalar64(acc.windowCount),
     S.Scalar64(acc.anchorR2), S.Scalar64(acc.anchorR7)]
  }

  /** What is left of a due after `i` lines, and the hooks after `i` transfers. */
  function LinesDue(asset: Address, task: Option<nat>, payees: seq<Address>, amounts: seq<I128>, i: nat): Due
    requires |amounts| == |payees| && i <= |payees|
  {
    Due(asset, task, LinesFrom(payees, amounts, i), Emit([Other]))
  }

  function HooksFrom(hooks: seq<Hook>, i: nat): seq<Hook> {
    if i <= |hooks| then hooks[i..] else hooks[|hooks|..]
  }

  /** The lines of a batch from the `i`-th on. */
  function LinesFrom(payees: seq<Address>, amounts: seq<I128>, i: nat): seq<Line>
    requires |amounts| == |payees| && i <= |payees|
  {
    TaxedLines(payees[i..], amounts[i..])
  }

  lemma LinesStep(payees: seq<Address>, amounts: seq<I128>, i: nat)
    requires |amounts| == |payees| && i < |payees|
    ensures LinesFrom(payees, amounts, i) == [Taxed(payees[i], amounts[i])] + LinesFrom(payees, amounts, i + 1)
  {
  }

  class VaultContract {
    const host: Host

    // persistent storage: accounts, tasks, indexes and fees, with the token balances and the histories
    var books: Books

    // persistent storage: sessions, rules and private lanes, with their history
    var lanes: Lanes

    // instance storage
    var ctl: Control

    // the history of calls
    var notes: seq<Note>

    // the chain's clock
    var now: U64
    var ledger: nat

    constructor (host: Host, admin: Address, usdc: Address, tokens: map<(Address, Address), int>, now: U64, ledger: nat)
      requires admin != host.vault && forall asset :: Held(tokens, host.vault, asset) == 0
      requires forall k | k in tokens :: tokens[k] >= 0
      ensures this.host == host && Initial(host, View())
    {
      this.host := host;
      books := Books(map[], map[], map[], 0, map[], map[], map[], {}, map[], tokens, [], []);
      lanes := Lanes(map[], map[], map[], map[], map[], map[], map[], map[], []);
      ctl := Control(admin, false, {usdc}, map[], None, None, None, 1800, 50);
      this.now, this.ledger, notes := now, ledger, [];
    }

    function View(): State
      reads this
    {
      State(books, ctl, lanes, now, ledger, notes)
    }

    // ---- The token contract -----------------------------------------------

    method MoveTokens(from: Address, to: Address, asset: Address, amount: int)
      modifies this`books
      ensures books == Move(old(books), from, to, asset, amount)
    {
      if from != to {
        books := books.(tokens := books.tokens[(from, asset) := Held(books.tokens, from, asset) - amount]);
        books := books.(tokens := books.tokens[(to, asset) := Held(books.tokens, to, asset) + amount]);
      }
    }

    /** Tokens leave the vault; what a payout sends to the vault itself is a gift. */
    method PayOut(asset: Address, to: Address, net: int, task: Option<nat>, fee: int, rate: Rate) returns (r: Done)
      modifies this`books
      ensures Outcome(Transfer(host, old(View()), Due(asset, task, [Fixed(to, net, fee, rate)], Emit([]))), r, View())
    {
      if !(0 <= net <= Held(books.tokens, host.vault, asset)) {
        return Err(Aborted);
      }
      MoveTokens(host.vault, to, asset, net);
      books := books.(journal := books.journal + [Paid(task, asset, to, net, fee, rate)]);
      if to == host.vault {
        books := books.(journal := books.journal + [Gift(asset, net)]);
      }
      return DONE;
    }

    method PullIn(asset: Address, from: Address, amount: int) returns (r: Done)
      modifies this`books
      ensures Outcome(Transfer(host, old(View()), Due(asset, None, [Pull(from, amount)], Emit([]))), r, View())
    {
      if Held(books.tokens, from, asset) < amount {
        return Err(Aborted);
      }
      MoveTokens(from, host.vault, asset, amount);
      return DONE;
    }

    /** A payout through the token contract, which may call back before and after it moves the tokens, and may fail. */
    method Pay(asset: Address, to: Address, net: int, hooks: seq<Hook>, task: Option<nat>, fee: int, rate: Rate)
      returns (r: Done)
      modifies this
      decreases hooks, 0
      ensures Outcome(Send(host, old(View()), Due(asset, task, [Fixed(to, net, fee, rate)], Emit([])), hooks), r, View())
    {
      if hooks == [] {
        r := PayOut(asset, to, net, task, fee, rate);
        return;
      }
      RunCalls(hooks[0].before);
      r := PayOut(asset, to, net, task, fee, rate);
      if r.Err? {
        return;
      }
      RunCalls(hooks[0].after);
      if hooks[0].traps {
        return Err(Aborted);
      }
    }

    /** A deposit's transfer from the depositor. */
    method Collect(asset: Address, from: Address, amount: int, hooks: seq<Hook>) returns (r: Done)
      modifies this
      decreases hooks, 0
      ensures Outcome(Send(host, old(View()), Due(asset, None, [Pull(from, amount)], Emit([])), hooks), r, View())
    {
      if hooks == [] {
        r := PullIn(asset, from, amount);
        return;
      }
      RunCalls(hooks[0].before);
      r := PullIn(asset, from, amount);
      if r.Err? {
        return;
      }
      RunCalls(hooks[0].after);
      if hooks[0].traps {
        return Err(Aborted);
      }
    }

    method RunCalls(calls: seq<Call>)
      modifies this
      decreases calls
      ensures View() == RunAll(host, old(View()), calls).s
    {
      if calls != [] {
        var _ := Dispatch(calls[0]);
        RunCalls(calls[1..]);
      }
    }

    // ---- Deposits and withdrawals -----------------------------------------

    method CheckDeposit(user: Address, asset: Address, amount: I128) returns (r: Done)
      ensures Commits(BeginDeposit(host, View(), user, asset, amount), r, View(),
                      Due(asset, None, [Pull(user, amount)], CreditUser(user, amount)))
    {
      if user == host.vault {
        return Err(AuthFailed);
      }
      if ctl.paused {
        return Err(ContractPaused);
      }
      if amount <= 0 {
        return Err(InvalidAmount);
      }
      if asset !in ctl.supported {
        return Err(AssetNotSupported);
      }
      return DONE;
    }

    method EnsureUserConfig(user: Address)
      modifies this`books
      ensures books == EnsureConfig(old(books), user)
    {
      if user !in books.configs {
        books := books.(configs := books.configs[user := Config(None, 0)]);
      }
    }

    /** The account is credited once the tokens are there. */
    method CreditAccount(user: Address, asset: Address, amount: I128) returns (r: Done)
      modifies this`books
      ensures Outcome(Finish(old(View()), Due(asset, None, [], CreditUser(user, amount))), r, View())
    {
      var account := AccountIn(books.accounts, user, asset);
      if account.balance + amount > I128_MAX || account.totalDeposited + amount > I128_MAX {
        return Err(Aborted);
      }
      EnsureUserConfig(user);
      account := account.(balance := account.balance + amount);
      account := account.(totalDeposited := account.totalDeposited + amount);
      books := books.(accounts := books.accounts[(user, asset) := account]);
      books := books.(journal := books.journal + [Deposited(user, asset, amount)]);
      books := books.(events := books.events + [DepositEvent(user, asset, amount)]);
      return DONE;
    }

    method Deposit(user: Address, asset: Address, amount: I128, hooks: seq<Hook>) returns (r: Done)
      modifies this
      decreases hooks, 3
      ensures Outcome(After(host, BeginDeposit(host, old(View()), user, asset, amount), hooks), r, View())
    {
      r := CheckDeposit(user, asset, amount);
      if r.Err? {
        return;
      }
      SettleOne(host, View(), Due(asset, None, [Pull(user, amount)], CreditUser(user, amount)), hooks);
      r := Collect(asset, user, amount, hooks);
      if r.Err? {
        return;
      }
      r := CreditAccount(user, asset, amount);
    }

    /** The debit is committed before the transfer. */
    method DebitAccount(user: Address, asset: Address, amount: I128) returns (r: Done)
      modifies this`books
      ensures Commits(BeginWithdraw(host, old(View()), user, asset, amount), r, View(),
                      Due(asset, None, [Fixed(user, amount, 0, NoFee)], Emit([WithdrawEvent(user, asset, amount)])))
    {
      if user == host.vault {
        return Err(AuthFailed);
      }
      if amount <= 0 {
        return Err(InvalidAmount);
      }
      if user !in books.configs || (user, asset) !in books.accounts {
        return Err(Aborted);
      }
      var account := books.accounts[(user, asset)];
      if account.balance < amount {
        return Err(InsufficientBalance);
      }
      if amount > account.balance - account.locked {
        return Err(InsufficientAvailable);
      }
      account := account.(balance := account.balance - amount);
      books := books.(accounts := books.accounts[(user, asset) := account]);
      books := books.(journal := books.journal + [Withdrew(user, asset, amount)]);
      return DONE;
    }

    method Withdraw(user: Address, asset: Address, amount: I128, hooks: seq<Hook>) returns (r: Done)
      modifies this
      decreases hooks, 3
      ensures Outcome(After(host, BeginWithdraw(host, old(View()), user, asset, amount), hooks), r, View())
    {
      r := DebitAccount(user, asset, amount);
      if r.Err? {
        return;
      }
      r := PayLast(asset, None, user, amount, 0, NoFee, [WithdrawEvent(user, asset, amount)], hooks);
    }

    /** The last transfer of a call, and its events. */
    method PayLast(asset: Address, task: Option<nat>, to: Address, net: int, fee: int, rate: Rate, published: seq<Event>,
                   hooks: seq<Hook>) returns (r: Done)
      modifies this
      decreases hooks, 1
      ensures Outcome(Settle(host, old(View()), Due(asset, task, [Fixed(to, net, fee, rate)], Emit(published)), hooks).r, r, View())
    {
      SettleOne(host, View(), Due(asset, task, [Fixed(to, net, fee, rate)], Emit(published)), hooks);
      r := Pay(asset, to, net, hooks, task, fee, rate);
      if r.Err? {
        return;
      }
      books := books.(events := books.events + published);
    }

    // ---- Sessions ---------------------------------------------------------

    /** A key must be bounded by a cap or an existing rule; one the platform holds by a cap and a time. */
    method CheckBounds(user: Address, asset: Address, expiry: U64, spendCap: I128, ruleId: Option<Bytes32>, serverHeld: bool)
      returns (r: Guard<Error>)
      ensures r == SessionBounds(View(), user, asset, expiry, spendCap, ruleId, serverHeld)
    {
      if spendCap < 0 {
        return Stop(InvalidPublicParams);
      }
      if spendCap == 0 && ruleId.None? {
        return Stop(SessionUnbounded);
      }
      if serverHeld {
        if expiry <= now || spendCap <= 0 {
          return Stop(InvalidPublicParams);
        }
      } else if expiry != 0 && expiry <= now {
        return Stop(InvalidPublicParams);
      }
      if ruleId.Some? && (user, ruleId.value) !in lanes.rules {
        return Stop(PublicRuleNotFound);
      }
      if asset !in ctl.supported {
        return Stop(AssetNotSupported);
      }
      return Pass;
    }

    method RegisterSession(user: Address, session: Address, asset: Address, expiry: U64, spendCap: I128,
                           ruleId: Option<Bytes32>, serverHeld: bool) returns (r: Done)
      modifies this
      ensures Reaches(BeginRegisterSession(host, old(View()), user, session, asset, expiry, spendCap, ruleId, serverHeld), r, View())
      ensures r.Ok? ==>
        && session !in old(lanes.sessions) && session in lanes.sessions && lanes.sessions[session].spent == 0
        && (spendCap > 0 || (spendCap == 0 && ruleId.Some? && (user, ruleId.value) in lanes.rules))
    {
      if user == host.vault {
        return Err(AuthFailed);
      }
      if ctl.paused {
        return Err(ContractPaused);
      }
      var bounds := CheckBounds(user, asset, expiry, spendCap, ruleId, serverHeld);
      if bounds.Stop? {
        return Err(bounds.error);
      }
      if session in lanes.sessions {
        return Err(SessionAlreadyExists);
      }
      EnsureUserConfig(user);
      lanes := lanes.(sessions := lanes.sessions[session := Session(user, asset, expiry, spendCap, ruleId, serverHeld, false, 0, 0)]);
      lanes := lanes.(log := lanes.log + [SessionOpened(session)]);
      return DONE;
    }

    method SetSessionPaused(user: Address, session: Address, paused: bool) returns (r: Done)
      modifies this`lanes
      ensures Reaches(BeginSetSessionPaused(host, old(View()), user, session, paused), r, View())
    {
      if user == host.vault {
        return Err(AuthFailed);
      }
      if session !in lanes.sessions {
        return Err(SessionNotFound);
      }
      var info := lanes.sessions[session];
      if info.user != user {
        return Err(NotYourSession);
      }
      info := info.(paused := paused);
      lanes := lanes.(sessions := lanes.sessions[session := info]);
      return DONE;
    }

    method UpdateSession(user: Address, session: Address, newExpiry: U64, newSpendCap: I128) returns (r: Done)
      modifies this`lanes
      ensures Reaches(BeginUpdateSession(host, old(View()), user, session, newExpiry, newSpendCap), r, View())
      ensures r.Ok? ==>
        && session in old(lanes.sessions) && session in lanes.sessions
        && var before, now1 := old(lanes.sessions[session]), lanes.sessions[session];
        && before.user == user && now1.spent == before.spent && (newSpendCap == 0 || newSpendCap >= before.spent)
        && lanes == old(lanes).(sessions := old(lanes.sessions)[session := now1])
    {
      if user == host.vault {
        return Err(AuthFailed);
      }
      if session !in lanes.sessions {
        return Err(SessionNotFound);
      }
      var info := lanes.sessions[session];
      if info.user != user {
        return Err(NotYourSession);
      }
      if newExpiry != 0 {
        if newExpiry <= now {
          return Err(InvalidPublicParams);
        }
        info := info.(expiry := newExpiry);
      }
      if newSpendCap != 0 {
        if newSpendCap < info.spent {
          return Err(InvalidPublicParams);
        }
        info := info.(spendCap := newSpendCap);
      }
      if info.serverHeld && (info.spendCap <= 0 || info.expiry <= now) {
        return Err(InvalidPublicParams);
      }
      lanes := lanes.(sessions := lanes.sessions[session := info]);
      return DONE;
    }

    method RevokeSession(user: Address, session: Address) returns (r: Done)
      modifies this`lanes
      ensures Reaches(BeginRevokeSession(host, old(View()), user, session), r, View())
    {
      if user == host.vault {
        return Err(AuthFailed);
      }
      if session !in lanes.sessions {
        return Err(SessionNotFound);
      }
      if lanes.sessions[session].user != user {
        return Err(NotYourSession);
      }
      lanes := lanes.(sessions := lanes.sessions - {session});
      return DONE;
    }

    /** The clauses that look only at this payment; the lists are scanned. */
    method CheckClauses(rule: R.PublicRule, payee: Address, amount: I128) returns (r: Guard<R.RuleError>)
      ensures r == R.Clauses(rule, payee, amount, now)
    {
      var denied := false;
      for i := 0 to |rule.denylist|
        invariant denied <==> payee in rule.denylist[..i]
      {
        denied := denied || rule.denylist[i] == payee;
      }
      assert rule.denylist[..|rule.denylist|] == rule.denylist;
      if denied && amount > rule.denylistThreshold {
        return Stop(R.PayeeDenied);
      }
      if rule.allowlist != [] {
        var cap := AllowlistCap(rule.allowlist, payee);
        if cap < 0 {
          return Stop(R.PayeeNotAllowed);
        }
        if cap > 0 && amount > cap {
          return Stop(R.CapExceeded);
        }
      }
      if rule.perPaymentMax > 0 && amount > rule.perPaymentMax {
        return Stop(R.CapExceeded);
      }
      if rule.perPaymentMin > 0 && amount < rule.perPaymentMin {
        return Stop(R.BelowMinPayment);
      }
      if rule.calendarEnd != 0 && (now < rule.calendarStart || now > rule.calendarEnd) {
        return Stop(R.OutsideCalendar);
      }
      return Pass;
    }

    /** The cap of the first entry for `payee`, or -1. */
    method AllowlistCap(allowlist: seq<R.PublicPayee>, payee: Address) returns (cap: int)
      ensures cap == R.AllowedCap(allowlist, payee)
    {
      cap := -1;
      for i := 0 to |allowlist|
        invariant cap == -1
        invariant R.AllowedCap(allowlist, payee) == R.AllowedCap(allowlist[i..], payee)
      {
        if allowlist[i].addr == payee {
          cap := allowlist[i].cap;
          break;
        }
      }
    }

    /** Roll both windows and the lifetime totals of a usage record. */
    method RollWindows(rule: R.PublicRule, before: R.PublicUsage, amount: I128) returns (r: Result<R.PublicUsage, R.RuleError>)
      ensures r == R.RollUsage(rule, before, amount, now)
    {
      var u := before;
      var unused := u.lifetimeCount == 0;
      if rule.rollingCap > 0 {
        if unused {
          u := u.(anchorR2 := now);
        } else if now >= SatAdd(u.anchorR2, rule.rollingWindow, U64_MAX) {
          u := u.(windowSpent := 0);
          u := u.(anchorR2 := now);
        }
        var newSpent := u.windowSpent + amount;
        if newSpent > I128_MAX {
          return Err(R.AmountOverflow);
        }
        if newSpent > rule.rollingCap {
          return Err(R.RollingCapExceeded);
        }
        u := u.(windowSpent := newSpent);
      }
      if rule.velocityMax > 0 {
        if unused {
          u := u.(anchorR7 := now);
        } else if now >= SatAdd(u.anchorR7, rule.velocityWindow, U64_MAX) {
          u := u.(windowCount := 0);
          u := u.(anchorR7 := now);
        }
        if u.windowCount + 1 > U32_MAX {
          return Err(R.CounterOverflow);
        }
        if u.windowCount + 1 > rule.velocityMax {
          return Err(R.VelocityExceeded);
        }
        u := u.(windowCount := u.windowCount + 1);
      }
      if u.lifetimeSpent + amount > I128_MAX {
        return Err(R.AmountOverflow);
      }
      u := u.(lifetimeSpent := u.lifetimeSpent + amount);
      if u.lifetimeCount + 1 > U32_MAX {
        return Err(R.CounterOverflow);
      }
      u := u.(lifetimeCount := u.lifetimeCount + 1);
      return Ok(u);
    }

    /** Check a public rule for one release and return its rolled usage; nothing is written. */
    method CheckPublicRule(owner: Address, ruleId: Bytes32, payee: Address, amount: I128) returns (r: Result<R.PublicUsage, Error>)
      ensures r == CheckRule(View(), owner, ruleId, payee, amount)
    {
      if (owner, ruleId) !in lanes.rules {
        return Err(PublicRuleNotFound);
      }
      var rule := lanes.rules[(owner, ruleId)];
      var clauses := CheckClauses(rule, payee, amount);
      if clauses.Stop? {
        return Err(RuleViolated(clauses.error));
      }
      var rolled := RollWindows(rule, UsageIn(lanes.usage, owner, ruleId), amount);
      match rolled {
        case Ok(u) => return Ok(u);
        case Err(e) => return Err(RuleViolated(e));
      }
    }

    method RollRuleOf(owner: Address, ruleId: Option<Bytes32>, payee: Address, amount: I128)
      returns (r: Result<Option<R.PublicUsage>, Error>)
      ensures r == RolledUsage(View(), owner, ruleId, payee, amount)
    {
      match ruleId {
        case None => return Ok(None);
        case Some(rid) =>
          var rolled := CheckPublicRule(owner, rid, payee, amount);
          match rolled {
            case Ok(u) => return Ok(Some(u));
            case Err(e) => return Err(e);
          }
      }
    }

    method ChargeRule(owner: Address, ruleId: Option<Bytes32>, rolled: Option<R.PublicUsage>, amount: I128)
      requires ruleId.Some? ==> rolled.Some? && (owner, ruleId.value) in lanes.rules
      modifies this`lanes
      ensures lanes == Charged(old(lanes), now, owner, ruleId, rolled, amount)
    {
      if ruleId.Some? {
        lanes := lanes.(usage := lanes.usage[(owner, ruleId.value) := rolled.value]);
        lanes := lanes.(log := lanes.log + [RuleUsed(owner, ruleId.value, R.Use(lanes.rules[(owner, ruleId.value)], amount, now))]);
      }
    }

    method SpendFromAccount(user: Address, asset: Address, amount: int)
      requires (user, asset) in books.accounts
      modifies this`books
      ensures books == SpendDirect(old(books), user, asset, amount)
    {
      var account := books.accounts[(user, asset)];
      account := account.(balance := account.balance - amount);
      account := account.(totalSpent := account.totalSpent + amount);
      books := books.(accounts := books.accounts[(user, asset) := account]);
      books := books.(journal := books.journal + [Direct(user, asset, amount)]);
    }

    method AccrueProtocolFee(asset: Address, fee: int) returns (r: Done)
      modifies this`books
      ensures var b := Accrue(old(books), ctl, asset, fee);
        if b.Ok? then r.Ok? && books == b.value else r == Err(b.error)
    {
      if fee > 0 && ctl.feeConfig.Some? && ctl.feeConfig.value.recipient.Some? {
        var current := FeeIn(books.fees, asset);
        if current + fee > I128_MAX {
          return Err(Aborted);
        }
        books := books.(fees := books.fees[asset := current + fee]);
      }
      return DONE;
    }

    method CheckKey(session: Address, amount: I128) returns (r: Guard<Error>)
      ensures r == KeyAllows(View(), session, amount)
    {
      if session !in lanes.sessions {
        return Stop(SessionNotFound);
      }
      var info := lanes.sessions[session];
      if info.paused {
        return Stop(SessionPaused);
      }
      if info.expiry != 0 && now > info.expiry {
        return Stop(SessionExpired);
      }
      if info.spendCap > 0 {
        var projected := info.spent + amount;
        if projected > I128_MAX {
          return Stop(InvalidAmount);
        }
        if projected > info.spendCap {
          return Stop(SessionBudgetExceeded);
        }
      }
      return Pass;
    }

    /** The checks of a session spend that lead up to its effects. */
    method CheckSessionSpend(session: Address, payee: Address, amount: I128, chosen: Option<Bytes32>)
      returns (r: Result<(Option<R.PublicUsage>, Option<R.PublicUsage>), Error>)
      ensures r == SpendRolls(host, View(), session, payee, amount, chosen)
    {
      if session == host.vault {
        return Err(AuthFailed);
      }
      if ctl.paused {
        return Err(ContractPaused);
      }
      if amount <= 0 {
        return Err(InvalidAmount);
      }
      var key := CheckKey(session, amount);
      if key.Stop? {
        return Err(key.error);
      }
      var info := lanes.sessions[session];
      var selected := if chosen.Some? then chosen else info.ruleId;
      var ruleRoll := RollRuleOf(info.user, selected, payee, amount);
      if ruleRoll.Err? {
        return Err(ruleRoll.error);
      }
      var global: Option<Bytes32> := None;
      if info.user in lanes.globalPublic && selected != Some(lanes.globalPublic[info.user]) {
        global := Some(lanes.globalPublic[info.user]);
      }
      var globalRoll := RollRuleOf(info.user, global, payee, amount);
      if globalRoll.Err? {
        return Err(globalRoll.error);
      }
      return Ok((ruleRoll.value, globalRoll.value));
    }

    /** Commit every bound of a session spend before its transfer. */
    method CommitSessionSpend(session: Address, selected: Option<Bytes32>, global: Option<Bytes32>,
                              rolls: (Option<R.PublicUsage>, Option<R.PublicUsage>), amount: I128)
      requires session in lanes.sessions && RulesThere(lanes, lanes.sessions[session].user, selected, global, rolls)
      modifies this`lanes
      ensures var info := old(lanes.sessions[session]);
        lanes == SpentFrom(ChargedBoth(old(lanes), now, info.user, selected, global, rolls, amount), session, info, selected, amount, now)
    {
      var info := lanes.sessions[session];
      ChargeRule(info.user, selected, rolls.0, amount);
      ChargeRule(info.user, global, rolls.1, amount);
      var spent := info.(spent := info.spent + amount);
      spent := spent.(releaseCount := spent.releaseCount + 1);
      lanes := lanes.(sessions := lanes.sessions[session := spent]);
      lanes := lanes.(log := lanes.log + [SessionPaid(session, info.user, amount, info.spendCap > 0, selected, PointerOf(lanes, info.user), now)]);
    }

    method SpendSession(session: Address, payee: Address, amount: I128, chosen: Option<Bytes32>)
      returns (r: Done, info: Session, fee: int)
      modifies this
      ensures Commits(BeginReleaseSession(host, old(View()), session, payee, amount, chosen), r, View(),
                      SessionDue(info, payee, amount, fee, ctl.feeConfig))
    {
      info, fee := Session(0, 0, 0, 0, None, false, false, 0, 0), 0;
      var rolls := CheckSessionSpend(session, payee, amount, chosen);
      SessionSpendFails(host, View(), session, payee, amount, chosen);
      if rolls.Err? {
        r := Err(rolls.error);
        return;
      }
      info := lanes.sessions[session];
      var selected := if chosen.Some? then chosen else info.ruleId;
      var global: Option<Bytes32> := None;
      if info.user in lanes.globalPublic && selected != Some(lanes.globalPublic[info.user]) {
        global := Some(lanes.globalPublic[info.user]);
      }
      ghost var s0 := View();
      assert selected == SelectedRule(info, chosen) && global == GlobalRule(s0.lanes, info.user, selected);
      var fits := CheckSpendable(info, amount);
      if fits.Stop? {
        r := Err(fits.error);
        return;
      }
      var computed := ComputeFee(ctl, amount);
      if computed.Err? {
        r := Err(computed.error);
        return;
      }
      fee := computed.value;
      SessionSpendCommits(host, View(), session, payee, amount, chosen, fee);
      r := CommitSpend(session, selected, global, rolls.value, amount, fee);
      ghost var s1 := SpentState(s0, session, selected, global, rolls.value, amount, fee);
      assert BeginReleaseSession(host, s0, session, payee, amount, chosen)
          == if s1.Err? then Err(s1.error) else Ok(Pending(s1.value, SessionDue(info, payee, amount, fee, s0.ctl.feeConfig)));
    }

    /** All effects of a session spend. */
    method CommitSpend(session: Address, selected: Option<Bytes32>, global: Option<Bytes32>,
                       rolls: (Option<R.PublicUsage>, Option<R.PublicUsage>), amount: I128, fee: int) returns (r: Done)
      requires session in lanes.sessions && (lanes.sessions[session].user, lanes.sessions[session].asset) in books.accounts
      requires RulesThere(lanes, lanes.sessions[session].user, selected, global, rolls)
      modifies this
      ensures Outcome(SpentState(old(View()), session, selected, global, rolls, amount, fee), r, View())
    {
      var info := lanes.sessions[session];
      ghost var s0 := View();
      CommitSessionSpend(session, selected, global, rolls, amount);
      SpendFromAccount(info.user, info.asset, amount);
      r := AccrueProtocolFee(info.asset, fee);
    }

    method CheckSpendable(info: Session, amount: I128) returns (r: Guard<Error>)
      ensures r == SpendFits(View(), info, amount)
    {
      if (info.user, info.asset) !in books.accounts {
        return Stop(InsufficientBalance);
      }
      var account := books.accounts[(info.user, info.asset)];
      if amount > account.balance - account.locked {
        return Stop(InsufficientAvailable);
      }
      if info.spent + amount > I128_MAX || info.releaseCount + 1 > U32_MAX || account.totalSpent + amount > I128_MAX {
        return Stop(Aborted);
      }
      return Pass;
    }

    method ReleaseSession(session: Address, payee: Address, amount: I128, chosen: Option<Bytes32>, hooks: seq<Hook>)
      returns (r: Done)
      modifies this
      decreases hooks, 3
      ensures Outcome(After(host, BeginReleaseSession(host, old(View()), session, payee, amount, chosen), hooks), r, View())
    {
      var info, fee;
      ghost var begun := BeginReleaseSession(host, View(), session, payee, amount, chosen);
      r, info, fee := SpendSession(session, payee, amount, chosen);
      ghost var due := Due(info.asset, None, [Fixed(payee, amount - fee, fee, AtRate(ctl.feeConfig))], Emit([Other]));
      AfterCommit(host, begun, r, View(), due, hooks);
      if r.Err? {
        return;
      }
      ghost var settled := Settle(host, View(), due, hooks).r;
      assert After(host, begun, hooks) == settled;
      r := PayLast(info.asset, None, payee, amount - fee, fee, AtRate(ctl.feeConfig), [Other], hooks);
      assert Outcome(settled, r, View());
    }

    // ---- Orchestrators ----------------------------------------------------

    method RegisterOrchestrator(user: Address, orchestrator: Address) returns (r: Done)
      modifies this
      ensures Reaches(BeginRegisterOrchestrator(host, old(View()), user, orchestrator), r, View())
      ensures r.Ok? ==>
        && ctl == old(ctl).(owners := old(ctl.owners)[orchestrator := user])
        && user in books.configs && books.configs[user].orchestrator == Some(orchestrator) && lanes == old(lanes)
    {
      if user == host.vault {
        return Err(AuthFailed);
      }
      EnsureUserConfig(user);
      var config := books.configs[user];
      if config.orchestrator.Some? {
        return Err(OrchestratorAlreadyRegistered);
      }
      config := config.(orchestrator := Some(orchestrator));
      books := books.(configs := books.configs[user := config]);
      // the reverse lookup is overwritten whoever owned it
      ctl := ctl.(owners := ctl.owners[orchestrator := user]);
      return DONE;
    }

    method UpdateOrchestrator(user: Address, newOrchestrator: Address) returns (r: Done)
      modifies this
      ensures Reaches(BeginUpdateOrchestrator(host, old(View()), user, newOrchestrator), r, View())
      ensures r.Ok? ==>
        && user in books.configs && books.configs[user] == Config(Some(newOrchestrator), 0)
        && (newOrchestrator in old(ctl.owners) ==> old(ctl.owners)[newOrchestrator] == user)
        && newOrchestrator in ctl.owners && ctl.owners[newOrchestrator] == user
    {
      if user == host.vault {
        return Err(AuthFailed);
      }
      if user !in books.configs {
        return Err(OrchestratorNotRegistered);
      }
      var config := books.configs[user];
      if config.activeTasks != 0 {
        return Err(ActiveTaskExists);
      }
      if config.orchestrator.None? {
        return Err(OrchestratorNotRegistered);
      }
      if newOrchestrator in ctl.owners && ctl.owners[newOrchestrator] != user {
        return Err(OrchestratorAlreadyRegistered);
      }
      ctl := ctl.(owners := ctl.owners - {config.orchestrator.value});
      config := config.(orchestrator := Some(newOrchestrator));
      books := books.(configs := books.configs[user := config]);
      ctl := ctl.(owners := ctl.owners[newOrchestrator := user]);
      return DONE;
    }

    // ---- Tasks ------------------------------------------------------------

    method CreateTask(orchestrator: Address, asset: Address, planCost: I128) returns (r: Done)
      modifies this`books
      ensures Reaches(BeginCreateTask(host, old(View()), orchestrator, asset, planCost, None), r, View())
      ensures r.Ok? ==>
        && orchestrator in ctl.owners
        && var user, id := ctl.owners[orchestrator], old(books.counter) + 1;
        && books.tasks == old(books.tasks)[id := Task(user, orchestrator, asset, planCost, 0, false, false, None, now)]
        && (user, asset) in old(books.accounts) && (user, asset) in books.accounts
        && var before, account := old(books.accounts)[(user, asset)], books.accounts[(user, asset)];
        && account == before.(locked := before.locked + planCost) && account.locked <= account.balance
    {
      if orchestrator == host.vault {
        return Err(AuthFailed);
      }
      if ctl.paused {
        return Err(ContractPaused);
      }
      if planCost <= 0 {
        return Err(InvalidAmount);
      }
      if asset !in ctl.supported {
        return Err(AssetNotSupported);
      }
      if orchestrator !in ctl.owners {
        return Err(OrchestratorNotRegistered);
      }
      var user := ctl.owners[orchestrator];
      if user !in books.configs {
        return Err(Aborted);
      }
      var config := books.configs[user];
      if config.activeTasks >= ctl.maxActiveTasks {
        return Err(TooManyActiveTasks);
      }
      if (user, asset) !in books.accounts {
        return Err(Aborted);
      }
      var account := books.accounts[(user, asset)];
      if account.balance - account.locked < planCost {
        return Err(InsufficientAvailable);
      }
      account := account.(locked := account.locked + planCost);
      config := config.(activeTasks := config.activeTasks + 1);
      books := books.(configs := books.configs[user := config]);
      books := books.(accounts := books.accounts[(user, asset) := account]);
      var counter := books.counter;
      if counter + 1 > U64_MAX {
        return Err(Aborted);
      }
      counter := counter + 1;
      var task := Task(user, orchestrator, asset, planCost, 0, false, false, None, now);
      books := books.(tasks := books.tasks[counter := task]);
      books := books.(counter := counter);
      books := books.(events := books.events + [TaskNewEvent(user, asset, planCost)]);
      return DONE;
    }

    /** A task under a private spending policy: created plainly, then bound to the commitment. */
    method CreateTaskWithPolicy(orchestrator: Address, asset: Address, planCost: I128, commitment: Bytes32) returns (r: Done)
      modifies this`books
      ensures Reaches(BeginCreateTask(host, old(View()), orchestrator, asset, planCost, Some(commitment)), r, View())
    {
      if commitment == ZERO32 {
        return Err(InvalidCommitment);
      }
      r := CreateTask(orchestrator, asset, planCost);
      if r.Err? {
        return;
      }
      var task := books.tasks[books.counter];
      task := task.(commitment := Some(commitment));
      books := books.(tasks := books.tasks[books.counter := task]);
    }

    /** Index a step, if it is new and there is room, and store its record. */
    method RecordStepRelease(id: nat, step: U64, amount: int) returns (r: Done)
      modifies this`books
      ensures RoomForStep(old(books), id, step).Stop? ==> r == Err(TooManyStepReleases)
      ensures RoomForStep(old(books), id, step).Pass? ==>
        && r.Ok?
        && var ids := StepIds(old(books), id);
        && books == old(books).(stepIds := if step in ids then old(books).stepIds else old(books).stepIds[id := ids + [step]],
                                steps := old(books).steps[(id, step) := amount])
    {
      var ids := StepIds(books, id);
      var known := false;
      for i := 0 to |ids|
        invariant known <==> step in ids[..i]
        invariant books == old(books)
      {
        known := known || ids[i] == step;
      }
      assert ids[..|ids|] == ids;
      if !known {
        if |ids| >= MAX_RELEASE_STEPS_PER_TASK {
          return Err(TooManyStepReleases);
        }
        ids := ids + [step];
        books := books.(stepIds := books.stepIds[id := ids]);
      }
      books := books.(steps := books.steps[(id, step) := amount]);
      return DONE;
    }

    /** The same for a nullifier consumed under a task. */
    method RecordTaskNullifier(id: nat, nullifier: Bytes32) returns (r: Done)
      modifies this`books
      ensures var ids := NullifierIds(old(books), id);
        if nullifier !in ids && |ids| >= MAX_RELEASE_STEPS_PER_TASK then r == Err(TooManyStepReleases)
        else r.Ok? && books == MarkTaskNullifier(old(books), id, nullifier)
    {
      var ids := NullifierIds(books, id);
      var known := false;
      for i := 0 to |ids|
        invariant known <==> nullifier in ids[..i]
        invariant books == old(books)
      {
        known := known || ids[i] == nullifier;
      }
      assert ids[..|ids|] == ids;
      if !known {
        if |ids| >= MAX_RELEASE_STEPS_PER_TASK {
          return Err(TooManyStepReleases);
        }
        ids := ids + [nullifier];
        books := books.(nullifierIds := books.nullifierIds[id := ids]);
      }
      books := books.(taskNullifiers := books.taskNullifiers + {(id, nullifier)});
      return DONE;
    }

    method CheckReleasable(task: Task, orchestrator: Address, asset: Address) returns (r: Guard<Error>)
      ensures r == Releasable(task, orchestrator, asset)
    {
      if task.completed {
        return Stop(TaskAlreadyCompleted);
      }
      if task.disputed {
        return Stop(TaskDisputed);
      }
      if task.orchestrator != orchestrator {
        return Stop(NotYourOrchestrator);
      }
      if task.asset != asset {
        return Stop(AssetMismatch);
      }
      return Pass;
    }

    /** The task's running spend, after the step has been recorded. */
    method AddToSpent(id: nat, step: U64, amount: int)
      requires id in books.tasks
      modifies this`books
      ensures books == Log(old(books).(tasks := old(books).tasks[id := old(books).tasks[id].(spent := old(books).tasks[id].spent + amount)]),
                           Released(id, step, amount))
    {
      var task := books.tasks[id];
      task := task.(spent := task.spent + amount);
      books := books.(tasks := books.tasks[id := task]);
      books := books.(journal := books.journal + [Released(id, step, amount)]);
    }

    /** The checks and effects of a plain release; `unpaid` tells a new step from a repeated one. */
    method CommitRelease(orchestrator: Address, id: U64, step: U64, asset: Address, amount: I128)
      returns (r: Done, unpaid: bool, fee: int)
      modifies this`books
      ensures Commits(BeginReleasePayment(host, old(View()), orchestrator, id, step, asset, amount), r, View(),
                      StepDue(unpaid, asset, id, orchestrator, amount, fee, ctl.feeConfig))
    {
      unpaid, fee := false, 0;
      if orchestrator == host.vault {
        r := Err(AuthFailed);
        return;
      }
      if ctl.paused {
        r := Err(ContractPaused);
        return;
      }
      if amount <= 0 {
        r := Err(InvalidAmount);
        return;
      }
      if id !in books.tasks {
        r := Err(TaskNotFound);
        return;
      }
      var task := books.tasks[id];
      if task.commitment.Some? {
        r := Err(PolicyProofRequired);
        return;
      }
      var releasable := CheckReleasable(task, orchestrator, asset);
      if releasable.Stop? {
        r := Err(releasable.error);
        return;
      }
      if (id, step) in books.steps {
        r := if books.steps[(id, step)] == amount then DONE else Err(ReleaseConflict);
        return;
      }
      r := CheckPlan(task, amount);
      if r.Err? {
        return;
      }
      r, fee := CommitReleaseEffects(id, step, asset, amount);
      unpaid := true;
    }

    /** Step record, running spend and fee, all before the transfer. */
    method CommitReleaseEffects(id: U64, step: U64, asset: Address, amount: I128) returns (r: Done, fee: int)
      requires id in books.tasks
      modifies this`books
      ensures ReleaseEffects(old(View()), id, step, asset, amount) == if r.Ok? then Ok((books, fee)) else Err(r.error)
    {
      fee := 0;
      r := RecordStepRelease(id, step, amount);
      if r.Err? {
        return;
      }
      var computed := ComputeFee(ctl, amount);
      if computed.Err? {
        r := Err(computed.error);
        return;
      }
      fee := computed.value;
      AddToSpent(id, step, amount);
      r := AccrueProtocolFee(asset, fee);
    }

    method CheckPlan(task: Task, amount: int) returns (r: Done)
      ensures r == match WithinPlan(task, amount) case Pass => DONE case Stop(e) => Err(e)
    {
      if task.spent + amount > I128_MAX {
        return Err(Aborted);
      }
      if task.spent + amount > task.planCost {
        return Err(ExceedsPlanCost);
      }
      return DONE;
    }

    method ReleasePayment(orchestrator: Address, id: U64, step: U64, asset: Address, amount: I128, hooks: seq<Hook>)
      returns (r: Done)
      modifies this
      decreases hooks, 3
      ensures Outcome(After(host, BeginReleasePayment(host, old(View()), orchestrator, id, step, asset, amount), hooks), r, View())
    {
      var unpaid, fee;
      r, unpaid, fee := CommitRelease(orchestrator, id, step, asset, amount);
      if r.Err? {
        return;
      }
      if !unpaid {
        SettleQuiet(host, View(), hooks);
        return;
      }
      r := PayLast(asset, Some(id), orchestrator, amount - fee, fee, AtRate(ctl.feeConfig), [Other], hooks);
    }

    /** The policy proof of a single release: fresh nullifier, pinned commitment, and an accepting verifier. */
    method CheckPolicyProof(task: Task, id: nat, amount: I128, payee: Address, nullifier: Bytes32, proof: Proof)
      returns (r: Done)
      requires task.commitment.Some?
      ensures r == PolicyVerdict(host, View(), task, id, amount, payee, nullifier, proof)
    {
      if (id, nullifier) in books.taskNullifiers {
        return Err(NullifierAlreadyUsed);
      }
      var isPinned := IsCommitmentPinned(task.user, task.commitment.value);
      if !isPinned {
        return Err(CommitmentNotAuthorized);
      }
      if ctl.verifier.None? {
        return Err(PolicyVerifierNotSet);
      }
      if !host.verifyPolicy(ctl.verifier.value, task.commitment.value, payee, amount, nullifier, proof) {
        return Err(PolicyProofRejected);
      }
      return DONE;
    }

    method IsCommitmentPinned(user: Address, commitment: Bytes32) returns (found: bool)
      ensures found <==> commitment in Pinned(lanes, user)
    {
      var pins := if user in lanes.pinned then lanes.pinned[user] else [];
      found := false;
      for i := 0 to |pins|
        invariant found <==> commitment in pins[..i]
      {
        found := found || pins[i] == commitment;
      }
      assert pins[..|pins|] == pins;
    }

    method CommitProvedRelease(orchestrator: Address, id: U64, step: U64, asset: Address, amount: I128, payee: Address,
                               nullifier: Bytes32, proof: Proof) returns (r: Done, unpaid: bool, fee: int)
      modifies this`books
      ensures Commits(BeginReleaseProved(host, old(View()), orchestrator, id, step, asset, amount, payee, nullifier, proof),
                      r, View(), StepDue(unpaid, asset, id, payee, amount, fee, ctl.feeConfig))
    {
      unpaid, fee := false, 0;
      if orchestrator == host.vault {
        r := Err(AuthFailed);
        return;
      }
      if ctl.paused {
        r := Err(ContractPaused);
        return;
      }
      if amount <= 0 {
        r := Err(InvalidAmount);
        return;
      }
      if id !in books.tasks {
        r := Err(TaskNotFound);
        return;
      }
      var task := books.tasks[id];
      if task.commitment.None? {
        r := Err(NoPolicyCommitment);
        return;
      }
      var releasable := CheckReleasable(task, orchestrator, asset);
      if releasable.Stop? {
        r := Err(releasable.error);
        return;
      }
      if (id, step) in books.steps {
        r := if books.steps[(id, step)] == amount then DONE else Err(ReleaseConflict);
        return;
      }
      r := CheckPlan(task, amount);
      if r.Err? {
        return;
      }
      r := CheckPolicyProof(task, id, amount, payee, nullifier, proof);
      if r.Err? {
        return;
      }
      r, fee := CommitProvedEffects(id, step, asset, amount, nullifier);
      unpaid := true;
    }

    /** Step record, consumed nullifier, running spend and fee, all before the transfer. */
    method CommitProvedEffects(id: U64, step: U64, asset: Address, amount: I128, nullifier: Bytes32) returns (r: Done, fee: int)
      requires id in books.tasks
      modifies this`books
      ensures ProvedEffects(old(View()), id, step, asset, amount, nullifier)
        == if r.Ok? then Ok((books, fee)) else Err(r.error)
    {
      fee := 0;
      r := RecordProvedStep(id, step, amount, nullifier);
      if r.Err? {
        return;
      }
      var computed := ComputeFee(ctl, amount);
      if computed.Err? {
        r := Err(computed.error);
        return;
      }
      fee := computed.value;
      r := AccrueProtocolFee(asset, fee);
    }

    /** The step, the nullifier, and the task's running spend. */
    method RecordProvedStep(id: U64, step: U64, amount: I128, nullifier: Bytes32) returns (r: Done)
      requires id in books.tasks
      modifies this`books
      ensures var b, ids := old(books), NullifierIds(old(books), id);
        if RoomForStep(b, id, step).Stop? || (nullifier !in ids && |ids| >= MAX_RELEASE_STEPS_PER_TASK) then
          r == Err(TooManyStepReleases)
        else r.Ok? && books == MarkTaskNullifier(RecordRelease(b, id, step, amount), id, nullifier)
    {
      r := RecordStepRelease(id, step, amount);
      if r.Err? {
        return;
      }
      ghost var b1, e := books, Released(id, step, amount);
      r := RecordTaskNullifier(id, nullifier);
      if r.Err? {
        return;
      }
      AddToSpent(id, step, amount);
      MarkCommutes(b1, id, nullifier, books.tasks, e);
    }

    method ReleaseProved(orchestrator: Address, id: U64, step: U64, asset: Address, amount: I128, payee: Address,
                         nullifier: Bytes32, proof: Proof, hooks: seq<Hook>) returns (r: Done)
      modifies this
      decreases hooks, 3
      ensures Outcome(After(host, BeginReleaseProved(host, old(View()), orchestrator, id, step, asset, amount, payee, nullifier,
                                                     proof), hooks), r, View())
    {
      var unpaid, fee;
      r, unpaid, fee := CommitProvedRelease(orchestrator, id, step, asset, amount, payee, nullifier, proof);
      if r.Err? {
        return;
      }
      if !unpaid {
        SettleQuiet(host, View(), hooks);
        return;
      }
      r := PayLast(asset, Some(id), payee, amount - fee, fee, AtRate(ctl.feeConfig), [Other], hooks);
    }

    // ---- Batches ----------------------------------------------------------

    method CheckBatchShape(q: S.Batch) returns (r: Done)
      ensures r == ShapeAndWindow(View(), q)
    {
      var m := |q.payees|;
      if m == 0 || m > S.BATCH_N || |q.amounts| != m || |q.nullifiers| != m {
        return Err(BatchSizeInvalid);
      }
      if now < q.validAfter || now > q.validBefore {
        return Err(OutsideValidityWindow);
      }
      if q.validBefore - now > MAX_VALIDITY_SECS {
        return Err(ValidityWindowTooLong);
      }
      return DONE;
    }

    /** Each amount must be positive; the batch total is accumulated. */
    method SumBatch(amounts: seq<I128>) returns (r: Result<int, Error>)
      ensures r == BatchTotal(amounts)
    {
      var total := 0;
      for i := 0 to |amounts|
        invariant AllPositive(amounts[..i]) && total == S.SumAmounts(amounts[..i]) <= I128_MAX
      {
        assert amounts[..i + 1][..i] == amounts[..i];
        if amounts[i] <= 0 {
          return Err(InvalidAmount);
        }
        if total + amounts[i] > I128_MAX {
          PrefixSum(amounts, i + 1);
          return Err(InvalidAmount);
        }
        total := total + amounts[i];
      }
      assert amounts[..|amounts|] == amounts;
      return Ok(total);
    }

    /** No nullifier consumed before, and none twice in this list. */
    method CheckNullifiers(ns: seq<Bytes32>) returns (r: Guard<Error>)
      ensures r == FreshFrom(lanes.nullifiers, ns, 0)
    {
      for i := 0 to |ns|
        invariant FreshFrom(lanes.nullifiers, ns, 0) == FreshFrom(lanes.nullifiers, ns, i)
      {
        if ns[i] in lanes.nullifiers {
          return Stop(NullifierAlreadyUsed);
        }
        for j := 0 to |ns|
          invariant forall k | 0 <= k < j :: k != i ==> ns[k] != ns[i]
        {
          if i != j && ns[i] == ns[j] {
            assert Repeated(ns, i);
            return Stop(BatchDuplicateNullifier);
          }
        }
        assert !Repeated(ns, i);
      }
      return Pass;
    }

    /** The public signals of a task batch, pushed in the circuit's order. */
    method TaskBatchSignals(commitment: Bytes32, q: S.Batch, accum: S.Accumulator) returns (pis: seq<Bytes32>)
      requires S.WellFormed(q)
      ensures pis == S.PublicSignals(host.addressHash, commitment, q, accum)
    {
      pis := TaskBatchOutputs(commitment, q);
      pis := PushTaskLines(pis, q);
      ghost var lines := pis;
      pis := pis + [S.Scalar64(q.validAfter)];
      pis := pis + [S.Scalar64(q.validBefore)];
      pis := pis + [S.Scalar128(accum.windowSpent)];
      pis := pis + [S.Scalar64(accum.windowCount)];
      pis := pis + [S.Scalar64(accum.anchorR2)];
      pis := pis + [S.Scalar64(accum.anchorR7)];
      assert pis == lines + Closing(q, accum);
    }

    /** Commitment, nullifiers and reset flags. */
    method TaskBatchOutputs(commitment: Bytes32, q: S.Batch) returns (pis: seq<Bytes32>)
      requires S.WellFormed(q)
      ensures pis == Outputs(commitment, q)
    {
      var m := |q.payees|;
      ghost var slots := S.Padded(q.nullifiers);
      pis := [commitment];
      for i := 0 to S.BATCH_N
        invariant pis == [commitment] + slots[..i]
      {
        pis := pis + [if i < m then q.nullifiers[i] else ZERO32];
      }
      ghost var filled := pis;
      pis := pis + [S.Scalar64(if q.resetR2 then 1 else 0)];
      pis := pis + [S.Scalar64(if q.resetR7 then 1 else 0)];
      assert slots[..4] == slots && pis == filled + [S.FlagScalar(q.resetR2), S.FlagScalar(q.resetR7)];
    }

    /** Payees and amounts. */
    method PushTaskLines(outputs: seq<Bytes32>, q: S.Batch) returns (pis: seq<Bytes32>)
      requires S.WellFormed(q)
      ensures pis == outputs + S.Padded(S.PayeeFields(host.addressHash, q.payees)) + S.Padded(S.AmountScalars(q.amounts))
    {
      var m := |q.payees|;
      ghost var payees, amounts := S.Padded(S.PayeeFields(host.addressHash, q.payees)), S.Padded(S.AmountScalars(q.amounts));
      pis := outputs;
      for i := 0 to S.BATCH_N
        invariant pis == outputs + payees[..i]
      {
        pis := pis + [if i < m then S.ClearTopBits(host.addressHash(q.payees[i])) else ZERO32];
      }
      assert payees[..4] == payees;
      for i := 0 to S.BATCH_N
        invariant pis == outputs + payees + amounts[..i]
      {
        pis := pis + [if i < m then S.AmountScalar(q.amounts[i]) else ZERO32];
      }
      assert amounts[..4] == amounts;
    }

    /** The task path's verification, with its own copy of the layout and the roll. */
    method VerifyTaskBatch(verifier: Address, commitment: Bytes32, q: S.Batch, total: int, proof: Proof)
      returns (r: Result<S.Accumulator, Error>)
      requires S.WellFormed(q) && total == S.BatchSum(q) <= I128_MAX
      ensures r == VerifyBatch(host, View(), verifier, commitment, q, proof)
    {
      var accum := if commitment in lanes.accums then lanes.accums[commitment] else S.FreshAccumulator;
      var pis := TaskBatchSignals(commitment, q, accum);
      if !host.verifyGroth16(verifier, proof, pis) {
        return Err(PolicyProofRejected);
      }
      var runningSpend, priorCount := accum.windowSpent, accum.windowCount;
      return Ok(S.Accumulator(
        if q.resetR2 then q.validAfter else accum.anchorR2,
        if q.resetR2 then total else SatAdd(runningSpend, total, U128_MAX),
        if q.resetR7 then q.validAfter else accum.anchorR7,
        if q.resetR7 then |q.payees| else SatAdd(priorCount, |q.payees|, U64_MAX)));
    }

    method RecordNullifiers(ns: seq<Bytes32>)
      modifies this`lanes
      ensures lanes == MarkNullifiers(old(lanes), ns, ledger)
    {
      for i := 0 to |ns|
        invariant lanes == MarkNullifiers(old(lanes), ns[..i], ledger)
      {
        MarkOneMore(old(lanes), ns, i, ledger);
        lanes := lanes.(nullifiers := lanes.nullifiers[ns[i] := ledger]);
      }
      assert ns[..|ns|] == ns;
    }

    /** The checks of a task batch up to its step record. */
    method CheckTaskBatch(orchestrator: Address, id: U64, asset: Address, q: S.Batch) returns (r: Result<int, Error>)
      ensures r == BatchChecks(host, View(), orchestrator, id, asset, q)
    {
      if orchestrator == host.vault {
        return Err(AuthFailed);
      }
      if ctl.paused {
        return Err(ContractPaused);
      }
      var shape := CheckBatchShape(q);
      if shape.Err? {
        return Err(shape.error);
      }
      if id !in books.tasks {
        return Err(TaskNotFound);
      }
      var task := books.tasks[id];
      if task.commitment.None? {
        return Err(NoPolicyCommitment);
      }
      var releasable := CheckReleasable(task, orchestrator, asset);
      if releasable.Stop? {
        return Err(releasable.error);
      }
      r := SumBatch(q.amounts);
    }

    /** The proof of a task batch: budget, fresh nullifiers, pinned commitment, verifier. */
    method CheckTaskProof(task: Task, q: S.Batch, total: int, proof: Proof) returns (r: Result<S.Accumulator, Error>)
      requires S.WellFormed(q) && total == S.BatchSum(q) <= I128_MAX && task.commitment.Some?
      ensures r == BatchProof(host, View(), task, q, proof)
    {
      var plan := CheckPlan(task, total);
      if plan.Err? {
        return Err(plan.error);
      }
      var unused := CheckNullifiers(q.nullifiers);
      if unused.Stop? {
        return Err(unused.error);
      }
      var commitment := task.commitment.value;
      var isPinned := IsCommitmentPinned(task.user, commitment);
      if !isPinned {
        return Err(CommitmentNotAuthorized);
      }
      if ctl.verifier.None? {
        return Err(PolicyVerifierNotSet);
      }
      r := VerifyTaskBatch(ctl.verifier.value, commitment, q, total, proof);
    }

    method CommitBatch(orchestrator: Address, id: U64, step: U64, asset: Address, q: S.Batch, proof: Proof)
      returns (r: Done, unpaid: bool)
      modifies this
      ensures Commits(BeginReleaseBatch(host, old(View()), orchestrator, id, step, asset, q, proof), r, View(),
                      BatchDue(unpaid, asset, id, q))
    {
      unpaid := false;
      BatchSteps(host, View(), orchestrator, id, step, asset, q, proof);
      var checked := CheckTaskBatch(orchestrator, id, asset, q);
      if checked.Err? {
        r := Err(checked.error);
        return;
      }
      var total := checked.value;
      if (id, step) in books.steps {
        r := if books.steps[(id, step)] == total then DONE else Err(ReleaseConflict);
        return;
      }
      var task := books.tasks[id];
      var rolled := CheckTaskProof(task, q, total, proof);
      if rolled.Err? {
        r := Err(rolled.error);
        return;
      }
      unpaid := true;
      r := CommitBatchEffects(id, step, task.commitment.value, q, total, rolled.value);
    }

    /** Step record, nullifiers, running spend and accumulator, all before any transfer. */
    method CommitBatchEffects(id: U64, step: U64, commitment: Bytes32, q: S.Batch, total: int, accum: S.Accumulator)
      returns (r: Done)
      requires id in books.tasks && S.WellFormed(q) && total == S.BatchSum(q) <= I128_MAX
      modifies this`books, this`lanes
      ensures Outcome(BatchEffects(old(View()), id, step, commitment, q, accum), r, View())
    {
      r := RecordStepRelease(id, step, total);
      if r.Err? {
        return;
      }
      RecordNullifiers(q.nullifiers);
      AddToSpent(id, step, total);
      lanes := lanes.(accums := lanes.accums[commitment := accum]);
      lanes := lanes.(log := lanes.log + [Consumed(q.nullifiers, [], q.validBefore, now, ledger), RolledBy(commitment, q)]);
    }

    /** Pay each line, less its fee, in order. */
    method PayLines(asset: Address, task: Option<nat>, payees: seq<Address>, amounts: seq<I128>, hooks: seq<Hook>) returns (r: Done)
      requires |payees| == |amounts|
      modifies this
      decreases hooks, 2
      ensures Outcome(Settle(host, old(View()), Due(asset, task, TaxedLines(payees, amounts), Emit([Other])), hooks).r, r, View())
    {
      r := DONE;
      ghost var spec := Settle(host, View(), Due(asset, task, TaxedLines(payees, amounts), Emit([Other])), hooks).r;
      FirstLines(host, View(), asset, task, payees, amounts, hooks);
      for i := 0 to |payees|
        invariant spec == Settle(host, View(), LinesDue(asset, task, payees, amounts, i), HooksFrom(hooks, i)).r
        invariant r.Ok?
      {
        r := PayLine(asset, task, payees, amounts, i, hooks);
        if r.Err? {
          return;
        }
      }
      FinishLines(asset, task, payees, amounts, hooks);
    }

    /** All lines are paid. */
    method FinishLines(ghost asset: Address, ghost task: Option<nat>, ghost payees: seq<Address>, ghost amounts: seq<I128>, ghost hooks: seq<Hook>)
      requires |payees| == |amounts|
      modifies this`books
      ensures Settle(host, old(View()), LinesDue(asset, task, payees, amounts, |payees|), HooksFrom(hooks, |payees|)).r == Ok(View())
    {
      NoLinesLeft(host, View(), asset, task, payees, amounts, HooksFrom(hooks, |payees|));
      books := books.(events := books.events + [Other]);
    }

    /** The protocol fee of one line: computed and accrued. */
    method TakeFee(asset: Address, gross: int) returns (r: Result<int, Error>)
      modifies this`books
      ensures var fee := ComputeFee(ctl, gross);
        if fee.Err? then r == Err(fee.error)
        else
          var b := Accrue(old(books), ctl, asset, fee.value);
          if b.Err? then r == Err(b.error) else r == Ok(fee.value) && books == b.value
    {
      var computed := ComputeFee(ctl, gross);
      if computed.Err? {
        return Err(computed.error);
      }
      var accrued := AccrueProtocolFee(asset, computed.value);
      if accrued.Err? {
        return Err(accrued.error);
      }
      return Ok(computed.value);
    }

    method PayLine(asset: Address, task: Option<nat>, payees: seq<Address>, amounts: seq<I128>, i: nat, hooks: seq<Hook>) returns (r: Done)
      requires |payees| == |amounts| && i < |payees|
      modifies this
      decreases hooks, 1
      ensures r.Ok? ==> (Settle(host, old(View()), LinesDue(asset, task, payees, amounts, i), HooksFrom(hooks, i)).r
                         == Settle(host, View(), LinesDue(asset, task, payees, amounts, i + 1), HooksFrom(hooks, i + 1)).r)
      ensures r.Err? ==> Settle(host, old(View()), LinesDue(asset, task, payees, amounts, i), HooksFrom(hooks, i)).r == Err(r.error)
    {
      ghost var s := View();
      var fee := TakeFee(asset, amounts[i]);
      if fee.Err? {
        LineFails(host, s, asset, task, payees, amounts, i, hooks);
        return Err(fee.error);
      }
      ghost var s1 := View();
      r := Pay(asset, payees[i], amounts[i] - fee.value, HooksFrom(hooks, i), task, fee.value, InTurn(ctl.feeConfig));
      LineShape(asset, task, payees, amounts, i, hooks);
      LinePaid(host, s, s1, View(), LinesDue(asset, task, payees, amounts, i), LinesDue(asset, task, payees, amounts, i + 1),
               HooksFrom(hooks, i), HooksFrom(hooks, i + 1), payees[i], amounts[i], fee.value, r);
    }

    method ReleaseBatch(orchestrator: Address, id: U64, step: U64, asset: Address, q: S.Batch, proof: Proof, hooks: seq<Hook>)
      returns (r: Done)
      modifies this
      decreases hooks, 3
      ensures Outcome(After(host, BeginReleaseBatch(host, old(View()), orchestrator, id, step, asset, q, proof), hooks), r, View())
    {
      var unpaid;
      r, unpaid := CommitBatch(orchestrator, id, step, asset, q, proof);
      if r.Err? {
        return;
      }
      if !unpaid {
        SettleQuiet(host, View(), hooks);
        return;
      }
      r := PayLines(asset, Some(id), q.payees, q.amounts, hooks);
    }

    // ---- The keyless path -------------------------------------------------

    /** The helper's own copy of the layout. */
    method ProofSignals(commitment: Bytes32, q: S.Batch, accum: S.Accumulator) returns (pis: seq<Bytes32>)
      requires S.WellFormed(q)
      ensures pis == S.PublicSignals(host.addressHash, commitment, q, accum)
    {
      pis := ProofOutputs(commitment, q.nullifiers, q);
      pis := PushProofLines(pis, q.payees, q.amounts, q);
      ghost var lines := pis;
      pis := pis + [S.Scalar64(q.validAfter)];
      pis := pis + [S.Scalar64(q.validBefore)];
      pis := pis + [S.Scalar128(accum.windowSpent)];
      pis := pis + [S.Scalar64(accum.windowCount)];
      pis := pis + [S.Scalar64(accum.anchorR2)];
      pis := pis + [S.Scalar64(accum.anchorR7)];
      assert pis == lines + Closing(q, accum);
    }

    method ProofOutputs(commitment: Bytes32, nullifiers: seq<Bytes32>, q: S.Batch) returns (pis: seq<Bytes32>)
      requires S.WellFormed(q) && nullifiers == q.nullifiers
      ensures pis == Outputs(commitment, q)
    {
      ghost var slots := S.Padded(nullifiers);
      pis := [commitment];
      for i := 0 to S.BATCH_N
        invariant pis == [commitment] + slots[..i]
      {
        pis := pis + [if i < |nullifiers| then nullifiers[i] else ZERO32];
      }
      ghost var filled := pis;
      pis := pis + [S.FlagScalar(q.resetR2)];
      pis := pis + [S.FlagScalar(q.resetR7)];
      assert slots[..4] == slots && pis == filled + [S.FlagScalar(q.resetR2), S.FlagScalar(q.resetR7)];
    }

    method PushProofLines(outputs: seq<Bytes32>, payees: seq<Address>, amounts: seq<I128>, ghost q: S.Batch) returns (pis: seq<Bytes32>)
      requires S.WellFormed(q) && payees == q.payees && amounts == q.amounts
      ensures pis == outputs + S.Padded(S.PayeeFields(host.addressHash, q.payees)) + S.Padded(S.AmountScalars(q.amounts))
    {
      ghost var fields, scalars := S.Padded(S.PayeeFields(host.addressHash, payees)), S.Padded(S.AmountScalars(amounts));
      pis := outputs;
      for i := 0 to S.BATCH_N
        invariant pis == outputs + fields[..i]
      {
        pis := pis + [if i < |payees| then S.ClearTopBits(host.addressHash(payees[i])) else ZERO32];
      }
      assert fields[..4] == fields;
      for i := 0 to S.BATCH_N
        invariant pis == outputs + fields + scalars[..i]
      {
        pis := pis + [if i < |payees| then S.AmountScalar(amounts[i]) else ZERO32];
      }
      assert scalars[..4] == scalars;
    }

    /** The helper sums the amounts again, saturating at 128 bits; a checked total never saturates. */
    method SaturatingTotal(amounts: seq<I128>) returns (total: U128)
      requires AllPositive(amounts) && S.SumAmounts(amounts) <= I128_MAX
      ensures total == S.SumAmounts(amounts)
    {
      total := 0;
      for i := 0 to |amounts|
        invariant total == S.SumAmounts(amounts[..i])
      {
        assert amounts[..i + 1][..i] == amounts[..i];
        PrefixSum(amounts, i + 1);
        total := SatAdd(total, S.AsU128(amounts[i]), U128_MAX);
      }
      assert amounts[..|amounts|] == amounts;
    }

    /** Verify a batch proof and return the rolled accumulator; nothing is written. */
    method VerifyBatchProof(verifier: Address, commitment: Bytes32, q: S.Batch, proof: Proof) returns (r: Result<S.Accumulator, Error>)
      requires S.WellFormed(q) && S.BatchSum(q) <= I128_MAX
      ensures r == VerifyBatch(host, View(), verifier, commitment, q, proof)
    {
      var accum := if commitment in lanes.accums then lanes.accums[commitment] else S.FreshAccumulator;
      var pis := ProofSignals(commitment, q, accum);
      if !host.verifyGroth16(verifier, proof, pis) {
        return Err(PolicyProofRejected);
      }
      var total := SaturatingTotal(q.amounts);
      var m := |q.payees|;
      var updated := accum;
      if q.resetR2 {
        updated := updated.(windowSpent := total, anchorR2 := q.validAfter);
      } else {
        updated := updated.(windowSpent := SatAdd(accum.windowSpent, total, U128_MAX));
      }
      if q.resetR7 {
        updated := updated.(windowCount := m, anchorR7 := q.validAfter);
      } else {
        updated := updated.(windowCount := SatAdd(accum.windowCount, m, U64_MAX));
      }
      return Ok(updated);
    }

    /** The second proof, mandatory when the user has a private global rule. */
    method CheckGlobalProof(verifier: Address, gc: Bytes32, q: S.Batch, global: Option<GlobalProof>) returns (r: Result<S.Accumulator, Error>)
      requires S.WellFormed(q) && S.BatchSum(q) <= I128_MAX
      ensures r == VerifyGlobal(host, View(), verifier, gc, q, global)
    {
      if global.None? {
        return Err(GlobalProofRequired);
      }
      var g := global.value;
      if g.commitment != gc {
        return Err(GlobalCommitmentMismatch);
      }
      if |g.nullifiers| != |q.payees| {
        return Err(BatchSizeInvalid);
      }
      var unused := CheckNullifiers(g.nullifiers);
      if unused.Stop? {
        return Err(unused.error);
      }
      r := VerifyBatchProof(verifier, gc, UnderGlobal(q, g), g.proof);
    }

    /** Both proofs, and then their effects on the lanes. */
    method SettleKeylessLanes(verifier: Address, user: Address, commitment: Bytes32, q: S.Batch, proof: Proof,
                              global: Option<GlobalProof>) returns (r: Done)
      requires S.WellFormed(q) && S.BatchSum(q) <= I128_MAX
      modifies this`lanes
      ensures var l := SettleKeyless(host, old(View()), verifier, user, commitment, q, proof, global);
        if l.Ok? then r.Ok? && lanes == l.value else r == Err(l.error)
    {
      var unused := CheckNullifiers(q.nullifiers);
      if unused.Stop? {
        return Err(unused.error);
      }
      var primary := VerifyBatchProof(verifier, commitment, q, proof);
      if primary.Err? {
        return Err(primary.error);
      }
      if (user, Private) !in lanes.globals {
        RecordNullifiers(q.nullifiers);
        lanes := lanes.(accums := lanes.accums[commitment := primary.value]);
        lanes := lanes.(log := lanes.log + [Consumed(q.nullifiers, [], q.validBefore, now, ledger), RolledBy(commitment, q)]);
        return DONE;
      }
      var gc := lanes.globals[(user, Private)];
      var second := CheckGlobalProof(verifier, gc, q, global);
      if second.Err? {
        return Err(second.error);
      }
      CommitBothProofs(commitment, primary.value, gc, second.value, q, global.value);
      return DONE;
    }

    /** Consume both lists of nullifiers and store both accumulators, the global one last. */
    method CommitBothProofs(commitment: Bytes32, accum: S.Accumulator, gc: Bytes32, gaccum: S.Accumulator, q: S.Batch, g: GlobalProof)
      requires S.WellFormed(q) && S.BatchSum(q) <= I128_MAX && |g.nullifiers| == |q.payees|
      modifies this`lanes
      ensures lanes == BothProofs(old(lanes), now, ledger, commitment, accum, gc, gaccum, q, g)
    {
      ghost var l0 := lanes;
      RecordNullifiers(q.nullifiers);
      RecordNullifiers(g.nullifiers);
      lanes := lanes.(accums := lanes.accums[commitment := accum]);
      lanes := lanes.(accums := lanes.accums[gc := gaccum]);
      var rolls := if gc == commitment then [RolledBy(gc, UnderGlobal(q, g))]
                   else [RolledBy(commitment, q), RolledBy(gc, UnderGlobal(q, g))];
      lanes := lanes.(log := lanes.log + [Consumed(q.nullifiers, g.nullifiers, q.validBefore, now, ledger)] + rolls);
    }

    /** The checks of a keyless spend that come before its proofs. */
    method CheckKeyless(user: Address, asset: Address, commitment: Bytes32, q: S.Batch) returns (r: Result<int, Error>)
      ensures r == KeylessChecks(View(), user, asset, commitment, q)
    {
      // no signature: the proof, the pinned commitment and fresh nullifiers are the authorization
      if ctl.paused {
        return Err(ContractPaused);
      }
      var shape := CheckBatchShape(q);
      if shape.Err? {
        return Err(shape.error);
      }
      var summed := SumBatch(q.amounts);
      if summed.Err? {
        return Err(summed.error);
      }
      var total := summed.value;
      var isPinned := IsCommitmentPinned(user, commitment);
      if !isPinned {
        return Err(CommitmentNotAuthorized);
      }
      if ctl.verifier.None? {
        return Err(PolicyVerifierNotSet);
      }
      if (user, asset) !in books.accounts {
        return Err(InsufficientBalance);
      }
      var account := books.accounts[(user, asset)];
      if total > account.balance - account.locked {
        return Err(InsufficientAvailable);
      }
      return Ok(total);
    }

    method CommitKeyless(user: Address, asset: Address, commitment: Bytes32, q: S.Batch, proof: Proof, global: Option<GlobalProof>)
      returns (r: Done)
      modifies this
      ensures Commits(BeginReleaseKeyless(host, old(View()), user, asset, commitment, q, proof, global), r, View(),
                      KeylessDue(asset, q))
    {
      KeylessSteps(host, View(), user, asset, commitment, q, proof, global);
      var checked := CheckKeyless(user, asset, commitment, q);
      if checked.Err? {
        return Err(checked.error);
      }
      var total := checked.value;
      r := SettleKeylessLanes(ctl.verifier.value, user, commitment, q, proof, global);
      if r.Err? {
        return;
      }
      if books.accounts[(user, asset)].totalSpent + total > I128_MAX {
        return Err(Aborted);
      }
      SpendFromAccount(user, asset, total);
    }

    method ReleaseKeyless(user: Address, asset: Address, commitment: Bytes32, q: S.Batch, proof: Proof,
                          global: Option<GlobalProof>, hooks: seq<Hook>) returns (r: Done)
      modifies this
      decreases hooks, 3
      ensures Outcome(After(host, BeginReleaseKeyless(host, old(View()), user, asset, commitment, q, proof, global), hooks), r, View())
    {
      KeylessSized(host, View(), user, asset, commitment, q, proof, global);
      r := CommitKeyless(user, asset, commitment, q, proof, global);
      if r.Err? {
        return;
      }
      r := PayLines(asset, None, q.payees, q.amounts, hooks);
    }

    // ---- Ending a task ----------------------------------------------------

    /** Remove a task's step records through its index, then the index. */
    method RemoveTaskStepReleases(id: nat)
      modifies this`books
      ensures books == old(books).(steps := old(books).steps - (set i | i in StepIds(old(books), id) :: (id, i)),
                                   stepIds := old(books).stepIds - {id})
    {
      var ids := StepIds(books, id);
      for i := 0 to |ids|
        invariant books == old(books).(steps := old(books).steps - (set j | j in ids[..i] :: (id, j)))
      {
        assert ids[..i + 1] == ids[..i] + [ids[i]];
        if (id, ids[i]) in books.steps {
          books := books.(steps := books.steps - {(id, ids[i])});
        }
      }
      assert ids[..|ids|] == ids;
      if id in books.stepIds {
        books := books.(stepIds := books.stepIds - {id});
      }
    }

    method RemoveTaskNullifiers(id: nat)
      modifies this`books
      ensures books == old(books).(taskNullifiers := old(books).taskNullifiers - (set n | n in NullifierIds(old(books), id) :: (id, n)),
                                   nullifierIds := old(books).nullifierIds - {id})
    {
      var ids := NullifierIds(books, id);
      for i := 0 to |ids|
        invariant books == old(books).(taskNullifiers := old(books).taskNullifiers - (set n | n in ids[..i] :: (id, n)))
      {
        assert ids[..i + 1] == ids[..i] + [ids[i]];
        books := books.(taskNullifiers := books.taskNullifiers - {(id, ids[i])});
      }
      assert ids[..|ids|] == ids;
      if id in books.nullifierIds {
        books := books.(nullifierIds := books.nullifierIds - {id});
      }
    }

    method UnlockAndRealise(account: Account, task: Task, split: Option<(nat, nat)>) returns (closed: Account)
      ensures closed == ClosedAccount(account, task, split)
    {
      closed := account.(locked := account.locked - task.planCost);
      match split {
        case Some(shares) =>
          closed := closed.(balance := closed.balance - task.planCost);
          closed := closed.(totalSpent := closed.totalSpent + task.spent + shares.1);
        case None =>
          closed := closed.(balance := closed.balance - task.spent);
          closed := closed.(totalSpent := closed.totalSpent + task.spent);
      }
    }

    /** Unlock the plan cost, realise the spend, and reclaim the task's indexes. */
    method FinalizeTask(id: nat, expected: Option<Address>, split: Option<(nat, nat)>) returns (r: Done)
      modifies this`books
      ensures var b := Finalize(old(View()), id, expected, split);
        if b.Ok? then r.Ok? && books == b.value else r == Err(b.error)
      ensures r.Ok? ==>
        && id in old(books.tasks) && !old(books.tasks[id]).completed
        && books.tasks == old(books.tasks)[id := old(books.tasks[id]).(completed := true)]
        && StepIds(books, id) == [] && NullifierIds(books, id) == []
    {
      if id !in books.tasks {
        return Err(Aborted);
      }
      var task := books.tasks[id];
      if task.completed {
        return Err(TaskAlreadyCompleted);
      }
      if expected.Some? && task.orchestrator != expected.value {
        return Err(NotYourOrchestrator);
      }
      if task.user !in books.configs || (task.user, task.asset) !in books.accounts {
        return Err(Aborted);
      }
      var config, account := books.configs[task.user], books.accounts[(task.user, task.asset)];
      account := UnlockAndRealise(account, task, split);
      if account.totalSpent > I128_MAX || config.activeTasks < 1 {
        return Err(Aborted);
      }
      config := config.(activeTasks := config.activeTasks - 1);
      task := task.(completed := true);
      books := books.(configs := books.configs[task.user := config],
                      accounts := books.accounts[(task.user, task.asset) := account],
                      tasks := books.tasks[id := task]);
      RemoveTaskStepReleases(id);
      RemoveTaskNullifiers(id);
      books := books.(journal := books.journal + [ClosingEntry(id, task, split)]);
      if split.None? {
        books := books.(events := books.events + [TaskDoneEvent(task.user, task.asset, task.spent, task.planCost - task.spent)]);
      }
      return DONE;
    }

    method CompleteTask(orchestrator: Address, id: U64) returns (r: Done)
      modifies this`books
      ensures Reaches(BeginComplete(host, old(View()), orchestrator, id), r, View())
    {
      if orchestrator == host.vault {
        return Err(AuthFailed);
      }
      if id !in books.tasks {
        return Err(TaskNotFound);
      }
      if books.tasks[id].disputed {
        return Err(TaskDisputed);
      }
      r := FinalizeTask(id, Some(orchestrator), None);
    }

    method CancelTask(user: Address, id: U64) returns (r: Done)
      modifies this`books
      ensures Reaches(BeginCancel(host, old(View()), user, id), r, View())
    {
      if user == host.vault {
        return Err(AuthFailed);
      }
      if id !in books.tasks {
        return Err(TaskNotFound);
      }
      var task := books.tasks[id];
      if task.user != user {
        return Err(NotYourTask);
      }
      if task.disputed {
        return Err(TaskDisputed);
      }
      r := FinalizeTask(id, None, None);
    }

    method ForceCompleteStaleTask(id: U64) returns (r: Done)
      modifies this`books
      ensures Reaches(BeginForceComplete(host, old(View()), id), r, View())
    {
      if id !in books.tasks {
        return Err(TaskNotFound);
      }
      var task := books.tasks[id];
      if task.completed {
        return Err(TaskAlreadyCompleted);
      }
      if task.disputed {
        return Err(TaskDisputed);
      }
      if !(now - task.createdAt > ctl.staleThreshold) {
        return Err(TaskNotStale);
      }
      r := FinalizeTask(id, None, None);
    }

    // ---- Disputes and fees ------------------------------------------------

    method RaiseDispute(user: Address, id: U64) returns (r: Done)
      modifies this`books
      ensures Reaches(BeginRaiseDispute(host, old(View()), user, id), r, View())
    {
      if user == host.vault {
        return Err(AuthFailed);
      }
      if id !in books.tasks {
        return Err(TaskNotFound);
      }
      var task := books.tasks[id];
      if task.completed {
        return Err(TaskAlreadyCompleted);
      }
      if task.user != user {
        return Err(NotYourTask);
      }
      if task.disputed {
        return Err(TaskDisputed);
      }
      task := task.(disputed := true);
      books := books.(tasks := books.tasks[id := task]);
      books := books.(events := books.events + [Other]);
      return DONE;
    }

    method CommitResolution(resolver: Address, id: U64, refund: I128, payout: I128) returns (r: Done, task: Task)
      modifies this`books
      ensures Commits(BeginResolveDispute(host, old(View()), resolver, id, refund, payout), r, View(),
                      Due(task.asset, None, LineIfPositive(task.user, refund) + LineIfPositive(task.orchestrator, payout), Emit([Other])))
    {
      task := Task(0, 0, 0, 0, 0, false, false, None, 0);
      if resolver == host.vault {
        r := Err(AuthFailed);
        return;
      }
      if ctl.paused {
        r := Err(ContractPaused);
        return;
      }
      if id !in books.tasks {
        r := Err(TaskNotFound);
        return;
      }
      task := books.tasks[id];
      if task.completed {
        r := Err(TaskAlreadyCompleted);
        return;
      }
      if !task.disputed {
        r := Err(TaskNotDisputed);
        return;
      }
      if ctl.resolver.None? {
        r := Err(DisputeResolverNotSet);
        return;
      }
      if ctl.resolver.value != resolver {
        r := Err(NotDisputeResolver);
        return;
      }
      if refund < 0 || payout < 0 {
        r := Err(InvalidAmount);
        return;
      }
      if refund + payout > I128_MAX {
        r := Err(Aborted);
        return;
      }
      if refund + payout != task.planCost - task.spent {
        r := Err(DisputeSplitMismatch);
        return;
      }
      r := FinalizeTask(id, None, Some((refund as nat, payout as nat)));
    }

    /** The split is paid out: the refund to the user, then the payout to the orchestrator, whichever are positive. */
    method ResolveDispute(resolver: Address, id: U64, refund: I128, payout: I128, hooks: seq<Hook>) returns (r: Done)
      modifies this
      decreases hooks, 3
      ensures Outcome(After(host, BeginResolveDispute(host, old(View()), resolver, id, refund, payout), hooks), r, View())
    {
      var task;
      r, task := CommitResolution(resolver, id, refund, payout);
      if r.Err? {
        return;
      }
      r := PaySplit(task.asset, task.user, refund, task.orchestrator, payout, hooks);
    }

    method PaySplit(asset: Address, user: Address, refund: int, orchestrator: Address, payout: int, hooks: seq<Hook>) returns (r: Done)
      modifies this
      decreases hooks, 2
      ensures Outcome(Settle(host, old(View()), SplitDue(asset, user, refund, orchestrator, payout), hooks).r, r, View())
    {
      SplitSteps(host, View(), asset, user, refund, orchestrator, payout, hooks);
      var rest := hooks;
      if refund > 0 {
        r := Pay(asset, user, refund, hooks, None, 0, NoFee);
        if r.Err? {
          return;
        }
        rest := Rest(hooks);
      }
      r := PayRemainder(asset, orchestrator, payout, rest);
    }

    method PayRemainder(asset: Address, orchestrator: Address, payout: int, hooks: seq<Hook>) returns (r: Done)
      modifies this
      decreases hooks, 1
      ensures Outcome(Settle(host, old(View()), Due(asset, None, LineIfPositive(orchestrator, payout), Emit([Other])), hooks).r, r, View())
    {
      r := DONE;
      if payout > 0 {
        SettleOne(host, View(), Due(asset, None, [Fixed(orchestrator, payout, 0, NoFee)], Emit([Other])), hooks);
        r := Pay(asset, orchestrator, payout, hooks, None, 0, NoFee);
        if r.Err? {
          return;
        }
      }
      books := books.(events := books.events + [Other]);
    }

    /** The accrual is zeroed before the transfer. */
    method TakeFees(recipient: Address, asset: Address) returns (r: Done, accrued: int)
      modifies this`books
      ensures Commits(BeginClaimFees(host, old(View()), recipient, asset), r, View(),
                      Due(asset, None, [Fixed(recipient, accrued, 0, FeesTaken)], Emit([Other])))
      ensures r.Ok? ==> accrued == Fees(old(books), asset) != 0 && Fees(books, asset) == 0 && books == old(books).(fees := books.fees)
    {
      accrued := 0;
      if recipient == host.vault {
        r := Err(AuthFailed);
        return;
      }
      if ctl.paused {
        r := Err(ContractPaused);
        return;
      }
      if ctl.feeConfig.None? || ctl.feeConfig.value.recipient.None? || ctl.feeConfig.value.recipient.value != recipient {
        r := Err(Unauthorized);
        return;
      }
      accrued := FeeIn(books.fees, asset);
      if accrued == 0 {
        r := Err(NoFeesAccrued);
        return;
      }
      books := books.(fees := books.fees[asset := 0]);
      r := DONE;
    }

    method ClaimFees(recipient: Address, asset: Address, hooks: seq<Hook>) returns (r: Done)
      modifies this
      decreases hooks, 3
      ensures Outcome(After(host, BeginClaimFees(host, old(View()), recipient, asset), hooks), r, View())
    {
      var accrued;
      r, accrued := TakeFees(recipient, asset);
      if r.Err? {
        return;
      }
      r := PayLast(asset, None, recipient, accrued, 0, FeesTaken, [Other], hooks);
    }

    // ---- Commitments, rules and administration ----------------------------

    method SetPolicyCommitment(user: Address, commitment: Bytes32) returns (r: Done)
      modifies this`lanes
      ensures Reaches(BeginPin(host, old(View()), user, commitment), r, View())
    {
      if user == host.vault {
        return Err(AuthFailed);
      }
      if commitment == ZERO32 {
        return Err(InvalidCommitment);
      }
      var known := IsCommitmentPinned(user, commitment);
      if known {
        return DONE;
      }
      var pins := Pinned(lanes, user);
      if |pins| >= MAX_POLICY_COMMITMENTS {
        return Err(CommitmentSetFull);
      }
      pins := pins + [commitment];
      lanes := lanes.(pinned := lanes.pinned[user := pins]);
      return DONE;
    }

    method UnpinPolicyCommitment(user: Address, commitment: Bytes32) returns (r: Done)
      modifies this`lanes
      ensures Reaches(BeginUnpin(host, old(View()), user, commitment), r, View())
    {
      if user == host.vault {
        return Err(AuthFailed);
      }
      var pins := Pinned(lanes, user);
      var next: seq<Bytes32> := [];
      var found := false;
      for i := 0 to |pins|
        invariant next + Without(pins[i..], commitment) == Without(pins, commitment)
        invariant found <==> commitment in pins[..i]
      {
        if pins[i] == commitment {
          found := true;
        } else {
          next := next + [pins[i]];
        }
      }
      assert pins[..|pins|] == pins && next + [] == next;
      if !found {
        return Err(CommitmentNotPinned);
      }
      lanes := lanes.(pinned := lanes.pinned[user := next]);
      return DONE;
    }

    method SetGlobal(user: Address, lane: Lane, commitment: Bytes32) returns (r: Done)
      modifies this`lanes
      ensures Reaches(BeginSetGlobal(host, old(View()), user, lane, commitment), r, View())
    {
      if user == host.vault {
        return Err(AuthFailed);
      }
      if commitment == ZERO32 {
        return Err(InvalidCommitment);
      }
      lanes := lanes.(globals := lanes.globals[(user, lane) := commitment]);
      return DONE;
    }

    method ClearGlobal(user: Address, lane: Lane) returns (r: Done)
      modifies this`lanes
      ensures Reaches(BeginClearGlobal(host, old(View()), user, lane), r, View())
    {
      if user == host.vault {
        return Err(AuthFailed);
      }
      if (user, lane) in lanes.globals {
        lanes := lanes.(globals := lanes.globals - {(user, lane)});
      } else {
        assert lanes.globals - {(user, lane)} == lanes.globals;
      }
      return DONE;
    }

    method SetPublicRule(user: Address, ruleId: Bytes32, rule: R.PublicRule) returns (r: Done)
      modifies this`lanes
      ensures Reaches(BeginSetPublicRule(host, old(View()), user, ruleId, rule), r, View())
    {
      if user == host.vault {
        return Err(AuthFailed);
      }
      if rule.perPaymentMax < 0 || rule.perPaymentMin < 0 || rule.rollingCap < 0 || rule.denylistThreshold < 0 {
        return Err(InvalidPublicParams);
      }
      if |rule.allowlist| > MAX_SESSION_ALLOWLIST || |rule.denylist| > MAX_SESSION_ALLOWLIST {
        return Err(InvalidPublicParams);
      }
      lanes := lanes.(rules := lanes.rules[(user, ruleId) := rule]);
      return DONE;
    }

    method ClearPublicRule(user: Address, ruleId: Bytes32) returns (r: Done)
      modifies this`lanes
      ensures Reaches(BeginClearPublicRule(host, old(View()), user, ruleId), r, View())
    {
      if user == host.vault {
        return Err(AuthFailed);
      }
      if (user, ruleId) in lanes.rules {
        lanes := lanes.(rules := lanes.rules - {(user, ruleId)});
        if user in lanes.globalPublic && lanes.globalPublic[user] == ruleId {
          lanes := lanes.(globalPublic := lanes.globalPublic - {user});
        }
      }
      return DONE;
    }

    method SetGlobalPublic(user: Address, ruleId: Bytes32) returns (r: Done)
      modifies this`lanes
      ensures Reaches(BeginSetGlobalPublic(host, old(View()), user, ruleId), r, View())
    {
      if user == host.vault {
        return Err(AuthFailed);
      }
      if (user, ruleId) !in lanes.rules {
        return Err(PublicRuleNotFound);
      }
      lanes := lanes.(globalPublic := lanes.globalPublic[user := ruleId]);
      return DONE;
    }

    method ClearGlobalPublic(user: Address) returns (r: Done)
      modifies this`lanes
      ensures Reaches(BeginClearGlobalPublic(host, old(View()), user), r, View())
    {
      if user == host.vault {
        return Err(AuthFailed);
      }
      if user in lanes.globalPublic {
        lanes := lanes.(globalPublic := lanes.globalPublic - {user});
      } else {
        assert lanes.globalPublic - {user} == lanes.globalPublic;
      }
      return DONE;
    }

    method Administer(admin: Address, action: AdminAction) returns (r: Done)
      modifies this`ctl
      ensures Reaches(BeginAdminister(host, old(View()), admin, action), r, View())
    {
      if admin == host.vault {
        return Err(AuthFailed);
      }
      if admin != ctl.admin {
        return Err(Unauthorized);
      }
      match action {
        case Pause => ctl := ctl.(paused := true);
        case Unpause => ctl := ctl.(paused := false);
        case AddAsset(asset) => ctl := ctl.(supported := ctl.supported + {asset});
        case RemoveAsset(asset, force) =>
          if !force {
            return Err(Aborted);
          }
          ctl := ctl.(supported := ctl.supported - {asset});
        case SetFee(bps, recipient) =>
          if bps > MAX_FEE_BPS {
            return Err(FeeBpsExceedsCap);
          }
          ctl := ctl.(feeConfig := Some(FeeConfig(bps, recipient)));
        case SetDisputeResolver(resolver) => ctl := ctl.(resolver := Some(resolver));
        case SetPolicyVerifier(verifier) => ctl := ctl.(verifier := Some(verifier));
        case SetStaleThreshold(seconds) =>
          if seconds < 60 {
            return Err(InvalidAmount);
          }
          ctl := ctl.(staleThreshold := seconds);
        case SetMaxActiveTasks(max) =>
          if max < 1 {
            return Err(InvalidAmount);
          }
          ctl := ctl.(maxActiveTasks := max);
        case UpdateAdmin(newAdmin) => ctl := ctl.(admin := newAdmin);
      }
      return DONE;
    }

    // ---- The token contract used directly ---------------------------------

    method Receive(to: Address, asset: Address, amount: nat)
      modifies this`books
      ensures books == Received(host, old(books), to, asset, amount)
    {
      if to == host.vault {
        books := books.(journal := books.journal + [Gift(asset, amount)]);
      }
    }

    method TokenMint(to: Address, asset: Address, amount: nat) returns (r: Done)
      modifies this`books
      ensures Reaches(BeginMint(host, old(View()), to, asset, amount), r, View())
    {
      books := books.(tokens := books.tokens[(to, asset) := Held(books.tokens, to, asset) + amount]);
      Receive(to, asset, amount);
      return DONE;
    }

    method TokenTransfer(from: Address, to: Address, asset: Address, amount: nat) returns (r: Done)
      modifies this`books
      ensures Reaches(BeginTransfer(host, old(View()), from, to, asset, amount), r, View())
    {
      if from == host.vault {
        return Err(AuthFailed);
      }
      if Held(books.tokens, from, asset) < amount {
        return Err(Aborted);
      }
      MoveTokens(from, to, asset, amount);
      Receive(to, asset, amount);
      return DONE;
    }

    // ---- The host: one call, reverted as a whole when it fails ------------

    /** Entry points that hand out no tokens. */
    method CallQuietly(op: Op) returns (r: Done)
      requires MovesNothing(op)
      modifies this
      ensures Reaches(Begin(host, old(View()), op), r, View())
    {
      if SetsUp(op) {
        r := CallSetup(op);
      } else {
        r := CallTask(op);
      }
    }

    method CallTask(op: Op) returns (r: Done)
      requires MovesNothing(op) && !SetsUp(op)
      modifies this
      ensures Reaches(Begin(host, old(View()), op), r, View())
    {
      match op {
        case CreateTask(orch, asset, planCost) => r := CreateTask(orch, asset, planCost);
        case CreateTaskWithPolicy(orch, asset, planCost, c) => r := CreateTaskWithPolicy(orch, asset, planCost, c);
        case CompleteTask(orch, id) => r := CompleteTask(orch, id);
        case CancelTask(user, id) => r := CancelTask(user, id);
        case ForceComplete(id) => r := ForceCompleteStaleTask(id);
        case RaiseDispute(user, id) => r := RaiseDispute(user, id);
        case TokenMint(to, asset, amount) => r := TokenMint(to, asset, amount);
        case TokenTransfer(from, to, asset, amount) => r := TokenTransfer(from, to, asset, amount);
      }
    }

    method CallSetup(op: Op) returns (r: Done)
      requires SetsUp(op)
      modifies this
      ensures Reaches(Begin(host, old(View()), op), r, View())
    {
      match op {
        case RegisterSession(user, session, asset, expiry, cap, rid, server) =>
          r := RegisterSession(user, session, asset, expiry, cap, rid, server);
        case SetSessionPaused(user, session, paused) => r := SetSessionPaused(user, session, paused);
        case UpdateSession(user, session, expiry, cap) => r := UpdateSession(user, session, expiry, cap);
        case RevokeSession(user, session) => r := RevokeSession(user, session);
        case RegisterOrchestrator(user, orch) => r := RegisterOrchestrator(user, orch);
        case UpdateOrchestrator(user, orch) => r := UpdateOrchestrator(user, orch);
        case PinCommitment(user, c) => r := SetPolicyCommitment(user, c);
        case UnpinCommitment(user, c) => r := UnpinPolicyCommitment(user, c);
        case SetGlobal(user, lane, c) => r := SetGlobal(user, lane, c);
        case ClearGlobal(user, lane) => r := ClearGlobal(user, lane);
        case SetPublicRule(user, rid, rule) => r := SetPublicRule(user, rid, rule);
        case ClearPublicRule(user, rid) => r := ClearPublicRule(user, rid);
        case SetGlobalPublic(user, rid) => r := SetGlobalPublic(user, rid);
        case ClearGlobalPublic(user) => r := ClearGlobalPublic(user);
        case Administer(admin, action) => r := Administer(admin, action);
      }
    }

    method CallPaying(op: Op, hooks: seq<Hook>) returns (r: Done)
      requires !MovesNothing(op)
      modifies this
      decreases hooks, 4
      ensures Outcome(After(host, Begin(host, old(View()), op), hooks), r, View())
    {
      match op {
        case Deposit(user, asset, amount) => r := Deposit(user, asset, amount, hooks);
        case Withdraw(user, asset, amount) => r := Withdraw(user, asset, amount, hooks);
        case ReleaseSession(session, payee, amount, rid) => r := ReleaseSession(session, payee, amount, rid, hooks);
        case ReleasePayment(orch, id, step, asset, amount) => r := ReleasePayment(orch, id, step, asset, amount, hooks);
        case ReleaseProved(orch, id, step, asset, amount, payee, n, proof) =>
          r := ReleaseProved(orch, id, step, asset, amount, payee, n, proof, hooks);
        case ReleaseBatch(orch, id, step, asset, q, proof) => r := ReleaseBatch(orch, id, step, asset, q, proof, hooks);
        case ReleaseKeyless(user, asset, c, q, proof, global) => r := ReleaseKeyless(user, asset, c, q, proof, global, hooks);
        case ResolveDispute(resolver, id, refund, payout) => r := ResolveDispute(resolver, id, refund, payout, hooks);
        case ClaimFees(recipient, asset) => r := ClaimFees(recipient, asset, hooks);
      }
    }

    method Dispatch(c: Call) returns (ok: bool)
      modifies this
      decreases c
      ensures ok == Exec(host, old(View()), c).r.Ok?
      ensures View() == if ok then Exec(host, old(View()), c).r.value else old(View())
    {
      var saved := View();
      var r;
      ExecIsAfter(host, saved, c.op, c.hooks);
      notes := notes + [Note(c.op, now)];
      if MovesNothing(c.op) {
        r := CallQuietly(c.op);
        ReachesOutcome(host, Noted(saved, c.op), c.op, c.hooks, r, View());
      } else {
        r := CallPaying(c.op, c.hooks);
      }
      ok := r.Ok?;
      if !ok {
        books, lanes, ctl, now, ledger, notes := saved.books, saved.lanes, saved.ctl, saved.now, saved.ledger, saved.notes;
      }
    }
  }
}
