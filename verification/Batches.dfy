/**
 * A keyless batch is its lines: settling m releases under one proof leaves the
 * account, the fees, every receipt, the nullifiers and the accumulator exactly
 * as m one-line releases in order would, the reset flags on the first only.
 */
module Batches {
  import opened Base
  import opened Bytes
  import opened VaultState
  import opened BookKeeping
  import opened Vault
  import opened Execution
  import opened EntryPoints
  import U = UserExit
  import N = Nullifiers
  import P = Permits
  import S = Signals

  type Fees = map<Address, int>
  type Tokens = map<(Address, Address), int>

  /** The part of the state a keyless spend changes, apart from the histories. */
  datatype Core = Core(account: Account, fees: Fees, tokens: Tokens, nullifiers: map<Bytes32, nat>, accum: S.Accumulator)

  function CoreOf(s: State, user: Address, asset: Address, c: Bytes32): Core {
    Core(AccountIn(s.books.accounts, user, asset), s.books.fees, s.books.tokens, s.lanes.nullifiers, AccumOf(s.lanes, c))
  }

  // ---- Paying lines -------------------------------------------------------

  datatype Purse = Purse(fees: Fees, tokens: Tokens)

  function AccrueIn(fees: Fees, ctl: Control, asset: Address, fee: int): Result<Fees, Error> {
    if fee > 0 && ctl.feeConfig.Some? && ctl.feeConfig.value.recipient.Some? then
      :- Fits(FeeIn(fees, asset) + fee);
      Ok(fees[asset := FeeIn(fees, asset) + fee])
    else Ok(fees)
  }

  function MoveIn(tokens: Tokens, from: Address, to: Address, asset: Address, amount: int): Tokens {
    if from == to then tokens
    else
      var t1 := tokens[(from, asset) := Held(tokens, from, asset) - amount];
      t1[(to, asset) := Held(t1, to, asset) + amount]
  }

  /** One release: its fee is kept, the rest is moved. */
  function PayLine(vault: Address, ctl: Control, purse: Purse, asset: Address, to: Address, gross: int): Result<Purse, Error> {
    var fee :- ComputeFee(ctl, gross);
    var fees :- AccrueIn(purse.fees, ctl, asset, fee);
    :- Need(0 <= gross - fee <= Held(purse.tokens, vault, asset), Aborted);
    Ok(Purse(fees, MoveIn(purse.tokens, vault, to, asset, gross - fee)))
  }

  function PayLines(vault: Address, ctl: Control, purse: Purse, asset: Address, payees: seq<Address>, amounts: seq<I128>)
    : Result<Purse, Error>
    requires |payees| == |amounts|
    decreases |payees|
  {
    if payees == [] then Ok(purse)
    else
      var p :- PayLine(vault, ctl, purse, asset, payees[0], amounts[0]);
      PayLines(vault, ctl, p, asset, payees[1..], amounts[1..])
  }

  function PurseOf(b: Books): Purse {
    Purse(b.fees, b.tokens)
  }

  /** Settling one taxed line without interference. */
  function AfterLine(h: Host, s: State, due: Due): Result<State, Error>
    requires due.lines != [] && due.lines[0].Taxed?
  {
    var (s1, due1) :- Tax(s, due);
    Transfer(h, s1, due1)
  }

  /** `s1` differs from `s` at most in fees, tokens and the histories of the books, and holds this purse. */
  predicate Paid(s: State, s1: State, purse: Purse) {
    s1.books.fees == purse.fees && s1.books.tokens == purse.tokens
    && s1 == s.(books := s.books.(fees := purse.fees, tokens := purse.tokens, journal := s1.books.journal,
                                  events := s1.books.events))
  }

  lemma TaxIsAccrue(s: State, due: Due)
    requires due.lines != [] && due.lines[0].Taxed?
    ensures var gross := due.lines[0].gross; var fee := ComputeFee(s.ctl, gross);
      && (Tax(s, due).Ok? <==> fee.Ok? && AccrueIn(s.books.fees, s.ctl, due.asset, fee.value).Ok?)
      && (Tax(s, due).Ok? ==>
            var fees := AccrueIn(s.books.fees, s.ctl, due.asset, fee.value).value;
            Tax(s, due).value == (s.(books := s.books.(fees := fees)),
                                  due.(lines := [Fixed(due.lines[0].to, gross - fee.value, fee.value, InTurn(s.ctl.feeConfig))] + due.lines[1..])))
  {
  }

  lemma TransferIsMove(h: Host, s: State, due: Due)
    requires due.lines != [] && due.lines[0].Fixed?
    ensures var line := due.lines[0];
      && (Transfer(h, s, due).Ok? <==> 0 <= line.net <= Held(s.books.tokens, h.vault, due.asset))
      && (Transfer(h, s, due).Ok? ==>
            Paid(s, Transfer(h, s, due).value,
                 Purse(s.books.fees, MoveIn(s.books.tokens, h.vault, line.to, due.asset, line.net))))
  {
    var line := due.lines[0];
    assert Move(s.books, h.vault, line.to, due.asset, line.net).tokens
        == MoveIn(s.books.tokens, h.vault, line.to, due.asset, line.net);
  }

  lemma LineSettles(h: Host, s: State, due: Due)
    requires due.lines != [] && due.lines[0].Taxed?
    ensures var r := AfterLine(h, s, due);
      var q := PayLine(h.vault, s.ctl, PurseOf(s.books), due.asset, due.lines[0].to, due.lines[0].gross);
      && (r.Ok? <==> q.Ok?)
      && (r.Ok? ==> Paid(s, r.value, q.value))
  {
    TaxIsAccrue(s, due);
    if Tax(s, due).Ok? {
      TransferIsMove(h, Tax(s, due).value.0, Tax(s, due).value.1);
    }
  }

  lemma SettleStep(h: Host, s: State, due: Due)
    requires due.lines != [] && due.lines[0].Taxed?
    ensures var r := AfterLine(h, s, due);
      if r.Err? then Settle(h, s, due, []).r.Err? else Settle(h, s, due, []).r == Settle(h, r.value, RestOf(due), []).r
  {
    if Tax(s, due).Ok? {
      var due1 := Tax(s, due).value.1;
      assert RestOf(due1) == RestOf(due);
    }
  }

  /** Without re-entry, settling a batch is paying its lines in order. */
  lemma {:induction false} LinesSettle(h: Host, s: State, due: Due, payees: seq<Address>, amounts: seq<I128>)
    requires |payees| == |amounts| && due.lines == TaxedLines(payees, amounts) && due.fin.Emit?
    ensures var r := Settle(h, s, due, []).r;
      var q := PayLines(h.vault, s.ctl, PurseOf(s.books), due.asset, payees, amounts);
      && (r.Ok? <==> q.Ok?)
      && (r.Ok? ==> Paid(s, r.value, q.value))
    decreases |payees|
  {
    if payees != [] {
      LineSettles(h, s, due);
      SettleStep(h, s, due);
      var r := AfterLine(h, s, due);
      if r.Ok? {
        assert RestOf(due).lines == TaxedLines(payees[1..], amounts[1..]);
        LinesSettle(h, r.value, RestOf(due), payees[1..], amounts[1..]);
      }
    }
  }

  // ---- The core of a keyless spend ---------------------------------------

  function Mark(nullifiers: map<Bytes32, nat>, ns: seq<Bytes32>, ledger: nat): map<Bytes32, nat> {
    nullifiers + (map n | n in ns :: ledger)
  }

  /** The checks that concern the core: the free balance, the markers, and the width of the account's total. */
  predicate SpendAllowed(core: Core, q: S.Batch)
    requires S.WellFormed(q)
  {
    && S.BatchSum(q) <= core.account.balance - core.account.locked
    && FreshFrom(core.nullifiers, q.nullifiers, 0).Pass?
    && core.account.totalSpent + S.BatchSum(q) <= I128_MAX
  }

  function PayBatch(vault: Address, ctl: Control, core: Core, asset: Address, q: S.Batch): Result<Purse, Error>
    requires S.WellFormed(q)
  {
    PayLines(vault, ctl, Purse(core.fees, core.tokens), asset, q.payees, q.amounts)
  }

  function RollBatch(accum: S.Accumulator, q: S.Batch): S.Accumulator
    requires S.WellFormed(q) && S.BatchSum(q) <= I128_MAX
  {
    S.Roll(accum, S.BatchSum(q), |q.payees|, q.resetR2, q.resetR7, q.validAfter)
  }

  /** The core after a spend, if it goes through. */
  function SpendCore(vault: Address, ctl: Control, core: Core, asset: Address, q: S.Batch, ledger: nat): Option<Core>
    requires S.WellFormed(q) && S.BatchSum(q) <= I128_MAX
  {
    var purse := PayBatch(vault, ctl, core, asset, q);
    if SpendAllowed(core, q) && purse.Ok? then
      Some(Moved(core, S.BatchSum(q), purse.value, Mark(core.nullifiers, q.nullifiers, ledger), RollBatch(core.accum, q)))
    else None
  }

  /** A core after its account, purse, markers and accumulator have moved. */
  function Moved(core: Core, total: nat, purse: Purse, marks: map<Bytes32, nat>, accum: S.Accumulator): Core {
    var acc := core.account;
    Core(acc.(balance := acc.balance - total, totalSpent := acc.totalSpent + total), purse.fees, purse.tokens, marks, accum)
  }

  /** What a keyless spend checks that does not concern the core, but for the verifier. */
  predicate Admitted(s: State, user: Address, asset: Address, c: Bytes32, q: S.Batch) {
    && !s.ctl.paused && BatchShape(q).Pass? && InWindow(s, q).Pass? && BatchTotal(q.amounts).Ok?
    && c in Pinned(s.lanes, user) && s.ctl.verifier.Some? && (user, asset) in s.books.accounts
    && (user, Private) !in s.lanes.globals
  }

  predicate Accepted(h: Host, s: State, c: Bytes32, q: S.Batch, acc: S.Accumulator, proof: Proof)
    requires S.WellFormed(q) && s.ctl.verifier.Some?
  {
    h.verifyGroth16(s.ctl.verifier.value, proof, S.PublicSignals(h.addressHash, c, q, acc))
  }

  function Keyless(user: Address, asset: Address, c: Bytes32, q: S.Batch, proof: Proof): Call {
    Call(ReleaseKeyless(user, asset, c, q, proof, None), [])
  }

  /** What a spend does not touch. */
  predicate SameSurroundings(s: State, s1: State) {
    && s1.ctl == s.ctl && s1.now == s.now && s1.ledger == s.ledger
    && s1.lanes.pinned == s.lanes.pinned && s1.lanes.globals == s.lanes.globals
    && s1.books.accounts.Keys == s.books.accounts.Keys
  }

  lemma AdmittedShape(s: State, user: Address, asset: Address, c: Bytes32, q: S.Batch)
    requires Admitted(s, user, asset, c, q)
    ensures S.WellFormed(q) && S.BatchSum(q) <= I128_MAX
  {
  }

  /** The first half: checks and effects before any transfer. */
  lemma KeylessBegins(h: Host, s: State, user: Address, asset: Address, c: Bytes32, q: S.Batch, proof: Proof)
    requires Admitted(s, user, asset, c, q) && S.WellFormed(q) && S.BatchSum(q) <= I128_MAX
    ensures var r := BeginReleaseKeyless(h, s, user, asset, c, q, proof, None);
      && (r.Ok? <==> SpendAllowed(CoreOf(s, user, asset, c), q) && Accepted(h, s, c, q, AccumOf(s.lanes, c), proof))
      && (r.Ok? ==> r.value.due == KeylessDue(asset, q) && Prepared(s, r.value.s, user, asset, c, q))
  {
  }

  function KeylessDue(asset: Address, q: S.Batch): Due
    requires S.WellFormed(q)
  {
    Due(asset, None, TaxedLines(q.payees, q.amounts), Emit([Other]))
  }

  predicate Prepared(s: State, s1: State, user: Address, asset: Address, c: Bytes32, q: S.Batch)
    requires S.WellFormed(q) && S.BatchSum(q) <= I128_MAX && (user, asset) in s.books.accounts
  {
    && s1.books == SpendDirect(s.books, user, asset, S.BatchSum(q))
    && s1 == s.(books := s1.books, lanes := s1.lanes)
    && s1.lanes == s.lanes.(nullifiers := Mark(s.lanes.nullifiers, q.nullifiers, s.ledger),
         accums := s.lanes.accums[c := S.Roll(AccumOf(s.lanes, c), S.BatchSum(q), |q.payees|, q.resetR2, q.resetR7, q.validAfter)],
         log := s1.lanes.log)
  }

  lemma PreparedSettles(h: Host, s: State, s1: State, user: Address, asset: Address, c: Bytes32, q: S.Batch)
    requires S.WellFormed(q) && S.BatchSum(q) <= I128_MAX && (user, asset) in s.books.accounts
    requires Prepared(s, s1, user, asset, c, q)
    ensures var r := Settle(h, s1, KeylessDue(asset, q), []).r;
      var core := CoreOf(s, user, asset, c);
      var purse := PayBatch(h.vault, s.ctl, core, asset, q);
      && (r.Ok? <==> purse.Ok?)
      && (r.Ok? ==>
            && CoreOf(r.value, user, asset, c) ==
                 Moved(core, S.BatchSum(q), purse.value, Mark(core.nullifiers, q.nullifiers, s.ledger), RollBatch(core.accum, q))
            && SameSurroundings(s, r.value))
  {
    LinesSettle(h, s1, KeylessDue(asset, q), q.payees, q.amounts);
    var r := Settle(h, s1, KeylessDue(asset, q), []).r;
    if r.Ok? {
      PaidCore(s, s1, r.value, user, asset, c, q, PayBatch(h.vault, s.ctl, CoreOf(s, user, asset, c), asset, q).value);
    }
  }

  lemma PaidCore(s: State, s1: State, s2: State, user: Address, asset: Address, c: Bytes32, q: S.Batch, purse: Purse)
    requires S.WellFormed(q) && S.BatchSum(q) <= I128_MAX && (user, asset) in s.books.accounts
    requires Prepared(s, s1, user, asset, c, q) && Paid(s1, s2, purse)
    ensures var core := CoreOf(s, user, asset, c);
      CoreOf(s2, user, asset, c) ==
        Moved(core, S.BatchSum(q), purse, Mark(core.nullifiers, q.nullifiers, s.ledger), RollBatch(core.accum, q))
    ensures SameSurroundings(s, s2)
  {
  }

  /** What a spend has to come to, given its core. */
  predicate IsCore(h: Host, s: State, r: Result<State, Error>, user: Address, asset: Address, c: Bytes32, x: Option<Core>,
                   accepted: bool)
  {
    && (r.Ok? <==> x.Some? && accepted)
    && (r.Ok? ==> CoreOf(r.value, user, asset, c) == x.value && SameSurroundings(s, r.value))
  }

  /** A keyless spend without re-entry is its core, given that the verifier accepts it. */
  lemma KeylessIsCore(h: Host, s: State, user: Address, asset: Address, c: Bytes32, q: S.Batch, proof: Proof)
    requires Admitted(s, user, asset, c, q) && S.WellFormed(q) && S.BatchSum(q) <= I128_MAX
    ensures IsCore(h, s, Exec(h, s, Keyless(user, asset, c, q, proof)).r, user, asset, c,
                   SpendCore(h.vault, s.ctl, CoreOf(s, user, asset, c), asset, q, s.ledger),
                   Accepted(h, s, c, q, AccumOf(s.lanes, c), proof))
  {
    var call := Keyless(user, asset, c, q, proof);
    var s0 := Noted(s, call.op);
    var b := BeginReleaseKeyless(h, s0, user, asset, c, q, proof, None);
    ExecOfBegin(h, s, call, b);
    NoteBeside(h, s, s0, user, asset, c, q, proof);
    BegunIsCore(h, s0, user, asset, c, q, proof, if b.Ok? then Settle(h, b.value.s, b.value.due, []).r else Err(b.error));
  }

  /** The history of calls is none of a spend's business. */
  lemma NoteBeside(h: Host, s: State, s0: State, user: Address, asset: Address, c: Bytes32, q: S.Batch, proof: Proof)
    requires Admitted(s, user, asset, c, q) && S.WellFormed(q) && s0 == s.(notes := s0.notes)
    ensures Admitted(s0, user, asset, c, q) && CoreOf(s0, user, asset, c) == CoreOf(s, user, asset, c)
    ensures Accepted(h, s0, c, q, AccumOf(s0.lanes, c), proof) == Accepted(h, s, c, q, AccumOf(s.lanes, c), proof)
  {
  }

  lemma BegunIsCore(h: Host, s: State, user: Address, asset: Address, c: Bytes32, q: S.Batch, proof: Proof, r: Result<State, Error>)
    requires Admitted(s, user, asset, c, q) && S.WellFormed(q) && S.BatchSum(q) <= I128_MAX
    requires var b := BeginReleaseKeyless(h, s, user, asset, c, q, proof, None);
      r == if b.Ok? then Settle(h, b.value.s, b.value.due, []).r else Err(b.error)
    ensures IsCore(h, s, r, user, asset, c, SpendCore(h.vault, s.ctl, CoreOf(s, user, asset, c), asset, q, s.ledger),
                   Accepted(h, s, c, q, AccumOf(s.lanes, c), proof))
  {
    KeylessBegins(h, s, user, asset, c, q, proof);
    var b := BeginReleaseKeyless(h, s, user, asset, c, q, proof, None);
    if b.Ok? {
      PreparedSettles(h, s, b.value.s, user, asset, c, q);
    }
  }

  lemma ExecOfBegin(h: Host, s: State, call: Call, b: Result<Pending, Error>)
    requires call.hooks == [] && b == Begin(h, Noted(s, call.op), call.op)
    ensures Exec(h, s, call).r == if b.Ok? then Settle(h, b.value.s, b.value.due, []).r else Err(b.error)
  {
  }

  // ---- One line at a time -------------------------------------------------

  function Head(q: S.Batch): S.Batch
    requires S.WellFormed(q)
  {
    q.(payees := q.payees[..1], amounts := q.amounts[..1], nullifiers := q.nullifiers[..1])
  }

  /** The other lines: the flags were spent on the first. */
  function Tail(q: S.Batch): S.Batch
    requires S.WellFormed(q)
  {
    q.(payees := q.payees[1..], amounts := q.amounts[1..], nullifiers := q.nullifiers[1..], resetR2 := false, resetR7 := false)
  }

  lemma {:induction false} SumFromFront(amounts: seq<I128>)
    requires amounts != []
    ensures S.SumAmounts(amounts) == amounts[0] + S.SumAmounts(amounts[1..])
  {
    var n := |amounts| - 1;
    if n > 0 {
      SumFromFront(amounts[..n]);
      assert amounts[..n][1..] == amounts[1..][..n - 1];
    } else {
      assert amounts[..0] == [] && amounts[1..] == [];
    }
  }

  lemma HeadSum(q: S.Batch)
    requires S.WellFormed(q)
    ensures S.WellFormed(Head(q)) && S.BatchSum(Head(q)) == q.amounts[0]
    ensures |q.payees| > 1 ==> S.WellFormed(Tail(q)) && S.BatchSum(q) == q.amounts[0] + S.BatchSum(Tail(q))
  {
    SumFromFront(q.amounts);
    assert q.amounts[..1] == [q.amounts[0]];
    assert [q.amounts[0]][..0] == [];
    assert S.SumAmounts([q.amounts[0]]) == q.amounts[0];
  }

  lemma RollSplit(acc: S.Accumulator, x: nat, y: nat, m: nat, resetR2: bool, resetR7: bool, validAfter: U64)
    requires x + y <= I128_MAX && m + 1 <= S.BATCH_N
    ensures S.Roll(S.Roll(acc, x, 1, resetR2, resetR7, validAfter), y, m, false, false, validAfter)
         == S.Roll(acc, x + y, m + 1, resetR2, resetR7, validAfter)
  {
  }

  lemma MarkSplit(nullifiers: map<Bytes32, nat>, ns: seq<Bytes32>, ledger: nat)
    requires ns != []
    ensures Mark(Mark(nullifiers, ns[..1], ledger), ns[1..], ledger) == Mark(nullifiers, ns, ledger)
  {
    assert ns == ns[..1] + ns[1..];
  }

  lemma FreshSplit(used: map<Bytes32, nat>, ns: seq<Bytes32>, ledger: nat)
    requires ns != [] && FreshFrom(used, ns, 0).Pass?
    ensures FreshFrom(used, ns[..1], 0).Pass? && FreshFrom(Mark(used, ns[..1], ledger), ns[1..], 0).Pass?
  {
    N.FreshDistinct(used, ns);
    P.FreshExactFrom(used, ns[..1], 0);
    P.FreshExactFrom(Mark(used, ns[..1], ledger), ns[1..], 0);
  }

  lemma PayLinesSplit(vault: Address, ctl: Control, purse: Purse, asset: Address, payees: seq<Address>, amounts: seq<I128>)
    requires |payees| == |amounts| >= 1 && PayLines(vault, ctl, purse, asset, payees, amounts).Ok?
    ensures var p := PayLines(vault, ctl, purse, asset, payees[..1], amounts[..1]);
      && p.Ok?
      && PayLines(vault, ctl, p.value, asset, payees[1..], amounts[1..]) == PayLines(vault, ctl, purse, asset, payees, amounts)
  {
    assert payees[..1][1..] == [] && amounts[..1][1..] == [];
  }

  lemma AllowedSplit(core: Core, q: S.Batch, ledger: nat)
    requires S.WellFormed(q) && S.BatchSum(q) <= I128_MAX && |q.payees| > 1 && SpendAllowed(core, q)
    ensures S.WellFormed(Head(q)) && S.WellFormed(Tail(q))
    ensures S.BatchSum(Head(q)) == q.amounts[0] && q.amounts[0] + S.BatchSum(Tail(q)) == S.BatchSum(q)
    ensures SpendAllowed(core, Head(q))
  {
    HeadSum(q);
    FreshSplit(core.nullifiers, q.nullifiers, ledger);
  }

  /** Spending a batch is spending its first line, then the others. */
  lemma CoreSplit(vault: Address, ctl: Control, core: Core, asset: Address, q: S.Batch, ledger: nat)
    requires S.WellFormed(q) && S.BatchSum(q) <= I128_MAX && |q.payees| > 1
    requires SpendCore(vault, ctl, core, asset, q, ledger).Some?
    ensures S.WellFormed(Head(q)) && S.WellFormed(Tail(q))
    ensures S.BatchSum(Head(q)) <= I128_MAX && S.BatchSum(Tail(q)) <= I128_MAX
    ensures var x := SpendCore(vault, ctl, core, asset, Head(q), ledger);
      x.Some? && SpendCore(vault, ctl, x.value, asset, Tail(q), ledger) == SpendCore(vault, ctl, core, asset, q, ledger)
  {
    AllowedSplit(core, q, ledger);
    assert PayBatch(vault, ctl, core, asset, Head(q)).Ok? by {
      PayLinesSplit(vault, ctl, Purse(core.fees, core.tokens), asset, q.payees, q.amounts);
    }
    var core1 := SpendCore(vault, ctl, core, asset, Head(q), ledger).value;
    TailFollows(vault, ctl, core, core1, asset, q, ledger);
  }

  lemma TailAllowed(core: Core, core1: Core, q: S.Batch, ledger: nat)
    requires S.WellFormed(q) && |q.payees| > 1 && S.WellFormed(Tail(q)) && SpendAllowed(core, q)
    requires q.amounts[0] + S.BatchSum(Tail(q)) == S.BatchSum(q)
    requires core1.account == core.account.(balance := core.account.balance - q.amounts[0],
                                            totalSpent := core.account.totalSpent + q.amounts[0])
    requires core1.nullifiers == Mark(core.nullifiers, q.nullifiers[..1], ledger)
    ensures SpendAllowed(core1, Tail(q))
  {
    FreshSplit(core.nullifiers, q.nullifiers, ledger);
  }

  lemma TailParts(vault: Address, ctl: Control, core: Core, core1: Core, asset: Address, q: S.Batch, ledger: nat)
    requires S.WellFormed(q) && S.BatchSum(q) <= I128_MAX && |q.payees| > 1
    requires S.WellFormed(Head(q)) && S.WellFormed(Tail(q)) && S.BatchSum(Head(q)) == q.amounts[0]
    requires q.amounts[0] + S.BatchSum(Tail(q)) == S.BatchSum(q) && SpendAllowed(core, q)
    requires PayBatch(vault, ctl, core, asset, q).Ok? && PayBatch(vault, ctl, core, asset, Head(q)).Ok?
    requires core1 == Moved(core, q.amounts[0], PayBatch(vault, ctl, core, asset, Head(q)).value,
                            Mark(core.nullifiers, q.nullifiers[..1], ledger), RollBatch(core.accum, Head(q)))
    ensures SpendAllowed(core1, Tail(q)) && PayBatch(vault, ctl, core1, asset, Tail(q)) == PayBatch(vault, ctl, core, asset, q)
    ensures Mark(core1.nullifiers, Tail(q).nullifiers, ledger) == Mark(core.nullifiers, q.nullifiers, ledger)
    ensures RollBatch(core1.accum, Tail(q)) == RollBatch(core.accum, q)
  {
    TailAllowed(core, core1, q, ledger);
    TailPays(vault, ctl, core, core1, asset, q);
    TailMarks(core, core1, q, ledger);
    TailRolls(core, core1, q);
  }

  lemma TailFollows(vault: Address, ctl: Control, core: Core, core1: Core, asset: Address, q: S.Batch, ledger: nat)
    requires S.WellFormed(q) && S.BatchSum(q) <= I128_MAX && |q.payees| > 1
    requires S.WellFormed(Head(q)) && S.WellFormed(Tail(q)) && S.BatchSum(Head(q)) == q.amounts[0]
    requires q.amounts[0] + S.BatchSum(Tail(q)) == S.BatchSum(q) && SpendAllowed(core, q)
    requires PayBatch(vault, ctl, core, asset, q).Ok? && PayBatch(vault, ctl, core, asset, Head(q)).Ok?
    requires core1 == Moved(core, q.amounts[0], PayBatch(vault, ctl, core, asset, Head(q)).value,
                            Mark(core.nullifiers, q.nullifiers[..1], ledger), RollBatch(core.accum, Head(q)))
    ensures SpendCore(vault, ctl, core1, asset, Tail(q), ledger) == SpendCore(vault, ctl, core, asset, q, ledger)
  {
    TailParts(vault, ctl, core, core1, asset, q, ledger);
    SameCore(vault, ctl, core, core1, asset, q, Tail(q), ledger, q.amounts[0]);
  }

  /** Spending `x` and then `t` ends where spending `q` does, if the parts agree. */
  lemma SameCore(vault: Address, ctl: Control, core: Core, core1: Core, asset: Address, q: S.Batch, t: S.Batch, ledger: nat, x: nat)
    requires S.WellFormed(q) && S.WellFormed(t) && 0 <= S.BatchSum(t) && x + S.BatchSum(t) == S.BatchSum(q) <= I128_MAX
    requires SpendAllowed(core, q) && SpendAllowed(core1, t)
    requires PayBatch(vault, ctl, core, asset, q).Ok? && PayBatch(vault, ctl, core1, asset, t) == PayBatch(vault, ctl, core, asset, q)
    requires Mark(core1.nullifiers, t.nullifiers, ledger) == Mark(core.nullifiers, q.nullifiers, ledger)
    requires RollBatch(core1.accum, t) == RollBatch(core.accum, q)
    requires core1.account == core.account.(balance := core.account.balance - x, totalSpent := core.account.totalSpent + x)
    ensures SpendCore(vault, ctl, core1, asset, t, ledger) == SpendCore(vault, ctl, core, asset, q, ledger)
  {
    SpentTwice(core, core1, x, S.BatchSum(t), PayBatch(vault, ctl, core, asset, q).value, Mark(core.nullifiers, q.nullifiers, ledger),
               RollBatch(core.accum, q));
  }

  lemma TailMarks(core: Core, core1: Core, q: S.Batch, ledger: nat)
    requires S.WellFormed(q) && |q.payees| > 1 && core1.nullifiers == Mark(core.nullifiers, q.nullifiers[..1], ledger)
    ensures Mark(core1.nullifiers, Tail(q).nullifiers, ledger) == Mark(core.nullifiers, q.nullifiers, ledger)
  {
    MarkSplit(core.nullifiers, q.nullifiers, ledger);
  }

  lemma TailRolls(core: Core, core1: Core, q: S.Batch)
    requires S.WellFormed(q) && S.BatchSum(q) <= I128_MAX && |q.payees| > 1
    requires S.WellFormed(Head(q)) && S.WellFormed(Tail(q)) && S.BatchSum(Head(q)) == q.amounts[0]
    requires 0 <= q.amounts[0] && 0 <= S.BatchSum(Tail(q)) && q.amounts[0] + S.BatchSum(Tail(q)) == S.BatchSum(q)
    requires core1.accum == RollBatch(core.accum, Head(q))
    ensures RollBatch(core1.accum, Tail(q)) == RollBatch(core.accum, q)
  {
    RollSplit(core.accum, q.amounts[0], S.BatchSum(Tail(q)), |q.payees| - 1, q.resetR2, q.resetR7, q.validAfter);
  }

  lemma TailPays(vault: Address, ctl: Control, core: Core, core1: Core, asset: Address, q: S.Batch)
    requires S.WellFormed(q) && |q.payees| > 1 && S.WellFormed(Head(q)) && S.WellFormed(Tail(q))
    requires PayBatch(vault, ctl, core, asset, q).Ok? && PayBatch(vault, ctl, core, asset, Head(q)).Ok?
    requires Purse(core1.fees, core1.tokens) == PayBatch(vault, ctl, core, asset, Head(q)).value
    ensures PayBatch(vault, ctl, core1, asset, Tail(q)) == PayBatch(vault, ctl, core, asset, q)
  {
    PayLinesSplit(vault, ctl, Purse(core.fees, core.tokens), asset, q.payees, q.amounts);
  }

  lemma SpentTwice(core: Core, core1: Core, x: nat, y: nat, purse: Purse, marks: map<Bytes32, nat>, accum: S.Accumulator)
    requires core1.account == core.account.(balance := core.account.balance - x, totalSpent := core.account.totalSpent + x)
    ensures Moved(core1, y, purse, marks, accum) == Moved(core, x + y, purse, marks, accum)
  {
  }

  /** The one-line releases, in order. */
  function Singles(user: Address, asset: Address, c: Bytes32, q: S.Batch, proofs: seq<Proof>): seq<Call>
    requires S.WellFormed(q) && |proofs| == |q.payees|
    decreases |q.payees|
  {
    [Keyless(user, asset, c, Head(q), proofs[0])] + if |q.payees| == 1 then [] else Singles(user, asset, c, Tail(q), proofs[1..])
  }

  /** The verifier accepts each line, under the accumulator the lines before it leave. */
  predicate EachAccepted(h: Host, s: State, c: Bytes32, q: S.Batch, acc: S.Accumulator, proofs: seq<Proof>)
    requires S.WellFormed(q) && |proofs| == |q.payees| && s.ctl.verifier.Some?
    decreases |q.payees|
  {
    HeadSum(q);
    && q.amounts[0] <= I128_MAX
    && Accepted(h, s, c, Head(q), acc, proofs[0])
    && (|q.payees| > 1 ==>
          EachAccepted(h, s, c, Tail(q), S.Roll(acc, q.amounts[0], 1, q.resetR2, q.resetR7, q.validAfter), proofs[1..]))
  }

  lemma AdmittedLines(s: State, s1: State, user: Address, asset: Address, c: Bytes32, q: S.Batch)
    requires Admitted(s, user, asset, c, q) && SameSurroundings(s, s1)
    ensures S.WellFormed(q) && Admitted(s, user, asset, c, Head(q))
    ensures |q.payees| > 1 ==> Admitted(s1, user, asset, c, Tail(q))
  {
    HeadSum(q);
  }

  /** The first line's call succeeds, and leaves the others admitted and accepted. */
  lemma FirstLine(h: Host, s: State, user: Address, asset: Address, c: Bytes32, q: S.Batch, proofs: seq<Proof>)
    requires Admitted(s, user, asset, c, q) && S.WellFormed(q) && S.BatchSum(q) <= I128_MAX
    requires |proofs| == |q.payees| > 1 && EachAccepted(h, s, c, q, AccumOf(s.lanes, c), proofs)
    requires SpendCore(h.vault, s.ctl, CoreOf(s, user, asset, c), asset, q, s.ledger).Some?
    ensures S.WellFormed(Head(q)) && S.WellFormed(Tail(q)) && S.BatchSum(Tail(q)) <= I128_MAX
    ensures var r := Exec(h, s, Keyless(user, asset, c, Head(q), proofs[0])).r;
      && r.Ok? && SameSurroundings(s, r.value) && Admitted(r.value, user, asset, c, Tail(q))
      && EachAccepted(h, r.value, c, Tail(q), AccumOf(r.value.lanes, c), proofs[1..])
      && SpendCore(h.vault, s.ctl, CoreOf(r.value, user, asset, c), asset, Tail(q), s.ledger)
           == SpendCore(h.vault, s.ctl, CoreOf(s, user, asset, c), asset, q, s.ledger)
  {
    HeadSum(q);
    AdmittedLines(s, s, user, asset, c, q);
    CoreSplit(h.vault, s.ctl, CoreOf(s, user, asset, c), asset, q, s.ledger);
    KeylessIsCore(h, s, user, asset, c, Head(q), proofs[0]);
    var s1 := Exec(h, s, Keyless(user, asset, c, Head(q), proofs[0])).r.value;
    AdmittedLines(s, s1, user, asset, c, q);
    EachAcceptedIn(h, s, s1, c, Tail(q), AccumOf(s1.lanes, c), proofs[1..]);
  }

  /**
   * If a batch of m lines goes through and the verifier also accepts its lines
   * one by one, then the m one-line releases all succeed and end in the same core.
   */
  lemma {:induction false} BatchIsSequence(h: Host, s: State, user: Address, asset: Address, c: Bytes32, q: S.Batch,
                                           proofs: seq<Proof>, x: Core)
    requires Admitted(s, user, asset, c, q) && S.WellFormed(q) && S.BatchSum(q) <= I128_MAX && |proofs| == |q.payees|
    requires SpendCore(h.vault, s.ctl, CoreOf(s, user, asset, c), asset, q, s.ledger) == Some(x)
    requires EachAccepted(h, s, c, q, AccumOf(s.lanes, c), proofs)
    ensures U.AllSucceed(h, s, Singles(user, asset, c, q, proofs))
    ensures CoreOf(RunAll(h, s, Singles(user, asset, c, q, proofs)).s, user, asset, c) == x
    decreases |q.payees|
  {
    var calls := Singles(user, asset, c, q, proofs);
    if |q.payees| == 1 {
      OneLineIsBatch(q);
      KeylessIsCore(h, s, user, asset, c, q, proofs[0]);
      assert calls[1..] == [];
    } else {
      FirstLine(h, s, user, asset, c, q, proofs);
      var s1 := Exec(h, s, calls[0]).r.value;
      BatchIsSequence(h, s1, user, asset, c, Tail(q), proofs[1..], x);
      assert calls[1..] == Singles(user, asset, c, Tail(q), proofs[1..]);
      Unrolled(h, s, calls);
    }
  }

  lemma OneLineIsBatch(q: S.Batch)
    requires S.WellFormed(q) && |q.payees| == 1
    ensures Head(q) == q
  {
  }

  lemma Unrolled(h: Host, s: State, calls: seq<Call>)
    requires calls != [] && Exec(h, s, calls[0]).r.Ok?
    ensures RunAll(h, s, calls).s == RunAll(h, Exec(h, s, calls[0]).r.value, calls[1..]).s
    ensures U.AllSucceed(h, s, calls) <==> U.AllSucceed(h, Exec(h, s, calls[0]).r.value, calls[1..])
  {
  }

  lemma {:induction false} EachAcceptedIn(h: Host, s: State, s1: State, c: Bytes32, q: S.Batch, acc: S.Accumulator, proofs: seq<Proof>)
    requires S.WellFormed(q) && |proofs| == |q.payees| && s.ctl.verifier.Some? && s1.ctl == s.ctl
    requires EachAccepted(h, s, c, q, acc, proofs)
    ensures EachAccepted(h, s1, c, q, acc, proofs)
    decreases |q.payees|
  {
    HeadSum(q);
    if |q.payees| > 1 {
      EachAcceptedIn(h, s, s1, c, Tail(q), S.Roll(acc, q.amounts[0], 1, q.resetR2, q.resetR7, q.validAfter), proofs[1..]);
    }
  }

  /** The main result, on calls: the batch and the sequence leave the same account, fees, receipts, markers and accumulator. */
  lemma BatchEqualsSequence(h: Host, s: State, user: Address, asset: Address, c: Bytes32, q: S.Batch, proof: Proof,
                            proofs: seq<Proof>)
    requires Admitted(s, user, asset, c, q) && S.WellFormed(q) && |proofs| == |q.payees|
    requires Exec(h, s, Keyless(user, asset, c, q, proof)).r.Ok?
    requires EachAccepted(h, s, c, q, AccumOf(s.lanes, c), proofs)
    ensures U.AllSucceed(h, s, Singles(user, asset, c, q, proofs))
    ensures CoreOf(RunAll(h, s, Singles(user, asset, c, q, proofs)).s, user, asset, c)
         == CoreOf(Exec(h, s, Keyless(user, asset, c, q, proof)).r.value, user, asset, c)
  {
    AdmittedShape(s, user, asset, c, q);
    KeylessIsCore(h, s, user, asset, c, q, proof);
    var x := SpendCore(h.vault, s.ctl, CoreOf(s, user, asset, c), asset, q, s.ledger).value;
    BatchIsSequence(h, s, user, asset, c, q, proofs, x);
  }

  // ---- Rounding -----------------------------------------------------------

  /** The fees of the lines, taken one by one. */
  function LineFees(ctl: Control, amounts: seq<I128>): int {
    if amounts == [] then 0
    else (if ComputeFee(ctl, amounts[0]).Ok? then ComputeFee(ctl, amounts[0]).value else 0) + LineFees(ctl, amounts[1..])
  }

  /** Paying lines adds exactly their fees to what the vault keeps for the fee recipient. */
  lemma {:induction false} FeesAccrued(vault: Address, ctl: Control, purse: Purse, asset: Address, payees: seq<Address>, amounts: seq<I128>)
    requires |payees| == |amounts| && PayLines(vault, ctl, purse, asset, payees, amounts).Ok?
    requires forall i | 0 <= i < |amounts| :: amounts[i] > 0
    requires CtlOk(ctl)
    ensures FeeIn(PayLines(vault, ctl, purse, asset, payees, amounts).value.fees, asset)
         == FeeIn(purse.fees, asset) + LineFees(ctl, amounts)
    decreases |payees|
  {
    if payees != [] {
      FeeBounds(ctl, amounts[0]);
      FeesAccrued(vault, ctl, PayLine(vault, ctl, purse, asset, payees[0], amounts[0]).value, asset, payees[1..], amounts[1..]);
    }
  }

  lemma FeeFloor(ctl: Control, x: nat, y: nat)
    requires ComputeFee(ctl, x + y).Ok?
    ensures ComputeFee(ctl, x).Ok? && ComputeFee(ctl, y).Ok?
    ensures var gap := ComputeFee(ctl, x + y).value - ComputeFee(ctl, x).value - ComputeFee(ctl, y).value; 0 <= gap <= 1
  {
    if ctl.feeConfig.Some? && ctl.feeConfig.value.bps != 0 && ctl.feeConfig.value.recipient.Some? {
      var bps := ctl.feeConfig.value.bps;
      Products(x, y, bps);
      FloorsOf(x * bps, y * bps);
    }
  }

  lemma Products(x: nat, y: nat, bps: nat)
    ensures (x + y) * bps == x * bps + y * bps && x * bps >= 0 && y * bps >= 0
  {
  }

  lemma FloorsOf(a: nat, b: nat)
    ensures 0 <= (a + b) / 10_000 - a / 10_000 - b / 10_000 <= 1
  {
  }

  /** Two floors side by side. */
  lemma FloorsAdd(x: int, y: int, bps: int, f: int, g: int, n: int)
    requires 10_000 * f <= x * bps < 10_000 * (f + 1) && 10_000 * g <= y * bps < 10_000 * (g + n)
    ensures 10_000 * (f + g) <= (x + y) * bps < 10_000 * (f + g + n + 1)
  {
    assert (x + y) * bps == x * bps + y * bps;
  }

  /**
   * Rounding each line down: the fees together are at most the exact rate on the
   * total, and less than one unit a line below it; so against the fee on the total
   * they lose less than one unit a line, and never gain.
   */
  lemma {:induction false} RoundingLoss(ctl: Control, amounts: seq<I128>)
    requires amounts != [] && (forall i | 0 <= i < |amounts| :: amounts[i] > 0)
    requires ComputeFee(ctl, S.SumAmounts(amounts)).Ok?
    ensures 0 <= ComputeFee(ctl, S.SumAmounts(amounts)).value - LineFees(ctl, amounts) < |amounts|
    ensures var fees, config := LineFees(ctl, amounts), ctl.feeConfig;
      if config.Some? && config.value.bps > 0 && config.value.recipient.Some?
      then 10_000 * fees <= S.SumAmounts(amounts) * config.value.bps < 10_000 * (fees + |amounts|)
      else fees == 0
  {
    SumFromFront(amounts);
    P.FeeExact(ctl, amounts[0]);
    if |amounts| == 1 {
      assert amounts[1..] == [];
    } else {
      var rest := amounts[1..];
      S.SumPositive(rest);
      FeeFloor(ctl, amounts[0], S.SumAmounts(rest));
      RoundingLoss(ctl, rest);
      if P.Charges(ctl.feeConfig) {
        FloorsAdd(amounts[0], S.SumAmounts(rest), ctl.feeConfig.value.bps, ComputeFee(ctl, amounts[0]).value, LineFees(ctl, rest), |rest|);
      }
    }
  }
}
