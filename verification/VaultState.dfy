/** What the vault stores, and the token ledger it stands on. */
module VaultState {
  import opened Base
  import opened Bytes
  import S = Signals
  import R = PublicRules

  type Address = nat
  type Proof = seq<Byte>

  datatype Lane = Private | Public

  datatype Error =
    | Aborted                      // a panic: missing record, overflow, failed transfer
    | AuthFailed
    | Unauthorized
    | ContractPaused
    | AssetNotSupported
    | InsufficientBalance
    | InsufficientAvailable
    | ActiveTaskExists
    | TaskNotFound
    | TaskAlreadyCompleted
    | TaskNotStale
    | InvalidAmount
    | ExceedsPlanCost
    | AssetMismatch
    | OrchestratorNotRegistered
    | OrchestratorAlreadyRegistered
    | NotYourTask
    | NotYourOrchestrator
    | TooManyActiveTasks
    | TaskDisputed
    | NotDisputeResolver
    | DisputeSplitMismatch
    | DisputeResolverNotSet
    | TaskNotDisputed
    | ReleaseConflict
    | TooManyStepReleases
    | FeeBpsExceedsCap
    | NoFeesAccrued
    | InvalidCommitment
    | PolicyVerifierNotSet
    | PolicyProofRequired
    | NoPolicyCommitment
    | PolicyProofRejected
    | NullifierAlreadyUsed
    | BatchSizeInvalid
    | BatchDuplicateNullifier
    | OutsideValidityWindow
    | CommitmentSetFull
    | CommitmentNotPinned
    | CommitmentNotAuthorized
    | ValidityWindowTooLong
    | SessionAlreadyExists
    | SessionNotFound
    | SessionExpired
    | SessionBudgetExceeded
    | NotYourSession
    | GlobalProofRequired
    | GlobalCommitmentMismatch
    | SessionPaused
    | PublicRuleNotFound
    | InvalidPublicParams
    | SessionUnbounded
    | RuleViolated(rule: R.RuleError)

  const MAX_FEE_BPS: int := 1000
  const MAX_RELEASE_STEPS_PER_TASK: nat := 256
  const MAX_VALIDITY_SECS: nat := 604_800
  const MAX_POLICY_COMMITMENTS: nat := 16
  const MAX_SESSION_ALLOWLIST: nat := 32
  const MARKER_LIFE_LEDGERS: nat := 518_400
  const MIN_SECS_PER_LEDGER: nat := 2

  // ---- Money --------------------------------------------------------------

  datatype Account = Account(balance: int, locked: int, totalDeposited: int, totalSpent: int)

  datatype Config = Config(orchestrator: Option<Address>, activeTasks: int)

  datatype Task = Task(
    user: Address,
    orchestrator: Address,
    asset: Address,
    planCost: int,
    spent: int,
    completed: bool,
    disputed: bool,
    commitment: Option<Bytes32>,
    createdAt: U64)

  /** Contract events the mirror reads; every other event is `Other`. */
  datatype Event =
    | DepositEvent(user: Address, asset: Address, amount: int)
    | WithdrawEvent(user: Address, asset: Address, amount: int)
    | TaskNewEvent(user: Address, asset: Address, planCost: int)
    | TaskDoneEvent(user: Address, asset: Address, spent: int, refund: int)
    | Other

  /**
   * What a payout's fee was computed from: nothing, the fee configuration when
   * the call began, or that when a batch line's turn came. The last kind of
   * payout is that of the fees themselves.
   */
  datatype Rate = NoFee | AtRate(config: Option<FeeConfig>) | InTurn(config: Option<FeeConfig>) | FeesTaken

  /** The history of money movements. */
  datatype Entry =
    | Deposited(user: Address, asset: Address, amount: int)
    | Withdrew(user: Address, asset: Address, quantity: nat)
    | Direct(user: Address, asset: Address, amount: int)
    | Released(task: nat, step: nat, amount: int)
    | Paid(payer: Option<nat>, asset: Address, to: Address, net: int, fee: int, rate: Rate)
    | Finished(task: nat, user: Address, asset: Address, planCost: int, spent: int)
    | Settled(task: nat, user: Address, asset: Address, planCost: int, spent: int, refund: nat, payout: nat)
    | Gift(asset: Address, quantity: nat)

  /** Accounts, tasks with their indexes, fees, and the token ledger. */
  datatype Books = Books(
    accounts: map<(Address, Address), Account>,
    configs: map<Address, Config>,
    tasks: map<nat, Task>,
    counter: nat,
    stepIds: map<nat, seq<U64>>,
    steps: map<(nat, U64), int>,
    nullifierIds: map<nat, seq<Bytes32>>,
    taskNullifiers: set<(nat, Bytes32)>,
    fees: map<Address, int>,
    tokens: map<(Address, Address), int>,
    journal: seq<Entry>,
    events: seq<Event>)

  // ---- Administration -----------------------------------------------------

  datatype FeeConfig = FeeConfig(bps: U32, recipient: Option<Address>)

  datatype Control = Control(
    admin: Address,
    paused: bool,
    supported: set<Address>,
    owners: map<Address, Address>,
    verifier: Option<Address>,
    resolver: Option<Address>,
    feeConfig: Option<FeeConfig>,
    staleThreshold: U64,
    maxActiveTasks: U32)

  // ---- Spending lanes -----------------------------------------------------

  datatype Session = Session(
    user: Address,
    asset: Address,
    expiry: U64,
    spendCap: I128,
    ruleId: Option<Bytes32>,
    serverHeld: bool,
    paused: bool,
    spent: int,
    releaseCount: int)

  /** The history of lane decisions. */
  datatype LaneEntry =
    | SessionOpened(key: Address)
    | SessionPaid(key: Address, owner: Address, amount: int, capped: bool, selected: Option<Bytes32>, pointer: Option<Bytes32>, time: U64)
    | RuleUsed(owner: Address, ruleId: Bytes32, use: R.Use)
    | Consumed(primary: seq<Bytes32>, global: seq<Bytes32>, validBefore: U64, time: U64, ledger: nat)
    | Rolled(commitment: Bytes32, total: U128, m: U64, resetR2: bool, resetR7: bool, validAfter: U64)

  datatype Lanes = Lanes(
    sessions: map<Address, Session>,
    rules: map<(Address, Bytes32), R.PublicRule>,
    usage: map<(Address, Bytes32), R.PublicUsage>,
    globalPublic: map<Address, Bytes32>,
    pinned: map<Address, seq<Bytes32>>,
    globals: map<(Address, Lane), Bytes32>,
    nullifiers: map<Bytes32, nat>,
    accums: map<Bytes32, S.Accumulator>,
    log: seq<LaneEntry>)

  // ---- Calls --------------------------------------------------------------

  datatype GlobalProof = GlobalProof(
    commitment: Bytes32,
    nullifiers: seq<Bytes32>,
    resetR2: bool,
    resetR7: bool,
    proof: Proof)

  datatype AdminAction =
    | Pause
    | Unpause
    | AddAsset(asset: Address)
    | RemoveAsset(asset: Address, force: bool)
    | SetFee(bps: U32, recipient: Option<Address>)
    | SetDisputeResolver(resolver: Address)
    | SetPolicyVerifier(verifier: Address)
    | SetStaleThreshold(seconds: U64)
    | SetMaxActiveTasks(max: U32)
    | UpdateAdmin(newAdmin: Address)

  datatype Op =
    | Deposit(user: Address, asset: Address, amount: I128)
    | Withdraw(user: Address, asset: Address, amount: I128)
    | RegisterSession(user: Address, session: Address, asset: Address, expiry: U64, spendCap: I128,
                      boundRule: Option<Bytes32>, serverHeld: bool)
    | SetSessionPaused(user: Address, session: Address, paused: bool)
    | UpdateSession(user: Address, session: Address, newExpiry: U64, newSpendCap: I128)
    | RevokeSession(user: Address, session: Address)
    | ReleaseSession(session: Address, payee: Address, amount: I128, chosenRule: Option<Bytes32>)
    | RegisterOrchestrator(user: Address, orchestrator: Address)
    | UpdateOrchestrator(user: Address, orchestrator: Address)
    | CreateTask(orchestrator: Address, asset: Address, planCost: I128)
    | CreateTaskWithPolicy(orchestrator: Address, asset: Address, planCost: I128, commitment: Bytes32)
    | ReleasePayment(orchestrator: Address, task: U64, step: U64, asset: Address, amount: I128)
    | ReleaseProved(orchestrator: Address, task: U64, step: U64, asset: Address, amount: I128,
                    payee: Address, nullifier: Bytes32, proof: Proof)
    | ReleaseBatch(orchestrator: Address, task: U64, step: U64, asset: Address, batch: S.Batch, proof: Proof)
    | ReleaseKeyless(user: Address, asset: Address, commitment: Bytes32, batch: S.Batch, proof: Proof,
                     global: Option<GlobalProof>)
    | CompleteTask(orchestrator: Address, task: U64)
    | CancelTask(user: Address, task: U64)
    | ForceComplete(task: U64)
    | RaiseDispute(user: Address, task: U64)
    | ResolveDispute(resolver: Address, task: U64, refund: I128, payout: I128)
    | ClaimFees(recipient: Address, asset: Address)
    | PinCommitment(user: Address, commitment: Bytes32)
    | UnpinCommitment(user: Address, commitment: Bytes32)
    | SetGlobal(user: Address, lane: Lane, commitment: Bytes32)
    | ClearGlobal(user: Address, lane: Lane)
    | SetPublicRule(user: Address, ruleId: Bytes32, rule: R.PublicRule)
    | ClearPublicRule(user: Address, ruleId: Bytes32)
    | SetGlobalPublic(user: Address, ruleId: Bytes32)
    | ClearGlobalPublic(user: Address)
    | Administer(admin: Address, action: AdminAction)
    // what the token contract itself does outside the vault
    | TokenMint(to: Address, asset: Address, quantity: nat)
    | TokenTransfer(from: Address, to: Address, asset: Address, quantity: nat)

  /** A call that was made, and when. */
  datatype Note = Note(op: Op, time: U64)

  /** `notes` is the history of the calls that took effect, in the order they began. */
  datatype State = State(books: Books, ctl: Control, lanes: Lanes, now: U64, ledger: nat, notes: seq<Note>)

  function Noted(s: State, op: Op): State {
    s.(notes := s.notes + [Note(op, s.now)])
  }

  /** What the contract is given by its host: its address, the verifiers' answers and the address hash. */
  datatype Host = Host(
    vault: Address,
    verifyPolicy: (Address, Bytes32, Address, I128, Bytes32, Proof) -> bool,
    verifyGroth16: (Address, Proof, seq<Bytes32>) -> bool,
    addressHash: Address -> Bytes32)

  // ---- Small readers ------------------------------------------------------

  function Held(tokens: map<(Address, Address), int>, who: Address, asset: Address): int {
    if (who, asset) in tokens then tokens[(who, asset)] else 0
  }

  function FeeIn(fees: map<Address, int>, asset: Address): int {
    if asset in fees then fees[asset] else 0
  }

  function Fees(b: Books, asset: Address): int {
    FeeIn(b.fees, asset)
  }

  function ListAt<T>(lists: map<nat, seq<T>>, id: nat): seq<T> {
    if id in lists then lists[id] else []
  }

  function StepIds(b: Books, id: nat): seq<U64> {
    ListAt(b.stepIds, id)
  }

  function NullifierIds(b: Books, id: nat): seq<Bytes32> {
    ListAt(b.nullifierIds, id)
  }

  function AccountIn(accounts: map<(Address, Address), Account>, user: Address, asset: Address): Account {
    if (user, asset) in accounts then accounts[(user, asset)] else Account(0, 0, 0, 0)
  }

  function Pinned(l: Lanes, user: Address): seq<Bytes32> {
    if user in l.pinned then l.pinned[user] else []
  }

  function AccumIn(accums: map<Bytes32, S.Accumulator>, commitment: Bytes32): S.Accumulator {
    if commitment in accums then accums[commitment] else S.FreshAccumulator
  }

  function AccumOf(l: Lanes, commitment: Bytes32): S.Accumulator {
    AccumIn(l.accums, commitment)
  }

  function UsageIn(usage: map<(Address, Bytes32), R.PublicUsage>, user: Address, ruleId: Bytes32): R.PublicUsage {
    if (user, ruleId) in usage then usage[(user, ruleId)] else R.FreshUsage
  }

  function UsageOf(l: Lanes, user: Address, ruleId: Bytes32): R.PublicUsage {
    UsageIn(l.usage, user, ruleId)
  }
}
