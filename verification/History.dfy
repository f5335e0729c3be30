/**
 * What the history of calls says about the vault: who is admin, which key is
 * open on which terms, which commitments are pinned, what became of a task. Each
 * is read off the last call that bears on it, and the vault's stored records are
 * proved to say the same after every call.
 */
module History {
  import opened Base
  import opened Bytes
  import opened VaultState
  import S = Signals
  import R = PublicRules

  type Notes = seq<Note>

  function Init(notes: Notes): Notes
    requires notes != []
  {
    notes[..|notes| - 1]
  }

  function LastOp(notes: Notes): Op
    requires notes != []
  {
    notes[|notes| - 1].op
  }

  // ---- Administration -----------------------------------------------------

  /** The last action of the admin, looking back from the end, that this picks out. */
  function AdminIn(notes: Notes, first: Address): Address {
    if notes == [] then first
    else
      match LastOp(notes)
      case Administer(_, UpdateAdmin(newAdmin)) => newAdmin
      case _ => AdminIn(Init(notes), first)
  }

  function PausedIn(notes: Notes, first: bool): bool {
    if notes == [] then first
    else
      match LastOp(notes)
      case Administer(_, Pause) => true
      case Administer(_, Unpause) => false
      case _ => PausedIn(Init(notes), first)
  }

  function SupportedIn(notes: Notes, asset: Address, first: bool): bool {
    if notes == [] then first
    else
      match LastOp(notes)
      case Administer(_, AddAsset(a)) => a == asset || SupportedIn(Init(notes), asset, first)
      case Administer(_, RemoveAsset(a, _)) => a != asset && SupportedIn(Init(notes), asset, first)
      case _ => SupportedIn(Init(notes), asset, first)
  }

  function VerifierIn(notes: Notes, first: Option<Address>): Option<Address> {
    if notes == [] then first
    else
      match LastOp(notes)
      case Administer(_, SetPolicyVerifier(verifier)) => Some(verifier)
      case _ => VerifierIn(Init(notes), first)
  }

  function ResolverIn(notes: Notes, first: Option<Address>): Option<Address> {
    if notes == [] then first
    else
      match LastOp(notes)
      case Administer(_, SetDisputeResolver(resolver)) => Some(resolver)
      case _ => ResolverIn(Init(notes), first)
  }

  function FeeConfigIn(notes: Notes): Option<FeeConfig> {
    if notes == [] then None
    else
      match LastOp(notes)
      case Administer(_, SetFee(bps, recipient)) => Some(FeeConfig(bps, recipient))
      case _ => FeeConfigIn(Init(notes))
  }

  function StaleIn(notes: Notes, first: U64): U64 {
    if notes == [] then first
    else
      match LastOp(notes)
      case Administer(_, SetStaleThreshold(seconds)) => seconds
      case _ => StaleIn(Init(notes), first)
  }

  function MaxActiveIn(notes: Notes, first: U32): U32 {
    if notes == [] then first
    else
      match LastOp(notes)
      case Administer(_, SetMaxActiveTasks(max)) => max
      case _ => MaxActiveIn(Init(notes), first)
  }

  // ---- Keys, rules and pins ----------------------------------------------

  /** The terms a key was opened on, as changed since. */
  datatype Terms = Terms(owner: Address, asset: Address, expiry: U64, cap: int, rule: Option<Bytes32>, serverHeld: bool, paused: bool)

  function KeyIn(notes: Notes, key: Address): Option<Terms> {
    if notes == [] then None
    else
      var before := KeyIn(Init(notes), key);
      match LastOp(notes)
      case RegisterSession(user, session, asset, expiry, cap, rule, serverHeld) =>
        if session == key then Some(Terms(user, asset, expiry, cap, rule, serverHeld, false)) else before
      case RevokeSession(_, session) => if session == key then None else before
      case SetSessionPaused(_, session, paused) =>
        if session == key && before.Some? then Some(before.value.(paused := paused)) else before
      case UpdateSession(_, session, expiry, cap) =>
        if session == key && before.Some? then
          Some(before.value.(expiry := if expiry != 0 then expiry else before.value.expiry,
                             cap := if cap != 0 then cap else before.value.cap))
        else before
      case _ => before
  }

  predicate PinIn(notes: Notes, user: Address, commitment: Bytes32) {
    notes != [] &&
    match LastOp(notes)
    case PinCommitment(u, c) => (u == user && c == commitment) || PinIn(Init(notes), user, commitment)
    case UnpinCommitment(u, c) => !(u == user && c == commitment) && PinIn(Init(notes), user, commitment)
    case _ => PinIn(Init(notes), user, commitment)
  }

  function GlobalIn(notes: Notes, user: Address, lane: Lane): Option<Bytes32> {
    if notes == [] then None
    else
      match LastOp(notes)
      case SetGlobal(u, l, c) => if u == user && l == lane then Some(c) else GlobalIn(Init(notes), user, lane)
      case ClearGlobal(u, l) => if u == user && l == lane then None else GlobalIn(Init(notes), user, lane)
      case _ => GlobalIn(Init(notes), user, lane)
  }

  function RuleIn(notes: Notes, user: Address, ruleId: Bytes32): Option<R.PublicRule> {
    if notes == [] then None
    else
      match LastOp(notes)
      case SetPublicRule(u, r, rule) => if u == user && r == ruleId then Some(rule) else RuleIn(Init(notes), user, ruleId)
      case ClearPublicRule(u, r) => if u == user && r == ruleId then None else RuleIn(Init(notes), user, ruleId)
      case _ => RuleIn(Init(notes), user, ruleId)
  }

  /** The rule a user made global; clearing the rule clears that too. */
  function PointerIn(notes: Notes, user: Address): Option<Bytes32> {
    if notes == [] then None
    else
      match LastOp(notes)
      case SetGlobalPublic(u, r) => if u == user then Some(r) else PointerIn(Init(notes), user)
      case ClearGlobalPublic(u) => if u == user then None else PointerIn(Init(notes), user)
      case ClearPublicRule(u, r) =>
        if u == user && PointerIn(Init(notes), user) == Some(r) then None else PointerIn(Init(notes), user)
      case _ => PointerIn(Init(notes), user)
  }

  // ---- Orchestrators ------------------------------------------------------

  /** The orchestrator a user named last. */
  function NamedIn(notes: Notes, user: Address): Option<Address> {
    if notes == [] then None
    else
      match LastOp(notes)
      case RegisterOrchestrator(u, o) => if u == user then Some(o) else NamedIn(Init(notes), user)
      case UpdateOrchestrator(u, o) => if u == user then Some(o) else NamedIn(Init(notes), user)
      case _ => NamedIn(Init(notes), user)
  }

  /** The user an orchestrator works for: whoever named it last, unless the user then moved on. */
  function OwnerIn(notes: Notes, orchestrator: Address): Option<Address> {
    if notes == [] then None
    else
      match LastOp(notes)
      case RegisterOrchestrator(u, o) => if o == orchestrator then Some(u) else OwnerIn(Init(notes), orchestrator)
      case UpdateOrchestrator(u, o) =>
        if o == orchestrator then Some(u)
        else if NamedIn(Init(notes), u) == Some(orchestrator) then None
        else OwnerIn(Init(notes), orchestrator)
      case _ => OwnerIn(Init(notes), orchestrator)
  }

  // ---- Tasks --------------------------------------------------------------

  /** How a task was made. */
  datatype Order = Order(user: Option<Address>, orchestrator: Address, asset: Address, planCost: int, commitment: Option<Bytes32>, time: U64)

  /** The tasks in the order they were made; the first has id 1. */
  function OrdersIn(notes: Notes): seq<Order> {
    if notes == [] then []
    else
      var before, time := Init(notes), notes[|notes| - 1].time;
      match LastOp(notes)
      case CreateTask(o, asset, planCost) => OrdersIn(before) + [Order(OwnerIn(before, o), o, asset, planCost, None, time)]
      case CreateTaskWithPolicy(o, asset, planCost, c) => OrdersIn(before) + [Order(OwnerIn(before, o), o, asset, planCost, Some(c), time)]
      case _ => OrdersIn(before)
  }

  predicate Ends(op: Op, id: nat) {
    match op
    case CompleteTask(_, task) => task == id
    case CancelTask(_, task) => task == id
    case ForceComplete(task) => task == id
    case ResolveDispute(_, task, _, _) => task == id
    case _ => false
  }

  predicate ClosedIn(notes: Notes, id: nat) {
    exists i :: 0 <= i < |notes| && Ends(notes[i].op, id)
  }

  predicate Disputes(op: Op, id: nat) {
    op.RaiseDispute? && op.task == id
  }

  predicate DisputedIn(notes: Notes, id: nat) {
    exists i :: 0 <= i < |notes| && Disputes(notes[i].op, id)
  }

  predicate Releases(op: Op, id: nat, step: U64) {
    match op
    case ReleasePayment(_, task, st, _, _) => task == id && st == step
    case ReleaseProved(_, task, st, _, _, _, _, _) => task == id && st == step
    case ReleaseBatch(_, task, st, _, _, _) => task == id && st == step
    case _ => false
  }

  /** Somebody asked for this step before, and was not refused. */
  predicate StepIn(notes: Notes, id: nat, step: U64) {
    exists i :: 0 <= i < |notes| && Releases(notes[i].op, id, step)
  }

  /** What a release releases. */
  function AmountOf(op: Op): int {
    match op
    case ReleasePayment(_, _, _, _, amount) => amount
    case ReleaseProved(_, _, _, _, amount, _, _, _) => amount
    case ReleaseBatch(_, _, _, _, q, _) => S.SumAmounts(q.amounts)
    case _ => 0
  }

  /** The step a release is of. */
  function StepOf(op: Op): U64 {
    match op
    case ReleasePayment(_, _, step, _, _) => step
    case ReleaseProved(_, _, step, _, _, _, _, _) => step
    case ReleaseBatch(_, _, step, _, _, _) => step
    case _ => 0
  }

  /** A release that is the first of its step; any later one moves nothing. */
  predicate FirstOfStep(before: Notes, op: Op, id: nat) {
    Releases(op, id, StepOf(op)) && !StepIn(before, id, StepOf(op))
  }

  /** What has been released for a task. */
  function SpentIn(notes: Notes, id: nat): int {
    if notes == [] then 0
    else SpentIn(Init(notes), id) + if FirstOfStep(Init(notes), LastOp(notes), id) then AmountOf(LastOp(notes)) else 0
  }

  /** The task a call is about. */
  function TaskOf(op: Op): Option<nat> {
    match op
    case ReleasePayment(_, task, _, _, _) => Some(task)
    case ReleaseProved(_, task, _, _, _, _, _, _) => Some(task)
    case ReleaseBatch(_, task, _, _, _, _) => Some(task)
    case CompleteTask(_, task) => Some(task)
    case CancelTask(_, task) => Some(task)
    case ForceComplete(task) => Some(task)
    case RaiseDispute(_, task) => Some(task)
    case ResolveDispute(_, task, _, _) => Some(task)
    case _ => None
  }
}
