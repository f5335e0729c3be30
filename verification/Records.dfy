/**
 * The stored records say what the history of calls says: administration, keys,
 * rules, pins and tasks, entry point by entry point.
 */
module Records {
  import opened Base
  import opened Bytes
  import opened VaultState
  import opened BookKeeping
  import opened Vault
  import opened OpShapes
  import opened History
  import O = Orchestrators
  import E = EntryPoints
  import L = LaneSteps
  import N = Sessions
  import Ledger
  import S = Signals
  import R = PublicRules

  // ---- Administration and orchestrators -----------------------------------

  function OwnerOf(owners: map<Address, Address>, orchestrator: Address): Option<Address> {
    if orchestrator in owners then Some(owners[orchestrator]) else None
  }

  /** `first` is the administration the vault started with. */
  ghost predicate ControlAgrees(first: Control, ctl: Control, notes: Notes) {
    && ctl.admin == AdminIn(notes, first.admin) && ctl.paused == PausedIn(notes, first.paused)
    && (forall asset :: asset in ctl.supported <==> SupportedIn(notes, asset, asset in first.supported))
    && ctl.verifier == VerifierIn(notes, first.verifier) && ctl.resolver == ResolverIn(notes, first.resolver)
    && ctl.feeConfig == FeeConfigIn(notes) && ctl.staleThreshold == StaleIn(notes, first.staleThreshold)
    && ctl.maxActiveTasks == MaxActiveIn(notes, first.maxActiveTasks)
  }

  ghost predicate OwnersAgree(owners: map<Address, Address>, configs: map<Address, Config>, notes: Notes) {
    && (forall o :: OwnerOf(owners, o) == OwnerIn(notes, o))
    && (forall u :: O.Named(configs, u) == NamedIn(notes, u))
  }

  lemma InitOf(notes: Notes, note: Note)
    ensures Init(notes + [note]) == notes && LastOp(notes + [note]) == note.op
  {
  }

  lemma ControlBeside(first: Control, ctl: Control, notes: Notes, note: Note)
    requires ControlAgrees(first, ctl, notes) && !note.op.Administer?
    ensures ControlAgrees(first, ctl, notes + [note])
  {
    InitOf(notes, note);
  }

  lemma ControlApplied(first: Control, ctl: Control, notes: Notes, note: Note, ctl1: Control)
    requires ControlAgrees(first, ctl, notes) && note.op.Administer? && Apply(ctl, note.op.action) == Ok(ctl1)
    ensures ControlAgrees(first, ctl1, notes + [note])
  {
    InitOf(notes, note);
    AssetsApplied(first, ctl, notes, note, ctl1);
  }

  lemma AssetsApplied(first: Control, ctl: Control, notes: Notes, note: Note, ctl1: Control)
    requires ControlAgrees(first, ctl, notes) && note.op.Administer? && Apply(ctl, note.op.action) == Ok(ctl1)
    ensures forall asset :: asset in ctl1.supported <==> SupportedIn(notes + [note], asset, asset in first.supported)
  {
    InitOf(notes, note);
    forall asset ensures asset in ctl1.supported <==> SupportedIn(notes + [note], asset, asset in first.supported) {
      assert asset in ctl.supported <==> SupportedIn(notes, asset, asset in first.supported);
    }
  }

  /** Naming changes neither what the admin set nor anything else of the administration. */
  lemma ControlRenamed(first: Control, ctl: Control, notes: Notes, owners: map<Address, Address>)
    requires ControlAgrees(first, ctl, notes)
    ensures ControlAgrees(first, ctl.(owners := owners), notes)
  {
  }

  lemma OwnersBeside(owners: map<Address, Address>, configs: map<Address, Config>, configs1: map<Address, Config>, notes: Notes, note: Note)
    requires OwnersAgree(owners, configs, notes) && !note.op.RegisterOrchestrator? && !note.op.UpdateOrchestrator?
    requires forall u :: O.Named(configs1, u) == O.Named(configs, u)
    ensures OwnersAgree(owners, configs1, notes + [note])
  {
    InitOf(notes, note);
  }

  lemma OwnersRenamed(s: State, s1: State, user: Address, orch: Address, notes: Notes, note: Note)
    requires OwnersAgree(s.ctl.owners, s.books.configs, notes) && O.Renamed(s, s1, user, orch)
    requires (note.op == RegisterOrchestrator(user, orch) && O.Named(s.books.configs, user) == None)
      || (note.op == UpdateOrchestrator(user, orch) && O.Named(s.books.configs, user).Some?)
    ensures OwnersAgree(s1.ctl.owners, s1.books.configs, notes + [note])
  {
    InitOf(notes, note);
    forall o ensures OwnerOf(s1.ctl.owners, o) == OwnerIn(notes + [note], o) {
      assert OwnerOf(s.ctl.owners, o) == OwnerIn(notes, o) && O.Named(s.books.configs, user) == NamedIn(notes, user);
    }
    forall u ensures O.Named(s1.books.configs, u) == NamedIn(notes + [note], u) {
      assert O.Named(s.books.configs, u) == NamedIn(notes, u);
    }
  }

  ghost predicate AdminAgrees(first: Control, s: State, notes: Notes) {
    ControlAgrees(first, s.ctl, notes) && OwnersAgree(s.ctl.owners, s.books.configs, notes)
  }

  lemma RegisterAgrees(h: Host, first: Control, s: State, user: Address, orch: Address, p: Pending, note: Note, notes: Notes)
    requires AdminAgrees(first, s, notes) && note.op == RegisterOrchestrator(user, orch)
    requires BeginRegisterOrchestrator(h, s, user, orch) == Ok(p)
    ensures AdminAgrees(first, p.s, notes + [note])
  {
    O.RegisterShape(h, s, user, orch, p);
    OwnersRenamed(s, p.s, user, orch, notes, note);
    ControlBeside(first, s.ctl, notes, note);
    ControlRenamed(first, s.ctl, notes + [note], p.s.ctl.owners);
  }

  lemma UpdateAgrees(h: Host, first: Control, s: State, user: Address, orch: Address, p: Pending, note: Note, notes: Notes)
    requires AdminAgrees(first, s, notes) && note.op == UpdateOrchestrator(user, orch)
    requires BeginUpdateOrchestrator(h, s, user, orch) == Ok(p)
    ensures AdminAgrees(first, p.s, notes + [note])
  {
    O.UpdateShape(h, s, user, orch, p);
    OwnersRenamed(s, p.s, user, orch, notes, note);
    ControlBeside(first, s.ctl, notes, note);
    ControlRenamed(first, s.ctl, notes + [note], p.s.ctl.owners);
  }

  lemma CreateAgrees(h: Host, first: Control, s: State, orch: Address, asset: Address, planCost: I128, c: Option<Bytes32>, p: Pending,
                     note: Note, notes: Notes)
    requires AdminAgrees(first, s, notes) && (note.op.CreateTask? || note.op.CreateTaskWithPolicy?)
    requires BeginCreateTask(h, s, orch, asset, planCost, c) == Ok(p)
    ensures AdminAgrees(first, p.s, notes + [note])
  {
    O.CreateShape(h, s, orch, asset, planCost, c, p);
    ControlBeside(first, s.ctl, notes, note);
    OwnersBeside(s.ctl.owners, s.books.configs, p.s.books.configs, notes, note);
  }

  lemma OtherAgrees(h: Host, first: Control, s: State, op: Op, p: Pending, note: Note, notes: Notes)
    requires AdminAgrees(first, s, notes) && note.op == op && !O.Renames(op) && Begin(h, s, op) == Ok(p)
    ensures AdminAgrees(first, p.s, notes + [note])
  {
    O.BeginNames(h, s, op, p);
    OwnersBeside(s.ctl.owners, s.books.configs, p.s.books.configs, notes, note);
    if op.Administer? {
      AdministerShape(h, s, op, p);
      ControlApplied(first, s.ctl, notes, note, p.s.ctl);
    } else {
      ControlBeside(first, s.ctl, notes, note);
    }
  }

  lemma AdminStep(h: Host, first: Control, s: State, op: Op, p: Pending, note: Note, notes: Notes)
    requires AdminAgrees(first, s, notes) && note.op == op && Begin(h, s, op) == Ok(p)
    ensures AdminAgrees(first, p.s, notes + [note])
  {
    if op.RegisterOrchestrator? {
      RegisterAgrees(h, first, s, op.user, op.orchestrator, p, note, notes);
    } else if op.UpdateOrchestrator? {
      UpdateAgrees(h, first, s, op.user, op.orchestrator, p, note, notes);
    } else if op.CreateTask? {
      CreateAgrees(h, first, s, op.orchestrator, op.asset, op.planCost, None, p, note, notes);
    } else if op.CreateTaskWithPolicy? {
      CreateAgrees(h, first, s, op.orchestrator, op.asset, op.planCost, Some(op.commitment), p, note, notes);
    } else {
      OtherAgrees(h, first, s, op, p, note, notes);
    }
  }

  // ---- Keys ---------------------------------------------------------------

  type SessionMap = map<Address, Session>

  function TermsOf(info: Session): Terms {
    Terms(info.user, info.asset, info.expiry, info.spendCap, info.ruleId, info.serverHeld, info.paused)
  }

  function KeyOf(sessions: SessionMap, key: Address): Option<Terms> {
    if key in sessions then Some(TermsOf(sessions[key])) else None
  }

  ghost predicate KeysAgree(sessions: SessionMap, notes: Notes) {
    forall key :: KeyOf(sessions, key) == KeyIn(notes, key)
  }

  /** A key is written with these terms. */
  lemma KeyWritten(sessions: SessionMap, notes: Notes, note: Note, key: Address, info: Session)
    requires KeysAgree(sessions, notes) && KeyIn(notes + [note], key) == Some(TermsOf(info))
    requires forall k | k != key :: KeyIn(notes + [note], k) == KeyIn(notes, k)
    ensures KeysAgree(sessions[key := info], notes + [note])
  {
    forall k ensures KeyOf(sessions[key := info], k) == KeyIn(notes + [note], k) {
      assert KeyOf(sessions, k) == KeyIn(notes, k);
    }
  }

  lemma KeysBeside(sessions: SessionMap, sessions1: SessionMap, notes: Notes, note: Note)
    requires KeysAgree(sessions, notes) && forall k :: KeyOf(sessions1, k) == KeyOf(sessions, k)
    requires !note.op.RegisterSession? && !EditsSession(note.op)
    ensures KeysAgree(sessions1, notes + [note])
  {
    InitOf(notes, note);
    forall k ensures KeyOf(sessions1, k) == KeyIn(notes + [note], k) {
      assert KeyOf(sessions, k) == KeyIn(notes, k);
    }
  }

  lemma OpenAgrees(sessions: SessionMap, notes: Notes, note: Note, info: Session)
    requires KeysAgree(sessions, notes) && note.op.RegisterSession?
    requires TermsOf(info) == Terms(note.op.user, note.op.asset, note.op.expiry, note.op.spendCap, note.op.boundRule, note.op.serverHeld, false)
    ensures KeysAgree(sessions[note.op.session := info], notes + [note])
  {
    InitOf(notes, note);
    KeyWritten(sessions, notes, note, note.op.session, info);
  }

  lemma PauseAgrees(h: Host, s: State, user: Address, key: Address, paused: bool, p: Pending, notes: Notes, note: Note)
    requires KeysAgree(s.lanes.sessions, notes) && note.op == SetSessionPaused(user, key, paused)
    requires BeginSetSessionPaused(h, s, user, key, paused) == Ok(p)
    ensures KeysAgree(p.s.lanes.sessions, notes + [note])
  {
    InitOf(notes, note);
    assert KeyOf(s.lanes.sessions, key) == KeyIn(notes, key);
    KeyWritten(s.lanes.sessions, notes, note, key, s.lanes.sessions[key].(paused := paused));
  }

  lemma LimitsAgree(h: Host, s: State, user: Address, key: Address, expiry: U64, cap: I128, p: Pending, notes: Notes, note: Note)
    requires KeysAgree(s.lanes.sessions, notes) && note.op == UpdateSession(user, key, expiry, cap)
    requires BeginUpdateSession(h, s, user, key, expiry, cap) == Ok(p)
    ensures KeysAgree(p.s.lanes.sessions, notes + [note])
  {
    InitOf(notes, note);
    assert KeyOf(s.lanes.sessions, key) == KeyIn(notes, key);
    var info := s.lanes.sessions[key];
    KeyWritten(s.lanes.sessions, notes, note, key,
               info.(expiry := if expiry != 0 then expiry else info.expiry, spendCap := if cap != 0 then cap else info.spendCap));
  }

  lemma RevokeAgrees(h: Host, s: State, user: Address, key: Address, p: Pending, notes: Notes, note: Note)
    requires KeysAgree(s.lanes.sessions, notes) && note.op == RevokeSession(user, key)
    requires BeginRevokeSession(h, s, user, key) == Ok(p)
    ensures KeysAgree(p.s.lanes.sessions, notes + [note])
  {
    InitOf(notes, note);
    var sessions1 := p.s.lanes.sessions;
    assert sessions1 == s.lanes.sessions - {key};
    forall k ensures KeyOf(sessions1, k) == KeyIn(notes + [note], k) {
      assert KeyOf(s.lanes.sessions, k) == KeyIn(notes, k);
    }
  }

  // ---- Pins, global rules, rules ------------------------------------------

  predicate PinAgrees(pins: map<Address, seq<Bytes32>>, notes: Notes, user: Address, c: Bytes32) {
    c in PinsOf(pins, user) <==> PinIn(notes, user, c)
  }

  function PinsOf(pins: map<Address, seq<Bytes32>>, user: Address): seq<Bytes32> {
    if user in pins then pins[user] else []
  }

  function GlobalOf(globals: map<(Address, Lane), Bytes32>, user: Address, lane: Lane): Option<Bytes32> {
    if (user, lane) in globals then Some(globals[(user, lane)]) else None
  }

  function RuleOf(rules: map<(Address, Bytes32), R.PublicRule>, user: Address, ruleId: Bytes32): Option<R.PublicRule> {
    if (user, ruleId) in rules then Some(rules[(user, ruleId)]) else None
  }

  function MarkOf(pointers: map<Address, Bytes32>, user: Address): Option<Bytes32> {
    if user in pointers then Some(pointers[user]) else None
  }

  ghost predicate PinsAgree(l: Lanes, notes: Notes) {
    && (forall user, c :: PinAgrees(l.pinned, notes, user, c))
    && (forall user, lane :: GlobalOf(l.globals, user, lane) == GlobalIn(notes, user, lane))
  }

  ghost predicate RulesAgree(l: Lanes, notes: Notes) {
    && N.PointersOk(l.rules, l.globalPublic)
    && (forall user, ruleId :: RuleOf(l.rules, user, ruleId) == RuleIn(notes, user, ruleId))
    && (forall user :: MarkOf(l.globalPublic, user) == PointerIn(notes, user))
  }

  lemma PinsBeside(l: Lanes, notes: Notes, note: Note)
    requires PinsAgree(l, notes) && !EditsPins(note.op)
    ensures PinsAgree(l, notes + [note])
  {
    InitOf(notes, note);
    forall user, c ensures PinAgrees(l.pinned, notes + [note], user, c) {
      assert PinAgrees(l.pinned, notes, user, c);
    }
    forall user, lane ensures GlobalOf(l.globals, user, lane) == GlobalIn(notes + [note], user, lane) {
      assert GlobalOf(l.globals, user, lane) == GlobalIn(notes, user, lane);
    }
  }

  lemma RulesBeside(l: Lanes, notes: Notes, note: Note)
    requires RulesAgree(l, notes) && !EditsRules(note.op)
    ensures RulesAgree(l, notes + [note])
  {
    InitOf(notes, note);
    forall user, ruleId ensures RuleOf(l.rules, user, ruleId) == RuleIn(notes + [note], user, ruleId) {
      assert RuleOf(l.rules, user, ruleId) == RuleIn(notes, user, ruleId);
    }
    forall user ensures MarkOf(l.globalPublic, user) == PointerIn(notes + [note], user) {
      assert MarkOf(l.globalPublic, user) == PointerIn(notes, user);
    }
  }

  lemma PinStep(h: Host, s: State, user: Address, commitment: Bytes32, p: Pending, notes: Notes, note: Note)
    requires PinsAgree(s.lanes, notes)
    requires (note.op == PinCommitment(user, commitment) && BeginPin(h, s, user, commitment) == Ok(p))
      || (note.op == UnpinCommitment(user, commitment) && BeginUnpin(h, s, user, commitment) == Ok(p))
    ensures PinsAgree(p.s.lanes, notes + [note])
  {
    InitOf(notes, note);
    forall u, c ensures PinAgrees(p.s.lanes.pinned, notes + [note], u, c) {
      assert PinAgrees(s.lanes.pinned, notes, u, c);
    }
    forall u, lane ensures GlobalOf(p.s.lanes.globals, u, lane) == GlobalIn(notes + [note], u, lane) {
      assert GlobalOf(s.lanes.globals, u, lane) == GlobalIn(notes, u, lane);
    }
  }

  lemma GlobalStep(h: Host, s: State, user: Address, lane: Lane, c: Bytes32, p: Pending, notes: Notes, note: Note)
    requires PinsAgree(s.lanes, notes)
    requires (note.op == SetGlobal(user, lane, c) && BeginSetGlobal(h, s, user, lane, c) == Ok(p))
      || (note.op == ClearGlobal(user, lane) && BeginClearGlobal(h, s, user, lane) == Ok(p))
    ensures PinsAgree(p.s.lanes, notes + [note])
  {
    InitOf(notes, note);
    forall u, x ensures PinAgrees(p.s.lanes.pinned, notes + [note], u, x) {
      assert PinAgrees(s.lanes.pinned, notes, u, x);
    }
    forall u, l ensures GlobalOf(p.s.lanes.globals, u, l) == GlobalIn(notes + [note], u, l) {
      assert GlobalOf(s.lanes.globals, u, l) == GlobalIn(notes, u, l);
    }
  }

  lemma RuleStep(h: Host, s: State, op: Op, p: Pending, notes: Notes, note: Note)
    requires RulesAgree(s.lanes, notes) && note.op == op && (op.SetPublicRule? || op.ClearPublicRule?) && Begin(h, s, op) == Ok(p)
    ensures RulesAgree(p.s.lanes, notes + [note])
  {
    N.PointersKept(h, s, op, p);
    if op.SetPublicRule? {
      SetRuleShape(h, s, op.user, op.ruleId, op.rule, p);
    } else {
      ClearRuleShape(h, s, op.user, op.ruleId, p);
    }
    RulesWritten(s.lanes, p.s.lanes, notes, note);
  }

  lemma RulesWritten(l: Lanes, l1: Lanes, notes: Notes, note: Note)
    requires RulesAgree(l, notes) && N.PointersOk(l1.rules, l1.globalPublic)
    requires note.op.SetPublicRule? ==>
      l1.rules == l.rules[(note.op.user, note.op.ruleId) := note.op.rule] && l1.globalPublic == l.globalPublic
    requires note.op.ClearPublicRule? ==>
      && l1.rules == l.rules - {(note.op.user, note.op.ruleId)}
      && l1.globalPublic == (if MarkOf(l.globalPublic, note.op.user) == Some(note.op.ruleId) && (note.op.user, note.op.ruleId) in l.rules
                             then l.globalPublic - {note.op.user} else l.globalPublic)
    requires note.op.SetPublicRule? || note.op.ClearPublicRule?
    ensures RulesAgree(l1, notes + [note])
  {
    InitOf(notes, note);
    forall u, r ensures RuleOf(l1.rules, u, r) == RuleIn(notes + [note], u, r) {
      assert RuleOf(l.rules, u, r) == RuleIn(notes, u, r);
    }
    forall u ensures MarkOf(l1.globalPublic, u) == PointerIn(notes + [note], u) {
      assert MarkOf(l.globalPublic, u) == PointerIn(notes, u);
    }
  }

  lemma PointerStep(h: Host, s: State, op: Op, p: Pending, notes: Notes, note: Note)
    requires RulesAgree(s.lanes, notes) && note.op == op && (op.SetGlobalPublic? || op.ClearGlobalPublic?) && Begin(h, s, op) == Ok(p)
    ensures RulesAgree(p.s.lanes, notes + [note])
  {
    N.PointersKept(h, s, op, p);
    if op.SetGlobalPublic? {
      SetPointerShape(h, s, op.user, op.ruleId, p);
    } else {
      ClearPointerShape(h, s, op.user, p);
    }
    PointerWritten(s.lanes, p.s.lanes, notes, note);
  }

  lemma PointerWritten(l: Lanes, l1: Lanes, notes: Notes, note: Note)
    requires RulesAgree(l, notes) && N.PointersOk(l1.rules, l1.globalPublic) && l1.rules == l.rules
    requires note.op.SetGlobalPublic? ==> l1.globalPublic == l.globalPublic[note.op.user := note.op.ruleId]
    requires note.op.ClearGlobalPublic? ==> l1.globalPublic == l.globalPublic - {note.op.user}
    requires note.op.SetGlobalPublic? || note.op.ClearGlobalPublic?
    ensures RulesAgree(l1, notes + [note])
  {
    InitOf(notes, note);
    forall u, r ensures RuleOf(l1.rules, u, r) == RuleIn(notes + [note], u, r) {
      assert RuleOf(l.rules, u, r) == RuleIn(notes, u, r);
    }
    forall u ensures MarkOf(l1.globalPublic, u) == PointerIn(notes + [note], u) {
      assert MarkOf(l.globalPublic, u) == PointerIn(notes, u);
    }
  }

  // ---- All lanes ----------------------------------------------------------

  ghost predicate LanesAgree(l: Lanes, notes: Notes) {
    KeysAgree(l.sessions, notes) && PinsAgree(l, notes) && RulesAgree(l, notes)
  }

  /** Lanes with the same keys on the same terms, pins, rules and pointers. */
  ghost predicate SameTerms(l: Lanes, l1: Lanes) {
    && (forall k :: KeyOf(l1.sessions, k) == KeyOf(l.sessions, k))
    && l1.pinned == l.pinned && l1.globals == l.globals && l1.rules == l.rules && l1.globalPublic == l.globalPublic
  }

  lemma SameTermsAgree(l: Lanes, l1: Lanes, notes: Notes, note: Note)
    requires LanesAgree(l, notes) && SameTerms(l, l1)
    requires !note.op.RegisterSession? && !EditsSession(note.op) && !EditsPins(note.op) && !EditsRules(note.op)
    ensures LanesAgree(l1, notes + [note])
  {
    KeysBeside(l.sessions, l1.sessions, notes, note);
    PinsBeside(l, notes, note);
    RulesBeside(l, notes, note);
  }

  lemma SpendTerms(s: State, l1: Lanes, key: Address, chosen: Option<Bytes32>, amount: I128)
    requires L.Spends(s, l1, key, chosen, amount)
    ensures SameTerms(s.lanes, l1)
  {
    var info := s.lanes.sessions[key];
    var selected := SelectedRule(info, chosen);
    var m1, m2 :| L.RuleRolled(s, s.lanes, m1, info.user, selected, amount)
      && L.RuleRolled(s, m1, m2, info.user, GlobalRule(s.lanes, info.user, selected), amount)
      && l1 == SpentFrom(m2, key, info, selected, amount, s.now);
    RolledFields(s, s.lanes, m1, info.user, selected, amount);
    RolledFields(s, m1, m2, info.user, GlobalRule(s.lanes, info.user, selected), amount);
    SpentTerms(s.lanes, m2, key, info, selected, amount, s.now);
  }

  lemma RolledFields(s: State, l: Lanes, l1: Lanes, owner: Address, ruleId: Option<Bytes32>, amount: I128)
    requires L.RuleRolled(s, l, l1, owner, ruleId, amount)
    ensures l1 == l.(usage := l1.usage, log := l1.log)
  {
  }

  lemma SpentTerms(l: Lanes, m: Lanes, key: Address, info: Session, selected: Option<Bytes32>, amount: I128, now: U64)
    requires m == l.(usage := m.usage, log := m.log) && key in l.sessions && info == l.sessions[key]
    ensures SameTerms(l, SpentFrom(m, key, info, selected, amount, now))
  {
  }

  lemma ProofTerms(h: Host, s: State, op: Op, p: Pending)
    requires (op.ReleaseBatch? || op.ReleaseKeyless?) && Begin(h, s, op) == Ok(p)
    ensures SameTerms(s.lanes, p.s.lanes)
  {
    var x := L.ProvenLanes(h, s, op, p);
    if x != L.Unmoved {
      var more := N.ProofEntries(h, s, p.s.lanes, x);
    }
  }

  lemma KeyEdits(h: Host, s: State, op: Op, p: Pending, notes: Notes, note: Note)
    requires KeysAgree(s.lanes.sessions, notes) && note.op == op && EditsSession(op) && Begin(h, s, op) == Ok(p)
    ensures KeysAgree(p.s.lanes.sessions, notes + [note])
  {
    if op.SetSessionPaused? {
      PauseAgrees(h, s, op.user, op.session, op.paused, p, notes, note);
    } else if op.UpdateSession? {
      LimitsAgree(h, s, op.user, op.session, op.newExpiry, op.newSpendCap, p, notes, note);
    } else {
      RevokeAgrees(h, s, op.user, op.session, p, notes, note);
    }
  }

  lemma PinEdits(h: Host, s: State, op: Op, p: Pending, notes: Notes, note: Note)
    requires PinsAgree(s.lanes, notes) && note.op == op && EditsPins(op) && Begin(h, s, op) == Ok(p)
    ensures PinsAgree(p.s.lanes, notes + [note])
  {
    if op.PinCommitment? || op.UnpinCommitment? {
      PinStep(h, s, op.user, op.commitment, p, notes, note);
    } else if op.SetGlobal? {
      GlobalStep(h, s, op.user, op.lane, op.commitment, p, notes, note);
    } else {
      GlobalStep(h, s, op.user, op.lane, ZERO32, p, notes, note);
    }
  }

  lemma RuleEdits(h: Host, s: State, op: Op, p: Pending, notes: Notes, note: Note)
    requires RulesAgree(s.lanes, notes) && note.op == op && EditsRules(op) && Begin(h, s, op) == Ok(p)
    ensures RulesAgree(p.s.lanes, notes + [note])
  {
    if op.SetPublicRule? || op.ClearPublicRule? {
      RuleStep(h, s, op, p, notes, note);
    } else {
      PointerStep(h, s, op, p, notes, note);
    }
  }

  lemma EditStep(h: Host, s: State, op: Op, p: Pending, notes: Notes, note: Note)
    requires LanesAgree(s.lanes, notes) && note.op == op && (EditsSession(op) || EditsPins(op) || EditsRules(op)) && Begin(h, s, op) == Ok(p)
    ensures LanesAgree(p.s.lanes, notes + [note])
  {
    var l, l1 := s.lanes, p.s.lanes;
    UntouchedShape(h, s, op, p);
    if EditsSession(op) {
      KeyEdits(h, s, op, p, notes, note);
    } else {
      KeysBeside(l.sessions, l1.sessions, notes, note);
    }
    if EditsPins(op) {
      PinEdits(h, s, op, p, notes, note);
    } else {
      PinsBeside(l, notes, note);
      PinsMoved(l, l1, notes + [note]);
    }
    if EditsRules(op) {
      RuleEdits(h, s, op, p, notes, note);
    } else {
      RulesBeside(l, notes, note);
      RulesMoved(l, l1, notes + [note]);
    }
  }

  lemma PinsMoved(l: Lanes, l1: Lanes, notes: Notes)
    requires PinsAgree(l, notes) && l1.pinned == l.pinned && l1.globals == l.globals
    ensures PinsAgree(l1, notes)
  {
  }

  lemma RulesMoved(l: Lanes, l1: Lanes, notes: Notes)
    requires RulesAgree(l, notes) && l1.rules == l.rules && l1.globalPublic == l.globalPublic
    ensures RulesAgree(l1, notes)
  {
  }

  lemma OpenStep(h: Host, s: State, op: Op, p: Pending, notes: Notes, note: Note)
    requires LanesAgree(s.lanes, notes) && note.op == op && op.RegisterSession? && Begin(h, s, op) == Ok(p)
    ensures LanesAgree(p.s.lanes, notes + [note])
  {
    var l, l1 := s.lanes, p.s.lanes;
    L.RegisterSessionShape(h, s, op, p);
    OpenAgrees(l.sessions, notes, note, l1.sessions[op.session]);
    PinsBeside(l, notes, note);
    PinsMoved(l, l1, notes + [note]);
    RulesBeside(l, notes, note);
    RulesMoved(l, l1, notes + [note]);
  }

  lemma LanesStep(h: Host, s: State, op: Op, p: Pending, notes: Notes, note: Note)
    requires LanesAgree(s.lanes, notes) && note.op == op && Begin(h, s, op) == Ok(p)
    ensures LanesAgree(p.s.lanes, notes + [note])
  {
    if EditsSession(op) || EditsPins(op) || EditsRules(op) {
      EditStep(h, s, op, p, notes, note);
    } else if op.RegisterSession? {
      OpenStep(h, s, op, p, notes, note);
    } else {
      BesideStep(h, s, op, p);
      SameTermsAgree(s.lanes, p.s.lanes, notes, note);
    }
  }

  lemma BesideStep(h: Host, s: State, op: Op, p: Pending)
    requires !EditsSession(op) && !EditsPins(op) && !EditsRules(op) && !op.RegisterSession? && Begin(h, s, op) == Ok(p)
    ensures SameTerms(s.lanes, p.s.lanes)
  {
    if op.ReleaseSession? {
      L.ReleaseSessionLanes(h, s, op.session, op.payee, op.amount, op.chosenRule, p);
      SpendTerms(s, p.s.lanes, op.session, op.chosenRule, op.amount);
    } else if op.ReleaseBatch? || op.ReleaseKeyless? {
      ProofTerms(h, s, op, p);
    } else {
      UntouchedLanes(h, s, op, p);
    }
  }

  // ---- Tasks --------------------------------------------------------------

  function OrderOf(t: Task): Order {
    Order(Some(t.user), t.orchestrator, t.asset, t.planCost, t.commitment, t.createdAt)
  }

  ghost predicate StepTold(b: Books, notes: Notes, id: nat, step: U64) {
    (id, step) in b.steps <==> StepIn(notes, id, step)
  }

  /** A task is as it was ordered; its end, its dispute and, while it is open, its paid steps are in the history. */
  ghost predicate TaskTold(b: Books, notes: Notes, id: nat)
    requires id in b.tasks && 1 <= id <= |OrdersIn(notes)|
  {
    var t := b.tasks[id];
    && OrdersIn(notes)[id - 1] == OrderOf(t) && t.spent == SpentIn(notes, id)
    && (t.completed <==> ClosedIn(notes, id)) && (t.disputed <==> DisputedIn(notes, id))
    && (!t.completed ==> forall step :: StepTold(b, notes, id, step))
  }

  predicate Known(op: Op, counter: nat) {
    TaskOf(op).Some? ==> 1 <= TaskOf(op).value <= counter
  }

  ghost predicate TasksAgree(b: Books, notes: Notes) {
    && |OrdersIn(notes)| == b.counter
    && (forall id: nat :: id in b.tasks <==> 1 <= id <= b.counter)
    && (forall id: nat {:trigger TaskTold(b, notes, id)} | 1 <= id <= b.counter :: TaskTold(b, notes, id))
    && (forall i | 0 <= i < |notes| :: Known(notes[i].op, b.counter))
  }

  lemma ClosedSnoc(notes: Notes, note: Note, id: nat)
    ensures ClosedIn(notes + [note], id) <==> ClosedIn(notes, id) || Ends(note.op, id)
  {
    var n1 := notes + [note];
    assert n1[|notes|] == note;
    if i :| 0 <= i < |notes| && Ends(notes[i].op, id) {
      assert n1[i] == notes[i];
    }
  }

  lemma DisputedSnoc(notes: Notes, note: Note, id: nat)
    ensures DisputedIn(notes + [note], id) <==> DisputedIn(notes, id) || Disputes(note.op, id)
  {
    var n1 := notes + [note];
    assert n1[|notes|] == note;
    if i :| 0 <= i < |notes| && Disputes(notes[i].op, id) {
      assert n1[i] == notes[i];
    }
  }

  lemma StepSnoc(notes: Notes, note: Note, id: nat, step: U64)
    ensures StepIn(notes + [note], id, step) <==> StepIn(notes, id, step) || Releases(note.op, id, step)
  {
    var n1 := notes + [note];
    assert n1[|notes|] == note;
    if i :| 0 <= i < |notes| && Releases(notes[i].op, id, step) {
      assert n1[i] == notes[i];
    }
  }

  lemma SpentSnoc(notes: Notes, note: Note, id: nat)
    ensures SpentIn(notes + [note], id) == SpentIn(notes, id) + if FirstOfStep(notes, note.op, id) then AmountOf(note.op) else 0
    ensures FirstOfStep(notes, note.op, id) ==> TaskOf(note.op) == Some(id)
  {
    InitOf(notes, note);
  }

  lemma OrdersSnoc(notes: Notes, note: Note)
    ensures !note.op.CreateTask? && !note.op.CreateTaskWithPolicy? ==> OrdersIn(notes + [note]) == OrdersIn(notes)
    ensures note.op.CreateTask? ==>
      OrdersIn(notes + [note]) == OrdersIn(notes) +
      [Order(OwnerIn(notes, note.op.orchestrator), note.op.orchestrator, note.op.asset, note.op.planCost, None, note.time)]
    ensures note.op.CreateTaskWithPolicy? ==>
      OrdersIn(notes + [note]) == OrdersIn(notes) +
      [Order(OwnerIn(notes, note.op.orchestrator), note.op.orchestrator, note.op.asset, note.op.planCost, Some(note.op.commitment), note.time)]
  {
    InitOf(notes, note);
  }

  /** A call about no task, or about another one, tells nothing new about this one. */
  lemma ToldBeside(b: Books, b1: Books, notes: Notes, note: Note, id: nat)
    requires id in b.tasks && 1 <= id <= |OrdersIn(notes)| && TaskTold(b, notes, id) && TaskOf(note.op) != Some(id)
    requires id in b1.tasks && b1.tasks[id] == b.tasks[id]
    requires forall step :: (id, step) in b1.steps <==> (id, step) in b.steps
    ensures |OrdersIn(notes + [note])| >= |OrdersIn(notes)| && TaskTold(b1, notes + [note], id)
  {
    OrdersSnoc(notes, note);
    ClosedSnoc(notes, note, id);
    DisputedSnoc(notes, note, id);
    SpentSnoc(notes, note, id);
    if !b.tasks[id].completed {
      forall step ensures StepTold(b1, notes + [note], id, step) {
        assert StepTold(b, notes, id, step);
        StepSnoc(notes, note, id, step);
      }
    }
  }

  lemma KnownSnoc(notes: Notes, note: Note, counter: nat, counter1: nat)
    requires (forall i | 0 <= i < |notes| :: Known(notes[i].op, counter)) && counter <= counter1 && Known(note.op, counter1)
    ensures forall i | 0 <= i < |notes + [note]| :: Known((notes + [note])[i].op, counter1)
  {
    forall i | 0 <= i < |notes + [note]| ensures Known((notes + [note])[i].op, counter1) {
      assert i < |notes| ==> Known(notes[i].op, counter);
    }
  }

  /** One task of the books moves, the others stay. */
  lemma OneTaskMoves(b: Books, b1: Books, notes: Notes, note: Note, id: nat)
    requires TasksAgree(b, notes) && TaskOf(note.op) == Some(id) && id in b.tasks && id in b1.tasks
    requires b1.counter == b.counter && b1.tasks == b.tasks[id := b1.tasks[id]]
    requires forall i, step | i != id :: (i, step) in b1.steps <==> (i, step) in b.steps
    requires OrdersIn(notes + [note]) == OrdersIn(notes) && TaskTold(b1, notes + [note], id)
    ensures TasksAgree(b1, notes + [note])
  {
    KnownSnoc(notes, note, b.counter, b.counter);
    forall i: nat | 1 <= i <= b1.counter ensures TaskTold(b1, notes + [note], i) {
      if i != id {
        assert TaskTold(b, notes, i);
        ToldBeside(b, b1, notes, note, i);
      }
    }
  }

  /** A call about no task. */
  lemma NoTaskMoves(b: Books, b1: Books, notes: Notes, note: Note)
    requires TasksAgree(b, notes) && TaskOf(note.op) == None && !note.op.CreateTask? && !note.op.CreateTaskWithPolicy?
    requires b1.counter == b.counter && b1.tasks == b.tasks && b1.steps == b.steps
    ensures TasksAgree(b1, notes + [note])
  {
    OrdersSnoc(notes, note);
    KnownSnoc(notes, note, b.counter, b.counter);
    forall i: nat | 1 <= i <= b1.counter ensures TaskTold(b1, notes + [note], i) {
      assert TaskTold(b, notes, i);
      ToldBeside(b, b1, notes, note, i);
    }
  }

  /** A release of a step: again, or for the first time. */
  lemma ReleaseTold(b: Books, b1: Books, notes: Notes, note: Note, id: nat, step: U64, amount: int)
    requires TasksAgree(b, notes) && id in b.tasks && !b.tasks[id].completed && TaskOf(note.op) == Some(id)
    requires forall st :: Releases(note.op, id, st) <==> st == step
    requires StepOf(note.op) == step && AmountOf(note.op) == amount
    requires if (id, step) in b.steps then b1.tasks == b.tasks && b1.counter == b.counter && b1.steps == b.steps
      else b1.tasks == RecordRelease(b, id, step, amount).tasks && b1.counter == b.counter && b1.steps == b.steps[(id, step) := amount]
    ensures TasksAgree(b1, notes + [note])
  {
    OrdersSnoc(notes, note);
    assert TaskTold(b, notes, id);
    ClosedSnoc(notes, note, id);
    DisputedSnoc(notes, note, id);
    SpentSnoc(notes, note, id);
    forall st ensures StepTold(b1, notes + [note], id, st) {
      assert StepTold(b, notes, id, st);
      StepSnoc(notes, note, id, st);
    }
    assert Releases(note.op, id, step) && StepTold(b, notes, id, step);
    assert TaskTold(b1, notes + [note], id);
    OneTaskMoves(b, b1, notes, note, id);
  }

  lemma CloseTold(b: Books, notes: Notes, note: Note, id: nat, split: Option<(nat, nat)>)
    requires TasksAgree(b, notes) && Ledger.Closable(b, id, split) && Ends(note.op, id)
    ensures TasksAgree(CloseTask(b, id, split), notes + [note])
  {
    var b1 := CloseTask(b, id, split);
    OrdersSnoc(notes, note);
    assert TaskTold(b, notes, id);
    ClosedSnoc(notes, note, id);
    DisputedSnoc(notes, note, id);
    SpentSnoc(notes, note, id);
    assert TaskTold(b1, notes + [note], id);
    OneTaskMoves(b, b1, notes, note, id);
  }

  lemma FreezeTold(b: Books, b1: Books, notes: Notes, note: Note, id: nat)
    requires TasksAgree(b, notes) && id in b.tasks && Disputes(note.op, id)
    requires b1.tasks == b.tasks[id := b.tasks[id].(disputed := true)] && b1.counter == b.counter && b1.steps == b.steps
    ensures TasksAgree(b1, notes + [note])
  {
    OrdersSnoc(notes, note);
    assert TaskTold(b, notes, id);
    ClosedSnoc(notes, note, id);
    DisputedSnoc(notes, note, id);
    SpentSnoc(notes, note, id);
    if !b.tasks[id].completed {
      forall st ensures StepTold(b1, notes + [note], id, st) {
        assert StepTold(b, notes, id, st);
        StepSnoc(notes, note, id, st);
      }
    }
    assert TaskTold(b1, notes + [note], id);
    OneTaskMoves(b, b1, notes, note, id);
  }

  /** Nothing is known of a task that does not exist yet. */
  lemma NothingTold(b: Books, notes: Notes, id: nat)
    requires TasksAgree(b, notes) && id > b.counter
    ensures !ClosedIn(notes, id) && !DisputedIn(notes, id) && forall step :: !StepIn(notes, id, step)
    ensures SpentIn(notes, id) == 0
  {
    forall i | 0 <= i < |notes| ensures TaskOf(notes[i].op) != Some(id) {
      assert Known(notes[i].op, b.counter);
    }
    NothingSpent(notes, id);
  }

  lemma {:induction false} NothingSpent(notes: Notes, id: nat)
    requires forall i | 0 <= i < |notes| :: TaskOf(notes[i].op) != Some(id)
    ensures SpentIn(notes, id) == 0
  {
    if notes != [] {
      NothingSpent(Init(notes), id);
    }
  }

  lemma CreateTold(b: Books, b1: Books, notes: Notes, note: Note, t: Task)
    requires TasksAgree(b, notes) && (note.op.CreateTask? || note.op.CreateTaskWithPolicy?)
    requires OrdersIn(notes + [note]) == OrdersIn(notes) + [OrderOf(t)] && !t.completed && !t.disputed && t.spent == 0
    requires b1.counter == b.counter + 1 && b1.tasks == b.tasks[b1.counter := t] && b1.steps == b.steps
    requires forall step :: (b1.counter, step) !in b.steps
    ensures TasksAgree(b1, notes + [note])
  {
    var id := b1.counter;
    KnownSnoc(notes, note, b.counter, b1.counter);
    NothingTold(b, notes, id);
    ClosedSnoc(notes, note, id);
    DisputedSnoc(notes, note, id);
    SpentSnoc(notes, note, id);
    forall step ensures StepTold(b1, notes + [note], id, step) {
      StepSnoc(notes, note, id, step);
    }
    forall i: nat | 1 <= i <= b1.counter ensures TaskTold(b1, notes + [note], i) {
      if i != id {
        assert TaskTold(b, notes, i);
        ToldBeside(b, b1, notes, note, i);
      }
    }
  }

  // ---- Entry points and tasks ---------------------------------------------

  lemma NoStepsYet(b: Books, id: nat)
    requires Ledger.BooksInv(b) && id !in b.tasks
    ensures forall step :: (id, step) !in b.steps
  {
    assert Ledger.IndexOk(b.tasks, b.stepIds, b.steps, b.nullifierIds, b.taskNullifiers, id);
  }

  lemma CreateStep(h: Host, s: State, orch: Address, asset: Address, planCost: I128, c: Option<Bytes32>, p: Pending, notes: Notes, note: Note)
    requires Ledger.BooksInv(s.books) && TasksAgree(s.books, notes) && OwnersAgree(s.ctl.owners, s.books.configs, notes) && note.time == s.now
    requires note.op == (if c.None? then CreateTask(orch, asset, planCost) else CreateTaskWithPolicy(orch, asset, planCost, c.value))
    requires BeginCreateTask(h, s, orch, asset, planCost, c) == Ok(p)
    ensures TasksAgree(p.s.books, notes + [note])
  {
    O.CreateShape(h, s, orch, asset, planCost, c, p);
    CreateCounts(h, s, orch, asset, planCost, c, p);
    assert OwnerOf(s.ctl.owners, orch) == OwnerIn(notes, orch);
    OrdersSnoc(notes, note);
    NoStepsYet(s.books, s.books.counter + 1);
    CreateTold(s.books, p.s.books, notes, note, Task(s.ctl.owners[orch], orch, asset, planCost, 0, false, false, c, s.now));
  }

  lemma CreateCounts(h: Host, s: State, orch: Address, asset: Address, planCost: I128, c: Option<Bytes32>, p: Pending)
    requires BeginCreateTask(h, s, orch, asset, planCost, c) == Ok(p)
    ensures p.s.books.counter == s.books.counter + 1 && p.s.books.steps == s.books.steps
  {
  }

  /** Nothing about tasks changes. */
  predicate TasksStay(b: Books, b1: Books) {
    b1.counter == b.counter && b1.tasks == b.tasks && b1.steps == b.steps
  }

  lemma PayStep(s: State, p: Pending, id: nat, step: U64, amount: int, asset: Address, to: Address, b0: Books, notes: Notes, note: Note)
    requires TasksAgree(s.books, notes) && id in s.books.tasks && !s.books.tasks[id].completed && TaskOf(note.op) == Some(id)
    requires forall st :: Releases(note.op, id, st) <==> st == step
    requires StepOf(note.op) == step && AmountOf(note.op) == amount
    requires (id, step) in s.books.steps ==> p.s == s
    requires (id, step) !in s.books.steps ==>
      && TasksStay(RecordRelease(s.books, id, step, amount), b0) && E.PaysOne(s, p, b0, asset, Some(id), to, amount)
    ensures TasksAgree(p.s.books, notes + [note])
  {
    ReleaseTold(s.books, p.s.books, notes, note, id, step, amount);
  }

  lemma PlainStep(h: Host, s: State, orch: Address, id: U64, step: U64, asset: Address, amount: I128, p: Pending, notes: Notes, note: Note)
    requires TasksAgree(s.books, notes) && note.op == ReleasePayment(orch, id, step, asset, amount)
    requires BeginReleasePayment(h, s, orch, id, step, asset, amount) == Ok(p)
    ensures TasksAgree(p.s.books, notes + [note])
  {
    E.ReleasePaymentShape(h, s, orch, id, step, asset, amount, p);
    PayStep(s, p, id, step, amount, asset, orch, RecordRelease(s.books, id, step, amount), notes, note);
  }

  lemma ProvedStep(h: Host, s: State, orch: Address, id: U64, step: U64, asset: Address, amount: I128, payee: Address, n: Bytes32,
                   proof: Proof, p: Pending, notes: Notes, note: Note)
    requires TasksAgree(s.books, notes) && note.op == ReleaseProved(orch, id, step, asset, amount, payee, n, proof)
    requires BeginReleaseProved(h, s, orch, id, step, asset, amount, payee, n, proof) == Ok(p)
    ensures TasksAgree(p.s.books, notes + [note])
  {
    E.ReleaseProvedShape(h, s, orch, id, step, asset, amount, payee, n, proof, p);
    PayStep(s, p, id, step, amount, asset, payee, E.Proved(s.books, id, step, amount, n), notes, note);
  }

  lemma BatchStep(h: Host, s: State, orch: Address, id: U64, step: U64, asset: Address, q: S.Batch, proof: Proof, p: Pending, notes: Notes,
                  note: Note)
    requires TasksAgree(s.books, notes) && note.op == ReleaseBatch(orch, id, step, asset, q, proof)
    requires BeginReleaseBatch(h, s, orch, id, step, asset, q, proof) == Ok(p)
    ensures TasksAgree(p.s.books, notes + [note])
  {
    E.ReleaseBatchShape(h, s, orch, id, step, asset, q, proof, p);
    ReleaseTold(s.books, p.s.books, notes, note, id, step, S.SumAmounts(q.amounts));
  }

  lemma ClosingStep(h: Host, s: State, op: Op, p: Pending, notes: Notes, note: Note)
    requires TasksAgree(s.books, notes) && note.op == op && (Ending(op) || op.ResolveDispute?) && Begin(h, s, op) == Ok(p)
    ensures TasksAgree(p.s.books, notes + [note])
  {
    if Ending(op) {
      E.EndingShape(h, s, op, p);
      CloseTold(s.books, notes, note, op.task, None);
    } else {
      E.ResolveShape(h, s, op.resolver, op.task, op.refund, op.payout, p);
      CloseTold(s.books, notes, note, op.task, Some((op.refund as nat, op.payout as nat)));
    }
  }

  lemma DisputeStep(h: Host, s: State, user: Address, id: U64, p: Pending, notes: Notes, note: Note)
    requires TasksAgree(s.books, notes) && note.op == RaiseDispute(user, id) && BeginRaiseDispute(h, s, user, id) == Ok(p)
    ensures TasksAgree(p.s.books, notes + [note])
  {
    FreezeTold(s.books, p.s.books, notes, note, id);
  }

  lemma SpendStays(h: Host, s: State, op: Op, p: Pending)
    requires (op.ReleaseSession? || op.ReleaseKeyless?) && Begin(h, s, op) == Ok(p)
    ensures TasksStay(s.books, p.s.books)
  {
    if op.ReleaseSession? {
      E.ReleaseSessionShape(h, s, op.session, op.payee, op.amount, op.chosenRule, p);
    } else {
      E.ReleaseKeylessShape(h, s, op.user, op.asset, op.commitment, op.batch, op.proof, op.global, p);
    }
  }

  lemma MoneyStays(h: Host, s: State, op: Op, p: Pending)
    requires (op.Deposit? || op.Withdraw? || op.ClaimFees?) && Begin(h, s, op) == Ok(p)
    ensures TasksStay(s.books, p.s.books)
  {
  }

  lemma ConfigStays(h: Host, s: State, op: Op, p: Pending)
    requires (op.RegisterSession? || op.RegisterOrchestrator? || op.UpdateOrchestrator?) && Begin(h, s, op) == Ok(p)
    ensures TasksStay(s.books, p.s.books)
  {
  }

  lemma MintStays(h: Host, s: State, to: Address, asset: Address, amount: nat, p: Pending)
    requires BeginMint(h, s, to, asset, amount) == Ok(p)
    ensures TasksStay(s.books, p.s.books)
  {
  }

  lemma TransferStays(h: Host, s: State, from: Address, to: Address, asset: Address, amount: nat, p: Pending)
    requires BeginTransfer(h, s, from, to, asset, amount) == Ok(p)
    ensures TasksStay(s.books, p.s.books)
  {
  }

  lemma TokensStay(h: Host, s: State, op: Op, p: Pending)
    requires (op.TokenMint? || op.TokenTransfer?) && Begin(h, s, op) == Ok(p)
    ensures TasksStay(s.books, p.s.books)
  {
    if op.TokenMint? {
      MintStays(h, s, op.to, op.asset, op.quantity, p);
    } else {
      TransferStays(h, s, op.from, op.to, op.asset, op.quantity, p);
    }
  }

  lemma NoTaskStep(h: Host, s: State, op: Op, p: Pending, notes: Notes, note: Note)
    requires TasksAgree(s.books, notes) && note.op == op && TaskOf(op) == None && !op.CreateTask? && !op.CreateTaskWithPolicy?
    requires Begin(h, s, op) == Ok(p)
    ensures TasksAgree(p.s.books, notes + [note])
  {
    if BooksUntouched(op) {
      UntouchedShape(h, s, op, p);
    } else if op.ReleaseSession? || op.ReleaseKeyless? {
      SpendStays(h, s, op, p);
    } else if op.Deposit? || op.Withdraw? || op.ClaimFees? {
      MoneyStays(h, s, op, p);
    } else if op.TokenMint? || op.TokenTransfer? {
      TokensStay(h, s, op, p);
    } else {
      ConfigStays(h, s, op, p);
    }
    NoTaskMoves(s.books, p.s.books, notes, note);
  }

  lemma TasksStep(h: Host, s: State, op: Op, p: Pending, notes: Notes, note: Note)
    requires Ledger.BooksInv(s.books) && TasksAgree(s.books, notes) && OwnersAgree(s.ctl.owners, s.books.configs, notes)
    requires note == Note(op, s.now) && Begin(h, s, op) == Ok(p)
    ensures TasksAgree(p.s.books, notes + [note])
  {
    if op.CreateTask? {
      CreateStep(h, s, op.orchestrator, op.asset, op.planCost, None, p, notes, note);
    } else if op.CreateTaskWithPolicy? {
      CreateStep(h, s, op.orchestrator, op.asset, op.planCost, Some(op.commitment), p, notes, note);
    } else if op.ReleasePayment? {
      PlainStep(h, s, op.orchestrator, op.task, op.step, op.asset, op.amount, p, notes, note);
    } else if op.ReleaseProved? {
      ProvedStep(h, s, op.orchestrator, op.task, op.step, op.asset, op.amount, op.payee, op.nullifier, op.proof, p, notes, note);
    } else if op.ReleaseBatch? {
      BatchStep(h, s, op.orchestrator, op.task, op.step, op.asset, op.batch, op.proof, p, notes, note);
    } else if Ending(op) || op.ResolveDispute? {
      ClosingStep(h, s, op, p, notes, note);
    } else if op.RaiseDispute? {
      DisputeStep(h, s, op.user, op.task, p, notes, note);
    } else {
      NoTaskStep(h, s, op, p, notes, note);
    }
  }
}
