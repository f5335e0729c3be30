/**
 * The indexer: an event and its projection are stored together under a unique
 * cursor, so any number of instances that overlap, crash and start again apply
 * every event of the stream once and in order.
 */
module IndexerStore {
  import opened Base
  import opened VaultState
  import opened Mirror

  /** An event with its place in the stream. */
  datatype Noted = Noted(cursor: nat, event: Event)

  /** The event table, keyed by its unique cursor, and the mirror rows. */
  datatype Db = Db(events: map<nat, Event>, rows: Rows)

  /** One transaction: insert and project, or nothing when the cursor is taken. */
  function Store(db: Db, n: Noted): Db {
    if n.cursor in db.events then db else Db(db.events[n.cursor := n.event], Project(db.rows, n.event))
  }

  function StoreAll(db: Db, page: seq<Noted>): Db {
    if page == [] then db else Store(StoreAll(db, page[..|page| - 1]), page[|page| - 1])
  }

  /** The events of a page that are new, in order, each once. */
  function Fresh(db: Db, page: seq<Noted>): seq<Event> {
    if page == [] then []
    else
      var init, last := page[..|page| - 1], page[|page| - 1];
      Fresh(db, init) + if last.cursor in StoreAll(db, init).events then [] else [last.event]
  }

  function ProjectAll(rows: Rows, events: seq<Event>): Rows {
    if events == [] then rows else Project(ProjectAll(rows, events[..|events| - 1]), events[|events| - 1])
  }

  lemma {:induction false} StoredCursors(db: Db, page: seq<Noted>)
    ensures forall c :: c in StoreAll(db, page).events <==> c in db.events || exists i :: 0 <= i < |page| && page[i].cursor == c
  {
    if page != [] {
      var init := page[..|page| - 1];
      StoredCursors(db, init);
      forall c ensures c in StoreAll(db, page).events <==> c in db.events || exists i :: 0 <= i < |page| && page[i].cursor == c {
        if c in StoreAll(db, init).events && c !in db.events {
          var i :| 0 <= i < |init| && init[i].cursor == c;
          assert page[i].cursor == c;
        }
        if i :| 0 <= i < |page| && page[i].cursor == c {
          assert i < |init| ==> init[i].cursor == c;
        }
      }
    }
  }

  /** Only fresh events reach the mirror, in page order. */
  lemma {:induction false} RowsOfPage(db: Db, page: seq<Noted>)
    ensures StoreAll(db, page).rows == ProjectAll(db.rows, Fresh(db, page))
  {
    if page != [] {
      var init, last := page[..|page| - 1], page[|page| - 1];
      RowsOfPage(db, init);
      var news := Fresh(db, init);
      if last.cursor in StoreAll(db, init).events {
        assert Fresh(db, page) == news;
      } else {
        assert Fresh(db, page)[..|news|] == news;
      }
    }
  }

  /** A page whose cursors are all taken changes nothing. */
  lemma {:induction false} NothingFresh(db: Db, page: seq<Noted>)
    requires forall i | 0 <= i < |page| :: page[i].cursor in db.events
    ensures StoreAll(db, page) == db && Fresh(db, page) == []
  {
    if page != [] {
      NothingFresh(db, page[..|page| - 1]);
    }
  }

  /** Storing a page again, however it was split or repeated, applies nothing twice. */
  lemma StoreTwice(db: Db, page: seq<Noted>, again: seq<Noted>)
    requires forall n | n in again :: n in page
    ensures StoreAll(StoreAll(db, page), again) == StoreAll(db, page) && Fresh(StoreAll(db, page), again) == []
  {
    StoredCursors(db, page);
    forall i | 0 <= i < |again| ensures again[i].cursor in StoreAll(db, page).events {
      assert again[i] in again;
      var j :| 0 <= j < |page| && page[j] == again[i];
    }
    NothingFresh(StoreAll(db, page), again);
  }

  /** The indexer's database, updated event by event. */
  class Indexer {
    var chainEvents: map<nat, Event>
    var vaultAccounts: Rows
    var cursors: map<string, nat>

    constructor ()
      ensures Contents() == Db(map[], map[]) && cursors == map[]
    {
      chainEvents, vaultAccounts, cursors := map[], map[], map[];
    }

    function Contents(): Db
      reads this
    {
      Db(chainEvents, vaultAccounts)
    }

    /**
     * Insert new events and project each; a taken cursor is skipped, and any
     * other failure of the database, here at event `fault`, ends the call with
     * what came before it stored.
     */
    method PersistEvents(page: seq<Noted>, fault: nat) returns (r: Result<nat, string>)
      modifies this
      ensures var done := if fault < |page| then page[..fault] else page;
        && Contents() == StoreAll(old(Contents()), done)
        && r == (if fault < |page| then Err("database error") else Ok(|Fresh(old(Contents()), done)|))
      ensures cursors == old(cursors)
    {
      var applied := 0;
      for i := 0 to |page|
        invariant i <= fault
        invariant Contents() == StoreAll(old(Contents()), page[..i])
        invariant applied == |Fresh(old(Contents()), page[..i])|
        invariant cursors == old(cursors)
      {
        assert page[..i + 1][..i] == page[..i];
        if i == fault {
          return Err("database error");
        }
        if page[i].cursor !in chainEvents {
          chainEvents := chainEvents[page[i].cursor := page[i].event];
          ProjectVaultEvent(page[i].event);
          applied := applied + 1;
        }
      }
      assert page[..|page|] == page;
      return Ok(applied);
    }

    /** Mirror one event into the rows. */
    method ProjectVaultEvent(e: Event)
      modifies this`vaultAccounts
      ensures vaultAccounts == Project(old(vaultAccounts), e)
    {
      match e {
        case DepositEvent(user, asset, amount) =>
          if (user, asset) in vaultAccounts {
            var r := vaultAccounts[(user, asset)];
            vaultAccounts := vaultAccounts[(user, asset) :=
              r.(balance := r.balance + amount, totalDeposited := r.totalDeposited + amount)];
          } else {
            vaultAccounts := vaultAccounts[(user, asset) := Row(amount, 0, amount, 0, 0)];
          }
        case WithdrawEvent(user, asset, amount) =>
          if (user, asset) in vaultAccounts {
            var r := vaultAccounts[(user, asset)];
            vaultAccounts := vaultAccounts[(user, asset) := r.(balance := r.balance - amount)];
          } else {
            vaultAccounts := vaultAccounts[(user, asset) := Row(0, 0, 0, 0, 0)];
          }
        case TaskNewEvent(user, asset, planCost) =>
          if (user, asset) in vaultAccounts {
            var r := vaultAccounts[(user, asset)];
            vaultAccounts := vaultAccounts[(user, asset) := r.(locked := r.locked + planCost, activeTasks := r.activeTasks + 1)];
          } else {
            vaultAccounts := vaultAccounts[(user, asset) := Row(0, planCost, 0, 0, 1)];
          }
        case TaskDoneEvent(user, asset, spent, refund) =>
          var planCost := spent + refund;
          if (user, asset) in vaultAccounts {
            var r := vaultAccounts[(user, asset)];
            vaultAccounts := vaultAccounts[(user, asset) :=
              r.(locked := r.locked - planCost, balance := r.balance - spent, totalSpent := r.totalSpent + spent,
                 activeTasks := r.activeTasks - 1)];
          } else {
            vaultAccounts := vaultAccounts[(user, asset) := Row(0, 0, 0, 0, 0)];
          }
        case Other =>
      }
    }

    method GetCursor(key: string) returns (cursor: Option<nat>)
      ensures cursor == if key in cursors then Some(cursors[key]) else None
    {
      if key in cursors {
        return Some(cursors[key]);
      }
      return None;
    }

    method SetCursor(key: string, cursor: nat)
      modifies this`cursors
      ensures cursors == old(cursors)[key := cursor]
    {
      cursors := cursors[key := cursor];
    }
  }
}

/** Whole runs of any number of indexer instances over one growing stream. */
module IndexerRuns {
  import opened Base
  import opened VaultState
  import opened Mirror
  import opened IndexerStore

  const PAGE_LIMIT: nat := 100

  type Id = nat

  /** Where one instance is in its poll loop. */
  datatype Phase =
    | Idle
    | Asking(from: nat)                                       // has read the stored cursor, or falls back to its start
    | Storing(next: nat, upTo: nat, cursor: Option<nat>)      // has a page, and the cursor the server returned with it

  datatype World = World(
    stream: seq<Event>,
    db: Db,
    cursor: Option<nat>,
    configured: Option<nat>,              // the deployment's own place to start from, if it has one
    starts: map<Id, Option<nat>>,         // where each instance that is up falls back to
    phases: map<Id, Phase>)

  datatype Move =
    | Emit(event: Event)             // the chain grows
    | ReadCursor(id: Id)
    | FetchPage(id: Id, size: nat, withCursor: bool)
    | StoreNext(id: Id)              // one insert-and-project transaction
    | SetCursor(id: Id)
    | Restart(id: Id)                // any error that ends the poll
    | Boot(id: Id)                   // the process starts, for the first time or after a crash

  function PhaseOf(w: World, id: Id): Phase {
    if id in w.phases then w.phases[id] else Idle
  }

  function At(w: World, id: Id, phase: Phase): World {
    w.(phases := w.phases[id := phase])
  }

  /** One move; one that is not possible leaves the world as it is. */
  function Act(w: World, m: Move): World {
    match m
    case Emit(event) => w.(stream := w.stream + [event])
    case ReadCursor(id) =>
      if id in w.starts && PhaseOf(w, id).Idle? && (w.cursor.Some? || w.starts[id].Some?) then
        At(w, id, Asking(if w.cursor.Some? then w.cursor.value else w.starts[id].value))
      else w
    case FetchPage(id, size, withCursor) =>
      var phase := PhaseOf(w, id);
      if phase.Asking? && size <= PAGE_LIMIT && phase.from + size <= |w.stream| then
        var upTo := phase.from + size;
        At(w, id, Storing(phase.from, upTo, if withCursor then Some(upTo) else None))
      else w
    case StoreNext(id) =>
      var phase := PhaseOf(w, id);
      if phase.Storing? && phase.next < phase.upTo && phase.upTo <= |w.stream| then
        At(w.(db := Store(w.db, Noted(phase.next, w.stream[phase.next]))), id, phase.(next := phase.next + 1))
      else w
    case SetCursor(id) =>
      var phase := PhaseOf(w, id);
      if phase.Storing? && phase.next == phase.upTo then
        At(if phase.cursor.Some? then w.(cursor := phase.cursor) else w, id, Idle)
      else w
    case Restart(id) => At(w, id, Idle)
    case Boot(id) => At(w.(starts := w.starts[id := StartAt(w)]), id, Idle)
  }

  /** The configured start; without one the end of the stream, unless a cursor is stored. */
  function StartAt(w: World): Option<nat> {
    if w.configured.Some? then w.configured else if w.cursor.None? then Some(|w.stream|) else None
  }

  function Play(w: World, moves: seq<Move>): World {
    if moves == [] then w else Act(Play(w, moves[..|moves| - 1]), moves[|moves| - 1])
  }

  /** A fresh deployment: nothing stored, and every instance that is up is idle. */
  predicate FreshWorld(w: World) {
    w.db == Db(map[], map[]) && w.cursor == None && w.phases == map[]
  }

  predicate CommonStart(w: World, start: nat) {
    start <= |w.stream| && forall id | id in w.starts :: w.starts[id] == Some(start)
  }

  /** Every process that starts without finding a cursor is configured to start there too. */
  predicate BootsAgree(w: World, moves: seq<Move>, start: nat) {
    forall i | 0 <= i < |moves| && moves[i].Boot? :: w.configured == Some(start) || Play(w, moves[..i]).cursor.Some?
  }

  /** As long as no cursor is stored, every instance falls back to the common start. */
  predicate FallBacks(w: World, start: nat) {
    w.cursor.None? ==> forall id | id in w.starts :: w.starts[id] == Some(start)
  }

  // ---- The invariant ------------------------------------------------------

  /** Exactly the events from `start` up to `end` are recorded, and the mirror is their fold. */
  ghost predicate Prefix(w: World, start: nat, end: nat) {
    && start <= end <= |w.stream|
    && (forall c :: c in w.db.events <==> start <= c < end)
    && (forall c | start <= c < end :: w.db.events[c] == w.stream[c])
    && w.db.rows == Fold(w.stream[start..end])
  }

  /** No instance is ahead of what is recorded. */
  predicate Behind(phase: Phase, start: nat, end: nat, length: nat) {
    match phase
    case Idle => true
    case Asking(from) => start <= from <= end
    case Storing(next, upTo, cursor) =>
      start <= next <= end && next <= upTo <= length && (cursor.Some? ==> cursor.value == upTo)
  }

  ghost predicate Safe(w: World, start: nat, end: nat) {
    match w
    case World(stream, _, cursor, _, _, _) =>
      && FallBacks(w, start)
      && Prefix(w, start, end)
      && (cursor.Some? ==> start <= cursor.value <= end)
      && forall id :: Behind(PhaseOf(w, id), start, end, |stream|)
  }

  lemma StoreAtEnd(w: World, start: nat, end: nat)
    requires Prefix(w, start, end) && end < |w.stream|
    ensures Prefix(w.(db := Store(w.db, Noted(end, w.stream[end]))), start, end + 1)
  {
    assert w.stream[start..end + 1][..end - start] == w.stream[start..end];
    assert w.stream[start..end + 1][end - start] == w.stream[end];
  }

  lemma StoreBefore(w: World, c: nat, start: nat, end: nat)
    requires Prefix(w, start, end) && start <= c < end
    ensures Store(w.db, Noted(c, w.stream[c])) == w.db
  {
    assert c in w.db.events;
  }

  lemma EmitKeepsPrefix(w: World, e: Event, start: nat, end: nat)
    requires Prefix(w, start, end)
    ensures Prefix(w.(stream := w.stream + [e]), start, end)
  {
    assert (w.stream + [e])[start..end] == w.stream[start..end];
  }

  /** An instance moves on to a phase that is not ahead either. */
  lemma AtKeeps(w: World, id: Id, phase: Phase, start: nat, end: nat)
    requires Safe(w, start, end) && Behind(phase, start, end, |w.stream|)
    ensures Safe(At(w, id, phase), start, end)
  {
    var w1 := At(w, id, phase);
    forall i ensures Behind(PhaseOf(w1, i), start, end, |w1.stream|) {
      assert Behind(PhaseOf(w, i), start, end, |w.stream|);
    }
  }

  /** The next event is recorded. */
  lemma NextStored(w: World, start: nat, end: nat)
    requires Safe(w, start, end) && end < |w.stream|
    ensures Safe(w.(db := Store(w.db, Noted(end, w.stream[end]))), start, end + 1)
  {
    var w1 := w.(db := Store(w.db, Noted(end, w.stream[end])));
    StoreAtEnd(w, start, end);
    forall i ensures Behind(PhaseOf(w1, i), start, end + 1, |w1.stream|) {
      assert Behind(PhaseOf(w, i), start, end, |w.stream|);
    }
  }

  predicate CanStore(w: World, id: Id) {
    var phase := PhaseOf(w, id);
    phase.Storing? && phase.next < phase.upTo <= |w.stream|
  }

  lemma StoreMoves(w: World, id: Id, w1: World)
    requires CanStore(w, id) && w1 == w.(db := Store(w.db, Noted(PhaseOf(w, id).next, w.stream[PhaseOf(w, id).next])))
    ensures var phase := PhaseOf(w, id); Act(w, StoreNext(id)) == At(w1, id, phase.(next := phase.next + 1))
  {
  }

  lemma StoresNew(w: World, id: Id, start: nat, end: nat)
    requires Safe(w, start, end) && CanStore(w, id) && PhaseOf(w, id).next == end
    ensures Safe(Act(w, StoreNext(id)), start, end + 1)
  {
    var phase, w1 := PhaseOf(w, id), w.(db := Store(w.db, Noted(end, w.stream[end])));
    assert Behind(phase, start, end, |w.stream|);
    NextStored(w, start, end);
    AtKeeps(w1, id, phase.(next := end + 1), start, end + 1);
    StoreMoves(w, id, w1);
  }

  lemma StoresAgain(w: World, id: Id, start: nat, end: nat)
    requires Safe(w, start, end) && CanStore(w, id) && PhaseOf(w, id).next != end
    ensures Safe(Act(w, StoreNext(id)), start, end)
  {
    var phase := PhaseOf(w, id);
    assert Behind(phase, start, end, |w.stream|);
    StoreBefore(w, phase.next, start, end);
    AtKeeps(w, id, phase.(next := phase.next + 1), start, end);
    StoreMoves(w, id, w);
  }

  lemma StoreKeeps(w: World, id: Id, start: nat, end: nat) returns (end1: nat)
    requires Safe(w, start, end)
    ensures Safe(Act(w, StoreNext(id)), start, end1) && end <= end1 <= end + 1
  {
    end1 := end;
    if CanStore(w, id) {
      if PhaseOf(w, id).next == end {
        end1 := end + 1;
        StoresNew(w, id, start, end);
      } else {
        StoresAgain(w, id, start, end);
      }
    }
  }

  /** Every move of every instance keeps the recorded events a prefix; only a store of the next event extends it. */
  lemma ActKeeps(w: World, m: Move, start: nat, end: nat) returns (end1: nat)
    requires Safe(w, start, end) && (m.Boot? ==> w.configured == Some(start) || w.cursor.Some?)
    ensures Safe(Act(w, m), start, end1) && end <= end1 <= end + 1
  {
    var w1 := Act(w, m);
    end1 := end;
    match m {
      case Emit(event) => EmitKeepsPrefix(w, event, start, end);
      case StoreNext(id) => end1 := StoreKeeps(w, id, start, end);
      case ReadCursor(id) =>
      case FetchPage(id, _, _) => assert Behind(PhaseOf(w, id), start, end, |w.stream|);
      case SetCursor(id) => assert Behind(PhaseOf(w, id), start, end, |w.stream|);
      case Restart(_) =>
      case Boot(_) => assert w.configured == Some(start) ==> StartAt(w) == Some(start);
    }
    forall id ensures Behind(PhaseOf(w1, id), start, end1, |w1.stream|) {
      assert Behind(PhaseOf(w, id), start, end, |w.stream|);
    }
  }

  lemma {:induction false} ConfigKept(w: World, moves: seq<Move>)
    ensures Play(w, moves).configured == w.configured
  {
    if moves != [] {
      ConfigKept(w, moves[..|moves| - 1]);
    }
  }

  lemma BootsAgreeInit(w: World, moves: seq<Move>, start: nat)
    requires BootsAgree(w, moves, start) && moves != []
    ensures var init := moves[..|moves| - 1];
      && BootsAgree(w, init, start)
      && (moves[|moves| - 1].Boot? ==> w.configured == Some(start) || Play(w, init).cursor.Some?)
  {
    var init := moves[..|moves| - 1];
    forall i | 0 <= i < |init| && init[i].Boot? ensures w.configured == Some(start) || Play(w, init[..i]).cursor.Some? {
      assert init[..i] == moves[..i];
    }
  }

  lemma {:induction false} PlayKeeps(w: World, moves: seq<Move>, start: nat) returns (end: nat)
    requires FreshWorld(w) && CommonStart(w, start) && BootsAgree(w, moves, start)
    ensures Safe(Play(w, moves), start, end)
  {
    if moves == [] {
      end := start;
      assert w.stream[start..start] == [];
    } else {
      BootsAgreeInit(w, moves, start);
      ConfigKept(w, moves[..|moves| - 1]);
      var before := PlayKeeps(w, moves[..|moves| - 1], start);
      end := ActKeeps(Play(w, moves[..|moves| - 1]), moves[|moves| - 1], start, before);
    }
  }

  /**
   * Exactly once: however instances interleave, crash and start again from a
   * common start, the recorded events are a prefix of the stream, everything before the
   * stored cursor is in it even where a slow instance has moved the cursor back,
   * and the mirror is the fold of that prefix.
   */
  lemma ExactlyOnce(w: World, moves: seq<Move>, start: nat) returns (end: nat)
    requires FreshWorld(w) && CommonStart(w, start) && BootsAgree(w, moves, start)
    ensures var w1 := Play(w, moves);
      && start <= end <= |w1.stream|
      && (forall c :: c in w1.db.events <==> start <= c < end)
      && (forall c | start <= c < end :: w1.db.events[c] == w1.stream[c])
      && (w1.cursor.Some? ==> start <= w1.cursor.value <= end)
      && w1.db.rows == Fold(w1.stream[start..end])
  {
    end := PlayKeeps(w, moves, start);
  }

  lemma PlayOne(w: World, moves: seq<Move>, m: Move)
    ensures Play(w, moves + [m]) == Act(Play(w, moves), m)
  {
    assert (moves + [m])[..|moves|] == moves;
  }

  /** One instance goes through a poll of `size` events from where it stands, without setting the cursor. */
  lemma {:induction false} StoresPage(w: World, moves: seq<Move>, id: Id, next: nat, upTo: nat, cursor: Option<nat>)
    returns (more: seq<Move>)
    requires PhaseOf(Play(w, moves), id) == Storing(next, upTo, cursor) && next <= upTo <= |Play(w, moves).stream|
    ensures var w0, w1 := Play(w, moves), Play(w, more);
      && w1 == w0.(db := w1.db, phases := w0.phases[id := Storing(upTo, upTo, cursor)])
      && (forall c :: c in w1.db.events <==> c in w0.db.events || next <= c < upTo)
    decreases upTo - next
  {
    var w0 := Play(w, moves);
    if next == upTo {
      more := moves;
      assert w0.phases[id := Storing(upTo, upTo, cursor)] == w0.phases;
    } else {
      PlayOne(w, moves, StoreNext(id));
      more := StoresPage(w, moves + [StoreNext(id)], id, next + 1, upTo, cursor);
      assert w0.phases[id := Storing(next + 1, upTo, cursor)][id := Storing(upTo, upTo, cursor)]
          == w0.phases[id := Storing(upTo, upTo, cursor)];
    }
  }

  /** An idle instance can read the cursor and store a whole page, and is then about to set the cursor. */
  lemma Polls(w: World, moves: seq<Move>, id: Id, from: nat, size: nat) returns (more: seq<Move>)
    requires var w0 := Play(w, moves);
      && id in w0.starts && PhaseOf(w0, id).Idle? && size <= PAGE_LIMIT && from + size <= |w0.stream|
      && (w0.cursor.Some? || w0.starts[id].Some?)
      && from == if w0.cursor.Some? then w0.cursor.value else w0.starts[id].value
    ensures var w0, w1 := Play(w, moves), Play(w, more);
      && w1 == w0.(db := w1.db, phases := w0.phases[id := Storing(from + size, from + size, Some(from + size))])
      && (forall c :: c in w1.db.events <==> c in w0.db.events || from <= c < from + size)
  {
    var w0 := Play(w, moves);
    PlayOne(w, moves, ReadCursor(id));
    PlayOne(w, moves + [ReadCursor(id)], FetchPage(id, size, true));
    more := StoresPage(w, moves + [ReadCursor(id)] + [FetchPage(id, size, true)], id, from, from + size, Some(from + size));
    var done := Storing(from + size, from + size, Some(from + size));
    assert w0.phases[id := Asking(from)][id := Storing(from, from + size, Some(from + size))][id := done] == w0.phases[id := done];
  }

  predicate MovesBack(w: World, moves: seq<Move>, m: Move) {
    FreshWorld(w) && CommonStart(w, 0) && Play(w, moves).cursor == Some(2) && Act(Play(w, moves), m).cursor == Some(1)
  }

  /** A slow instance does move the stored cursor back. */
  lemma CursorMayMoveBack(e: Event, f: Event)
    ensures exists w, moves, m :: MovesBack(w, moves, m)
  {
    var w := World([e, f], Db(map[], map[]), None, None, map[0 := Some(0), 1 := Some(0)], map[]);
    assert Play(w, []) == w;
    var slow := Polls(w, [], 0, 0, 1);
    var fast := Polls(w, slow, 1, 0, 2);
    PlayOne(w, fast, SetCursor(1));
    assert MovesBack(w, fast + [SetCursor(1)], SetCursor(0));
  }

  // ---- Holes --------------------------------------------------------------

  predicate Past(phase: Phase, c: nat) {
    match phase
    case Idle => true
    case Asking(from) => from > c
    case Storing(next, upTo, cursor) => next > c && (cursor.Some? ==> cursor.value > c)
  }

  /** An event before the stored cursor is not recorded, and no instance is about to come back to it. */
  ghost predicate Hole(w: World, c: nat) {
    && c !in w.db.events && w.cursor.Some? && w.cursor.value > c
    && forall id :: Past(PhaseOf(w, id), c)
  }

  lemma HoleKept(w: World, m: Move, c: nat)
    requires Hole(w, c)
    ensures Hole(Act(w, m), c)
  {
    var w1 := Act(w, m);
    if m.StoreNext? || m.SetCursor? || m.FetchPage? {
      assert Past(PhaseOf(w, m.id), c);
    }
    forall id ensures Past(PhaseOf(w1, id), c) {
      assert Past(PhaseOf(w, id), c);
    }
  }

  /** A hole stays for good, whatever the instances go on to do. */
  lemma {:induction false} HoleStays(w: World, moves: seq<Move>, c: nat)
    requires Hole(w, c)
    ensures Hole(Play(w, moves), c)
  {
    if moves != [] {
      HoleStays(w, moves[..|moves| - 1], c);
      HoleKept(Play(w, moves[..|moves| - 1]), moves[|moves| - 1], c);
    }
  }

  lemma {:induction false} PlayMore(w: World, moves: seq<Move>, more: seq<Move>)
    ensures Play(w, moves + more) == Play(Play(w, moves), more)
  {
    if more == [] {
      assert moves + more == moves;
    } else {
      PlayMore(w, moves, more[..|more| - 1]);
      assert (moves + more)[..|moves + more| - 1] == moves + more[..|more| - 1];
    }
  }

  /** As long as no cursor is stored, one empty poll of an instance that starts after an event loses the event for good. */
  lemma PollOpensHole(w: World, id: Id, c: nat)
    requires id in w.starts && w.starts[id].Some? && c < w.starts[id].value <= |w.stream|
    requires w.cursor == None && c !in w.db.events && PhaseOf(w, id).Idle?
    requires forall i :: Past(PhaseOf(w, i), c)
    ensures Hole(Act(Act(Act(w, ReadCursor(id)), FetchPage(id, 0, true)), SetCursor(id)), c)
  {
    var b := w.starts[id].value;
    var w3 := Act(Act(Act(w, ReadCursor(id)), FetchPage(id, 0, true)), SetCursor(id));
    assert Act(w, ReadCursor(id)) == At(w, id, Asking(b));
    assert w3.cursor == Some(b);
    forall i ensures Past(PhaseOf(w3, i), c) {
      assert Past(PhaseOf(w, i), c);
    }
  }

  lemma PlayThree(w: World, a: Move, b: Move, c: Move)
    ensures Play(w, [a, b, c]) == Act(Act(Act(w, a), b), c)
  {
    assert [a, b, c][..2] == [a, b] && [a, b][..1] == [a] && [a][..0] == [];
    assert Play(w, [a]) == Act(Play(w, []), a);
    assert Play(w, [a, b]) == Act(Play(w, [a]), b);
  }

  /** Event `c` is missing after these moves, whatever moves come after them. */
  ghost predicate LostFor(w: World, moves: seq<Move>, c: nat) {
    forall more :: Hole(Play(w, moves + more), c)
  }

  ghost predicate AllLost(w: World, moves: seq<Move>, from: nat, to: nat) {
    forall c | from <= c < to :: LostFor(w, moves, c)
  }

  lemma HoleIsLost(w: World, moves: seq<Move>, c: nat)
    requires Hole(Play(w, moves), c)
    ensures LostFor(w, moves, c)
  {
    forall more ensures Hole(Play(w, moves + more), c) {
      PlayMore(w, moves, more);
      HoleStays(Play(w, moves), more, c);
    }
  }

  /**
   * Without a common start the property fails: of any two instances with
   * different starts the later one can lose all events up to its own for good,
   * behind a cursor that shows nothing of it.
   */
  lemma DifferentStartsLeaveHoles(w: World, i: Id, j: Id)
    requires FreshWorld(w) && i in w.starts && j in w.starts && w.starts[i].Some? && w.starts[j].Some?
    requires w.starts[i].value < w.starts[j].value <= |w.stream|
    ensures exists moves :: AllLost(w, moves, w.starts[i].value, w.starts[j].value)
  {
    var moves := [ReadCursor(j), FetchPage(j, 0, true), SetCursor(j)];
    PlayThree(w, ReadCursor(j), FetchPage(j, 0, true), SetCursor(j));
    forall c | w.starts[i].value <= c < w.starts[j].value ensures LostFor(w, moves, c) {
      PollOpensHole(w, j, c);
      HoleIsLost(w, moves, c);
    }
    assert AllLost(w, moves, w.starts[i].value, w.starts[j].value);
  }

  /**
   * Nor is one instance safe: without a configured start, one that goes down
   * before it has stored a cursor comes back at the end of the stream, and what
   * was emitted meanwhile can be lost for good.
   */
  lemma LateBootLeavesHole(w: World, id: Id, e: Event)
    requires FreshWorld(w) && w.configured == None
    ensures exists moves :: LostFor(w, [Boot(id), Emit(e), Boot(id)] + moves, |w.stream|)
  {
    var boots := [Boot(id), Emit(e), Boot(id)];
    PlayThree(w, Boot(id), Emit(e), Boot(id));
    var w1 := Play(w, boots);
    forall i ensures Past(PhaseOf(w1, i), |w.stream|) {
    }
    PollOpensHole(w1, id, |w.stream|);
    var polls := [ReadCursor(id), FetchPage(id, 0, true), SetCursor(id)];
    PlayThree(w1, ReadCursor(id), FetchPage(id, 0, true), SetCursor(id));
    PlayMore(w, boots, polls);
    HoleIsLost(w, boots + polls, |w.stream|);
  }
}

/** The indexer behind the vault: once it has caught up, its rows are the vault's accounts. */
module IndexerOfVault {
  import opened Base
  import opened Totals
  import opened VaultState
  import opened Execution
  import opened Ledger
  import opened Mirror
  import opened IndexerStore
  import opened IndexerRuns

  /** Every event of the stream is recorded. */
  predicate CaughtUp(w: World) {
    forall c | 0 <= c < |w.stream| :: c in w.db.events
  }

  /**
   * However its instances interleaved and crashed, an indexer that has caught up
   * with a vault's events shows each account exactly, apart from the drift of
   * session spends, keyless spends and settled disputes.
   */
  lemma RowsAreAccounts(h: Host, s0: State, steps: seq<Step>, w: World, moves: seq<Move>, user: Address, asset: Address)
    requires Initial(h, s0) && FreshWorld(w) && CommonStart(w, 0) && BootsAgree(w, moves, 0)
    requires Play(w, moves).stream == Run(h, s0, steps).s.books.events && CaughtUp(Play(w, moves))
    ensures var b, rows := Run(h, s0, steps).s.books, Play(w, moves).db.rows;
      && Reflects(b.accounts, b.journal, rows, user, asset, 0)
      && Total(rows, ActiveOf(user)) == ActiveIn(b.configs, user) + Sum(b.journal, CountDrift(user))
  {
    var w1 := Play(w, moves);
    var end := ExactlyOnce(w, moves, 0);
    AllRecorded(w1, end);
    MirrorRefines(h, s0, steps, user, asset);
  }

  lemma AllRecorded(w: World, end: nat)
    requires end <= |w.stream| && (forall c :: c in w.db.events <==> 0 <= c < end) && CaughtUp(w)
    requires w.db.rows == Fold(w.stream[0..end])
    ensures w.db.rows == Fold(w.stream)
  {
    assert end == |w.stream| by {
      assert end < |w.stream| ==> end in w.db.events;
    }
    assert w.stream[0..end] == w.stream;
  }
}
