/**
 * A lock with a lease on a shared key-value server: set-if-absent with an
 * expiry, and compare-and-delete. Any number of processes, any interleaving,
 * with crashes and delayed messages.
 */
module LeaseServer {
  import opened Base

  type Token = nat

  datatype Entry = Entry(token: Token, expiry: nat)

  type Store = map<string, Entry>

  /** A key counts as set until its expiry. */
  predicate Live(store: Store, key: string, now: nat) {
    key in store && now < store[key].expiry
  }

  function SetIfAbsent(store: Store, key: string, token: Token, ttl: nat, now: nat): (Store, bool) {
    if Live(store, key, now) then (store, false) else (store[key := Entry(token, now + ttl)], true)
  }

  function CompareAndDelete(store: Store, key: string, token: Token, now: nat): Store {
    if Live(store, key, now) && store[key].token == token then store - {key} else store
  }

  /** The server, updated in place. */
  class Server {
    var store: Store
    var now: nat

    constructor (now: nat)
      ensures store == map[] && this.now == now
    {
      store, this.now := map[], now;
    }

    method SetNx(key: string, token: Token, ttl: nat) returns (ok: bool)
      modifies this`store
      ensures (store, ok) == SetIfAbsent(old(store), key, token, ttl, now)
    {
      if key in store && now < store[key].expiry {
        return false;
      }
      store := store[key := Entry(token, now + ttl)];
      return true;
    }

    /** The release script: only the holder of the stored token deletes it. */
    method Release(key: string, token: Token) returns (deleted: bool)
      modifies this`store
      ensures store == CompareAndDelete(old(store), key, token, now)
      ensures deleted <==> Live(old(store), key, now) && old(store)[key].token == token
      ensures Live(old(store), key, now) && old(store)[key].token != token ==> Live(store, key, now) && store[key] == old(store)[key]
    {
      if key in store && now < store[key].expiry && store[key].token == token {
        store := store - {key};
        return true;
      }
      return false;
    }
  }
}

module LeaseLock {
  import opened Base
  import opened LeaseServer

  type Pid = nat

  /** Where a process is in `withLock`; `expiry` is when the lease it was granted runs out. */
  datatype Phase =
    | Out
    | Trying(token: Token, since: nat)
    | Granted(token: Token, expiry: nat)      // the server has set the key, the reply is on its way
    | Inside(token: Token, expiry: nat)
    | Leaving(token: Token, expiry: nat)      // the section has ended, the release is on its way

  datatype World = World(store: Store, now: nat, nextToken: Token, phases: map<Pid, Phase>)

  datatype Config = Config(key: string, ttl: nat, maxWait: nat)

  datatype Step =
    | Tick(ms: nat)
    | Start(pid: Pid)        // draw a fresh token
    | TrySet(pid: Pid)
    | GiveUp(pid: Pid)
    | Enter(pid: Pid)
    | Finish(pid: Pid)       // the critical section returns or throws
    | Release(pid: Pid)
    | Crash(pid: Pid)

  function PhaseOf(w: World, pid: Pid): Phase {
    if pid in w.phases then w.phases[pid] else Out
  }

  function At(w: World, pid: Pid, phase: Phase): World {
    w.(phases := w.phases[pid := phase])
  }

  function Act(c: Config, w: World, step: Step): World {
    match step
    case Tick(ms) => w.(now := w.now + ms)
    case Start(pid) =>
      if PhaseOf(w, pid).Out? then At(w.(nextToken := w.nextToken + 1), pid, Trying(w.nextToken, w.now)) else w
    case TrySet(pid) =>
      var p := PhaseOf(w, pid);
      if !p.Trying? then w
      else
        var set_ := SetIfAbsent(w.store, c.key, p.token, c.ttl, w.now);
        if set_.1 then At(w.(store := set_.0), pid, Granted(p.token, w.now + c.ttl)) else w
    case GiveUp(pid) =>
      var p := PhaseOf(w, pid);
      if p.Trying? && w.now - p.since > c.maxWait then At(w, pid, Out) else w
    case Enter(pid) =>
      var p := PhaseOf(w, pid);
      if p.Granted? then At(w, pid, Inside(p.token, p.expiry)) else w
    case Finish(pid) =>
      var p := PhaseOf(w, pid);
      if p.Inside? then At(w, pid, Leaving(p.token, p.expiry)) else w
    case Release(pid) =>
      var p := PhaseOf(w, pid);
      if p.Leaving? then At(w.(store := CompareAndDelete(w.store, c.key, p.token, w.now)), pid, Out) else w
    case Crash(pid) => At(w, pid, Out)
  }

  function Play(c: Config, w: World, steps: seq<Step>): World {
    if steps == [] then w else Act(c, Play(c, w, steps[..|steps| - 1]), steps[|steps| - 1])
  }

  predicate Fresh(w: World) {
    w.store == map[] && w.phases == map[]
  }

  // ---- The invariant ------------------------------------------------------

  predicate HasToken(p: Phase, t: Token) {
    !p.Out? && p.token == t
  }

  predicate Leased(p: Phase) {
    p.Granted? || p.Inside? || p.Leaving?
  }

  /** A granted lease that has not run out is the one on the server. */
  predicate OnServer(c: Config, w: World, pid: Pid) {
    var p := PhaseOf(w, pid);
    Leased(p) && w.now < p.expiry ==> c.key in w.store && w.store[c.key] == Entry(p.token, p.expiry)
  }

  predicate TokenOld(w: World, pid: Pid) {
    PhaseOf(w, pid).Out? || PhaseOf(w, pid).token < w.nextToken
  }

  predicate TokensApart(w: World, p: Pid, q: Pid) {
    p != q && !PhaseOf(w, p).Out? ==> !HasToken(PhaseOf(w, q), PhaseOf(w, p).token)
  }

  ghost predicate Inv(c: Config, w: World) {
    && (forall pid :: OnServer(c, w, pid))
    && (forall pid :: TokenOld(w, pid))
    && (forall p, q :: TokensApart(w, p, q))
  }

  lemma ActKeeps(c: Config, w: World, step: Step)
    requires Inv(c, w)
    ensures Inv(c, Act(c, w, step))
  {
    var w1 := Act(c, w, step);
    forall pid ensures TokenOld(w1, pid) {
      assert TokenOld(w, pid);
    }
    forall p, q ensures TokensApart(w1, p, q) {
      assert TokensApart(w, p, q) && TokenOld(w, p) && TokenOld(w, q);
    }
    forall pid ensures OnServer(c, w1, pid) {
      assert OnServer(c, w, pid);
      if step.Release? || step.TrySet? {
        assert TokensApart(w, step.pid, pid);
      }
    }
  }

  lemma {:induction false} PlayKeeps(c: Config, w: World, steps: seq<Step>)
    requires Fresh(w)
    ensures Inv(c, Play(c, w, steps))
  {
    if steps != [] {
      PlayKeeps(c, w, steps[..|steps| - 1]);
      ActKeeps(c, Play(c, w, steps[..|steps| - 1]), steps[|steps| - 1]);
    }
  }

  // ---- Main results -------------------------------------------------------

  /** A release, however late, never takes the key from another process that holds an unexpired lease. */
  lemma ReleaseHarmsNobody(c: Config, w: World, steps: seq<Step>, pid: Pid, other: Pid)
    requires Fresh(w) && pid != other
    requires var p := PhaseOf(Play(c, w, steps), other); Leased(p) && Play(c, w, steps).now < p.expiry
    ensures var w1 := Play(c, w, steps);
      var w2 := Act(c, w1, Release(pid));
      var p := PhaseOf(w1, other);
      c.key in w2.store && w2.store[c.key] == Entry(p.token, p.expiry) && PhaseOf(w2, other) == p
  {
    PlayKeeps(c, w, steps);
    var w1 := Play(c, w, steps);
    assert OnServer(c, w1, other) && TokensApart(w1, pid, other) && TokensApart(w1, other, pid);
  }

  /** Every critical section in this state is still within its lease. */
  ghost predicate Timely(w: World) {
    forall pid :: PhaseOf(w, pid).Inside? ==> w.now < PhaseOf(w, pid).expiry
  }

  /** If every critical section ends before its lease runs out, no two processes are ever inside together. */
  lemma MutualExclusion(c: Config, w: World, steps: seq<Step>, p: Pid, q: Pid)
    requires Fresh(w) && Timely(Play(c, w, steps))
    requires PhaseOf(Play(c, w, steps), p).Inside? && PhaseOf(Play(c, w, steps), q).Inside?
    ensures p == q
  {
    PlayKeeps(c, w, steps);
    var w1 := Play(c, w, steps);
    assert OnServer(c, w1, p) && OnServer(c, w1, q) && TokensApart(w1, p, q);
  }

  lemma PlayOne(c: Config, w: World, steps: seq<Step>, step: Step)
    ensures Play(c, w, steps + [step]) == Act(c, Play(c, w, steps), step)
  {
    assert (steps + [step])[..|steps|] == steps;
  }

  /** From an idle state of the lock, a process can enter. */
  lemma CanEnter(c: Config, w: World, steps: seq<Step>, pid: Pid) returns (more: seq<Step>)
    requires var w0 := Play(c, w, steps); PhaseOf(w0, pid).Out? && !Live(w0.store, c.key, w0.now)
    ensures steps <= more
    ensures var w0, w1 := Play(c, w, steps), Play(c, w, more);
      && w1.now == w0.now && w1.store == w0.store[c.key := Entry(w0.nextToken, w0.now + c.ttl)]
      && w1.phases == w0.phases[pid := Inside(w0.nextToken, w0.now + c.ttl)]
  {
    var w0 := Play(c, w, steps);
    var t, e := w0.nextToken, w0.now + c.ttl;
    PlayOne(c, w, steps, Start(pid));
    var started := steps + [Start(pid)];
    assert Play(c, w, started) == w0.(nextToken := t + 1, phases := w0.phases[pid := Trying(t, w0.now)]);
    PlayOne(c, w, started, TrySet(pid));
    var granted := started + [TrySet(pid)];
    var w2 := Play(c, w, granted);
    assert w2.now == w0.now && w2.store == w0.store[c.key := Entry(t, e)];
    assert w2.phases == w0.phases[pid := Granted(t, e)] by {
      assert w0.phases[pid := Trying(t, w0.now)][pid := Granted(t, e)] == w0.phases[pid := Granted(t, e)];
    }
    PlayOne(c, w, granted, Enter(pid));
    more := granted + [Enter(pid)];
    assert w0.phases[pid := Granted(t, e)][pid := Inside(t, e)] == w0.phases[pid := Inside(t, e)];
  }

  /** How long the key stays set. */
  function LeaseLeft(c: Config, w: World): nat {
    if Live(w.store, c.key, w.now) then w.store[c.key].expiry - w.now else 0
  }

  /**
   * The condition is needed. From any state with a process inside and another
   * out, the other gets in beside it: at once when the lease on the server has
   * run out, else when it does.
   */
  lemma LateSectionsOverlap(c: Config, w: World, steps: seq<Step>, p: Pid, q: Pid) returns (more: seq<Step>)
    requires PhaseOf(Play(c, w, steps), p).Inside? && PhaseOf(Play(c, w, steps), q).Out?
    ensures steps <= more && PhaseOf(Play(c, w, more), p).Inside? && PhaseOf(Play(c, w, more), q).Inside?
    ensures Play(c, w, more).now == Play(c, w, steps).now + LeaseLeft(c, Play(c, w, steps))
  {
    var wait := Tick(LeaseLeft(c, Play(c, w, steps)));
    PlayOne(c, w, steps, wait);
    more := CanEnter(c, w, steps + [wait], q);
  }
}
