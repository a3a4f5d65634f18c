/** The merge-lock lease protocol of internal/dataset/lock.go: the in-memory
    backend, the manager that caches local locks, and every interleaving of any
    number of managers on one monotone clock.
 */
module MergeLock {
  import opened Options
  import opened Decimal

  /** MergeLockDuration, in nanoseconds. */
  const LEASE: int := 30 * 60 * 1_000_000_000
  const MAX_LOCK_RETRIES := 3

  datatype Status = Active | Expired | Released

  datatype Lock = Lock(datasetID: string, lockID: string, acquiredAt: int, expiresAt: int, status: Status)

  type Locks = map<string, Lock>

  function LockID(datasetID: string, now: int): string {
    "lock_" + datasetID + "_" + Format(now)
  }

  lemma LockIDInjective(d1: string, t1: int, d2: string, t2: int)
    requires LockID(d1, t1) == LockID(d2, t2)
    ensures d1 == d2 && t1 == t2
  {
    assert ("lock_" + d1) + "_" + Format(t1) == ("lock_" + d2) + "_" + Format(t2);
    TaggedInjective("lock_" + d1, t1, "lock_" + d2, t2);
    assert d1 == ("lock_" + d1)[5..] && d2 == ("lock_" + d2)[5..];
  }

  /** Every stored entry is active, sits under its own dataset, and its ID names that dataset. */
  ghost predicate WellKept(locks: Locks) {
    forall d | d in locks ::
      locks[d].datasetID == d && locks[d].status == Active && locks[d].lockID == LockID(d, locks[d].acquiredAt)
  }

  ghost predicate IssuedFor(datasetID: string, lockID: string) {
    exists t :: lockID == LockID(datasetID, t)
  }

  lemma HolderIsUnique(locks: Locks, d: string, datasetID: string, lockID: string)
    requires WellKept(locks) && d in locks && locks[d].lockID == lockID && IssuedFor(datasetID, lockID)
    ensures d == datasetID
  {
    var t :| lockID == LockID(datasetID, t);
    LockIDInjective(d, locks[d].acquiredAt, datasetID, t);
  }

  // ---- What each backend call does to the table --------------------------

  predicate IsHeld(locks: Locks, datasetID: string, now: int) {
    datasetID in locks && locks[datasetID].status == Active && locks[datasetID].expiresAt > now
  }

  predicate Stores(locks: Locks, lockID: string) {
    exists d | d in locks :: locks[d].lockID == lockID
  }

  function Acquired(locks: Locks, datasetID: string, now: int, duration: int): Locks {
    if IsHeld(locks, datasetID, now) then locks
    else locks[datasetID := Lock(datasetID, LockID(datasetID, now), now, now + duration, Active)]
  }

  function Without(locks: Locks, lockID: string): Locks {
    map d | d in locks && locks[d].lockID != lockID :: locks[d]
  }

  function Extended(locks: Locks, lockID: string, now: int): Locks {
    map d | d in locks :: if locks[d].lockID == lockID then locks[d].(expiresAt := now + LEASE) else locks[d]
  }

  function Swept(locks: Locks, now: int): Locks {
    map d | d in locks && locks[d].expiresAt >= now :: locks[d]
  }

  /** One atomic action of some manager, or the passing of time. Lock IDs are
      arbitrary: a stale or foreign ID may be presented at any moment. */
  datatype Action =
    | Acquire(datasetID: string)
    | Heartbeat(lockID: string)
    | Release(lockID: string)
    | Cleanup
    | Tick(elapsed: nat)

  function TableAfter(now: int, locks: Locks, a: Action): Locks {
    match a
    case Acquire(d) => Acquired(locks, d, now, LEASE)
    case Heartbeat(id) => Extended(locks, id, now)
    case Release(id) => Without(locks, id)
    case Cleanup => Swept(locks, now)
    case Tick(_) => locks
  }

  function ClockAfter(now: int, a: Action): int {
    if a.Tick? then now + a.elapsed else now
  }

  lemma StaysWellKept(now: int, locks: Locks, a: Action)
    requires WellKept(locks)
    ensures WellKept(TableAfter(now, locks, a))
  {
    assert forall d | d in TableAfter(now, locks, a) :: d in locks || TableAfter(now, locks, a)[d].acquiredAt == now;
  }

  // ---- The backend object ------------------------------------------------

  class InMemoryMergeLockBackend {
    var locks: Locks
    /** What time.Now() returns; only moved forward, by Tick. */
    var clock: int

    ghost predicate Valid()
      reads this
    {
      WellKept(locks)
    }

    constructor (now: int)
      ensures Valid() && locks == map[] && clock == now
    {
      locks, clock := map[], now;
    }

    method AcquireLock(datasetID: string, duration: int) returns (granted: Option<(string, int)>)
      requires Valid()
      modifies this`locks
      ensures Valid()
      ensures locks == Acquired(old(locks), datasetID, clock, duration)
      ensures granted == if IsHeld(old(locks), datasetID, clock) then None
                         else Some((LockID(datasetID, clock), clock + duration))
      ensures granted.None? <==> datasetID in old(locks) && old(locks)[datasetID].expiresAt > clock
      ensures granted.None? ==> locks == old(locks)
      ensures granted.Some? ==>
        locks == old(locks)[datasetID := Lock(datasetID, granted.value.0, clock, clock + duration, Active)]
    {
      var now := clock;
      var expiresAt := now + duration;
      if datasetID in locks {
        var existing := locks[datasetID];
        if existing.status == Active && existing.expiresAt > now {
          return None;
        }
        if existing.expiresAt < now || existing.status == Expired {
          locks := locks - {datasetID};
        }
      }
      var lockID := LockID(datasetID, now);
      locks := locks[datasetID := Lock(datasetID, lockID, now, expiresAt, Active)];
      return Some((lockID, expiresAt));
    }

    /** The search loop of ReleaseLock and UpdateHeartbeat. */
    method Find(lockID: string) returns (found: Option<string>)
      ensures found.None? ==> !Stores(locks, lockID)
      ensures found.Some? ==> found.value in locks && locks[found.value].lockID == lockID
    {
      var todo := locks.Keys;
      while todo != {}
        invariant todo <= locks.Keys
        invariant forall d | d in locks.Keys - todo :: locks[d].lockID != lockID
        decreases |todo|
      {
        var d :| d in todo;
        if locks[d].lockID == lockID {
          return Some(d);
        }
        todo := todo - {d};
      }
      return None;
    }

    method ReleaseLock(lockID: string) returns (found: bool)
      requires Valid()
      modifies this`locks
      ensures Valid()
      ensures locks == Without(old(locks), lockID)
      ensures found <==> Stores(old(locks), lockID)
      ensures forall d :: d in locks <==> d in old(locks) && old(locks)[d].lockID != lockID
      ensures forall d | d in locks :: locks[d] == old(locks)[d]
    {
      var place := Find(lockID);
      if place.None? {
        assert locks == Without(locks, lockID);
        return false;
      }
      OneEntryPerID(locks, place.value, clock);
      locks := locks - {place.value};
      return true;
    }

    method UpdateHeartbeat(lockID: string) returns (found: bool)
      requires Valid()
      modifies this`locks
      ensures Valid()
      ensures locks == Extended(old(locks), lockID, clock)
      ensures found <==> Stores(old(locks), lockID)
      ensures locks.Keys == old(locks).Keys
      ensures forall d | d in locks ::
        locks[d] == if old(locks)[d].lockID == lockID then old(locks)[d].(expiresAt := clock + LEASE) else old(locks)[d]
    {
      var place := Find(lockID);
      if place.None? {
        assert locks == Extended(locks, lockID, clock);
        return false;
      }
      OneEntryPerID(locks, place.value, clock);
      assert Stores(locks, lockID);
      locks := locks[place.value := locks[place.value].(expiresAt := clock + LEASE)];
      return true;
    }

    method CleanupExpired()
      requires Valid()
      modifies this`locks
      ensures Valid()
      ensures locks == Swept(old(locks), clock)
      ensures forall d :: d in locks <==> d in old(locks) && clock <= old(locks)[d].expiresAt
      ensures forall d | d in locks :: locks[d] == old(locks)[d]
    {
      ghost var before := locks;
      SweepBounds(locks, clock);
      hide PartlySwept, WellKept, Swept;
      var todo := locks.Keys;
      while todo != {}
        invariant todo <= locks.Keys && todo <= before.Keys && locks == PartlySwept(before, clock, todo)
        decreases |todo|
      {
        var d :| d in todo;
        SweepOne(before, clock, todo, d);
        if locks[d].expiresAt < clock {
          locks := locks - {d};
        }
        todo := todo - {d};
      }
      StaysWellKept(clock, before, Cleanup);
      SweptIs(before, clock);
    }

    /** Actions of other managers and the passing of time, one after another. */
    method Perform(actions: seq<Action>)
      requires Valid()
      modifies this
      ensures Valid()
      ensures (clock, locks) == AfterAll(old(clock), old(locks), actions)
    {
      if actions != [] {
        match actions[0] {
          case Acquire(d) => var _ := AcquireLock(d, LEASE);
          case Heartbeat(id) => var _ := UpdateHeartbeat(id);
          case Release(id) => var _ := ReleaseLock(id);
          case Cleanup => CleanupExpired();
          case Tick(elapsed) => clock := clock + elapsed;
        }
        Perform(actions[1..]);
      }
    }
  }

  function AfterAll(now: int, locks: Locks, actions: seq<Action>): (int, Locks)
    decreases |actions|
  {
    if actions == [] then (now, locks)
    else AfterAll(ClockAfter(now, actions[0]), TableAfter(now, locks, actions[0]), actions[1..])
  }

  /** The table with only the entries `todo` left to look at. */
  ghost function PartlySwept(locks: Locks, now: int, todo: set<string>): Locks {
    map d | d in locks && (d in todo || locks[d].expiresAt >= now) :: locks[d]
  }

  lemma SweptIs(locks: Locks, now: int)
    ensures forall d :: d in Swept(locks, now) <==> d in locks && now <= locks[d].expiresAt
    ensures forall d | d in Swept(locks, now) :: Swept(locks, now)[d] == locks[d]
  {
  }

  lemma SweepBounds(locks: Locks, now: int)
    ensures PartlySwept(locks, now, locks.Keys) == locks
    ensures PartlySwept(locks, now, {}) == Swept(locks, now)
  {
  }

  lemma SweepOne(locks: Locks, now: int, todo: set<string>, d: string)
    requires d in todo && todo <= locks.Keys
    ensures todo <= PartlySwept(locks, now, todo).Keys && PartlySwept(locks, now, todo)[d] == locks[d]
    ensures
      var rest := PartlySwept(locks, now, todo - {d});
      && todo - {d} <= rest.Keys
      && rest == if locks[d].expiresAt < now then PartlySwept(locks, now, todo) - {d} else PartlySwept(locks, now, todo)
  {
  }

  lemma {:induction false} AfterBoth(now: int, locks: Locks, a: seq<Action>, b: seq<Action>)
    ensures AfterAll(now, locks, a + b) == AfterAll(AfterAll(now, locks, a).0, AfterAll(now, locks, a).1, b)
    decreases |a|
  {
    if a == [] {
      assert a + b == b;
    } else {
      assert (a + b)[1..] == a[1..] + b;
      AfterBoth(ClockAfter(now, a[0]), TableAfter(now, locks, a[0]), a[1..], b);
    }
  }

  lemma NothingDone(now: int, locks: Locks)
    ensures AfterAll(now, locks, []) == (now, locks)
  {
  }

  /** What others do before attempt i of one manager whose attempts so far were refused. */
  function Until(first: seq<Action>, between: seq<seq<Action>>, i: nat): seq<Action>
    requires i <= |between|
  {
    if i == 0 then first else Until(first, between, i - 1) + between[i - 1]
  }

  lemma {:induction false} UntilFirst(first: seq<Action>, between: seq<seq<Action>>, i: nat)
    requires i <= |between|
    ensures Until(first, between, i) == first + Until([], between, i)
  {
    if i > 0 { UntilFirst(first, between, i - 1); }
  }

  /** At this moment, no unexpired entry is stored for the dataset. */
  predicate Free(moment: (int, Locks), datasetID: string) {
    !(datasetID in moment.1 && moment.1[datasetID].expiresAt > moment.0)
  }

  /** One of the attempts the context leaves time for finds the dataset free. */
  ghost predicate FreeInTime(
      now: int, locks: Locks, first: seq<Action>, between: seq<seq<Action>>, doneAfter: nat, datasetID: string)
    requires |between| == MAX_LOCK_RETRIES
  {
    exists i: nat | i < 3 && i <= doneAfter :: Free(AfterAll(now, locks, Until(first, between, i)), datasetID)
  }

  lemma FreeAfterFirst(
      now: int, locks: Locks, first: seq<Action>, between: seq<seq<Action>>, doneAfter: nat, datasetID: string)
    requires |between| == MAX_LOCK_RETRIES
    ensures
      var t := AfterAll(now, locks, first);
      FreeInTime(t.0, t.1, [], between, doneAfter, datasetID)
      <==> FreeInTime(now, locks, first, between, doneAfter, datasetID)
  {
    var t := AfterAll(now, locks, first);
    forall i: nat | i < 3
      ensures AfterAll(t.0, t.1, Until([], between, i)) == AfterAll(now, locks, Until(first, between, i))
    {
      UntilFirst(first, between, i);
      AfterBoth(now, locks, first, Until([], between, i));
    }
    hide AfterAll, Until, Free;
  }

  /** Removing or extending by ID touches the one entry that has the ID. */
  lemma OneEntryPerID(locks: Locks, d: string, now: int)
    requires WellKept(locks) && d in locks
    ensures Without(locks, locks[d].lockID) == locks - {d}
    ensures Extended(locks, locks[d].lockID, now) == locks[d := locks[d].(expiresAt := now + LEASE)]
  {
    forall e | e in locks && locks[e].lockID == locks[d].lockID
      ensures e == d
    {
      LockIDInjective(e, locks[e].acquiredAt, d, locks[d].acquiredAt);
    }
  }

  // ---- The manager object ------------------------------------------------

  class MergeLockManager {
    var localLocks: map<string, string>
    const backend: InMemoryMergeLockBackend

    ghost predicate Valid()
      reads this, backend
    {
      backend.Valid() && forall d | d in localLocks :: IssuedFor(d, localLocks[d])
    }

    constructor (backend: InMemoryMergeLockBackend)
      requires backend.Valid()
      ensures Valid() && localLocks == map[] && this.backend == backend
    {
      localLocks := map[];
      this.backend := backend;
    }

    /** `first` is what other managers do after a failed heartbeat and before the first
        attempt, `between` what they do while this one waits after a failed attempt; the
        context counts as done after attempt number `doneAfter`. Success means that at
        this instant the backend maps the dataset to the returned ID with an expiry in
        the future. It comes exactly when the cached ID is still stored, or one of the
        attempts made finds no unexpired entry. */
    method AcquireMergeLock(datasetID: string, first: seq<Action>, between: seq<seq<Action>>, doneAfter: nat)
      returns (lockID: Option<string>)
      requires Valid() && |between| == MAX_LOCK_RETRIES
      modifies this`localLocks, backend
      ensures Valid()
      ensures lockID.Some? ==>
                Granted(datasetID, lockID.value) && localLocks == old(localLocks)[datasetID := lockID.value]
      ensures lockID.None? ==> localLocks == old(localLocks) - {datasetID}
      ensures datasetID in old(localLocks) && Stores(old(backend.locks), old(localLocks)[datasetID]) ==>
                lockID == Some(old(localLocks)[datasetID])
      ensures lockID.Some? <==>
        || (datasetID in old(localLocks) && Stores(old(backend.locks), old(localLocks)[datasetID]))
        || FreeInTime(old(backend.clock), old(backend.locks), first, between, doneAfter, datasetID)
    {
      hide AfterAll, IsHeld, WellKept, FreeInTime;
      FreeAfterFirst(backend.clock, backend.locks, first, between, doneAfter, datasetID);
      if datasetID in localLocks {
        var existing := localLocks[datasetID];
        var alive := Revalidate(datasetID, existing);
        if alive {
          assert localLocks == localLocks[datasetID := existing];
          return Some(existing);
        }
        localLocks := localLocks - {datasetID};
      }
      backend.Perform(first);
      lockID := Attempt(datasetID, between, doneAfter);
    }

    /** The attempts of AcquireMergeLock once no local lock is cached. */
    method Attempt(datasetID: string, between: seq<seq<Action>>, doneAfter: nat) returns (lockID: Option<string>)
      requires Valid() && |between| == MAX_LOCK_RETRIES
      modifies this`localLocks, backend
      ensures Valid()
      ensures lockID.Some? ==>
                Granted(datasetID, lockID.value) && localLocks == old(localLocks)[datasetID := lockID.value]
      ensures lockID.None? ==> localLocks == old(localLocks)
      ensures lockID.Some? <==>
        FreeInTime(old(backend.clock), old(backend.locks), [], between, doneAfter, datasetID)
    {
      hide AfterAll, WellKept, IsHeld;
      ghost var now, locks := backend.clock, backend.locks;
      assert AfterAll(now, locks, []) == (now, locks) by { NothingDone(now, locks); }
      for i := 0 to MAX_LOCK_RETRIES
        invariant Valid() && localLocks == old(localLocks) && i <= doneAfter
        invariant (backend.clock, backend.locks) == AfterAll(now, locks, Until([], between, i))
        invariant forall j: nat | j < i :: !Free(AfterAll(now, locks, Until([], between, j)), datasetID)
      {
        AfterBoth(now, locks, Until([], between, i), between[i]);
        var granted := backend.AcquireLock(datasetID, LEASE);
        if granted.Some? {
          assert IssuedFor(datasetID, granted.value.0);
          localLocks := localLocks[datasetID := granted.value.0];
          return Some(granted.value.0);
        }
        if i >= doneAfter {
          return None;
        }
        backend.Perform(between[i]);
      }
      return None;
    }

    /** The backend maps the dataset to this ID, with thirty minutes ahead. */
    ghost predicate Granted(datasetID: string, lockID: string)
      reads this, backend
    {
      && datasetID in backend.locks
      && backend.locks[datasetID].lockID == lockID
      && backend.locks[datasetID].expiresAt == backend.clock + 30 * 60 * 1_000_000_000
    }

    /** The heartbeat that decides whether a cached lock is still ours. */
    method Revalidate(datasetID: string, existing: string) returns (alive: bool)
      requires Valid() && IssuedFor(datasetID, existing)
      modifies backend`locks
      ensures Valid()
      ensures alive <==> Stores(old(backend.locks), existing)
      ensures alive ==> Granted(datasetID, existing)
      ensures !alive ==> backend.locks == old(backend.locks)
    {
      alive := backend.UpdateHeartbeat(existing);
      if alive {
        ghost var d :| d in old(backend.locks) && old(backend.locks)[d].lockID == existing;
        HolderIsUnique(old(backend.locks), d, datasetID, existing);
      } else {
        assert backend.locks == old(backend.locks);
      }
    }

    method ReleaseMergeLock(datasetID: string)
      requires Valid()
      modifies this`localLocks, backend`locks
      ensures Valid()
      ensures localLocks == old(localLocks) - {datasetID}
      ensures backend.locks ==
              if datasetID in old(localLocks) then Without(old(backend.locks), old(localLocks)[datasetID])
              else old(backend.locks)
    {
      if datasetID !in localLocks {
        assert localLocks == localLocks - {datasetID};
        return;
      }
      var _ := backend.ReleaseLock(localLocks[datasetID]);
      localLocks := localLocks - {datasetID};
    }
  }

  // ---- Every run of any number of managers --------------------------------

  /** A grant as its holder knows it: the lease it was promised, last extended
      by its own successful heartbeat. */
  datatype Grant = Grant(datasetID: string, lockID: string, at: int, expiresAt: int, released: bool)

  datatype World = World(now: int, locks: Locks, grants: seq<Grant>)

  function Initial(now: int): World {
    World(now, map[], [])
  }

  function Informed(g: Grant, w: World, a: Action): Grant {
    if a.Heartbeat? && g.lockID == a.lockID && Stores(w.locks, a.lockID) && !g.released then
      g.(expiresAt := w.now + LEASE)
    else if a.Release? && g.lockID == a.lockID && Stores(w.locks, a.lockID) then
      g.(released := true)
    else g
  }

  function Apply(w: World, a: Action): World {
    var grants := seq(|w.grants|, k requires 0 <= k < |w.grants| => Informed(w.grants[k], w, a));
    World(
      ClockAfter(w.now, a),
      TableAfter(w.now, w.locks, a),
      if a.Acquire? && !IsHeld(w.locks, a.datasetID, w.now)
      then grants + [Grant(a.datasetID, LockID(a.datasetID, w.now), w.now, w.now + LEASE, false)]
      else grants)
  }

  function Execute(w: World, actions: seq<Action>): World {
    if actions == [] then w else Apply(Execute(w, actions[..|actions| - 1]), actions[|actions| - 1])
  }

  predicate Leased(g: Grant, now: int) {
    !g.released && g.expiresAt > now
  }

  ghost predicate GrantsSound(w: World) {
    && (forall k | 0 <= k < |w.grants| :: GrantSound(w, w.grants[k]))
    && (forall k, l | 0 <= k < l < |w.grants| :: w.grants[k].at <= w.grants[l].at)
    && (forall k, l | 0 <= k < l < |w.grants| ::
          !w.grants[k].released && !w.grants[l].released ==> w.grants[k].lockID != w.grants[l].lockID)
  }

  ghost predicate GrantSound(w: World, g: Grant) {
    && g.lockID == LockID(g.datasetID, g.at)
    && g.at <= w.now && g.at + LEASE <= g.expiresAt
    && (g.datasetID in w.locks ==> g.at <= w.locks[g.datasetID].acquiredAt)
    && (Leased(g, w.now) ==>
          && g.datasetID in w.locks
          && w.locks[g.datasetID].lockID == g.lockID
          && w.locks[g.datasetID].expiresAt == g.expiresAt)
  }

  ghost predicate Sound(w: World) {
    WellKept(w.locks) && GrantsSound(w) && forall d | d in w.locks :: w.locks[d].acquiredAt <= w.now
  }

  lemma StoredUnder(w: World, g: Grant, lockID: string)
    requires Sound(w) && GrantSound(w, g) && g.lockID == lockID && Stores(w.locks, lockID)
    ensures g.datasetID in w.locks && w.locks[g.datasetID].lockID == lockID
  {
    var d :| d in w.locks && w.locks[d].lockID == lockID;
    HolderIsUnique(w.locks, d, g.datasetID, lockID);
  }

  lemma GrantStaysSound(w: World, a: Action, g: Grant)
    requires Sound(w) && GrantSound(w, g)
    ensures GrantSound(Apply(w, a), Informed(g, w, a))
  {
    if (a.Heartbeat? || a.Release?) && a.lockID == g.lockID && Stores(w.locks, g.lockID) {
      StoredUnder(w, g, g.lockID);
    }
  }

  /** An unreleased grant with the ID about to be issued would have been taken at
      this very instant, so its lease would still run and the dataset be held. */
  lemma NewIDIsFresh(w: World, datasetID: string, k: nat)
    requires Sound(w) && k < |w.grants| && !w.grants[k].released && !IsHeld(w.locks, datasetID, w.now)
    ensures w.grants[k].lockID != LockID(datasetID, w.now)
  {
    var g := w.grants[k];
    assert GrantSound(w, g);
    if g.lockID == LockID(datasetID, w.now) {
      LockIDInjective(g.datasetID, g.at, datasetID, w.now);
    }
  }

  lemma EachGrantStaysSound(w: World, a: Action)
    requires Sound(w)
    ensures var v := Apply(w, a); forall k | 0 <= k < |v.grants| :: GrantSound(v, v.grants[k])
  {
    var v := Apply(w, a);
    forall k | 0 <= k < |v.grants|
      ensures GrantSound(v, v.grants[k])
    {
      if k < |w.grants| { GrantStaysSound(w, a, w.grants[k]); }
    }
  }

  lemma GrantPairsStaySound(w: World, a: Action, k: nat, l: nat)
    requires Sound(w) && k < l < |Apply(w, a).grants|
    ensures var gs := Apply(w, a).grants;
            gs[k].at <= gs[l].at && (!gs[k].released && !gs[l].released ==> gs[k].lockID != gs[l].lockID)
  {
    var v := Apply(w, a);
    assert GrantSound(w, w.grants[k]);
    if l == |w.grants| && !v.grants[k].released { NewIDIsFresh(w, a.datasetID, k); }
  }

  lemma StepSound(w: World, a: Action)
    requires Sound(w)
    ensures Sound(Apply(w, a))
  {
    StaysWellKept(w.now, w.locks, a);
    EachGrantStaysSound(w, a);
    forall k, l | 0 <= k < l < |Apply(w, a).grants| {
      GrantPairsStaySound(w, a, k, l);
    }
  }

  lemma {:induction false} RunSound(now: int, actions: seq<Action>)
    ensures Sound(Execute(Initial(now), actions))
  {
    if actions != [] {
      RunSound(now, actions[..|actions| - 1]);
      StepSound(Execute(Initial(now), actions[..|actions| - 1]), actions[|actions| - 1]);
    }
  }

  /** At every moment of every run an unexpired, unreleased grant is the one the
      backend stores, so no dataset has two. */
  lemma MutualExclusion(now: int, actions: seq<Action>, k: nat)
    requires var w := Execute(Initial(now), actions); k < |w.grants| && Leased(w.grants[k], w.now)
    ensures var w := Execute(Initial(now), actions);
            var g := w.grants[k];
            && g.datasetID in w.locks
            && w.locks[g.datasetID].lockID == g.lockID
            && w.locks[g.datasetID].expiresAt == g.expiresAt
            && forall l | 0 <= l < |w.grants| && l != k && Leased(w.grants[l], w.now) ::
                 w.grants[l].datasetID != g.datasetID
  {
    RunSound(now, actions);
    var w := Execute(Initial(now), actions);
    forall l | 0 <= l < |w.grants| && l != k && Leased(w.grants[l], w.now)
      ensures w.grants[l].datasetID != w.grants[k].datasetID
    {
      assert GrantSound(w, w.grants[k]) && GrantSound(w, w.grants[l]);
    }
  }

  /** The stored expiry is one lease after a grant of the dataset, or after a heartbeat with
      the stored ID. */
  ghost predicate FromHistory(now: int, actions: seq<Action>, d: string) {
    var w := Execute(Initial(now), actions);
    d in w.locks ==>
      || (exists k | 0 <= k < |w.grants| ::
            w.grants[k].datasetID == d && w.locks[d].expiresAt == w.grants[k].at + LEASE)
      || (exists k | 0 <= k < |actions| ::
            actions[k] == Heartbeat(w.locks[d].lockID)
            && w.locks[d].expiresAt == Execute(Initial(now), actions[..k]).now + LEASE)
  }

  lemma {:induction false} ExpiryFromHistory(now: int, actions: seq<Action>, d: string)
    ensures FromHistory(now, actions, d)
  {
    if actions != [] {
      var n := |actions| - 1;
      var before := actions[..n];
      ExpiryFromHistory(now, before, d);
      var v, w := Execute(Initial(now), before), Execute(Initial(now), actions);
      hide Execute;
      assert forall k | 0 <= k < n :: before[..k] == actions[..k];
      if d in w.locks {
        if d in v.locks && w.locks[d] == v.locks[d] {
          GrantsStay(v, actions[n]);
        } else if actions[n].Acquire? {
          assert w.grants[|v.grants|].datasetID == d;
        } else {
          assert actions[n] == Heartbeat(w.locks[d].lockID);
        }
      }
    }
  }

  lemma GrantsStay(w: World, a: Action)
    ensures
      var v := Apply(w, a);
      |w.grants| <= |v.grants|
      && forall k | 0 <= k < |w.grants| ::
        v.grants[k].datasetID == w.grants[k].datasetID && v.grants[k].at == w.grants[k].at
  {
  }

  /** A holder that died is taken over from: if the dataset was not granted within the last
      lease, and no heartbeat came within it under any ID the dataset's locks can have, the
      next acquire is granted, whether or not a cleanup came in between. */
  lemma LapsedLeaseIsTaken(now: int, actions: seq<Action>, d: string)
    requires
      var w := Execute(Initial(now), actions);
      && (forall k | 0 <= k < |w.grants| && w.grants[k].datasetID == d :: w.grants[k].at + LEASE <= w.now)
      && forall k, t | 0 <= k < |actions| && actions[k] == Heartbeat(LockID(d, t)) ::
        Execute(Initial(now), actions[..k]).now + LEASE <= w.now
    ensures
      var w := Execute(Initial(now), actions);
      var v := Execute(Initial(now), actions + [Acquire(d)]);
      && v.grants == w.grants + [Grant(d, LockID(d, w.now), w.now, w.now + LEASE, false)]
      && v.locks == w.locks[d := Lock(d, LockID(d, w.now), w.now, w.now + LEASE, Active)]
  {
    var w := Execute(Initial(now), actions);
    assert (actions + [Acquire(d)])[..|actions|] == actions;
    assert d in w.locks ==> w.locks[d].expiresAt <= w.now by {
      hide Execute;
      ExpiryFromHistory(now, actions, d);
      RunSound(now, actions);
      assert d in w.locks ==> w.locks[d].lockID == LockID(d, w.locks[d].acquiredAt);
    }
    TakesOver(w, d);
  }

  lemma TakesOver(w: World, d: string)
    requires d in w.locks ==> w.locks[d].expiresAt <= w.now
    ensures
      var v := Apply(w, Acquire(d));
      && v.grants == w.grants + [Grant(d, LockID(d, w.now), w.now, w.now + LEASE, false)]
      && v.locks == w.locks[d := Lock(d, LockID(d, w.now), w.now, w.now + LEASE, Active)]
  {
  }

  /** A superseded lock is fenced: once the dataset was granted again at another
      instant, heartbeat and release with the old ID find nothing and leave the
      table as it is. Two grants of a dataset share an ID exactly when they were
      made at the same instant. */
  lemma SupersededIsFenced(now: int, actions: seq<Action>, k: nat, l: nat)
    requires var w := Execute(Initial(now), actions);
             k < l < |w.grants| && w.grants[k].datasetID == w.grants[l].datasetID
    ensures var w := Execute(Initial(now), actions);
            var stale := w.grants[k].lockID;
            && (stale == w.grants[l].lockID <==> w.grants[k].at == w.grants[l].at)
            && (stale != w.grants[l].lockID ==>
                  && !Stores(w.locks, stale)
                  && Extended(w.locks, stale, w.now) == w.locks
                  && Without(w.locks, stale) == w.locks)
  {
    RunSound(now, actions);
    var w := Execute(Initial(now), actions);
    var g, h := w.grants[k], w.grants[l];
    assert GrantSound(w, g) && GrantSound(w, h);
    if Stores(w.locks, g.lockID) {
      StoredUnder(w, g, g.lockID);
      LockIDInjective(g.datasetID, g.at, g.datasetID, w.locks[g.datasetID].acquiredAt);
    }
    if g.lockID == h.lockID {
      LockIDInjective(g.datasetID, g.at, h.datasetID, h.at);
    }
  }

  /** Fencing needs distinct instants: released and granted again within one
      clock reading, a dataset gets the same ID twice, and the first holder's
      repeated release then frees the second holder's lock. */
  lemma SameInstantIsNotFenced(now: int, d: string)
    ensures var stale := LockID(d, now);
            var w := Execute(Initial(now), [Acquire(d), Release(stale), Acquire(d)]);
            && |w.grants| == 2 && w.grants[0].released && w.grants[0].lockID == stale
            && Leased(w.grants[1], w.now) && w.grants[1].lockID == stale
            && Apply(w, Release(stale)).locks == map[]
  {
    var stale := LockID(d, now);
    var w0 := Initial(now);
    var w1, w2 := Apply(w0, Acquire(d)), Apply(Apply(w0, Acquire(d)), Release(stale));
    assert w1.locks.Keys == {d} && Stores(w1.locks, stale) by { assert w1.locks[d].lockID == stale; }
    assert w2.locks == map[];
    var w3 := Apply(w2, Acquire(d));
    var actions := [Acquire(d), Release(stale), Acquire(d)];
    assert actions[..2][..1][..0] == [] && actions[..2][..1] == [Acquire(d)];
    assert Execute(w0, []) == w0;
    assert Execute(w0, actions[..2][..1]) == w1;
    assert Execute(w0, actions[..2]) == w2;
    assert Execute(w0, actions) == w3;
    assert w3.locks.Keys == {d};
  }
}
