/** Worker accounting of internal/dispatcher/worker_pool.go: InitWorkerPool,
    SetMaxWorkers and the resize signal, an unbuffered channel whose send is
    dropped unless some worker is waiting to receive. Shutdown and panics are
    not modelled.
 */
module WorkerCount {

  const DEFAULT_MAX_WORKERS := 4

  /** A worker reaches its select, newly started or done with a job; or one that
      waits there takes a job. */
  datatype Move = Arrive | Leave

  /** How many of the live workers wait after these moves; an impossible move is not made. */
  function Waits(waiting: nat, live: nat, moves: seq<Move>): (after: nat)
    requires waiting <= live
    ensures after <= live
    decreases |moves|
  {
    if moves == [] then waiting
    else if moves[0].Arrive? then Waits(if waiting < live then waiting + 1 else waiting, live, moves[1..])
    else Waits(if waiting > 0 then waiting - 1 else 0, live, moves[1..])
  }

  /** Before a signal any number of the live workers may come to wait. */
  lemma {:induction false} AnyMayWait(waiting: nat, live: nat, target: nat) returns (moves: seq<Move>)
    requires waiting <= live && target <= live
    ensures Waits(waiting, live, moves) == target
    decreases if waiting <= target then target - waiting else waiting - target
  {
    if waiting == target {
      moves := [];
    } else if waiting < target {
      var rest := AnyMayWait(waiting + 1, live, target);
      moves := [Arrive] + rest;
    } else {
      var rest := AnyMayWait(waiting - 1, live, target);
      moves := [Leave] + rest;
    }
  }

  /** Workers and how many wait, and the resize signals dropped. */
  datatype Counts = Counts(waiting: nat, live: nat, dropped: nat)

  /** n resize signals sent, the workers moving before each: a signal stops a waiting
      worker, or is dropped. */
  function Shrunk(c: Counts, between: seq<seq<Move>>, n: nat): (after: Counts)
    requires c.waiting <= c.live && n <= |between|
    ensures after.waiting <= after.live
  {
    if n == 0 then c
    else
      var before := Shrunk(c, between, n - 1);
      var waiting := Waits(before.waiting, before.live, between[n - 1]);
      if waiting > 0 then Counts(waiting - 1, before.live - 1, before.dropped)
      else Counts(0, before.live, before.dropped + 1)
  }

  /** n workers started, the workers moving before each start; a new worker does not
      wait until it reaches its select. */
  function Grown(c: Counts, between: seq<seq<Move>>, n: nat): (after: Counts)
    requires c.waiting <= c.live && n <= |between|
    ensures after.waiting <= after.live && after.live == c.live + n && after.dropped == c.dropped
  {
    if n == 0 then c
    else
      var before := Grown(c, between, n - 1);
      Counts(Waits(before.waiting, before.live, between[n - 1]), before.live + 1, before.dropped)
  }

  /** Every signal stops a worker or is dropped, whatever the workers do meanwhile. */
  lemma {:induction false} EverySignalCounts(c: Counts, between: seq<seq<Move>>, n: nat)
    requires c.waiting <= c.live && n <= |between|
    ensures
      var after := Shrunk(c, between, n);
      c.dropped <= after.dropped <= c.dropped + n && after.live + n == c.live + (after.dropped - c.dropped)
  {
    if n > 0 { EverySignalCounts(c, between, n - 1); }
  }

  /** Some worker waits when signal i is sent. */
  predicate Received(c: Counts, between: seq<seq<Move>>, i: nat)
    requires c.waiting <= c.live && i < |between|
  {
    Waits(Shrunk(c, between, i).waiting, Shrunk(c, between, i).live, between[i]) > 0
  }

  lemma OneSignal(c: Counts, between: seq<seq<Move>>, n: nat)
    requires c.waiting <= c.live && n < |between|
    ensures Shrunk(c, between, n + 1).dropped ==
      Shrunk(c, between, n).dropped + if Received(c, between, n) then 0 else 1
  {
  }

  /** All are delivered exactly when some worker waits at each send. */
  lemma {:induction false} AllDeliveredIff(c: Counts, between: seq<seq<Move>>, n: nat)
    requires c.waiting <= c.live && n <= |between|
    ensures Shrunk(c, between, n).dropped == c.dropped <==> forall i | 0 <= i < n :: Received(c, between, i)
  {
    if n > 0 {
      AllDeliveredIff(c, between, n - 1);
      EverySignalCounts(c, between, n - 1);
      OneSignal(c, between, n - 1);
      hide Shrunk, Received;
    } else {
      assert Shrunk(c, between, 0) == c;
    }
  }

  class Pool {
    var maxWorkers: nat
    /** Live workers, and how many of them wait in their select. */
    var activeWorkers: nat
    var waiting: nat
    ghost var droppedSignals: nat

    /** The live count exceeds the configured maximum by exactly the resize
        signals dropped so far, so it is never below the maximum. */
    ghost predicate Valid()
      reads this
    {
      waiting <= activeWorkers && activeWorkers == maxWorkers + droppedSignals && maxWorkers >= 1
    }

    ghost function Now(): Counts
      reads this
    {
      Counts(waiting, activeWorkers, droppedSignals)
    }

    constructor Init(n: int, cpus: nat)
      requires cpus >= 1
      ensures Valid() && waiting == 0 && droppedSignals == 0
      ensures activeWorkers == maxWorkers && 1 <= maxWorkers <= 2 * cpus
      ensures 0 < n <= 2 * cpus ==> maxWorkers == n
      ensures n <= 0 && 4 <= 2 * cpus ==> maxWorkers == 4
      ensures 2 * cpus < n || (n <= 0 && 2 * cpus < 4) ==> maxWorkers == 2 * cpus
    {
      var wanted := if n <= 0 then DEFAULT_MAX_WORKERS else n;
      var maxAllowed := cpus * 2;
      if wanted > maxAllowed {
        wanted := maxAllowed;
      }
      maxWorkers := wanted;
      activeWorkers := wanted;
      waiting := 0;
      droppedSignals := 0;
    }

    /** Workers reaching their select and taking jobs. */
    method LetWorkersMove(moves: seq<Move>)
      requires waiting <= activeWorkers
      modifies this`waiting
      ensures waiting == Waits(old(waiting), activeWorkers, moves)
      decreases |moves|
    {
      if moves != [] {
        if moves[0].Arrive? {
          if waiting < activeWorkers { waiting := waiting + 1; }
        } else if waiting > 0 {
          waiting := waiting - 1;
        }
        LetWorkersMove(moves[1..]);
      }
    }

    /** `between[i]` is what the workers do before the i-th send or start. A shrink stops
        the workers its signals reach and drops the other signals; a growth starts the
        full difference on top of whoever a dropped signal left alive. */
    method SetMaxWorkers(newCount: int, between: seq<seq<Move>>)
      requires Valid() && |between| >= maxWorkers && |between| >= newCount
      modifies this
      ensures Valid()
      ensures maxWorkers == if newCount <= 0 then 1 else newCount
      ensures
        var before := old(Now());
        Now() == if maxWorkers < old(maxWorkers) then Shrunk(before, between, old(maxWorkers) - maxWorkers)
                 else Grown(before, between, maxWorkers - old(maxWorkers))
    {
      hide Waits;
      var target: nat := if newCount <= 0 then 1 else newCount;
      var current := maxWorkers;
      if target == current {
        return;
      }
      ghost var before := Now();
      if target > current {
        for i := 0 to target - current
          invariant Now() == Grown(before, between, i) && maxWorkers == current
        {
          LetWorkersMove(between[i]);
          activeWorkers := activeWorkers + 1;
        }
      } else {
        for i := 0 to current - target
          invariant Now() == Shrunk(before, between, i) && maxWorkers == current
        {
          LetWorkersMove(between[i]);
          if waiting > 0 {
            waiting := waiting - 1;
            activeWorkers := activeWorkers - 1;
          } else {
            droppedSignals := droppedSignals + 1;
          }
        }
        EverySignalCounts(before, between, current - target);
      }
      maxWorkers := target;
    }
  }

  lemma {:induction false} NobodyReceives(c: Counts, between: seq<seq<Move>>, n: nat)
    requires c.waiting == 0 && n <= |between| && forall i | 0 <= i < n :: between[i] == []
    ensures Shrunk(c, between, n) == Counts(0, c.live, c.dropped + n)
  {
    if n > 0 { NobodyReceives(c, between, n - 1); }
  }

  /** Shrinking and growing back leaves as many workers too many as signals were dropped
      on the way, all n of them if nobody ever waited: the pool has nothing that undoes a
      dropped signal. */
  method ShrinkAndRegrow(p: Pool, n: nat, down: seq<seq<Move>>, up: seq<seq<Move>>)
    requires p.Valid() && 1 <= n < p.maxWorkers && |down| >= p.maxWorkers && |up| >= p.maxWorkers
    modifies p
    ensures p.Valid() && p.maxWorkers == old(p.maxWorkers)
    ensures
      var dropped := Shrunk(old(p.Now()), down, old(p.maxWorkers) - n).dropped - old(p.droppedSignals);
      && p.activeWorkers == old(p.activeWorkers) + dropped
      && (old(p.waiting) == 0 && (forall i | 0 <= i < |down| :: down[i] == []) ==> dropped == p.maxWorkers - n)
  {
    var configured := p.maxWorkers;
    ghost var before := p.Now();
    p.SetMaxWorkers(n, down);
    EverySignalCounts(before, down, configured - n);
    if before.waiting == 0 && forall i | 0 <= i < |down| :: down[i] == [] {
      NobodyReceives(before, down, configured - n);
    }
    p.SetMaxWorkers(configured, up);
  }
}
