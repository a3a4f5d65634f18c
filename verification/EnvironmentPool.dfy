/** The runtime environment pool of cmd/agent/runtime/v2/manager.go. Environment
    objects are named by handles, so that an object and the directory key it is
    stored under stay apart: several objects can share a key.
 */
module EnvironmentPool {
  import opened Options

  datatype EnvState = Pending | Ready | Active | Warm | Invalid | Cleaning

  /** CachedEnvironment; `id` is the prefix of the dependency hash. */
  datatype Env = Env(key: string, id: string, state: EnvState, useCount: nat, lastUsed: int)

  /** What a caller of ExecuteWithMetrics has in hand. Invalidating lies between
      the two lock sections of InvalidateEnvironment. */
  datatype Hold = Holding(env: nat) | Invalidating(env: nat) | Invalidated(env: nat)

  datatype State = State(
    now: int, warmTimeout: int,
    envs: map<nat, Env>, table: map<string, nat>, callers: map<nat, Hold>)

  datatype Event =
    | Reuse(caller: nat, key: string, usable: bool)
    | Create(caller: nat, key: string, id: string, env: nat)
    | Release(caller: nat, keepWarm: bool)
    | MarkInvalid(caller: nat)
    | SweepInvalid(caller: nat)
    | Leave(caller: nat)
    | EvictionPass
    | FinishEviction(key: string, env: nat)
    | Shutdown
    | Tick(elapsed: nat)

  /** Found under its key, ready or warm. */
  predicate Reusable(s: State, key: string) {
    key in s.table && s.table[key] in s.envs &&
    (s.envs[s.table[key]].state == Ready || s.envs[s.table[key]].state == Warm)
  }

  function TTL(s: State): int {
    if s.warmTimeout <= 0 then 30 * 60 * 1_000_000_000 else s.warmTimeout
  }

  /** What an eviction pass turns to Cleaning. */
  predicate Evictable(s: State, env: nat) {
    && env in s.envs
    && (s.envs[env].state == Warm || s.envs[env].state == Ready)
    && s.now - s.envs[env].lastUsed > TTL(s)
    && env in s.table.Values
  }

  function Released(s: State, e: Env, keepWarm: bool): Env {
    if e.state == Cleaning then e
    else e.(state := if keepWarm && s.now - e.lastUsed < s.warmTimeout then Warm else Ready, lastUsed := s.now)
  }

  predicate Enabled(s: State, e: Event) {
    match e
    case Reuse(c, key, _) => c !in s.callers && Reusable(s, key)
    case Create(c, _, _, env) => c !in s.callers && env !in s.envs
    case Release(c, _) => c in s.callers && !s.callers[c].Invalidating? && s.callers[c].env in s.envs
    case MarkInvalid(c) => c in s.callers && s.callers[c].Holding? && s.callers[c].env in s.envs
    case SweepInvalid(c) => c in s.callers && s.callers[c].Invalidating? && s.callers[c].env in s.envs
    case Leave(c) => c in s.callers && s.callers[c].Invalidated?
    case FinishEviction(_, env) => env in s.envs && s.envs[env].state == Cleaning
    case _ => true
  }

  function EnvsAfter(s: State, e: Event): map<nat, Env>
    requires Enabled(s, e)
  {
    match e
    case Reuse(_, key, usable) =>
      var env := s.table[key];
      if usable
      then s.envs[env := s.envs[env].(state := Active, useCount := s.envs[env].useCount + 1, lastUsed := s.now)]
      else s.envs
    case Create(_, key, id, env) => s.envs[env := Env(key, id, Pending, 0, s.now)]
    case Release(c, keepWarm) =>
      var env := s.callers[c].env;
      s.envs[env := Released(s, s.envs[env], keepWarm)]
    case MarkInvalid(c) =>
      var env := s.callers[c].env;
      s.envs[env := s.envs[env].(state := Invalid)]
    case EvictionPass => map o | o in s.envs :: if Evictable(s, o) then s.envs[o].(state := Cleaning) else s.envs[o]
    case _ => s.envs
  }

  /** An unusable environment is dropped from the table before a new one is made;
      invalidation drops every entry with the same id; the end of an eviction
      drops whatever the key maps to by then. */
  function TableAfter(s: State, e: Event): map<string, nat>
    requires Enabled(s, e)
  {
    match e
    case Reuse(_, key, usable) => if usable then s.table else s.table - {key}
    case Create(_, key, _, env) => s.table[key := env]
    case SweepInvalid(c) =>
      var gone := s.envs[s.callers[c].env].id;
      map k | k in s.table && !(s.table[k] in s.envs && s.envs[s.table[k]].id == gone) :: s.table[k]
    case FinishEviction(key, _) => s.table - {key}
    case Shutdown => map[]
    case _ => s.table
  }

  function CallersAfter(s: State, e: Event): map<nat, Hold>
    requires Enabled(s, e)
  {
    match e
    case Reuse(c, key, usable) => if usable then s.callers[c := Holding(s.table[key])] else s.callers
    case Create(c, _, _, env) => s.callers[c := Holding(env)]
    case Release(c, _) => s.callers - {c}
    case MarkInvalid(c) => s.callers[c := Invalidating(s.callers[c].env)]
    case SweepInvalid(c) => s.callers[c := Invalidated(s.callers[c].env)]
    case Leave(c) => s.callers - {c}
    case _ => s.callers
  }

  /** One atomic step; an event that is not enabled changes nothing. */
  function Next(s: State, e: Event): State {
    if !Enabled(s, e) then s
    else State(if e.Tick? then s.now + e.elapsed else s.now, s.warmTimeout,
               EnvsAfter(s, e), TableAfter(s, e), CallersAfter(s, e))
  }

  function Run(s: State, events: seq<Event>): State {
    if events == [] then s else Next(Run(s, events[..|events| - 1]), events[|events| - 1])
  }

  function Initial(now: int, warmTimeout: int): State {
    State(now, warmTimeout, map[], map[], map[])
  }

  // ---- One holder per object ---------------------------------------------------

  predicate HoldSound(s: State, h: Hold) {
    && h.env in s.envs
    && (h.Holding? ==> s.envs[h.env].state == Pending || s.envs[h.env].state == Active)
    && (!h.Holding? ==> s.envs[h.env].state == Invalid)
    && (h.Invalidated? ==> h.env !in s.table.Values)
  }

  ghost predicate OneHolder(s: State) {
    forall a, b | a in s.callers && b in s.callers && a != b :: s.callers[a].env != s.callers[b].env
  }

  ghost predicate Sound(s: State) {
    && (forall c | c in s.callers :: HoldSound(s, s.callers[c]))
    && OneHolder(s)
    && (forall k | k in s.table :: s.table[k] in s.envs && s.envs[s.table[k]].key == k)
  }

  predicate Unheld(s: State, env: nat) {
    forall c | c in s.callers :: s.callers[c].env != env
  }

  /** What acquire can return and what eviction can mark is in nobody's hands. */
  lemma TakeableIsUnheld(s: State, env: nat)
    requires Sound(s) && env in s.envs
    requires s.envs[env].state == Ready || s.envs[env].state == Warm || s.envs[env].state == Cleaning
    ensures Unheld(s, env)
  {
    assert forall c | c in s.callers :: HoldSound(s, s.callers[c]);
  }

  lemma TableStaysKeyed(s: State, e: Event)
    requires Sound(s)
    ensures var t := Next(s, e); forall k | k in t.table :: t.table[k] in t.envs && t.envs[t.table[k]].key == k
  {
    if e.Release? && Enabled(s, e) { assert HoldSound(s, s.callers[e.caller]); }
  }

  lemma HoldersStayOne(s: State, e: Event)
    requires Sound(s)
    ensures OneHolder(Next(s, e))
  {
    hide EnvsAfter, TableAfter;
    if e.Reuse? && Enabled(s, e) { TakeableIsUnheld(s, s.table[e.key]); }
    if e.Create? && Enabled(s, e) { assert forall c | c in s.callers :: HoldSound(s, s.callers[c]); }
  }

  lemma HoldStaysSound(s: State, e: Event, c: nat)
    requires Sound(s) && Enabled(s, e) && c in CallersAfter(s, e)
    ensures HoldSound(Next(s, e), CallersAfter(s, e)[c])
  {
    if c in s.callers { assert HoldSound(s, s.callers[c]); }
    if e.Reuse? { TakeableIsUnheld(s, s.table[e.key]); }
    if e.SweepInvalid? && c == e.caller {
      var env := s.callers[c].env;
      assert forall k | k in s.table && s.table[k] == env :: s.envs[s.table[k]].id == s.envs[env].id;
    }
  }

  lemma StepSound(s: State, e: Event)
    requires Sound(s)
    ensures Sound(Next(s, e))
  {
    if Enabled(s, e) {
      hide EnvsAfter, TableAfter, CallersAfter, HoldSound, OneHolder;
      TableStaysKeyed(s, e);
      HoldersStayOne(s, e);
      forall c | c in CallersAfter(s, e) {
        HoldStaysSound(s, e, c);
      }
    }
  }

  lemma {:induction false} RunSound(s: State, events: seq<Event>)
    requires Sound(s)
    ensures Sound(Run(s, events))
  {
    hide Next, Sound;
    if events != [] {
      RunSound(s, events[..|events| - 1]);
      StepSound(Run(s, events[..|events| - 1]), events[|events| - 1]);
    }
  }

  /** In every run each object is in at most one caller's hands; what the next
      acquire returns or the next eviction pass marks is in nobody's. */
  lemma AtMostOneHolder(now: int, warmTimeout: int, events: seq<Event>)
    ensures var s := Run(Initial(now, warmTimeout), events);
            && OneHolder(s)
            && (forall key | Reusable(s, key) :: Unheld(s, s.table[key]))
            && (forall env | Evictable(s, env) :: Unheld(s, env))
            && (forall c | c in s.callers :: s.callers[c].env in s.envs && s.envs[s.callers[c].env].state != Cleaning)
  {
    RunSound(Initial(now, warmTimeout), events);
    var s := Run(Initial(now, warmTimeout), events);
    forall key | Reusable(s, key)
      ensures Unheld(s, s.table[key])
    {
      TakeableIsUnheld(s, s.table[key]);
    }
    forall env | Evictable(s, env)
      ensures Unheld(s, env)
    {
      TakeableIsUnheld(s, env);
    }
    assert forall c | c in s.callers :: HoldSound(s, s.callers[c]);
  }

  predicate IsCleaning(s: State, env: nat) {
    env in s.envs && s.envs[env].state == Cleaning
  }

  lemma CleaningStays(s: State, e: Event, env: nat)
    requires Sound(s) && IsCleaning(s, env)
    ensures IsCleaning(Next(s, e), env)
  {
    TakeableIsUnheld(s, env);
  }

  /** Once Cleaning, an object is never acquired, held or brought back. */
  lemma {:induction false} CleaningIsFinal(s: State, events: seq<Event>, env: nat)
    requires Sound(s) && IsCleaning(s, env)
    ensures IsCleaning(Run(s, events), env) && Unheld(Run(s, events), env)
  {
    hide Next, Sound, IsCleaning, Unheld;
    RunSound(s, events);
    if events != [] {
      CleaningIsFinal(s, events[..|events| - 1], env);
      RunSound(s, events[..|events| - 1]);
      CleaningStays(Run(s, events[..|events| - 1]), events[|events| - 1], env);
    }
    CleaningUnheld(Run(s, events), env);
  }

  lemma CleaningUnheld(s: State, env: nat)
    requires Sound(s) && IsCleaning(s, env)
    ensures Unheld(s, env)
  {
    TakeableIsUnheld(s, env);
  }

  predicate Unlinked(s: State, env: nat) {
    env in s.envs && env !in s.table.Values
  }

  lemma UnlinkedStays(s: State, e: Event, env: nat)
    requires Unlinked(s, env)
    ensures Unlinked(Next(s, e), env)
    ensures forall c | c in Next(s, e).callers && Next(s, e).callers[c].env == env ::
              c in s.callers && s.callers[c].env == env
  {
    if Enabled(s, e) { assert forall k | k in TableAfter(s, e) :: k in s.table || (e.Create? && k == e.key); }
  }

  /** An object out of the table, invalidated ones among them, never returns to
      it and never gets a new holder, also after the late release that follows an
      invalidation has set it to Ready. */
  lemma {:induction false} UnlinkedIsFinal(s: State, events: seq<Event>, env: nat)
    requires Unlinked(s, env)
    ensures var t := Run(s, events);
            Unlinked(t, env) &&
            forall c | c in t.callers && t.callers[c].env == env :: c in s.callers && s.callers[c].env == env
  {
    hide Next, Unlinked;
    if events != [] {
      UnlinkedIsFinal(s, events[..|events| - 1], env);
      UnlinkedStays(Run(s, events[..|events| - 1]), events[|events| - 1], env);
    }
  }

  // ---- What is not exclusive ------------------------------------------------------

  /** The pool a new object comes into: perhaps after an eviction pass. */
  function Before(s: State, evicting: bool): State {
    if evicting then Next(s, EvictionPass) else s
  }

  /** Exclusivity is per object: while a caller holds an Active environment, another
      object made for its key is in another caller's hands, on the same directory. */
  lemma TwoHoldersOneKey(s: State, d: nat, c: nat, key: string, id: string, env: nat, evicting: bool)
    requires Sound(s) && HoldsActive(s, d, key) && c !in s.callers && env !in s.envs
    ensures
      var held, t := s.table[key], Next(Before(s, evicting), Create(c, key, id, env));
      && t.callers[d] == Holding(held) && c in t.callers && t.callers[c] == Holding(env) && held != env
      && held in t.envs && env in t.envs && t.envs[held].key == t.envs[env].key == key && t.envs[held].state == Active
  {
    TableTarget(s, key);
    hide Sound;
  }

  /** Caller d holds the environment stored under the key, and it is Active. */
  predicate HoldsActive(s: State, d: nat, key: string) {
    && key in s.table && d in s.callers && s.callers[d] == Holding(s.table[key])
    && s.table[key] in s.envs && s.envs[s.table[key]].state == Active
  }

  /** The end of an eviction removes the key, not the object: a new environment
      that was put there in the meantime is unlinked while it is held. */
  lemma EvictionUnlinksSuccessor(s: State, key: string, evicted: nat, successor: nat, caller: nat, id: string)
    requires IsCleaning(s, evicted) && key in s.table && s.table[key] == evicted
    requires successor !in s.envs && caller !in s.callers
    requires successor !in s.table.Values
    ensures var t := Next(Next(s, Create(caller, key, id, successor)), FinishEviction(key, evicted));
            t.callers[caller] == Holding(successor) && Unlinked(t, successor)
  {
    var u := Next(s, Create(caller, key, id, successor));
    assert u.table == s.table[key := successor];
    assert forall k | k in u.table && u.table[k] == successor :: k == key;
  }

  /** Everybody else's table entries survive. */
  ghost predicate OthersKept(s: State, t: State, env: nat) {
    forall k | k in s.table && s.table[k] != env :: k in t.table && t.table[k] == s.table[k]
  }

  /** The end of the eviction of env is harmless to all other objects exactly when the key
      is free by then, or still maps to env: the check the code does not make. */
  lemma EvictionHarmlessIff(s: State, key: string, env: nat)
    requires IsCleaning(s, env)
    ensures OthersKept(s, Next(s, FinishEviction(key, env)), env) <==> (key in s.table ==> s.table[key] == env)
  {
    var t := Next(s, FinishEviction(key, env));
    if key in s.table && s.table[key] != env {
      assert key !in t.table;
    }
  }

  /** Step i of the run is an acquire that makes a new object under the key. */
  predicate CreatesUnder(s: State, events: seq<Event>, key: string, i: nat) {
    i < |events| && events[i].Create? && events[i].key == key && Enabled(Run(s, events[..i]), events[i])
  }

  lemma SuccessorStep(s: State, e: Event, key: string, env: nat)
    requires IsCleaning(s, env) && (key in s.table ==> s.table[key] == env)
    requires !(e.Create? && e.key == key && Enabled(s, e))
    ensures var t := Next(s, e); key in t.table ==> t.table[key] == env
  {
  }

  /** Between the pass that marks env and the end of its eviction another object gets to
      stand under the key only by an acquire that makes one. */
  lemma {:induction false} SuccessorNeedsCreate(s: State, events: seq<Event>, key: string, env: nat)
    requires Sound(s) && IsCleaning(s, env) && key in s.table && s.table[key] == env
    requires var t := Run(s, events); key in t.table && t.table[key] != env
    ensures exists i: nat :: CreatesUnder(s, events, key, i)
  {
    hide Next, Sound, IsCleaning, Enabled;
    var n := |events| - 1;
    var before := events[..n];
    CleaningIsFinal(s, before, env);
    var t := Run(s, before);
    if key in t.table && t.table[key] != env {
      SuccessorNeedsCreate(s, before, key, env);
      var i: nat :| CreatesUnder(s, before, key, i);
      assert events[..i] == before[..i];
      assert CreatesUnder(s, events, key, i);
    } else {
      if !(events[n].Create? && events[n].key == key && Enabled(t, events[n])) {
        SuccessorStep(t, events[n], key, env);
      }
      assert CreatesUnder(s, events, key, n);
    }
  }

  // ---- The pool object ------------------------------------------------------------

  /** How a wait on another caller's pending environment ends. */
  datatype Wait = ReadyClosed | TimedOut | Cancelled

  /** What a caller's looks at the table come to, and in which state. */
  datatype Decision = Takes(at: State, env: nat) | Makes(at: State) | GivesUp(at: State)

  /** A Ready or Warm environment is taken if usable and dropped otherwise; a Pending one is
      waited for; nothing else under the key keeps a new one from being made. */
  ghost function Decide(s: State, key: string, usable: bool, others: seq<seq<Event>>, waits: seq<Wait>): Decision
    requires |others| == |waits| > 0
    decreases |waits|
  {
    var t := Run(s, others[0]);
    if key !in t.table || t.table[key] !in t.envs then Makes(t)
    else
      match t.envs[t.table[key]].state
      case Ready => if usable then Takes(t, t.table[key]) else Makes(t.(table := t.table - {key}))
      case Warm => if usable then Takes(t, t.table[key]) else Makes(t.(table := t.table - {key}))
      case Pending =>
        if waits[0] == TimedOut then Makes(t)
        else if waits[0] == Cancelled || |waits| == 1 then GivesUp(t)
        else Decide(t, key, usable, others[1..], waits[1..])
      case Active => Makes(t)
      case Invalid => Makes(t)
      case Cleaning => Makes(t)
  }

  type Late = (seq<Event>, seq<Event>, seq<Event>)

  const NOBODY: Late := ([], [], [])

  ghost predicate LateElsewhere(late: Late, c: nat, env: nat) {
    Elsewhere(late.0, c, env) && Elsewhere(late.1, c, env) && Elsewhere(late.2, c, env)
  }

  /** Where a new object is made, or the attempt ends: a pool that is full, or over its
      budget, gets an eviction pass, and is looked at again. */
  ghost function Limits(s: State, late: Late, overBudget: (bool, bool), maxEnvironments: nat): (bool, State) {
    var first := Run(s, late.0);
    var full := |first.table| >= maxEnvironments;
    var second := if full then Run(Next(first, EvictionPass), late.1) else first;
    if full && |second.table| >= maxEnvironments then (false, second)
    else if overBudget.0 then (!overBudget.1, Run(Next(second, EvictionPass), late.2))
    else (true, second)
  }

  function WithNew(s: State, c: nat, key: string, id: string, env: nat): State {
    s.(envs := s.envs[env := Env(key, id, Pending, 0, s.now)], table := s.table[key := env],
       callers := s.callers[c := Holding(env)])
  }

  function WithTaken(s: State, c: nat, env: nat): State
    requires env in s.envs
  {
    var e := s.envs[env];
    s.(envs := s.envs[env := e.(state := Active, useCount := e.useCount + 1, lastUsed := s.now)],
       callers := s.callers[c := Holding(env)])
  }

  class Pool {
    const warmTimeout: int
    const maxEnvironments: nat
    var now: int
    var environments: map<string, nat>
    var objects: map<nat, Env>
    /** The environment each running caller has in its local variable. */
    var callers: map<nat, Hold>

    ghost function Model(): State
      reads this
    {
      State(now, warmTimeout, objects, environments, callers)
    }

    ghost predicate Valid()
      reads this
    {
      Sound(Model())
    }

    constructor (now: int, warmTimeout: int, maxEnvironments: nat)
      ensures this.maxEnvironments == maxEnvironments && Valid() && Model() == Initial(now, warmTimeout)
    {
      this.now, this.warmTimeout, this.maxEnvironments := now, warmTimeout, maxEnvironments;
      environments, objects, callers := map[], map[], map[];
    }

    /** The lock section of AcquireEnvironment on an entry that is Ready or Warm. */
    method TryReuse(caller: nat, key: string, usable: bool)
      requires Valid() && Enabled(Model(), Reuse(caller, key, usable))
      modifies this
      ensures Valid() && Model() == Next(old(Model()), Reuse(caller, key, usable))
      ensures now == old(now)
      ensures
        var env := old(environments[key]);
        if usable then
          && environments == old(environments) && callers == old(callers)[caller := Holding(env)]
          && objects == old(objects)[env := old(objects[env]).(
            state := Active, useCount := old(objects[env].useCount) + 1, lastUsed := now)]
        else environments == old(environments) - {key} && objects == old(objects) && callers == old(callers)
    {
      StepSound(Model(), Reuse(caller, key, usable));
      hide Sound;
      if !usable {
        environments := environments - {key};
        return;
      }
      var env := environments[key];
      objects := objects[env := objects[env].(state := Active, useCount := objects[env].useCount + 1, lastUsed := now)];
      callers := callers[caller := Holding(env)];
    }

    /** createNew: a fresh pending object takes over the key. */
    method CreateNew(caller: nat, key: string, id: string, env: nat)
      requires Valid() && caller !in callers && env !in objects
      modifies this
      ensures Valid() && Model() == Next(old(Model()), Create(caller, key, id, env))
      ensures now == old(now) && environments == old(environments)[key := env]
      ensures objects == old(objects)[env := Env(key, id, Pending, 0, now)]
      ensures callers == old(callers)[caller := Holding(env)]
    {
      StepSound(Model(), Create(caller, key, id, env));
      hide Sound;
      objects := objects[env := Env(key, id, Pending, 0, now)];
      environments := environments[key := env];
      callers := callers[caller := Holding(env)];
    }

    method ReleaseEnvironment(caller: nat, keepWarm: bool)
      requires Valid() && Enabled(Model(), Release(caller, keepWarm))
      modifies this
      ensures Valid() && Model() == Next(old(Model()), Release(caller, keepWarm))
      ensures now == old(now) && environments == old(environments) && callers == old(callers) - {caller}
      ensures
        var env := old(callers[caller].env);
        var was := old(objects[env]);
        objects ==
          if was.state == Cleaning then old(objects)
          else if keepWarm && now - was.lastUsed < warmTimeout then
            old(objects)[env := was.(state := Warm, lastUsed := now)]
          else old(objects)[env := was.(state := Ready, lastUsed := now)]
    {
      StepSound(Model(), Release(caller, keepWarm));
      hide Sound;
      var env := callers[caller].env;
      callers := callers - {caller};
      if objects[env].state == Cleaning {
        return;
      }
      if keepWarm && now - objects[env].lastUsed < warmTimeout {
        objects := objects[env := objects[env].(state := Warm, lastUsed := now)];
      } else {
        objects := objects[env := objects[env].(state := Ready, lastUsed := now)];
      }
    }

    /** First section of InvalidateEnvironment, under the object's own lock. */
    method MarkAsInvalid(caller: nat)
      requires Valid() && Enabled(Model(), MarkInvalid(caller))
      modifies this
      ensures Valid() && Model() == Next(old(Model()), MarkInvalid(caller))
      ensures now == old(now) && environments == old(environments)
      ensures
        var env := old(callers[caller].env);
        && objects == old(objects)[env := old(objects[env]).(state := Invalid)]
        && callers == old(callers)[caller := Invalidating(env)]
    {
      StepSound(Model(), MarkInvalid(caller));
      hide Sound;
      var env := callers[caller].env;
      objects := objects[env := objects[env].(state := Invalid)];
      callers := callers[caller := Invalidating(env)];
    }

    /** Second section, under the pool's lock: drop every entry with the same id. */
    method SweepSameID(caller: nat)
      requires Valid() && Enabled(Model(), SweepInvalid(caller))
      modifies this
      ensures Valid() && Model() == Next(old(Model()), SweepInvalid(caller))
      ensures now == old(now) && objects == old(objects)
      ensures
        var env := old(callers[caller].env);
        && callers == old(callers)[caller := Invalidated(env)]
        && (forall k :: k in environments <==>
              k in old(environments) && old(objects)[old(environments)[k]].id != old(objects)[env].id)
        && forall k | k in environments :: environments[k] == old(environments)[k]
    {
      StepSound(Model(), SweepInvalid(caller));
      ghost var m := Model();
      assert forall k | k in environments :: environments[k] in objects;
      hide Sound;
      var env := callers[caller].env;
      var todo := environments.Keys;
      while todo != {}
        invariant todo <= environments.Keys <= m.table.Keys
        invariant objects == m.envs && callers == m.callers && now == m.now
        invariant forall k | k in m.table ::
                    k in environments <==> k in todo || m.envs[m.table[k]].id != m.envs[env].id
        invariant forall k | k in environments :: environments[k] == m.table[k]
        decreases |todo|
      {
        var k :| k in todo;
        if objects[environments[k]].id == objects[env].id {
          environments := environments - {k};
        }
        todo := todo - {k};
      }
      assert environments == TableAfter(m, SweepInvalid(caller));
      callers := callers[caller := Invalidated(env)];
    }

    /** The marking loop of runEviction. */
    method RunEviction()
      requires Valid()
      modifies this`objects
      ensures Valid() && Model() == Next(old(Model()), EvictionPass)
      ensures objects.Keys == old(objects).Keys
      ensures forall o | o in objects ::
        objects[o] ==
          if old(objects)[o].key in environments && environments[old(objects)[o].key] == o
             && (old(objects)[o].state == Warm || old(objects)[o].state == Ready)
             && now - old(objects)[o].lastUsed > (if warmTimeout <= 0 then 30 * 60 * 1_000_000_000 else warmTimeout)
          then old(objects)[o].(state := Cleaning)
          else old(objects)[o]
    {
      hide Sound, Next, EnvsAfter, PartlyMarked, Evictable;
      StepSound(Model(), EvictionPass);
      ghost var m := Model();
      TableIsKeyed(m);
      var ttl := warmTimeout;
      if ttl <= 0 {
        ttl := 30 * 60 * 1_000_000_000;
      }
      var todo := environments.Keys;
      assert objects == PartlyMarked(m, todo) by { NothingMarked(m); }
      while todo != {}
        invariant todo <= environments.Keys && objects == PartlyMarked(m, todo)
        decreases |todo|
      {
        var k :| k in todo;
        MarkOne(m, todo, k);
        var env := environments[k];
        if objects[env].state == Warm || objects[env].state == Ready {
          if now - objects[env].lastUsed > ttl {
            objects := objects[env := objects[env].(state := Cleaning)];
          }
        }
        todo := todo - {k};
      }
      AllMarked(m);
      MarkedIff(m);
    }

    /** The goroutine that ends an eviction. */
    method RemoveEvicted(key: string, env: nat)
      requires Valid() && env in objects
      modifies this
      ensures Valid() && Model() == Next(old(Model()), FinishEviction(key, env))
      ensures now == old(now) && objects == old(objects) && callers == old(callers)
      ensures environments ==
        if old(objects[env].state) == Cleaning then old(environments) - {key} else old(environments)
    {
      StepSound(Model(), FinishEviction(key, env));
      hide Sound;
      if objects[env].state != Cleaning {
        return;
      }
      environments := environments - {key};
    }

    /** Whichever step somebody else takes; a step that is not enabled is not taken. */
    method Perform(e: Event)
      requires Valid()
      modifies this
      ensures Valid() && Model() == Next(old(Model()), e)
    {
      StepSound(Model(), e);
      hide Sound, EnvsAfter, CallersAfter;
      match e
      case Reuse(c, key, usable) =>
        if c !in callers && key in environments && environments[key] in objects &&
           (objects[environments[key]].state == Ready || objects[environments[key]].state == Warm) {
          TryReuse(c, key, usable);
        }
      case Create(c, key, id, env) => if c !in callers && env !in objects { CreateNew(c, key, id, env); }
      case Release(c, keepWarm) =>
        if c in callers && !callers[c].Invalidating? && callers[c].env in objects { ReleaseEnvironment(c, keepWarm); }
      case MarkInvalid(c) => if c in callers && callers[c].Holding? && callers[c].env in objects { MarkAsInvalid(c); }
      case SweepInvalid(c) =>
        if c in callers && callers[c].Invalidating? && callers[c].env in objects { SweepSameID(c); }
      case Leave(c) => if c in callers && callers[c].Invalidated? { Forget(c); }
      case EvictionPass => RunEviction();
      case FinishEviction(key, env) => if env in objects { RemoveEvicted(key, env); }
      case Shutdown => environments := map[];
      case Tick(elapsed) => PassTime(elapsed);
    }

    method Forget(c: nat)
      requires Valid() && Enabled(Model(), Leave(c))
      modifies this
      ensures Valid() && Model() == Next(old(Model()), Leave(c))
    {
      StepSound(Model(), Leave(c));
      hide Sound;
      callers := callers - {c};
    }

    method PassTime(elapsed: nat)
      requires Valid()
      modifies this
      ensures Valid() && Model() == Next(old(Model()), Tick(elapsed))
    {
      StepSound(Model(), Tick(elapsed));
      hide Sound;
      now := now + elapsed;
    }

    /** What others do while caller `c` is between two of its steps. */
    method Gap(c: nat, events: seq<Event>)
      requires Valid() && c !in callers && (forall e | e in events :: ForeignTo(e, c))
      modifies this
      ensures Valid() && Model() == Run(old(Model()), events) && c !in callers
    {
      hide Sound, Next;
      for i := 0 to |events|
        invariant Valid() && Model() == Run(old(Model()), events[..i]) && c !in callers
      {
        StaysAway(Model(), events[i], c);
        Perform(events[i]);
        assert events[..i + 1][..i] == events[..i];
      }
      assert events[..|events|] == events;
    }

    /** A gap within a call whose run since `m0` is `trace`. */
    method GapAndTrace(c: nat, env: nat, ghost m0: State, ghost trace: seq<Event>, events: seq<Event>)
      requires Valid() && c !in callers && env !in objects && Elsewhere(events, c, env)
      requires Model() == Run(m0, trace)
      modifies this
      ensures Valid() && c !in callers && env !in objects
      ensures Model() == Run(m0, trace + events) && Model() == Run(old(Model()), events)
    {
      hide Sound, Run;
      KeepsFresh(Model(), events, env);
      Gap(c, events);
      RunConcat(m0, trace, events);
    }

    /** An eviction pass, and what others do before the lock is taken again. */
    method EvictAndGap(c: nat, env: nat, ghost m0: State, ghost trace: seq<Event>, events: seq<Event>)
      returns (ghost longer: seq<Event>)
      requires Valid() && c !in callers && env !in objects && Elsewhere(events, c, env)
      requires Model() == Run(m0, trace)
      modifies this
      ensures Valid() && c !in callers && env !in objects && Model() == Run(m0, longer)
      ensures Model() == Run(Next(old(Model()), EvictionPass), events)
      ensures events == [] ==> Model() == Next(old(Model()), EvictionPass) && environments == old(environments)
    {
      hide Sound, Run;
      NobodyActs(Next(Model(), EvictionPass));
      RunSnoc(m0, trace, EvictionPass);
      EvictionKeepsTable(Model());
      RunEviction();
      GapAndTrace(c, env, m0, trace + [EvictionPass], events);
      longer := trace + [EvictionPass] + events;
    }

    /** AcquireEnvironment. Before each look at the table others do `others[k]`;
        `waits[k]` says how a wait on a pending entry ends. The code looks again as often
        as the entry is said to be ready; here the last of `waits` is where that ends, and
        a ReadyClosed there gives None. `late` and `overBudget` are AddNew's. The result is
        the object now in this caller's hands, and in nobody else's. Undisturbed, an
        acquire of a key whose environment is Ready or Warm and usable takes that object,
        whatever the room; of one whose environment is Active makes a new object, if the
        pool has room. */
    method AcquireEnvironment(c: nat, key: string, id: string, env: nat, usable: bool,
                              others: seq<seq<Event>>, waits: seq<Wait>, late: Late, overBudget: (bool, bool))
      returns (got: Option<nat>, ghost trace: seq<Event>)
      requires Valid() && c !in callers && |others| == |waits| > 0
      requires forall k | 0 <= k < |others| :: Elsewhere(others[k], c, env)
      requires LateElsewhere(late, c, env) && env !in objects
      modifies this
      ensures Valid() && Model() == Run(old(Model()), trace)
      ensures got.Some? ==> c in callers && callers[c] == Holding(got.value)
      ensures got.Some? ==> got.value in objects && objects[got.value].key == key
      ensures got.Some? ==> objects[got.value].state == if got.value == env then Pending else Active
      ensures got.Some? ==> forall d | d in callers && d != c :: callers[d].env != got.value
      ensures got.None? ==> c !in callers
      ensures Acquired(old(Model()), Model(), c, key, id, env, usable, others, waits, late, overBudget, got)
      ensures others[0] == [] && usable && TakeableUnder(old(Model()), key) ==>
        && got == Some(old(environments[key])) && environments == old(environments)
        && objects == old(objects)[got.value := old(objects[environments[key]]).(
          state := Active, useCount := old(objects[environments[key]].useCount) + 1, lastUsed := now)]
      ensures others[0] == [] && late == NOBODY && ActiveUnder(old(Model()), key) ==>
        && (got.Some? <==> HasRoom(|old(environments)|, overBudget))
        && (got.Some? ==>
             got == Some(env) && Model() == Next(Before(old(Model()), overBudget.0), Create(c, key, id, env)))
    {
      hide Sound, Run, Next, Acquired;
      ghost var m0 := Model();
      got, trace := Retry(c, key, id, env, usable, others, waits, late, overBudget);
      if others[0] == [] {
        AcquiredUndisturbed(m0, Model(), c, key, id, env, usable, others, waits, late, overBudget, got);
      }
    }

    /** What the outcome and the state after are, exactly. */
    ghost predicate Acquired(
        s: State, t: State, c: nat, key: string, id: string, env: nat, usable: bool, others: seq<seq<Event>>,
        waits: seq<Wait>, late: Late, overBudget: (bool, bool), got: Option<nat>)
      requires |others| == |waits| > 0
    {
      match Decide(s, key, usable, others, waits)
      case Takes(at, found) => got == Some(found) && found in at.envs && t == WithTaken(at, c, found)
      case GivesUp(at) => got == None && t == at
      case Makes(at) =>
        var (made, u) := Limits(at, late, overBudget, maxEnvironments);
        if made then got == Some(env) && t == WithNew(u, c, key, id, env) else got == None && t == u
    }

    lemma AcquiredUndisturbed(
        s: State, t: State, c: nat, key: string, id: string, env: nat, usable: bool, others: seq<seq<Event>>,
        waits: seq<Wait>, late: Late, overBudget: (bool, bool), got: Option<nat>)
      requires |others| == |waits| > 0 && others[0] == [] && c !in s.callers && env !in s.envs
      requires Acquired(s, t, c, key, id, env, usable, others, waits, late, overBudget, got)
      ensures usable && TakeableUnder(s, key) ==> got == Some(s.table[key]) && t == WithTaken(s, c, s.table[key])
      ensures late == NOBODY && ActiveUnder(s, key) ==>
        && (got.Some? <==> HasRoom(|s.table|, overBudget))
        && (got.Some? ==> got == Some(env) && t == Next(Before(s, overBudget.0), Create(c, key, id, env)))
    {
      UndisturbedDecision(s, key, usable, others, waits);
      if late == NOBODY {
        LimitsUndisturbed(s, overBudget, maxEnvironments);
        CreateIs(Before(s, overBudget.0), c, key, id, env);
      }
      hide Run, Next, Limits, Decide;
    }

    /** AcquireEnvironment from one look at the table on. */
    method Retry(c: nat, key: string, id: string, env: nat, usable: bool,
                 others: seq<seq<Event>>, waits: seq<Wait>, late: Late, overBudget: (bool, bool))
      returns (got: Option<nat>, ghost trace: seq<Event>)
      requires Valid() && c !in callers && |others| == |waits| > 0
      requires forall k | 0 <= k < |others| :: Elsewhere(others[k], c, env)
      requires LateElsewhere(late, c, env) && env !in objects
      modifies this
      ensures Valid() && Model() == Run(old(Model()), trace)
      ensures got.Some? ==> c in callers && callers[c] == Holding(got.value)
      ensures got.Some? ==> got.value in objects && objects[got.value].key == key
      ensures got.Some? ==> objects[got.value].state == if got.value == env then Pending else Active
      ensures got.Some? ==> forall d | d in callers && d != c :: callers[d].env != got.value
      ensures got.None? ==> c !in callers
      ensures Acquired(old(Model()), Model(), c, key, id, env, usable, others, waits, late, overBudget, got)
      decreases |waits|
    {
      ghost var m0 := Model();
      hide Limits, Run, Next, Sound, WithNew, Elsewhere, LateElsewhere, HoldSound;
      NobodyActs(m0);
      GapAndTrace(c, env, m0, [], others[0]);
      trace := others[0];
      if key in environments {
        TableTarget(Model(), key);
        var found := environments[key];
        var state := objects[found].state;
        if state == Pending {
          if waits[0] == ReadyClosed && |waits| > 1 {
            ghost var rest;
            got, rest := Retry(c, key, id, env, usable, others[1..], waits[1..], late, overBudget);
            RunConcat(m0, trace, rest);
            trace := trace + rest;
            return;
          }
          if waits[0] != TimedOut {
            return None, trace;
          }
        } else if state == Ready || state == Warm {
          TakeableIsUnheld(Model(), found);
          TryReuse(c, key, usable);
          RunSnoc(m0, trace, Reuse(c, key, usable));
          trace := trace + [Reuse(c, key, usable)];
          if usable {
            return Some(found), trace;
          }
        }
      }
      ghost var rest;
      got, rest := AddNew(c, key, id, env, late, overBudget);
      RunConcat(m0, trace, rest);
      trace := trace + rest;
    }

    ghost predicate HasRoom(size: nat, overBudget: (bool, bool)) {
      size < maxEnvironments && !(overBudget.0 && overBudget.1)
    }

    /** The createNew part of AcquireEnvironment, with the limits on the pool. `late` is
        what others do before it, after the eviction pass of a full pool, and after that
        of a pool over its byte budget; `overBudget` says whether it is over budget at
        the first and at the second look. An eviction pass frees nothing by itself. */
    method AddNew(c: nat, key: string, id: string, env: nat, late: Late, overBudget: (bool, bool))
      returns (got: Option<nat>, ghost trace: seq<Event>)
      requires Valid() && c !in callers && env !in objects && LateElsewhere(late, c, env)
      modifies this
      ensures Valid() && Model() == Run(old(Model()), trace)
      ensures got.Some? ==> got.value == env && c in callers && callers[c] == Holding(env)
      ensures got.Some? ==> env in objects && objects[env].key == key && objects[env].state == Pending
      ensures got.Some? ==> forall d | d in callers && d != c :: callers[d].env != env
      ensures got.None? ==> c !in callers
      ensures late == NOBODY ==>
        && (got.Some? <==> HasRoom(|old(environments)|, overBudget))
        && (got.Some? ==> Model() == Next(Before(old(Model()), overBudget.0), Create(c, key, id, env)))
      ensures
        var (made, t) := Limits(old(Model()), late, overBudget, maxEnvironments);
        if made then got.Some? && Model() == WithNew(t, c, key, id, env) else got.None? && Model() == t
    {
      ghost var m0 := Model();
      hide Sound, Run, Next;
      NobodyActs(m0);
      trace := [];
      GapAndTrace(c, env, m0, trace, late.0);
      trace := trace + late.0;
      if |environments| >= maxEnvironments {
        trace := EvictAndGap(c, env, m0, trace, late.1);
        if |environments| >= maxEnvironments {
          return None, trace;
        }
      }
      if overBudget.0 {
        trace := EvictAndGap(c, env, m0, trace, late.2);
        if overBudget.1 {
          return None, trace;
        }
      }
      CreatedIsUnheld(Model(), env);
      CreateNew(c, key, id, env);
      RunSnoc(m0, trace, Create(c, key, id, env));
      trace := trace + [Create(c, key, id, env)];
      return Some(env), trace;
    }
  }

  lemma UndisturbedDecision(s: State, key: string, usable: bool, others: seq<seq<Event>>, waits: seq<Wait>)
    requires |others| == |waits| > 0 && others[0] == []
    ensures usable && TakeableUnder(s, key) ==> Decide(s, key, usable, others, waits) == Takes(s, s.table[key])
    ensures ActiveUnder(s, key) ==> Decide(s, key, usable, others, waits) == Makes(s)
  {
  }

  lemma LimitsUndisturbed(s: State, overBudget: (bool, bool), maxEnvironments: nat)
    ensures
      var (made, t) := Limits(s, NOBODY, overBudget, maxEnvironments);
      && (made <==> |s.table| < maxEnvironments && !(overBudget.0 && overBudget.1))
      && (made ==> t == Before(s, overBudget.0))
  {
    EvictionKeepsTable(s);
    NobodyActs(s);
    NobodyActs(Next(s, EvictionPass));
    hide Run, Next;
  }

  lemma CreateIs(s: State, c: nat, key: string, id: string, env: nat)
    requires c !in s.callers && env !in s.envs
    ensures Next(s, Create(c, key, id, env)) == WithNew(s, c, key, id, env)
  {
  }

  predicate TakeableUnder(s: State, key: string) {
    && key in s.table && s.table[key] in s.envs
    && (s.envs[s.table[key]].state == Ready || s.envs[s.table[key]].state == Warm)
  }

  predicate ActiveUnder(s: State, key: string) {
    key in s.table && s.table[key] in s.envs && s.envs[s.table[key]].state == Active
  }

  /** Undisturbed, acquiring the key of an environment that caller d holds Active puts a
      second object of that key into caller c's hands; it fails only for want of room. */
  method AcquireHeldKey(p: Pool, d: nat, c: nat, key: string, id: string, env: nat, overBudget: (bool, bool))
    returns (got: Option<nat>)
    requires p.Valid() && HoldsActive(p.Model(), d, key) && c !in p.callers && env !in p.objects
    modifies p
    ensures p.Valid() && (got.Some? <==> |old(p.environments)| < p.maxEnvironments && !(overBudget.0 && overBudget.1))
    ensures got.Some? ==>
      var held := old(p.environments[key]);
      && got == Some(env) && env != held && c in p.callers && d in p.callers
      && p.callers[c] == Holding(env) && p.callers[d] == Holding(held)
      && held in p.objects && env in p.objects && p.objects[held].key == p.objects[env].key == key
  {
    TwoHoldersOneKey(p.Model(), d, c, key, id, env, overBudget.0);
    hide Sound, Next, Run;
    ghost var trace;
    got, trace := p.AcquireEnvironment(c, key, id, env, true, [[]], [Cancelled], NOBODY, overBudget);
  }

  /** Actions of other callers that do not use up the handle `env`. */
  ghost predicate Elsewhere(events: seq<Event>, c: nat, env: nat) {
    forall e | e in events :: ForeignTo(e, c) && !(e.Create? && e.env == env)
  }

  /** Not an action of caller `c`. */
  predicate ForeignTo(e: Event, c: nat) {
    match e
    case Reuse(d, _, _) => d != c
    case Create(d, _, _, _) => d != c
    case Release(d, _) => d != c
    case MarkInvalid(d) => d != c
    case SweepInvalid(d) => d != c
    case Leave(d) => d != c
    case _ => true
  }

  lemma StaysAway(s: State, e: Event, c: nat)
    requires c !in s.callers && ForeignTo(e, c)
    ensures c !in Next(s, e).callers
  {
  }

  lemma {:induction false} KeepsFresh(s: State, events: seq<Event>, env: nat)
    requires env !in s.envs && forall e | e in events :: !(e.Create? && e.env == env)
    ensures env !in Run(s, events).envs
  {
    if events != [] {
      KeepsFresh(s, events[..|events| - 1], env);
      assert events[|events| - 1] in events;
    }
  }

  /** The objects once an eviction pass has only the keys `todo` left to visit. */
  ghost function PartlyMarked(s: State, todo: set<string>): map<nat, Env> {
    map o | o in s.envs ::
      if Evictable(s, o) && s.envs[o].key !in todo then s.envs[o].(state := Cleaning) else s.envs[o]
  }

  lemma NothingMarked(s: State)
    requires forall o | Evictable(s, o) :: s.envs[o].key in s.table
    ensures PartlyMarked(s, s.table.Keys) == s.envs
  {
  }

  lemma AllMarked(s: State)
    ensures Next(s, EvictionPass) == s.(envs := PartlyMarked(s, {}))
  {
    assert PartlyMarked(s, {}) == EnvsAfter(s, EvictionPass);
  }

  lemma MarkedIff(s: State)
    requires Sound(s)
    ensures PartlyMarked(s, {}).Keys == s.envs.Keys
    ensures forall o | o in s.envs ::
      PartlyMarked(s, {})[o] ==
        if s.envs[o].key in s.table && s.table[s.envs[o].key] == o
           && (s.envs[o].state == Warm || s.envs[o].state == Ready)
           && s.now - s.envs[o].lastUsed > (if s.warmTimeout <= 0 then 30 * 60 * 1_000_000_000 else s.warmTimeout)
        then s.envs[o].(state := Cleaning)
        else s.envs[o]
  {
    forall o | o in s.envs ensures o in s.table.Values <==> s.envs[o].key in s.table && s.table[s.envs[o].key] == o {
      if o in s.table.Values {
        var k :| k in s.table && s.table[k] == o;
        assert s.envs[s.table[k]].key == k;
      } else if s.envs[o].key in s.table {
        assert s.table[s.envs[o].key] in s.table.Values;
      }
    }
  }

  lemma MarkOne(s: State, todo: set<string>, k: string)
    requires k in todo && k in s.table && s.table[k] in s.envs && s.envs[s.table[k]].key == k
    requires forall o | Evictable(s, o) :: s.envs[o].key in s.table && s.table[s.envs[o].key] == o
    ensures s.table[k] in PartlyMarked(s, todo) && PartlyMarked(s, todo)[s.table[k]] == s.envs[s.table[k]]
    ensures var env := s.table[k];
            PartlyMarked(s, todo - {k}) ==
            if (s.envs[env].state == Warm || s.envs[env].state == Ready) && s.now - s.envs[env].lastUsed > TTL(s)
            then PartlyMarked(s, todo)[env := s.envs[env].(state := Cleaning)]
            else PartlyMarked(s, todo)
  {
    assert s.table[k] in s.table.Values;
  }

  lemma TableIsKeyed(s: State)
    requires Sound(s)
    ensures forall k | k in s.table :: s.table[k] in s.envs && s.envs[s.table[k]].key == k
    ensures forall o | Evictable(s, o) :: s.envs[o].key in s.table && s.table[s.envs[o].key] == o
  {
  }

  lemma TableTarget(s: State, key: string)
    requires Sound(s) && key in s.table
    ensures s.table[key] in s.envs && s.envs[s.table[key]].key == key
  {
  }

  lemma NobodyActs(s: State)
    ensures Run(s, []) == s
  {
  }

  lemma EvictionKeepsTable(s: State)
    ensures
      var t := Next(s, EvictionPass);
      t.table == s.table && t.callers == s.callers && t.envs.Keys == s.envs.Keys
  {
  }

  lemma CreatedIsUnheld(s: State, env: nat)
    requires Sound(s) && env !in s.envs
    ensures Unheld(s, env)
  {
    assert forall c | c in s.callers :: HoldSound(s, s.callers[c]);
  }

  lemma RunSnoc(s: State, events: seq<Event>, e: Event)
    ensures Run(s, events + [e]) == Next(Run(s, events), e)
  {
    assert (events + [e])[..|events|] == events;
  }

  lemma {:induction false} RunConcat(s: State, a: seq<Event>, b: seq<Event>)
    ensures Run(s, a + b) == Run(Run(s, a), b)
  {
    hide Next;
    if b == [] {
      assert a + b == a;
    } else {
      RunConcat(s, a, b[..|b| - 1]);
      assert (a + b)[..|a + b| - 1] == a + b[..|b| - 1];
    }
  }
}
