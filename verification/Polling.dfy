/** The adaptive polling schedule of internal/realtime/supabase_realtime.go.
    Durations are reals in seconds and jitter is any factor in [1-j, 1+j]; that a
    time.Duration is a whole number of nanoseconds is not modelled. Its 64 bits are in
    the last section: which settings keep every product within them.
 */
module Polling {
  import opened Options

  datatype Settings = Settings(
    minPoll: real, maxIdle: real, postClaim: real, activeGrace: real, multiplier: real, jitter: real)

  /** What loadIntervalsFromEnv lets through. */
  predicate Loadable(s: Settings) {
    && s.minPoll > 0.0 && s.maxIdle > 0.0 && s.postClaim > 0.0 && s.activeGrace > 0.0
    && s.multiplier > 1.0
    && 0.0 <= s.jitter <= 0.5
  }

  /** What one poll meets: jobs returned, work still running or queued, the
      clock, and the random factor drawn for the next interval. */
  datatype Observation = Observation(jobs: nat, busy: bool, now: real, factor: real)

  predicate Drawn(s: Settings, o: Observation) {
    1.0 - s.jitter <= o.factor <= 1.0 + s.jitter
  }

  ghost predicate AllDrawn(s: Settings, seen: seq<Observation>) {
    forall k | 0 <= k < |seen| :: Drawn(s, seen[k])
  }

  datatype LoopState = LoopState(current: real, ceilingPolls: nat, lastJobTime: Option<real>)

  // ---- One poll ----------------------------------------------------------

  function Times(duration: real, factor: real): real {
    duration * factor
  }

  function Jittered(s: Settings, d: real, factor: real): real {
    if s.jitter <= 0.0 || d <= 0.0 then d else Times(d, factor)
  }

  function Backoff(s: Settings, current: real, factor: real): real {
    var next := Times(current, s.multiplier);
    Jittered(s, if next > s.maxIdle then s.maxIdle else next, factor)
  }

  function NextPollInterval(s: Settings, current: real, lastJobTime: Option<real>, o: Observation): real {
    if o.jobs > 0 then s.postClaim
    else if s.activeGrace > 0.0 && lastJobTime.Some? && o.now - lastJobTime.value < s.activeGrace then s.postClaim
    else Backoff(s, current, o.factor)
  }

  function LastJobTime(before: Option<real>, o: Observation): Option<real> {
    if o.jobs > 0 || o.busy then Some(o.now) else before
  }

  /** Whether a tick in this state asks the server to claim jobs. */
  predicate Claims(s: Settings, st: LoopState) {
    st.current >= s.maxIdle ==> (st.ceilingPolls + 1) % 3 == 0
  }

  function AfterPoll(s: Settings, st: LoopState, o: Observation): LoopState {
    var last := LastJobTime(st.lastJobTime, o);
    LoopState(
      NextPollInterval(s, st.current, last, o),
      if st.current >= s.maxIdle then st.ceilingPolls + 1 else 0,
      last)
  }

  function AfterFirstPoll(s: Settings, o: Observation): LoopState {
    var last := LastJobTime(None, o);
    LoopState(NextPollInterval(s, s.minPoll, last, o), 0, last)
  }

  class PollingClient {
    const settings: Settings
    var currentInterval: real
    var ceilingPolls: nat
    var lastJobTime: Option<real>

    ghost function State(): LoopState
      reads this
    {
      LoopState(currentInterval, ceilingPolls, lastJobTime)
    }

    constructor (settings: Settings)
      ensures this.settings == settings && State() == LoopState(settings.minPoll, 0, None)
    {
      this.settings := settings;
      currentInterval, ceilingPolls, lastJobTime := settings.minPoll, 0, None;
    }

    method SetNext(o: Observation)
      modifies this`currentInterval, this`lastJobTime
      ensures lastJobTime == LastJobTime(old(lastJobTime), o)
      ensures currentInterval == NextPollInterval(settings, old(currentInterval), lastJobTime, o)
    {
      if o.jobs > 0 {
        lastJobTime := Some(o.now);
      }
      if o.busy {
        lastJobTime := Some(o.now);
      }
      currentInterval := NextPollInterval(settings, currentInterval, lastJobTime, o);
    }

    /** The loop of pollLoopAdaptive over the polls it makes until it is stopped. */
    method PollLoopAdaptive(seen: seq<Observation>) returns (claimed: seq<bool>)
      requires seen != [] && State() == LoopState(settings.minPoll, 0, None)
      modifies this
      ensures State() == StateAt(settings, seen, |seen| - 1)
      ensures |claimed| == |seen| && forall k | 0 <= k < |seen| :: claimed[k] == ClaimsAt(settings, seen, k)
    {
      claimed := [true];
      SetNext(seen[0]);
      for i := 1 to |seen|
        invariant |claimed| == i && State() == StateAt(settings, seen, i - 1)
        invariant forall k | 0 <= k < i :: claimed[k] == ClaimsAt(settings, seen, k)
      {
        var claimJobs := true;
        if currentInterval >= settings.maxIdle {
          ceilingPolls := ceilingPolls + 1;
          claimJobs := ceilingPolls % 3 == 0;
        } else {
          ceilingPolls := 0;
        }
        claimed := claimed + [claimJobs];
        SetNext(seen[i]);
      }
    }
  }

  // ---- Runs --------------------------------------------------------------

  /** The loop state after poll k, counting from the immediate first poll 0. */
  function StateAt(s: Settings, seen: seq<Observation>, k: nat): LoopState
    requires k < |seen|
  {
    if k == 0 then AfterFirstPoll(s, seen[0]) else AfterPoll(s, StateAt(s, seen, k - 1), seen[k])
  }

  predicate ClaimsAt(s: Settings, seen: seq<Observation>, k: nat)
    requires k < |seen|
  {
    k == 0 || Claims(s, StateAt(s, seen, k - 1))
  }

  /** Time waited between poll `from` and poll `to`. */
  function Waited(s: Settings, seen: seq<Observation>, from: nat, to: nat): real
    requires from <= to < |seen|
  {
    if from == to then 0.0 else Waited(s, seen, from, to - 1) + StateAt(s, seen, to - 1).current
  }

  function Min(a: real, b: real): real { if a <= b then a else b }

  function Max(a: real, b: real): real { if a <= b then b else a }

  /** The longest interval a run can choose. */
  function Ceiling(s: Settings): real {
    Max(s.postClaim, Times(s.maxIdle, 1.0 + s.jitter))
  }

  // ---- Every third poll claims -------------------------------------------

  /** Whatever the jitter, the jobs and the settings. */
  lemma OneOfThreeClaims(s: Settings, seen: seq<Observation>, k: nat)
    requires k + 2 < |seen|
    ensures ClaimsAt(s, seen, k) || ClaimsAt(s, seen, k + 1) || ClaimsAt(s, seen, k + 2)
  {
    if !ClaimsAt(s, seen, k) && !ClaimsAt(s, seen, k + 1) {
      var count := StateAt(s, seen, k - 1).ceilingPolls;
      assert StateAt(s, seen, k).ceilingPolls == count + 1;
      assert StateAt(s, seen, k + 1).ceilingPolls == count + 2;
    }
  }

  /** The polls at the ceiling without a break before poll k. */
  function AtCeiling(s: Settings, seen: seq<Observation>, k: nat): nat
    requires k < |seen|
  {
    if k == 0 || StateAt(s, seen, k - 1).current < s.maxIdle then 0 else AtCeiling(s, seen, k - 1) + 1
  }

  /** At the ceiling two polls of three do not claim; below it every poll does. */
  lemma {:induction false} ClaimsIff(s: Settings, seen: seq<Observation>, k: nat)
    requires k < |seen|
    ensures ClaimsAt(s, seen, k) <==> AtCeiling(s, seen, k) % 3 == 0
    ensures k > 0 && StateAt(s, seen, k - 1).current >= s.maxIdle ==>
      StateAt(s, seen, k - 1).ceilingPolls + 1 == AtCeiling(s, seen, k)
  {
    hide NextPollInterval;
    if k > 0 && StateAt(s, seen, k - 1).current >= s.maxIdle && k > 1 {
      ClaimsIff(s, seen, k - 1);
    }
  }

  lemma Scale(a: real, b: real, f: real, g: real)
    requires 0.0 <= a <= b && 0.0 <= f <= g
    ensures 0.0 <= a * f <= b * g
    ensures a > 0.0 && f > 0.0 ==> a * f > 0.0
  {
    assert a * f <= b * f <= b * g;
  }

  /** The interval in force before poll k. */
  function Before(s: Settings, seen: seq<Observation>, k: nat): real
    requires k < |seen|
  {
    if k == 0 then s.minPoll else StateAt(s, seen, k - 1).current
  }

  /** What one idle poll multiplies the interval by at least. */
  function Growth(s: Settings): real {
    Times(s.multiplier, 1.0 - s.jitter)
  }

  function Grown(s: Settings, interval: real): real {
    Times(interval, Growth(s))
  }

  /** The ceiling after the shortest jitter. */
  function LowCeiling(s: Settings): real {
    Times(s.maxIdle, 1.0 - s.jitter)
  }

  /** One idle step of the backoff: between its low and its high estimate. */
  lemma BackoffBounds(s: Settings, before: real, factor: real)
    requires Loadable(s) && 1.0 - s.jitter <= factor <= 1.0 + s.jitter && before > 0.0
    ensures 0.0 < Backoff(s, before, factor) <= Ceiling(s)
    ensures Backoff(s, before, factor) >= Min(Grown(s, before), LowCeiling(s))
  {
    hide Times;
    var next := Min(Times(before, s.multiplier), s.maxIdle);
    TimesMonotone(before, before, s.multiplier, s.multiplier);
    TimesMonotone(next, s.maxIdle, factor, 1.0 + s.jitter);
    TimesMonotone(next, next, 1.0 - s.jitter, factor);
    TimesAssociate(before, s.multiplier, 1.0 - s.jitter);
  }

  lemma TimesMonotone(a: real, b: real, f: real, g: real)
    requires 0.0 <= a <= b && 0.0 <= f <= g
    ensures 0.0 <= Times(a, f) <= Times(b, g)
    ensures a > 0.0 && f > 0.0 ==> Times(a, f) > 0.0
    ensures f == 1.0 ==> Times(a, f) == a
  {
    Scale(a, b, f, g);
  }

  lemma TimesAssociate(a: real, b: real, c: real)
    ensures Times(Times(a, b), c) == Times(a, Times(b, c))
  {
    Associate(a, b, c);
  }

  lemma GrownAtLeast(s: Settings, x: real)
    requires Growth(s) >= 1.0 && x > 0.0
    ensures Grown(s, x) >= x
  {
    hide Times, Growth;
    TimesMonotone(x, x, 1.0, Growth(s));
  }

  lemma Associate(a: real, b: real, c: real)
    ensures a * b * c == a * (b * c)
  {
  }

  lemma IntervalBounds(s: Settings, seen: seq<Observation>, k: nat)
    requires Loadable(s) && AllDrawn(s, seen) && k < |seen|
    ensures Before(s, seen, k) > 0.0
    ensures var after := StateAt(s, seen, k).current;
            && 0.0 < after <= Ceiling(s)
            && (after == s.postClaim || after >= Min(Grown(s, Before(s, seen, k)), LowCeiling(s)))
  {
    hide Grown, LowCeiling, Backoff;
    if k > 0 { IntervalBounds(s, seen, k - 1); }
    assert Drawn(s, seen[k]);
    BackoffBounds(s, Before(s, seen, k), seen[k].factor);
  }

  // ---- A working agent stays on the short schedule --------------------------

  /** Poll j is the last up to poll k that returned jobs or found work under way. */
  predicate LastWork(seen: seq<Observation>, j: nat, k: nat) {
    && j <= k < |seen| && (seen[j].jobs > 0 || seen[j].busy)
    && forall i | j < i <= k :: seen[i].jobs == 0 && !seen[i].busy
  }

  predicate Working(s: Settings, seen: seq<Observation>, k: nat)
    requires k < |seen|
  {
    seen[k].jobs > 0 ||
    exists j | 0 <= j <= k :: LastWork(seen, j, k) && seen[k].now - seen[j].now < s.activeGrace
  }

  lemma {:induction false} LastJobTimeIs(s: Settings, seen: seq<Observation>, k: nat)
    requires k < |seen|
    ensures
      match StateAt(s, seen, k).lastJobTime
      case None => forall i | 0 <= i <= k :: seen[i].jobs == 0 && !seen[i].busy
      case Some(t) => exists j: nat :: LastWork(seen, j, k) && seen[j].now == t
  {
    hide NextPollInterval;
    if seen[k].jobs > 0 || seen[k].busy {
      assert LastWork(seen, k, k);
    } else if k > 0 {
      LastJobTimeIs(s, seen, k - 1);
      if StateAt(s, seen, k).lastJobTime.Some? {
        var j: nat :| LastWork(seen, j, k - 1) && seen[j].now == StateAt(s, seen, k).lastJobTime.value;
        assert LastWork(seen, j, k);
      }
    }
  }

  lemma StateIs(s: Settings, seen: seq<Observation>, k: nat)
    requires k < |seen|
    ensures StateAt(s, seen, k).current ==
      NextPollInterval(s, Before(s, seen, k), StateAt(s, seen, k).lastJobTime, seen[k])
  {
    hide NextPollInterval;
  }

  lemma WorkingIff(s: Settings, seen: seq<Observation>, k: nat)
    requires k < |seen|
    ensures
      var last := StateAt(s, seen, k).lastJobTime;
      Working(s, seen, k) <==> seen[k].jobs > 0 || (last.Some? && seen[k].now - last.value < s.activeGrace)
  {
    hide StateAt;
    LastJobTimeIs(s, seen, k);
    LatestIsOne(seen, k);
  }

  /** The interval grown, capped, and spread by the factor drawn unless there is no jitter. */
  function Spread(s: Settings, before: real, factor: real): real {
    var grown := before * s.multiplier;
    var capped := if grown > s.maxIdle then s.maxIdle else grown;
    if s.jitter == 0.0 then capped else capped * factor
  }

  lemma BackoffIs(s: Settings, before: real, factor: real)
    requires Loadable(s) && before > 0.0
    ensures Backoff(s, before, factor) == Spread(s, before, factor)
  {
    Positive(before, s.multiplier);
  }

  lemma LatestIsOne(seen: seq<Observation>, k: nat)
    ensures forall i, j | LastWork(seen, i, k) && LastWork(seen, j, k) :: i == j
  {
  }

  /** After a poll with jobs, or within the grace period of the last sign of work, the next
      poll comes after the post-claim interval; otherwise the interval is the one before
      times the multiplier, capped, times the factor drawn. */
  lemma ScheduleIs(s: Settings, seen: seq<Observation>, k: nat)
    requires Loadable(s) && AllDrawn(s, seen) && k < |seen|
    ensures
      StateAt(s, seen, k).current ==
        if Working(s, seen, k) then s.postClaim else Spread(s, Before(s, seen, k), seen[k].factor)
  {
    hide StateAt, Backoff, Working, Times, Spread;
    WorkingIff(s, seen, k);
    if k > 0 { IntervalBounds(s, seen, k - 1); }
    BackoffIs(s, Before(s, seen, k), seen[k].factor);
    assert StateAt(s, seen, k).current ==
           NextPollInterval(s, Before(s, seen, k), StateAt(s, seen, k).lastJobTime, seen[k]) by { StateIs(s, seen, k); }
  }

  /** From one claiming poll the next is at most three intervals away. */
  lemma ClaimGap(s: Settings, seen: seq<Observation>, k: nat) returns (next: nat)
    requires Loadable(s) && AllDrawn(s, seen) && k + 3 < |seen|
    ensures k < next <= k + 3 && ClaimsAt(s, seen, next)
    ensures Waited(s, seen, k, next) <= 3.0 * Ceiling(s)
    ensures s.postClaim <= s.maxIdle ==> Waited(s, seen, k, next) <= 3.0 * s.maxIdle * (1.0 + s.jitter)
  {
    hide StateAt, Waited, Ceiling;
    OneOfThreeClaims(s, seen, k + 1);
    next := if ClaimsAt(s, seen, k + 1) then k + 1 else if ClaimsAt(s, seen, k + 2) then k + 2 else k + 3;
    WaitedAtMost(s, seen, k, next);
    CeilingValue(s);
    Scale((next - k) as real, 3.0, Ceiling(s), Ceiling(s));
  }

  lemma CeilingValue(s: Settings)
    requires Loadable(s)
    ensures 0.0 < Ceiling(s)
    ensures s.postClaim <= s.maxIdle ==> 3.0 * Ceiling(s) == 3.0 * s.maxIdle * (1.0 + s.jitter)
  {
    Scale(s.maxIdle, s.maxIdle, 1.0, 1.0 + s.jitter);
    Associate(3.0, s.maxIdle, 1.0 + s.jitter);
  }

  lemma {:induction false} WaitedAtMost(s: Settings, seen: seq<Observation>, from: nat, to: nat)
    requires Loadable(s) && AllDrawn(s, seen) && from <= to < |seen|
    ensures Waited(s, seen, from, to) <= (to - from) as real * Ceiling(s)
  {
    hide StateAt, Ceiling;
    if from < to {
      WaitedAtMost(s, seen, from, to - 1);
      IntervalBounds(s, seen, to - 1);
      AddOne((to - from - 1) as real, Ceiling(s));
    }
  }

  lemma AddOne(n: real, x: real)
    ensures (n + 1.0) * x == n * x + x
  {
  }

  // ---- When the backoff has a floor --------------------------------------

  function Floor(s: Settings): real {
    Min(Min(s.minPoll, s.postClaim), LowCeiling(s))
  }

  lemma IntervalAtLeastFloor(s: Settings, seen: seq<Observation>, k: nat)
    requires Loadable(s) && AllDrawn(s, seen) && k < |seen| && Growth(s) >= 1.0
    ensures StateAt(s, seen, k).current >= Floor(s)
  {
    hide StateAt, Growth, Grown, LowCeiling;
    if k > 0 { IntervalAtLeastFloor(s, seen, k - 1); }
    IntervalBounds(s, seen, k);
    GrownAtLeast(s, Before(s, seen, k));
  }

  /** Polls a+1 .. b meet no work and the grace period is over. */
  ghost predicate Idle(s: Settings, seen: seq<Observation>, a: nat, b: nat)
    requires a <= b < |seen|
  {
    forall k | a < k <= b ::
      var last := StateAt(s, seen, k - 1).lastJobTime;
      seen[k].jobs == 0 && !seen[k].busy && (last.Some? ==> seen[k].now - last.value >= s.activeGrace)
  }

  /** An idle poll that drew the shortest jitter. */
  function Unlucky(s: Settings): Observation {
    Observation(0, false, 0.0, 1.0 - s.jitter)
  }

  function Pow(x: real, n: nat): real {
    if n == 0 then 1.0 else x * Pow(x, n - 1)
  }

  /** `start` grown n times. */
  function Compound(s: Settings, start: real, n: nat): real {
    Times(start, Pow(Growth(s), n))
  }

  lemma CompoundStep(s: Settings, start: real, n: nat)
    ensures Compound(s, start, 0) == start
    ensures n > 0 ==> Compound(s, start, n) == Grown(s, Compound(s, start, n - 1))
  {
    hide Growth;
    if n > 0 { Associate(start, Pow(Growth(s), n - 1), Growth(s)); }
  }

  lemma UnluckyStep(s: Settings, before: real, bound: real)
    requires Loadable(s) && 0.0 < before <= bound
    ensures Backoff(s, before, 1.0 - s.jitter) <= Grown(s, bound)
  {
    hide Times, Growth;
    var grown := Times(before, s.multiplier);
    var next := Min(grown, s.maxIdle);
    TimesMonotone(before, before, s.multiplier, s.multiplier);
    TimesMonotone(next, grown, 1.0 - s.jitter, 1.0 - s.jitter);
    GrowthPositive(s);
    GrownIs(s, before);
    TimesMonotone(before, bound, Growth(s), Growth(s));
  }

  lemma GrownIs(s: Settings, before: real)
    ensures Times(Times(before, s.multiplier), 1.0 - s.jitter) == Grown(s, before)
  {
    TimesAssociate(before, s.multiplier, 1.0 - s.jitter);
  }

  lemma GrowthPositive(s: Settings)
    requires Loadable(s)
    ensures Growth(s) > 0.0 && Floor(s) > 0.0
  {
    hide Times;
    TimesMonotone(s.multiplier, s.multiplier, 1.0 - s.jitter, 1.0 - s.jitter);
    TimesMonotone(s.maxIdle, s.maxIdle, 1.0 - s.jitter, 1.0 - s.jitter);
  }

  lemma Positive(a: real, b: real)
    requires a > 0.0 && b > 0.0
    ensures a * b > 0.0
  {
  }

  lemma {:induction false} UnluckyRun(s: Settings, n: nat, k: nat)
    requires Loadable(s) && k < n
    ensures var st := StateAt(s, seq(n, _ => Unlucky(s)), k);
            st.current <= Compound(s, s.minPoll, k + 1) && st.lastJobTime == None
  {
    hide Growth, Grown, Backoff, Ceiling, LowCeiling, Compound;
    var seen := seq(n, _ => Unlucky(s));
    if k > 0 { UnluckyRun(s, n, k - 1); }
    IntervalBounds(s, seen, k);
    CompoundStep(s, s.minPoll, k + 1);
    UnluckyStep(s, Before(s, seen, k), Compound(s, s.minPoll, k));
  }

  lemma {:induction false} PowDecays(q: real, n: nat)
    requires 0.0 <= q < 1.0
    ensures 0.0 <= Pow(q, n) && Pow(q, n) * (1.0 + n as real * (1.0 - q)) <= 1.0
  {
    if n > 0 {
      PowDecays(q, n - 1);
      DecayStep(Pow(q, n - 1), 1.0 - q, (n - 1) as real);
    }
  }

  lemma DecayStep(p: real, d: real, m: real)
    requires 0.0 <= p && 0.0 < d <= 1.0 && 0.0 <= m && p * (1.0 + m * d) <= 1.0
    ensures 0.0 <= (1.0 - d) * p && (1.0 - d) * p * (1.0 + (m + 1.0) * d) <= 1.0
  {
    var less := d * d * (m + 1.0);
    Scale(0.0, d, d, d);
    Scale(0.0, d * d, m + 1.0, m + 1.0);
    Scale(0.0, p, less, less);
    Scale(0.0, 1.0 - d, p, p);
    assert (1.0 - d) * (1.0 + (m + 1.0) * d) == (1.0 + m * d) - less;
    assert (1.0 - d) * p * (1.0 + (m + 1.0) * d) == p * ((1.0 - d) * (1.0 + (m + 1.0) * d));
  }

  lemma {:induction false} PowBelow(x: real, q: real, bound: real, least: nat) returns (n: nat)
    requires x > 0.0 && 0.0 <= q < 1.0 && bound > 0.0
    ensures n >= least && x * Pow(q, n + 1) < bound
  {
    hide Pow;
    var d := 1.0 - q;
    Positive(bound, d);
    var enough := AtLeast(x / (bound * d));
    n := least + enough;
    var m := (n + 1) as real;
    PowDecays(q, n + 1);
    Overtake(bound, d, bound * d, x, m);
    TooSmall(x, Pow(q, n + 1), bound, m, d);
  }

  lemma AtLeast(r: real) returns (n: nat)
    ensures n as real >= r
  {
    n := if r < 0.0 then 0 else r.Floor + 1;
  }

  lemma TooSmall(x: real, p: real, bound: real, m: real, d: real)
    requires x > 0.0 && p >= 0.0 && m > 0.0 && d > 0.0 && bound > 0.0
    requires p * (1.0 + m * d) <= 1.0 && bound * (1.0 + m * d) > x
    ensures x * p < bound
  {
    var e := 1.0 + m * d;
    assert e > 0.0;
    if p > 0.0 {
      assert (bound * e - x) * p > 0.0;
      assert bound * e * p == bound * (p * e);
      Scale(p * e, 1.0, bound, bound) by { assert p * e >= 0.0; }
    }
  }

  /** With the growth product below one, an idle agent's interval can shrink
      under any bound, after any number of polls: the settings the loader accepts
      do not exclude it. */
  lemma IntervalCollapses(s: Settings, bound: real, least: nat) returns (seen: seq<Observation>, k: nat)
    requires Loadable(s) && Growth(s) < 1.0 && bound > 0.0
    ensures AllDrawn(s, seen) && least <= k < |seen| && Idle(s, seen, 0, k) && StateAt(s, seen, k).current < bound
  {
    hide StateAt, Pow;
    GrowthPositive(s);
    k := PowBelow(s.minPoll, Growth(s), bound, least);
    seen := seq(k + 1, _ => Unlucky(s));
    forall i | 0 <= i <= k
      ensures StateAt(s, seen, i).lastJobTime == None
    {
      UnluckyRun(s, k + 1, i);
    }
    UnluckyRun(s, k + 1, k);
  }

  ghost predicate IntervalsHaveFloor(s: Settings, floor: real) {
    floor > 0.0 &&
    forall seen, k: nat | AllDrawn(s, seen) && k < |seen| :: StateAt(s, seen, k).current >= floor
  }

  /** The intervals of all runs have a positive lower bound exactly when
      multiplier * (1 - jitter) is at least one, and then Floor is one. */
  lemma FloorIff(s: Settings)
    requires Loadable(s)
    ensures (exists floor :: IntervalsHaveFloor(s, floor)) <==> Growth(s) >= 1.0
    ensures Growth(s) >= 1.0 ==> IntervalsHaveFloor(s, Floor(s))
  {
    if Growth(s) >= 1.0 {
      forall seen, k: nat | AllDrawn(s, seen) && k < |seen|
        ensures StateAt(s, seen, k).current >= Floor(s)
      {
        IntervalAtLeastFloor(s, seen, k);
      }
      GrowthPositive(s);
      assert IntervalsHaveFloor(s, Floor(s));
    } else if floor :| IntervalsHaveFloor(s, floor) {
      var seen, k := IntervalCollapses(s, floor, 0);
    }
  }

  // ---- When an idle agent reaches the ceiling -----------------------------

  lemma {:induction false} PowGrows(p: real, n: nat)
    requires p >= 1.0
    ensures Pow(p, n) >= 1.0 + n as real * (p - 1.0)
  {
    if n > 0 {
      PowGrows(p, n - 1);
      var m := (n - 1) as real;
      GrowStep(m, p - 1.0, Pow(p, n - 1));
    }
  }

  lemma GrowStep(m: real, e: real, x: real)
    requires m >= 0.0 && e >= 0.0 && x >= 1.0 + m * e
    ensures (1.0 + e) * x >= 1.0 + (m + 1.0) * e
  {
    Scale(0.0, x - (1.0 + m * e), e, e);
    Scale(0.0, m, e, e);
    Scale(0.0, m * e, e, e);
  }

  lemma {:induction false} IdleGrowth(s: Settings, seen: seq<Observation>, a: nat, b: nat)
    requires Loadable(s) && AllDrawn(s, seen) && a <= b < |seen| && Idle(s, seen, a, b) && Growth(s) >= 1.0
    ensures StateAt(s, seen, b).current >= Min(Compound(s, StateAt(s, seen, a).current, b - a), LowCeiling(s))
    decreases b
  {
    hide StateAt, Growth, Grown, LowCeiling, Compound;
    CompoundStep(s, StateAt(s, seen, a).current, b - a);
    if a < b {
      IdleGrowth(s, seen, a, b - 1);
      IntervalBounds(s, seen, b - 1);
      IdleStep(s, seen, a, b);
      IntervalBounds(s, seen, a);
      CompoundPositive(s, StateAt(s, seen, a).current, b - a - 1);
      GrowOnce(s, Compound(s, StateAt(s, seen, a).current, b - a - 1), StateAt(s, seen, b - 1).current);
    }
  }

  lemma CompoundPositive(s: Settings, start: real, n: nat)
    requires start > 0.0 && Growth(s) >= 1.0
    ensures Compound(s, start, n) > 0.0
  {
    hide Growth;
    PowGrows(Growth(s), n);
    Scale(0.0, n as real, Growth(s) - 1.0, Growth(s) - 1.0);
    Positive(start, Pow(Growth(s), n));
  }

  lemma GrowOnce(s: Settings, x: real, before: real)
    requires Growth(s) >= 1.0 && before > 0.0 && x > 0.0 && before >= Min(x, LowCeiling(s))
    ensures Min(Grown(s, before), LowCeiling(s)) >= Min(Grown(s, x), LowCeiling(s))
  {
    hide Growth, LowCeiling, Times;
    TimesMonotone(before, before, 1.0, Growth(s));
    if 0.0 <= x <= before { TimesMonotone(x, before, Growth(s), Growth(s)); }
  }

  /** An idle poll takes the backoff branch. */
  lemma IdleStep(s: Settings, seen: seq<Observation>, a: nat, b: nat)
    requires Loadable(s) && AllDrawn(s, seen) && a < b < |seen| && Idle(s, seen, a, b)
    ensures StateAt(s, seen, b).current >=
            Min(Grown(s, StateAt(s, seen, b - 1).current), LowCeiling(s))
  {
    hide Grown, LowCeiling, Backoff;
    IntervalBounds(s, seen, b - 1);
    assert Drawn(s, seen[b]);
    BackoffBounds(s, StateAt(s, seen, b - 1).current, seen[b].factor);
  }

  /** Enough idle polls, counted from the settings alone. */
  function PollsToCeiling(s: Settings): (n: nat)
    requires Loadable(s) && Growth(s) > 1.0
    ensures n as real >= s.maxIdle / StepGain(s)
  {
    var n := (s.maxIdle / StepGain(s)).Floor + 1;
    if n < 0 then 0 else n
  }

  function StepGain(s: Settings): (gain: real)
    requires Loadable(s) && Growth(s) > 1.0
    ensures gain > 0.0 && gain == Floor(s) * (Growth(s) - 1.0)
  {
    GrowthPositive(s);
    Scale(Floor(s), Floor(s), Growth(s) - 1.0, Growth(s) - 1.0);
    Floor(s) * (Growth(s) - 1.0)
  }

  /** With the product above one, after that many polls without work the interval
      is at least maxIdle * (1 - jitter), and stays so as long as no work comes. */
  lemma IdleReachesCeiling(s: Settings, seen: seq<Observation>, a: nat, b: nat)
    requires Loadable(s) && AllDrawn(s, seen) && Growth(s) > 1.0
    requires a + PollsToCeiling(s) <= b < |seen| && Idle(s, seen, a, b)
    ensures LowCeiling(s) <= StateAt(s, seen, b).current <= Ceiling(s)
  {
    hide StateAt, Growth, LowCeiling, Compound, Ceiling, Floor, StepGain;
    IntervalBounds(s, seen, b);
    IntervalAtLeastFloor(s, seen, a);
    IdleGrowth(s, seen, a, b);
    CompoundBeyond(s, StateAt(s, seen, a).current, b - a);
    LowCeilingBelow(s);
  }

  lemma CompoundBeyond(s: Settings, start: real, n: nat)
    requires Loadable(s) && Growth(s) > 1.0 && start >= Floor(s) && n >= PollsToCeiling(s)
    ensures Compound(s, start, n) > s.maxIdle
  {
    hide Growth, Floor, StepGain, PollsToCeiling;
    var p, f := Growth(s), Floor(s);
    GrowthPositive(s);
    Overtake(f, p - 1.0, StepGain(s), s.maxIdle, n as real);
    PowGrows(p, n);
    Scale(0.0, n as real, p - 1.0, p - 1.0);
    Scale(f, start, 1.0 + n as real * (p - 1.0), Pow(p, n));
  }

  lemma LowCeilingBelow(s: Settings)
    requires Loadable(s)
    ensures LowCeiling(s) <= s.maxIdle
  {
    hide Times;
    TimesMonotone(s.maxIdle, s.maxIdle, 1.0 - s.jitter, 1.0);
    TimesMonotone(s.maxIdle, s.maxIdle, 1.0, 1.0);
  }

  lemma Overtake(f: real, e: real, g: real, target: real, n: real)
    requires f > 0.0 && g == f * e && g > 0.0 && n >= target / g
    ensures f * (1.0 + n * e) > target
  {
    assert target / g * g == target;
    assert (n - target / g) * g >= 0.0;
    assert f * (1.0 + n * e) == f + n * g;
  }

  /** With the product at most one an agent that starts below the ceiling may never reach it. */
  lemma IdleMayNeverReachCeiling(s: Settings, n: nat, k: nat)
    requires Loadable(s) && Growth(s) <= 1.0 && s.minPoll < LowCeiling(s) && k < n
    ensures var seen := seq(n, _ => Unlucky(s));
            AllDrawn(s, seen) && Idle(s, seen, 0, n - 1) && StateAt(s, seen, k).current < LowCeiling(s)
  {
    hide StateAt, Growth, LowCeiling, Pow, Times;
    var seen := seq(n, _ => Unlucky(s));
    forall i | 0 <= i < n
      ensures StateAt(s, seen, i).lastJobTime == None
    {
      UnluckyRun(s, n, i);
    }
    UnluckyRun(s, n, k);
    GrowthPositive(s);
    PowAtMostOne(Growth(s), k + 1);
    TimesMonotone(s.minPoll, s.minPoll, Pow(Growth(s), k + 1), 1.0);
    TimesMonotone(s.minPoll, s.minPoll, 1.0, 1.0);
  }

  /** A poll that brings a job, then idle polls past the grace period that draw the shortest jitter. */
  function UnluckyAfterJob(s: Settings, n: nat): seq<Observation> {
    [Observation(1, false, 0.0, 1.0 - s.jitter)] + seq(n, _ => Unlucky(s).(now := s.activeGrace))
  }

  /** Nor may one that has just claimed a job, from a claim interval below the ceiling. */
  lemma {:induction false} AfterJobMayNeverReachCeiling(s: Settings, n: nat, k: nat)
    requires Loadable(s) && Growth(s) <= 1.0 && k <= n
    ensures var st := StateAt(s, UnluckyAfterJob(s, n), k);
            st.current <= s.postClaim && st.lastJobTime == Some(0.0)
  {
    hide Growth, Grown, Backoff, Ceiling, LowCeiling;
    if k > 0 {
      var seen := UnluckyAfterJob(s, n);
      AfterJobMayNeverReachCeiling(s, n, k - 1);
      IntervalBounds(s, seen, k);
      UnluckyStep(s, Before(s, seen, k), s.postClaim);
      GrownAtMost(s, s.postClaim);
    }
  }

  lemma GrownAtMost(s: Settings, x: real)
    requires Loadable(s) && Growth(s) <= 1.0 && x > 0.0
    ensures Grown(s, x) <= x
  {
    hide Times, Growth;
    GrowthPositive(s);
    TimesMonotone(x, x, Growth(s), 1.0);
    TimesMonotone(x, x, 1.0, 1.0);
  }

  /** From the nth idle poll of any idle stretch on, the interval is at the ceiling. */
  ghost predicate IdleHoldsCeiling(s: Settings, n: nat) {
    forall seen, a: nat, b: nat | AllDrawn(s, seen) && a + n <= b < |seen| && Idle(s, seen, a, b) ::
      StateAt(s, seen, b).current >= LowCeiling(s)
  }

  /** Some number of idle polls is enough in every run exactly when the interval grows
      with each of them, or cannot shrink and never starts below the ceiling. */
  lemma IdleCeilingIff(s: Settings)
    requires Loadable(s)
    ensures (exists n: nat :: IdleHoldsCeiling(s, n)) <==>
            Growth(s) > 1.0 || (Growth(s) == 1.0 && Min(s.minPoll, s.postClaim) >= LowCeiling(s))
  {
    hide StateAt, Idle, Growth, LowCeiling;
    if Growth(s) > 1.0 {
      CeilingHeldWhenGrowing(s);
    } else if Growth(s) == 1.0 && Min(s.minPoll, s.postClaim) >= LowCeiling(s) {
      CeilingHeldFromStart(s);
    } else if n: nat :| IdleHoldsCeiling(s, n) {
      CeilingMissed(s, n);
    }
  }

  lemma CeilingHeldWhenGrowing(s: Settings)
    requires Loadable(s) && Growth(s) > 1.0
    ensures IdleHoldsCeiling(s, PollsToCeiling(s))
  {
    hide StateAt, Idle, Growth, LowCeiling, PollsToCeiling;
    forall seen, a: nat, b: nat | AllDrawn(s, seen) && a + PollsToCeiling(s) <= b < |seen| && Idle(s, seen, a, b)
      ensures StateAt(s, seen, b).current >= LowCeiling(s)
    {
      IdleReachesCeiling(s, seen, a, b);
    }
  }

  lemma CeilingHeldFromStart(s: Settings)
    requires Loadable(s) && Growth(s) == 1.0 && Min(s.minPoll, s.postClaim) >= LowCeiling(s)
    ensures IdleHoldsCeiling(s, 0)
  {
    hide StateAt, Idle, Growth, LowCeiling;
    forall seen, b: nat | AllDrawn(s, seen) && b < |seen|
      ensures StateAt(s, seen, b).current >= LowCeiling(s)
    {
      IntervalAtLeastFloor(s, seen, b);
    }
  }

  lemma CeilingMissed(s: Settings, n: nat)
    requires Loadable(s) && Growth(s) <= 1.0
    requires Growth(s) == 1.0 ==> Min(s.minPoll, s.postClaim) < LowCeiling(s)
    ensures !IdleHoldsCeiling(s, n)
  {
    hide StateAt, Growth, LowCeiling;
    if Growth(s) < 1.0 {
      LowCeilingPositive(s);
      var seen, k := IntervalCollapses(s, LowCeiling(s), n);
      assert 0 + n <= k;
    } else if s.minPoll < LowCeiling(s) {
      IdleMayNeverReachCeiling(s, n + 1, n);
      assert 0 + n <= n < |seq(n + 1, _ => Unlucky(s))|;
    } else {
      var seen := UnluckyAfterJob(s, n);
      forall i | 0 <= i <= n
        ensures StateAt(s, seen, i).lastJobTime == Some(0.0) && StateAt(s, seen, i).current <= s.postClaim
      {
        AfterJobMayNeverReachCeiling(s, n, i);
      }
      assert 0 + n <= n < |seen| && Idle(s, seen, 0, n);
    }
  }

  lemma LowCeilingPositive(s: Settings)
    requires Loadable(s)
    ensures LowCeiling(s) > 0.0
  {
    hide Times;
    TimesMonotone(s.maxIdle, s.maxIdle, 1.0 - s.jitter, 1.0 - s.jitter);
  }

  lemma {:induction false} PowAtMostOne(q: real, n: nat)
    requires 0.0 <= q <= 1.0
    ensures 0.0 <= Pow(q, n) <= 1.0
  {
    if n > 0 {
      PowAtMostOne(q, n - 1);
      Scale(q, 1.0, Pow(q, n - 1), 1.0);
      Scale(0.0, q, Pow(q, n - 1), Pow(q, n - 1));
    }
  }

  // ---- When the products fit a time.Duration -------------------------------

  /** 2^63 nanoseconds. */
  const DURATION_LIMIT := 9223372036.854775808

  /** Poll k multiplies the interval. */
  predicate BacksOff(s: Settings, seen: seq<Observation>, k: nat)
    requires k < |seen|
  {
    var last := StateAt(s, seen, k).lastJobTime;
    seen[k].jobs == 0 && (last.Some? ==> seen[k].now - last.value >= s.activeGrace)
  }

  ghost predicate ProductsFit(s: Settings) {
    forall seen, k: nat | AllDrawn(s, seen) && k < |seen| && BacksOff(s, seen, k) ::
      Times(Before(s, seen, k), s.multiplier) < DURATION_LIMIT
  }

  /** The longest interval a run can multiply. */
  function Widest(s: Settings): real {
    Max(s.minPoll, Ceiling(s))
  }

  /** An idle poll that drew the longest jitter. */
  function Lucky(s: Settings): Observation {
    Observation(0, false, 0.0, 1.0 + s.jitter)
  }

  function LuckyGrowth(s: Settings): real {
    Times(s.multiplier, 1.0 + s.jitter)
  }

  lemma LuckyStep(s: Settings, before: real, x: real)
    requires Loadable(s) && before > 0.0 && x > 0.0 && before >= Min(x, Times(s.maxIdle, 1.0 + s.jitter))
    ensures
      var high := Times(s.maxIdle, 1.0 + s.jitter);
      high >= Backoff(s, before, 1.0 + s.jitter) >= Min(Times(x, LuckyGrowth(s)), high)
  {
    hide Times;
    var grown, g := Times(before, s.multiplier), 1.0 + s.jitter;
    var next := Min(grown, s.maxIdle);
    TimesMonotone(before, before, 1.0, s.multiplier);
    TimesMonotone(before, before, 1.0, 1.0);
    TimesMonotone(s.maxIdle, s.maxIdle, 1.0, g);
    TimesMonotone(s.maxIdle, s.maxIdle, 1.0, 1.0);
    TimesMonotone(next, next, g, g);
    TimesMonotone(next, s.maxIdle, g, g);
    TimesAssociate(before, s.multiplier, g);
    TimesMonotone(s.multiplier, s.multiplier, g, g);
    if x <= before { TimesMonotone(x, before, LuckyGrowth(s), LuckyGrowth(s)); }
  }

  lemma {:induction false} LuckyRun(s: Settings, n: nat, k: nat)
    requires Loadable(s) && k < n
    ensures
      var st, high := StateAt(s, seq(n, _ => Lucky(s)), k), Times(s.maxIdle, 1.0 + s.jitter);
      && st.lastJobTime == None
      && high >= st.current >= Min(Times(s.minPoll, Pow(LuckyGrowth(s), k + 1)), high)
  {
    hide LuckyGrowth, Times, Backoff, Ceiling;
    var seen, p := seq(n, _ => Lucky(s)), LuckyGrowth(s);
    var x := Times(s.minPoll, Pow(p, k));
    if k > 0 { LuckyRun(s, n, k - 1); } else { TimesMonotone(s.minPoll, s.minPoll, 1.0, 1.0); }
    IntervalBounds(s, seen, k);
    LuckyGrows(s, k);
    LuckyStep(s, Before(s, seen, k), x);
    TimesAssociate(s.minPoll, Pow(p, k), p);
    assert Times(Pow(p, k), p) == Pow(p, k + 1) by { PowNext(p, k); }
  }

  lemma PowNext(p: real, k: nat)
    ensures Times(Pow(p, k), p) == Pow(p, k + 1)
  {
  }

  lemma LuckyGrows(s: Settings, k: nat)
    requires Loadable(s)
    ensures LuckyGrowth(s) > 1.0 && Times(s.minPoll, Pow(LuckyGrowth(s), k)) > 0.0
    ensures Times(s.minPoll, Pow(LuckyGrowth(s), k)) >= s.minPoll * (1.0 + k as real * (LuckyGrowth(s) - 1.0))
  {
    hide Pow;
    Scale(s.multiplier, s.multiplier, 1.0, 1.0 + s.jitter);
    var p := LuckyGrowth(s);
    PowGrows(p, k);
    Scale(0.0, k as real, p - 1.0, p - 1.0);
    Scale(s.minPoll, s.minPoll, 1.0 + k as real * (p - 1.0), Pow(p, k));
    Positive(s.minPoll, Pow(p, k));
  }

  /** Some idle run reaches the jittered ceiling itself. */
  lemma CeilingReached(s: Settings) returns (seen: seq<Observation>, k: nat)
    requires Loadable(s)
    ensures AllDrawn(s, seen) && 0 < k < |seen| && BacksOff(s, seen, k)
    ensures Before(s, seen, k) == Times(s.maxIdle, 1.0 + s.jitter)
  {
    hide StateAt, Pow, LuckyGrowth;
    var p, high := LuckyGrowth(s), Times(s.maxIdle, 1.0 + s.jitter);
    LuckyGrows(s, 0);
    Positive(s.minPoll, p - 1.0);
    k := AtLeast(high / (s.minPoll * (p - 1.0)));
    Overtake(s.minPoll, p - 1.0, s.minPoll * (p - 1.0), high, k as real);
    Later(s.minPoll, p - 1.0, k);
    k := k + 1;
    LuckyGrows(s, k);
    seen := seq(k + 1, _ => Lucky(s));
    LuckyRun(s, k + 1, k - 1);
    LuckyRun(s, k + 1, k);
  }

  lemma Later(f: real, e: real, k: nat)
    requires f > 0.0 && e > 0.0
    ensures f * (1.0 + (k + 1) as real * e) >= f * (1.0 + k as real * e)
  {
    Scale(k as real, (k + 1) as real, e, e);
    Scale(f, f, 1.0 + k as real * e, 1.0 + (k + 1) as real * e);
  }

  lemma ProductAtMost(s: Settings, seen: seq<Observation>, k: nat)
    requires Loadable(s) && AllDrawn(s, seen) && k < |seen|
    ensures Times(Before(s, seen, k), s.multiplier) <= Times(Widest(s), s.multiplier)
  {
    hide StateAt, Times, Ceiling;
    if k > 0 { IntervalBounds(s, seen, k - 1); }
    TimesMonotone(Before(s, seen, k), Widest(s), s.multiplier, s.multiplier);
  }

  /** No poll of any run computes a product beyond a time.Duration if and only if the
      longest of the three start intervals, multiplied, fits. */
  lemma ProductsFitIff(s: Settings)
    requires Loadable(s)
    ensures ProductsFit(s) <==> Times(Widest(s), s.multiplier) < DURATION_LIMIT
  {
    hide Times, StateAt, BacksOff;
    if Times(Widest(s), s.multiplier) < DURATION_LIMIT {
      forall seen, k: nat | AllDrawn(s, seen) && k < |seen| && BacksOff(s, seen, k)
        ensures Times(Before(s, seen, k), s.multiplier) < DURATION_LIMIT
      {
        ProductAtMost(s, seen, k);
      }
    } else {
      var seen, k := WidestReached(s);
    }
  }

  lemma WidestReached(s: Settings) returns (seen: seq<Observation>, k: nat)
    requires Loadable(s)
    ensures AllDrawn(s, seen) && k < |seen| && BacksOff(s, seen, k) && Before(s, seen, k) == Widest(s)
  {
    hide Times, Backoff;
    if Widest(s) == s.minPoll {
      seen, k := [Unlucky(s)], 0;
    } else if Widest(s) == s.postClaim {
      seen, k := UnluckyAfterJob(s, 1), 1;
      assert StateAt(s, seen, 0) == AfterFirstPoll(s, seen[0]);
      assert StateAt(s, seen, 1).lastJobTime == Some(0.0);
    } else {
      seen, k := CeilingReached(s);
    }
  }
}
