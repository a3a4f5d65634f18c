/** What a job enqueued twice within the dedup TTL takes, in every interleaving of
    internal/dispatcher/worker_pool.go: an eviction between the two, or a second
    submission that was admitted before the first was noted.
 */
module DoubleEnqueue {
  import DedupStore
  import opened WorkerPool

  /** The step puts its request on the queue, and into the log. */
  predicate Logs(s: State, e: Event) {
    e.Enqueue? && At(s, e.id, Reserved) && |s.queue| < QUEUE_SIZE
  }

  /** The requests behind the entries of the log. */
  function By(s: State, events: seq<Event>): seq<nat> {
    if events == [] then []
    else
      var before, e := events[..|events| - 1], events[|events| - 1];
      ByAfter(Run(s, before), By(s, before), e)
  }

  function ByAfter(s: State, who: seq<nat>, e: Event): seq<nat> {
    who + if Logs(s, e) then [e.id] else []
  }

  predicate NotedIn(s: State, id: nat) {
    id in s.requests && s.requests[id].noted
  }

  function AllNoted(s: State): set<nat> {
    set id | id in s.requests && s.requests[id].noted
  }

  predicate Admits(s: State, e: Event, id: nat) {
    e.Submit? && e.id == id && Enabled(s, e)
  }

  /** For each request those that had been noted when it was admitted. */
  function Past(s: State, events: seq<Event>): map<nat, set<nat>> {
    if events == [] then map[]
    else
      var before, e := events[..|events| - 1], events[|events| - 1];
      PastAfter(Run(s, before), Past(s, before), e)
  }

  function PastAfter(s: State, past: map<nat, set<nat>>, e: Event): map<nat, set<nat>> {
    if e.Submit? && Enabled(s, e) then past[e.id := AllNoted(s)] else past
  }

  // ---- What every run keeps ---------------------------------------------------------

  /** Entry k was made by a request of that job; once noted, the entry is settled. */
  ghost predicate EntryOf(s: State, who: seq<nat>, k: nat)
    requires k < |who| == |s.log|
  {
    && who[k] in s.requests && Enqueued(s.requests[who[k]].phase) && s.requests[who[k]].req.jobID == s.log[k].0
    && s.log[k].1 <= s.now && (s.requests[who[k]].noted ==> Settled(s, s.log[k]))
  }

  ghost predicate Entries(s: State, who: seq<nat>) {
    |who| == |s.log| && forall k | 0 <= k < |who| :: EntryOf(s, who, k)
  }

  ghost predicate PastNoted(s: State, past: map<nat, set<nat>>) {
    && past.Keys == s.requests.Keys
    && (forall b, a | b in past && a in past[b] :: NotedIn(s, a))
    && (forall a | NotedIn(s, a) :: Enqueued(s.requests[a].phase))
  }

  /** What had been noted before a submission began can no longer be in its way. */
  ghost predicate PastElapsed(s: State, who: seq<nat>, past: map<nat, set<nat>>)
    requires |who| == |s.log| && past.Keys == s.requests.Keys
  {
    forall b, k | b in s.requests && BeforeEnqueue(s.requests[b].phase) && 0 <= k < |who|
                  && s.log[k].0 == s.requests[b].req.jobID && who[k] in past[b] :: Elapsed(s, s.log[k])
  }

  predicate Apart(s: State, k: nat, l: nat)
    requires k < |s.log| && l < |s.log|
  {
    EvictedBetween(s, s.log[k].0, s.log[k].1, s.log[l].1) || s.log[l].1 > s.log[k].1 + s.ttl
  }

  ghost predicate PastApart(s: State, who: seq<nat>, past: map<nat, set<nat>>)
    requires |who| == |s.log|
  {
    forall k, l | 0 <= k < l < |who| && s.log[k].0 == s.log[l].0 && who[l] in past && who[k] in past[who[l]] ::
      Apart(s, k, l)
  }

  ghost predicate Known(s: State, who: seq<nat>, past: map<nat, set<nat>>) {
    Entries(s, who) && PastNoted(s, past) && PastElapsed(s, who, past) && PastApart(s, who, past)
  }

  /** Requests stay, keep their job, stay enqueued and stay noted. */
  lemma RequestStays(s: State, e: Event, id: nat)
    requires QueueExact(s) && id in s.requests
    ensures
      var t := Next(s, e);
      && id in t.requests && t.requests[id].req == s.requests[id].req
      && (Enqueued(s.requests[id].phase) ==> Enqueued(t.requests[id].phase))
      && (s.requests[id].noted ==> t.requests[id].noted)
      && (t.requests[id].noted && !s.requests[id].noted ==> e == NoteDedup(id) && Enabled(s, e))
      && (BeforeEnqueue(t.requests[id].phase) ==> BeforeEnqueue(s.requests[id].phase))
  {
    if Acts(s, e) { OnlySubjectMoves(s, e); SubmittingOnlyEnds(s, e); } else { NoActor(s, e); }
    hide JobsAfter, StepsAfter, LogAfter, SeenAfter, QueueAfter;
  }

  lemma NewRequest(s: State, e: Event, id: nat)
    requires id !in s.requests && id in Next(s, e).requests && QueueExact(s)
    ensures Admits(s, e, id) && Next(s, e).requests[id] == Tracked(e.req, Admitted, false)
  {
    hide JobsAfter, StepsAfter, LogAfter, SeenAfter, QueueAfter;
    if Acts(s, e) { OnlySubjectMoves(s, e); } else { NoActor(s, e); }
  }

  lemma LogGrows(s: State, e: Event)
    ensures
      var t := Next(s, e);
      && t.log == s.log + (if Logs(s, e) then [(s.requests[e.id].req.jobID, s.now)] else [])
      && t.ttl == s.ttl && s.now <= t.now && s.evicted <= t.evicted && (Logs(s, e) ==> t.now == s.now)
  {
    hide JobsAfter, StepsAfter, RequestsAfter, QueueAfter, SeenAfter;
  }

  lemma NotingSettles(s: State, e: Event, entry: (string, int))
    requires e.NoteDedup? && Enabled(s, e) && s.requests[e.id].req.jobID == entry.0 && entry.1 <= s.now
    ensures Settled(Next(s, e), entry)
  {
    hide JobsAfter, StepsAfter, RequestsAfter, QueueAfter, LogAfter;
  }

  lemma LoggedIsEnqueued(s: State, e: Event)
    requires Logs(s, e) && QueueExact(s)
    ensures
      var t := Next(s, e);
      && e.id in t.requests && Enqueued(t.requests[e.id].phase) && t.requests[e.id].req == s.requests[e.id].req
      && t.requests[e.id].noted == s.requests[e.id].noted
  {
    EnqueueIs(s, e.id);
  }

  lemma EntriesStay(s: State, who: seq<nat>, past: map<nat, set<nat>>, e: Event)
    requires QueueExact(s) && Entries(s, who) && PastNoted(s, past)
    ensures Entries(Next(s, e), ByAfter(s, who, e))
  {
    LogGrows(s, e);
    var t, who' := Next(s, e), ByAfter(s, who, e);
    hide Next, Settled, QueueExact, Enabled, Enqueued;
    forall k | 0 <= k < |who'| ensures EntryOf(t, who', k) {
      if k < |who| {
        assert EntryOf(s, who, k);
        RequestStays(s, e, who[k]);
        if s.requests[who[k]].noted {
          SettledStays(s, e, s.log[k]);
        } else if t.requests[who[k]].noted {
          NotingSettles(s, e, s.log[k]);
        }
      } else {
        LoggedIsEnqueued(s, e);
        ReservedIsUnnoted(s, past, e.id);
      }
    }
  }

  lemma ReservedIsUnnoted(s: State, past: map<nat, set<nat>>, id: nat)
    requires PastNoted(s, past) && At(s, id, Reserved)
    ensures !s.requests[id].noted
  {
    assert !NotedIn(s, id) || Enqueued(s.requests[id].phase);
  }

  lemma PastStaysNoted(s: State, past: map<nat, set<nat>>, e: Event)
    requires QueueExact(s) && PastNoted(s, past)
    ensures PastNoted(Next(s, e), PastAfter(s, past, e))
  {
    var t, past' := Next(s, e), PastAfter(s, past, e);
    hide Next, QueueExact, Enqueued, BeforeEnqueue;
    forall a | a in s.requests ensures a in t.requests && (s.requests[a].noted ==> t.requests[a].noted) {
      RequestStays(s, e, a);
    }
    forall a | a in t.requests && a !in s.requests ensures Admits(s, e, a) && !t.requests[a].noted {
      NewRequest(s, e, a);
    }
    if e.Submit? && Enabled(s, e) { SubmitAdds(s, e); }
    assert past'.Keys == t.requests.Keys;
    forall b, a | b in past' && a in past'[b] ensures NotedIn(t, a) {
      assert NotedIn(s, a);
    }
    forall a | NotedIn(t, a) ensures Enqueued(t.requests[a].phase) {
      RequestStays(s, e, a);
      assert s.requests[a].noted ==> NotedIn(s, a);
      if !s.requests[a].noted { NotedIsEnqueued(s, e); }
    }
  }

  lemma NotedIsEnqueued(s: State, e: Event)
    requires e.NoteDedup? && Enabled(s, e)
    ensures Enqueued(s.requests[e.id].phase)
  {
  }

  lemma SubmitAdds(s: State, e: Event)
    requires e.Submit? && Enabled(s, e)
    ensures e.id !in s.requests && e.id in Next(s, e).requests
  {
  }

  /** An entry settled before a submission that the store lets pass is elapsed. */
  lemma AdmissionFindsElapsed(s: State, e: Event, entry: (string, int))
    requires e.Submit? && Enabled(s, e) && entry.0 == e.req.jobID && Settled(s, entry)
    ensures Elapsed(s, entry)
  {
  }

  lemma PastStaysElapsed(s: State, who: seq<nat>, past: map<nat, set<nat>>, e: Event)
    requires QueueExact(s) && Known(s, who, past)
    requires |ByAfter(s, who, e)| == |Next(s, e).log| && PastAfter(s, past, e).Keys == Next(s, e).requests.Keys
    ensures PastElapsed(Next(s, e), ByAfter(s, who, e), PastAfter(s, past, e))
  {
    var t, who', past' := Next(s, e), ByAfter(s, who, e), PastAfter(s, past, e);
    LogGrows(s, e);
    hide Next, QueueExact, Elapsed, Settled, Enqueued, BeforeEnqueue, PastApart;
    forall b, k | b in t.requests && BeforeEnqueue(t.requests[b].phase) && 0 <= k < |who'|
                  && t.log[k].0 == t.requests[b].req.jobID && who'[k] in past'[b]
      ensures Elapsed(t, t.log[k])
    {
      if b in s.requests {
        RequestStays(s, e, b);
        assert past'[b] == past[b] by { if e.Submit? && Enabled(s, e) { SubmitAdds(s, e); } }
        assert NotedIn(s, who'[k]);
        if k == |who| { ReservedIsUnnoted(s, past, e.id); }
        ElapsedStays(s, e, s.log[k]);
      } else {
        NewRequest(s, e, b);
        assert k < |who| && EntryOf(s, who, k);
        AdmissionFindsElapsed(s, e, s.log[k]);
        ElapsedStays(s, e, s.log[k]);
      }
    }
  }

  lemma PastStaysApart(s: State, who: seq<nat>, past: map<nat, set<nat>>, e: Event)
    requires QueueExact(s) && Known(s, who, past) && |ByAfter(s, who, e)| == |Next(s, e).log|
    ensures PastApart(Next(s, e), ByAfter(s, who, e), PastAfter(s, past, e))
  {
    var t, who', past' := Next(s, e), ByAfter(s, who, e), PastAfter(s, past, e);
    LogGrows(s, e);
    hide Next, QueueExact, Enqueued;
    forall k, l | 0 <= k < l < |who'| && t.log[k].0 == t.log[l].0 && who'[l] in past' && who'[k] in past'[who'[l]]
      ensures Apart(t, k, l)
    {
      if l < |who| { assert EntryOf(s, who, l); }
      assert who'[l] in s.requests;
      assert past'[who'[l]] == past[who'[l]] by { if e.Submit? && Enabled(s, e) { SubmitAdds(s, e); } }
      if l < |who| {
        assert Apart(s, k, l);
      } else {
        assert Elapsed(s, s.log[k]);
      }
    }
  }

  lemma StepKnown(s: State, who: seq<nat>, past: map<nat, set<nat>>, e: Event)
    requires QueueExact(s) && Known(s, who, past)
    ensures Known(Next(s, e), ByAfter(s, who, e), PastAfter(s, past, e))
  {
    EntriesStay(s, who, past, e);
    PastStaysNoted(s, past, e);
    PastStaysElapsed(s, who, past, e);
    PastStaysApart(s, who, past, e);
  }

  lemma {:induction false} RunKnown(ttl: nat, now: int, seen: Jobs, events: seq<Event>)
    ensures
      var s0 := Initial(ttl, now, seen);
      Known(Run(s0, events), By(s0, events), Past(s0, events)) && QueueExact(Run(s0, events))
  {
    if events != [] {
      var s0, before, e := Initial(ttl, now, seen), events[..|events| - 1], events[|events| - 1];
      RunKnown(ttl, now, seen, before);
      hide Known, QueueExact, Next;
      StepKnown(Run(s0, before), By(s0, before), Past(s0, before), e);
      QueueStaysExact(Run(s0, before), e);
    }
  }

  // ---- Main result -------------------------------------------------------------------

  /** At step m request b is admitted while a has not been noted. */
  predicate AdmittedUnnoted(s: State, events: seq<Event>, a: nat, b: nat, m: nat) {
    m < |events| && Admits(Run(s, events[..m]), events[m], b) && !NotedIn(Run(s, events[..m]), a)
  }

  lemma {:induction false} UnnotedAtAdmission(s: State, events: seq<Event>, a: nat, b: nat)
    requires b in Past(s, events) && a !in Past(s, events)[b]
    ensures exists m: nat :: AdmittedUnnoted(s, events, a, b, m)
  {
    var n := |events| - 1;
    var before := events[..n];
    if Admits(Run(s, before), events[n], b) {
      assert AdmittedUnnoted(s, events, a, b, n);
    } else {
      UnnotedAtAdmission(s, before, a, b);
      var m: nat :| AdmittedUnnoted(s, before, a, b, m);
      assert events[..m] == before[..m];
      assert AdmittedUnnoted(s, events, a, b, m);
    }
  }

  /** Over every interleaving: if a job is enqueued twice no more than the TTL apart and
      lost no unexpired dedup entry in between, then the request behind the second was
      admitted at a moment when the one behind the first had not been noted. */
  lemma TwiceWithinTTLNeedsOverlap(ttl: nat, now: int, seen: Jobs, events: seq<Event>, k: nat, l: nat)
    requires var log := Run(Initial(ttl, now, seen), events).log; k < l < |log| && log[k].0 == log[l].0
    ensures
      var s0 := Initial(ttl, now, seen);
      var s, who := Run(s0, events), By(s0, events);
      && |who| == |s.log|
      && (s.log[l].1 <= s.log[k].1 + ttl && !EvictedBetween(s, s.log[k].0, s.log[k].1, s.log[l].1) ==>
            exists m: nat :: AdmittedUnnoted(s0, events, who[k], who[l], m))
  {
    var s0 := Initial(ttl, now, seen);
    var s, who, past := Run(s0, events), By(s0, events), Past(s0, events);
    RunKnown(ttl, now, seen, events);
    TTLIsFixed(s0, events);
    assert EntryOf(s, who, l);
    if who[k] in past[who[l]] {
      assert Apart(s, k, l);
    } else {
      UnnotedAtAdmission(s0, events, who[k], who[l]);
    }
  }
}
