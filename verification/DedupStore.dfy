/** The persistent job deduplication store of internal/dispatcher/job_dedup.go:
    the store object, its agreement with the plain history of additions, and
    what survives a crash. Times are integers on one monotone clock.
 */
module DedupStore {
  import opened Options
  import opened Sorting

  /** defaultDedupMaxJobs; cleanup uses it whatever SENTRA_DEDUP_MAX_JOBS says. */
  const MAX_JOBS := 1000

  /** Job ID to expiry. */
  type Jobs = map<string, int>

  predicate Seen(jobs: Jobs, jobID: string, now: int) {
    jobID in jobs && now <= jobs[jobID]
  }

  /** Cleanup drops entries whose expiry lies before now. */
  function Swept(jobs: Jobs, now: int): Jobs {
    map j | j in jobs && now <= jobs[j] :: jobs[j]
  }

  /** load keeps entries whose expiry lies after now. */
  function Loaded(file: Jobs, now: int): Jobs {
    map j | j in file && file[j] > now :: file[j]
  }

  /** A capacity eviction: exactly the excess, and nothing evicted expires after a survivor. */
  ghost predicate LegalEviction(swept: Jobs, evicted: set<string>) {
    && evicted <= swept.Keys
    && |evicted| == (if |swept| > MAX_JOBS then |swept| - MAX_JOBS else 0)
    && forall e, s | e in evicted && s in swept.Keys - evicted :: swept[e] <= swept[s]
  }

  datatype Entry = Entry(jobID: string, expiry: int)

  ghost predicate Lists(entries: seq<Entry>, jobs: Jobs, keys: set<string>) {
    && |entries| == |keys|
    && (forall i | 0 <= i < |entries| ::
          entries[i].jobID in keys && entries[i].jobID in jobs && entries[i].expiry == jobs[entries[i].jobID])
    && (forall i, j | 0 <= i < j < |entries| :: entries[i].jobID != entries[j].jobID)
  }

  // ---- The system and its steps ---------------------------------------------

  /** The store with its file, its one-place snapshot channel, the snapshot the worker has
      taken from it, every addition ever made, in this process or an earlier one, and
      the snapshots that adders have copied and not offered yet. */
  datatype System = System(
    now: int, jobs: Jobs, channel: Option<Jobs>, inHand: Option<Jobs>, file: Jobs,
    added: set<(string, int)>, pending: multiset<Jobs>)

  datatype Action =
    | AddEntry(jobID: string)
    | Offer(snapshot: Jobs)
    | Remove(jobID: string)
    | Cleanup(evicted: set<string>, saved: bool)
    | WorkerTakes
    | WorkerWrites(written: bool)
    | Close(saved: bool)
    | Tick(elapsed: nat)
    | CrashAndReload(downtime: nat, readable: bool)

  function Step(s: System, ttl: int, a: Action): System {
    match a
    case AddEntry(j) =>
      var jobs := s.jobs[j := s.now + ttl];
      s.(jobs := jobs, added := s.added + {(j, s.now + ttl)},
         pending := if |jobs| % 10 == 0 then s.pending + multiset{jobs} else s.pending)
    case Offer(snapshot) =>
      if snapshot in s.pending then
        s.(channel := if s.channel.None? then Some(snapshot) else s.channel, pending := s.pending - multiset{snapshot})
      else s
    case Remove(j) => s.(jobs := s.jobs - {j})
    case Cleanup(evicted, saved) =>
      var jobs := Swept(s.jobs, s.now) - evicted;
      s.(jobs := jobs, file := if saved && jobs != s.jobs then jobs else s.file)
    case WorkerTakes => if s.inHand.None? then s.(inHand := s.channel, channel := None) else s
    case WorkerWrites(written) =>
      if s.inHand.Some? then s.(inHand := None, file := if written then s.inHand.value else s.file) else s
    case Close(saved) => s.(file := if saved then s.jobs else s.file)
    case Tick(d) => s.(now := s.now + d)
    case CrashAndReload(d, readable) => Started(s.file, s.now + d, readable, s.added)
  }

  /** A process that starts on what an earlier one left. */
  function Started(file: Jobs, now: int, readable: bool, added: set<(string, int)>): System {
    System(now, if readable then Loaded(file, now) else map[], None, None, file, added, multiset{})
  }

  function Run(s: System, ttl: int, actions: seq<Action>): System {
    if actions == [] then s else Step(Run(s, ttl, actions[..|actions| - 1]), ttl, actions[|actions| - 1])
  }

  // ---- The store object --------------------------------------------------------

  class JobDeduplicationStore {
    const ttl: int
    var now: int
    var jobs: Jobs
    /** Content of job_dedup.json; a missing file reads as empty. */
    var file: Jobs
    var snapshotCh: Option<Jobs>
    var inHand: Option<Jobs>
    ghost var added: set<(string, int)>
    ghost var pending: multiset<Jobs>

    ghost function Model(): System
      reads this
    {
      System(now, jobs, snapshotCh, inHand, file, added, pending)
    }

    /** A start of the process on what an earlier one left. */
    constructor (ttl: int, file: Jobs, now: int, readable: bool, ghost added: set<(string, int)>)
      ensures this.ttl == (if ttl <= 0 then 60 * 60 * 1_000_000_000 else ttl)
      ensures Model() == Started(file, now, readable, added)
      ensures this.file == file && snapshotCh == None && inHand == None
      ensures forall j :: j in jobs <==> readable && j in file && file[j] > now
      ensures forall j | j in jobs :: jobs[j] == file[j]
    {
      this.ttl := if ttl <= 0 then 60 * 60 * 1_000_000_000 else ttl;
      this.file, this.now, this.added := file, now, added;
      jobs := if readable then map j | j in file && file[j] > now :: file[j] else map[];
      snapshotCh, inHand, pending := None, None, multiset{};
    }

    method Contains(jobID: string) returns (seen: bool)
      ensures seen <==> jobID in jobs && now <= jobs[jobID]
    {
      if jobID !in jobs {
        return false;
      }
      if now > jobs[jobID] {
        return false;
      }
      return true;
    }

    /** The lock section of Add: the entry, and at every tenth one a copy. */
    method Insert(jobID: string) returns (snapshot: Option<Jobs>)
      modifies this
      ensures Model() == Step(old(Model()), ttl, AddEntry(jobID))
      ensures jobs == old(jobs)[jobID := now + ttl]
      ensures now == old(now) && file == old(file) && snapshotCh == old(snapshotCh) && inHand == old(inHand)
      ensures snapshot == if |jobs| % 10 == 0 then Some(jobs) else None
      ensures snapshot.Some? ==> snapshot.value in pending
    {
      AddEntryIs(Model(), ttl, jobID);
      hide Step;
      jobs := jobs[jobID := now + ttl];
      added := added + {(jobID, now + ttl)};
      if |jobs| % 10 == 0 {
        pending := pending + multiset{jobs};
        return Some(jobs);
      }
      return None;
    }

    /** The non-blocking send of Add, after the lock is given up. */
    method Send(snapshot: Jobs)
      requires snapshot in pending
      modifies this
      ensures Model() == Step(old(Model()), ttl, Offer(snapshot))
      ensures snapshotCh == if old(snapshotCh).None? then Some(snapshot) else old(snapshotCh)
      ensures now == old(now) && jobs == old(jobs) && file == old(file) && inHand == old(inHand)
    {
      pending := pending - multiset{snapshot};
      if snapshotCh.None? {
        snapshotCh := Some(snapshot);
      }
    }

    /** Add with nobody else between its lock section and its send. */
    method Add(jobID: string)
      modifies this
      ensures
        var inserted := Step(old(Model()), ttl, AddEntry(jobID));
        Model() == if |inserted.jobs| % 10 == 0 then Step(inserted, ttl, Offer(inserted.jobs)) else inserted
    {
      var snapshot := Insert(jobID);
      if snapshot.Some? { Send(snapshot.value); }
    }

    method Delete(jobID: string)
      modifies this
      ensures Model() == Step(old(Model()), ttl, Remove(jobID))
      ensures jobs == old(jobs) - {jobID}
      ensures now == old(now) && file == old(file) && snapshotCh == old(snapshotCh) && inHand == old(inHand)
    {
      jobs := jobs - {jobID};
    }

    /** One turn of snapshotWorker: take a snapshot, or write the one taken. */
    method SnapshotWorkerTurn(writeSucceeds: bool)
      modifies this
      ensures Model() == Step(old(Model()), ttl, if old(inHand).None? then WorkerTakes else WorkerWrites(writeSucceeds))
      ensures now == old(now) && jobs == old(jobs)
      ensures if old(inHand).None? then inHand == old(snapshotCh) && snapshotCh == None && file == old(file)
              else inHand == None && snapshotCh == old(snapshotCh)
                   && file == if writeSucceeds then old(inHand).value else old(file)
    {
      if inHand.None? {
        inHand, snapshotCh := snapshotCh, None;
      } else {
        if writeSucceeds {
          file := inHand.value;
        }
        inHand := None;
      }
    }

    method PassTime(elapsed: nat)
      modifies this
      ensures Model() == Step(old(Model()), ttl, Tick(elapsed))
    {
      now := now + elapsed;
    }

    method CleanUp(saveSucceeds: bool) returns (ghost evicted: set<string>)
      modifies this
      ensures LegalEviction(Swept(old(jobs), now), evicted)
      ensures Model() == Step(old(Model()), ttl, Cleanup(evicted, saveSucceeds))
      ensures forall j :: j in jobs <==> j in old(jobs) && now <= old(jobs)[j] && j !in evicted
      ensures forall j | j in jobs :: jobs[j] == old(jobs)[j]
      ensures |jobs| <= 1000 && (evicted != {} ==> |jobs| == 1000)
      ensures file == if saveSucceeds && jobs != old(jobs) then jobs else old(file)
      ensures now == old(now) && snapshotCh == old(snapshotCh) && inHand == old(inHand)
    {
      hide Step;
      ghost var m := Model();
      var changed := RemoveExpired();
      evicted := {};
      assert Swept(old(jobs), now) - {} == Swept(old(jobs), now);
      if |jobs| > MAX_JOBS {
        evicted := EvictOldest(|jobs| - MAX_JOBS);
        assert |jobs.Keys| == MAX_JOBS;
        changed := true;
      }
      CleanupIs(m, ttl, evicted, saveSucceeds);
      if changed && saveSucceeds {
        file := jobs;
      }
    }

    /** The loops of cleanup that collect and delete expired keys. */
    method RemoveExpired() returns (changed: bool)
      modifies this`jobs
      ensures jobs == Swept(old(jobs), now)
      ensures changed <==> jobs != old(jobs)
      ensures |jobs| <= |old(jobs)|
    {
      var expiredKeys := CollectExpired();
      DeleteAll(expiredKeys);
      changed := expiredKeys != [];
      assert jobs == Swept(old(jobs), now);
      if changed {
        ghost var gone := expiredKeys[0];
        assert gone in expiredKeys;
        assert gone in old(jobs).Keys && gone !in jobs.Keys;
      }
      Subset(jobs.Keys, old(jobs).Keys);
    }

    method CollectExpired() returns (expiredKeys: seq<string>)
      ensures forall j :: j in expiredKeys <==> j in jobs && now > jobs[j]
    {
      expiredKeys := [];
      var todo := jobs.Keys;
      while todo != {}
        invariant todo <= jobs.Keys
        invariant forall j :: j in expiredKeys <==> j in jobs.Keys - todo && now > jobs[j]
        decreases |todo|
      {
        var j :| j in todo;
        if now > jobs[j] {
          expiredKeys := expiredKeys + [j];
        }
        todo := todo - {j};
      }
    }

    method DeleteAll(keys: seq<string>)
      modifies this`jobs
      ensures jobs == old(jobs) - Members(keys)
    {
      for i := 0 to |keys|
        invariant jobs == old(jobs) - Members(keys[..i])
      {
        assert keys[..i + 1] == keys[..i] + [keys[i]];
        jobs := jobs - {keys[i]};
      }
      assert keys[..|keys|] == keys;
    }

    method CollectEntries() returns (entries: seq<Entry>)
      ensures Lists(entries, jobs, jobs.Keys)
    {
      NothingListed(jobs);
      hide Lists;
      entries := [];
      var todo := jobs.Keys;
      while todo != {}
        invariant todo <= jobs.Keys && Lists(entries, jobs, jobs.Keys - todo)
        decreases |todo|
      {
        var j :| j in todo;
        ListsOneMore(entries, jobs, jobs.Keys - todo, j);
        entries := entries + [Entry(j, jobs[j])];
        assert jobs.Keys - (todo - {j}) == (jobs.Keys - todo) + {j};
        todo := todo - {j};
      }
      assert jobs.Keys - todo == jobs.Keys;
    }

    /** The capacity branch of cleanup. */
    method EvictOldest(evictCount: nat) returns (ghost evicted: set<string>)
      requires 0 < evictCount <= |jobs|
      modifies this`jobs
      ensures evicted <= old(jobs).Keys && |evicted| == evictCount
      ensures jobs == old(jobs) - evicted
      ensures forall e, s | e in evicted && s in jobs :: old(jobs)[e] <= jobs[s]
    {
      var entries := CollectEntries();
      var sorted := SortBy((e: Entry) => e.expiry, entries);
      var oldest := seq(evictCount, i requires 0 <= i < |sorted| => sorted[i].jobID);
      EvictionSound(entries, sorted, jobs, oldest);
      DeleteAll(oldest);
      evicted := Members(oldest);
    }

    method Shut(saveSucceeds: bool)
      modifies this
      ensures Model() == Step(old(Model()), ttl, Close(saveSucceeds))
      ensures file == if saveSucceeds then jobs else old(file)
      ensures now == old(now) && jobs == old(jobs) && snapshotCh == old(snapshotCh) && inHand == old(inHand)
    {
      if saveSucceeds {
        file := jobs;
      }
    }
  }

  lemma NothingListed(jobs: Jobs)
    ensures Lists([], jobs, jobs.Keys - jobs.Keys)
  {
  }

  lemma ListsOneMore(entries: seq<Entry>, jobs: Jobs, keys: set<string>, j: string)
    requires Lists(entries, jobs, keys) && j in jobs && j !in keys
    ensures Lists(entries + [Entry(j, jobs[j])], jobs, keys + {j})
  {
    assert |keys + {j}| == |keys| + 1;
  }

  lemma AddEntryIs(s: System, ttl: int, j: string)
    ensures
      var jobs := s.jobs[j := s.now + ttl];
      var t := s.(jobs := jobs, added := s.added + {(j, s.now + ttl)});
      && Step(s, ttl, AddEntry(j)) == (if |jobs| % 10 == 0 then t.(pending := s.pending + multiset{jobs}) else t)
      && jobs in s.pending + multiset{jobs}
  {
  }

  lemma CleanupIs(s: System, ttl: int, evicted: set<string>, saved: bool)
    ensures
      var jobs := Swept(s.jobs, s.now) - evicted;
      Step(s, ttl, Cleanup(evicted, saved)) ==
      s.(jobs := jobs, file := if saved && jobs != s.jobs then jobs else s.file)
  {
  }

  function Members(keys: seq<string>): set<string> {
    set k | k in keys
  }

  lemma {:induction false} DistinctMembers(keys: seq<string>)
    requires forall i, j | 0 <= i < j < |keys| :: keys[i] != keys[j]
    ensures |Members(keys)| == |keys|
  {
    if keys != [] {
      DistinctMembers(keys[1..]);
      assert Members(keys) == Members(keys[1..]) + {keys[0]};
    }
  }

  lemma EvictionSound(entries: seq<Entry>, sorted: seq<Entry>, jobs: Jobs, oldest: seq<string>)
    requires Lists(entries, jobs, jobs.Keys)
    requires Ascending((e: Entry) => e.expiry, sorted) && multiset(sorted) == multiset(entries)
    requires |oldest| <= |sorted| && forall i | 0 <= i < |oldest| :: oldest[i] == sorted[i].jobID
    ensures Members(oldest) <= jobs.Keys && |Members(oldest)| == |oldest|
    ensures forall e, s | e in oldest && s in jobs && s !in oldest :: jobs[e] <= jobs[s]
  {
    var ids := SortedLists(entries, sorted, jobs);
    assert oldest == ids[..|oldest|];
    DistinctMembers(oldest);
    OldestFirst(ids, |oldest|, jobs);
  }

  lemma SortedLists(entries: seq<Entry>, sorted: seq<Entry>, jobs: Jobs) returns (ids: seq<string>)
    requires Lists(entries, jobs, jobs.Keys)
    requires Ascending((e: Entry) => e.expiry, sorted) && multiset(sorted) == multiset(entries)
    ensures |ids| == |sorted| == |jobs|
    ensures forall i | 0 <= i < |ids| :: ids[i] == sorted[i].jobID && ids[i] in jobs && jobs[ids[i]] == sorted[i].expiry
    ensures forall i, j | 0 <= i < j < |ids| :: ids[i] != ids[j] && jobs[ids[i]] <= jobs[ids[j]]
    ensures forall s | s in jobs :: s in ids
  {
    assert |sorted| == |multiset(sorted)| == |entries|;
    ids := seq(|sorted|, i requires 0 <= i < |sorted| => sorted[i].jobID);
    SameElements(sorted, entries);
    forall i | 0 <= i < |ids|
      ensures ids[i] in jobs && jobs[ids[i]] == sorted[i].expiry
    {
      assert sorted[i] in entries;
    }
    NoRepeats(entries, sorted);
    forall i, j | 0 <= i < j < |ids|
      ensures ids[i] != ids[j] && jobs[ids[i]] <= jobs[ids[j]]
    {
      var key := (e: Entry) => e.expiry;
      assert key(sorted[i]) <= key(sorted[j]);
      assert sorted[i] != sorted[j];
    }
    CoversAll(ids, jobs.Keys);
  }

  lemma OldestFirst(ids: seq<string>, count: nat, jobs: Jobs)
    requires count <= |ids| && forall i | 0 <= i < |ids| :: ids[i] in jobs
    requires forall i, j | 0 <= i < j < |ids| :: ids[i] != ids[j] && jobs[ids[i]] <= jobs[ids[j]]
    requires forall s | s in jobs :: s in ids
    ensures forall e, s | e in ids[..count] && s in jobs && s !in ids[..count] :: jobs[e] <= jobs[s]
  {
    forall e, s | e in ids[..count] && s in jobs && s !in ids[..count]
      ensures jobs[e] <= jobs[s]
    {
      var k :| 0 <= k < count && ids[k] == e;
      var l :| 0 <= l < |ids| && ids[l] == s;
      InPrefix(ids, count, l);
    }
  }

  lemma InPrefix(ids: seq<string>, count: nat, l: nat)
    requires l < |ids| && count <= |ids|
    ensures l < count ==> ids[l] in ids[..count]
  {
    if l < count { assert ids[..count][l] == ids[l]; }
  }

  lemma {:induction false} Subset(a: set<string>, b: set<string>)
    requires a <= b
    ensures |a| <= |b|
  {
    if a != {} {
      var x :| x in a;
      Subset(a - {x}, b - {x});
    }
  }

  lemma NoRepeats(a: seq<Entry>, b: seq<Entry>)
    requires multiset(a) == multiset(b)
    requires forall i, j | 0 <= i < j < |a| :: a[i] != a[j]
    ensures forall i, j | 0 <= i < j < |b| :: b[i] != b[j]
  {
    forall i, j | 0 <= i < j < |b|
      ensures b[i] != b[j]
    {
      AtMostOnce(a, b[i]);
      TwiceCounts(b, i, j);
    }
  }

  lemma TwiceCounts(b: seq<Entry>, i: nat, j: nat)
    requires i < j < |b|
    ensures b[i] == b[j] ==> multiset(b)[b[i]] >= 2
  {
    assert b == b[..i] + [b[i]] + b[i + 1..j] + [b[j]] + b[j + 1..];
  }

  lemma {:induction false} AtMostOnce(a: seq<Entry>, x: Entry)
    requires forall i, j | 0 <= i < j < |a| :: a[i] != a[j]
    ensures multiset(a)[x] <= 1
  {
    if a != [] {
      assert a == [a[0]] + a[1..];
      AtMostOnce(a[1..], x);
      if x == a[0] { assert x !in a[1..]; }
    }
  }

  /** A list of |keys| distinct members of keys leaves none out. */
  lemma {:induction false} CoversAll(ids: seq<string>, keys: set<string>)
    requires |ids| == |keys| && forall i | 0 <= i < |ids| :: ids[i] in keys
    requires forall i, j | 0 <= i < j < |ids| :: ids[i] != ids[j]
    ensures forall k | k in keys :: k in ids
  {
    if ids != [] {
      CoversAll(ids[1..], keys - {ids[0]});
      assert forall k | k in keys :: k == ids[0] || k in ids[1..];
    }
  }

  // ---- What cleanup changes -----------------------------------------------

  /** Cleanup at `now` changes an answer at that or a later time only for an
      evicted job; it evicts nobody while at most MAX_JOBS entries are unexpired,
      and otherwise leaves exactly MAX_JOBS. */
  lemma CleanupKeepsAnswers(jobs: Jobs, now: int, evicted: set<string>, jobID: string, later: int)
    requires LegalEviction(Swept(jobs, now), evicted) && now <= later
    ensures Seen(Swept(jobs, now) - evicted, jobID, later) <==> Seen(jobs, jobID, later) && jobID !in evicted
    ensures |Swept(jobs, now)| <= MAX_JOBS ==> evicted == {}
    ensures |Swept(jobs, now)| > MAX_JOBS ==> |Swept(jobs, now) - evicted| == MAX_JOBS
  {
    var swept := Swept(jobs, now);
    assert (swept - evicted).Keys == swept.Keys - evicted;
    assert |swept.Keys - evicted| == |swept.Keys| - |evicted|;
  }

  /** Saved at and reloaded at `now`, the store keeps exactly the entries that
      expire after now; the one answer it loses is an entry expiring this very
      instant, asked this very instant. */
  lemma SaveThenReload(jobs: Jobs, now: int, jobID: string, later: int)
    requires now <= later
    ensures jobID in Loaded(jobs, now) <==> jobID in jobs && jobs[jobID] > now
    ensures jobID in Loaded(jobs, now) ==> Loaded(jobs, now)[jobID] == jobs[jobID]
    ensures Seen(Loaded(jobs, now), jobID, later) <==>
            Seen(jobs, jobID, later) && !(jobs[jobID] == now == later)
  {
  }

  // ---- One process lifetime against the history of additions ---------------

  datatype Event = Added(jobID: string, at: int) | Forgotten(jobID: string)

  /** The independent reference: was the job last added no more than ttl ago,
      with no removal or eviction since? */
  predicate SeenInHistory(history: seq<Event>, ttl: int, jobID: string, now: int) {
    if history == [] then false
    else
      var last := history[|history| - 1];
      if last.jobID == jobID then last.Added? && now <= last.at + ttl
      else SeenInHistory(history[..|history| - 1], ttl, jobID, now)
  }

  ghost function Forget(gone: set<string>): (events: seq<Event>)
    ensures forall j :: Forgotten(j) in events <==> j in gone
    ensures forall e | e in events :: e.Forgotten?
  {
    if gone == {} then []
    else
      var j :| j in gone;
      [Forgotten(j)] + Forget(gone - {j})
  }

  /** Entries that a process finds in the file count as added when they must have been. */
  ghost function Recalled(jobs: Jobs, keys: set<string>, ttl: int): seq<Event>
    requires keys <= jobs.Keys
  {
    if keys == {} then []
    else
      var j :| j in keys;
      Recalled(jobs, keys - {j}, ttl) + [Added(j, jobs[j] - ttl)]
  }

  /** What a step adds to the history. A crash forgets all there was, and the start after
      it recalls what the file holds. */
  ghost function EventsOf(s: System, ttl: int, a: Action): seq<Event> {
    match a
    case AddEntry(j) => [Added(j, s.now)]
    case Remove(j) => [Forgotten(j)]
    case Cleanup(evicted, _) => Forget(evicted)
    case CrashAndReload(_, _) =>
      var loaded := Step(s, ttl, a).jobs;
      Forget(s.jobs.Keys) + Recalled(loaded, loaded.Keys, ttl)
    case _ => []
  }

  ghost function History(s: System, ttl: int, actions: seq<Action>): seq<Event> {
    if actions == [] then []
    else
      var before := actions[..|actions| - 1];
      History(s, ttl, before) + EventsOf(Run(s, ttl, before), ttl, actions[|actions| - 1])
  }

  /** Each cleanup evicts as it should. */
  ghost predicate Legal(s: System, ttl: int, actions: seq<Action>) {
    actions == [] ||
    (var before, a := actions[..|actions| - 1], actions[|actions| - 1];
     var t := Run(s, ttl, before);
     Legal(s, ttl, before) && (a.Cleanup? ==> LegalEviction(Swept(t.jobs, t.now), a.evicted)))
  }

  lemma {:induction false} HistoryAppend(history: seq<Event>, tail: seq<Event>, ttl: int, jobID: string, now: int)
    requires forall e | e in tail :: e.Forgotten?
    ensures SeenInHistory(history + tail, ttl, jobID, now) <==>
            SeenInHistory(history, ttl, jobID, now) && Forgotten(jobID) !in tail
  {
    if tail == [] {
      assert history + tail == history;
    } else {
      var init, last := tail[..|tail| - 1], tail[|tail| - 1];
      HistoryAppend(history, init, ttl, jobID, now);
      assert tail == init + [last];
      assert (history + tail)[..|history + tail| - 1] == history + init;
      assert (history + tail)[|history + tail| - 1] == last;
      assert last in tail && last.Forgotten?;
      assert Forgotten(jobID) in tail <==> Forgotten(jobID) in init || last == Forgotten(jobID);
    }
  }

  lemma AddAgrees(jobs: Jobs, history: seq<Event>, ttl: int, j: string, now: int, jobID: string, later: int)
    requires Seen(jobs, jobID, later) <==> SeenInHistory(history, ttl, jobID, later)
    ensures Seen(jobs[j := now + ttl], jobID, later) <==> SeenInHistory(history + [Added(j, now)], ttl, jobID, later)
  {
    assert (history + [Added(j, now)])[..|history|] == history;
  }

  lemma {:induction false} RecalledAgrees(
      history: seq<Event>, jobs: Jobs, keys: set<string>, ttl: int, jobID: string, now: int)
    requires keys <= jobs.Keys
    ensures SeenInHistory(history + Recalled(jobs, keys, ttl), ttl, jobID, now) <==>
            if jobID in keys then now <= jobs[jobID] else SeenInHistory(history, ttl, jobID, now)
    decreases |keys|
  {
    if keys == {} {
      assert history + [] == history;
    } else {
      var tail := Recalled(jobs, keys, ttl);
      var j :| j in keys && tail == Recalled(jobs, keys - {j}, ttl) + [Added(j, jobs[j] - ttl)];
      RecalledAgrees(history, jobs, keys - {j}, ttl, jobID, now);
      assert (history + tail)[..|history + tail| - 1] == history + Recalled(jobs, keys - {j}, ttl);
    }
  }

  lemma CrashAgrees(s: System, history: seq<Event>, ttl: int, a: Action, jobID: string, later: int)
    requires a.CrashAndReload? && (Seen(s.jobs, jobID, later) <==> SeenInHistory(history, ttl, jobID, later))
    ensures Seen(Step(s, ttl, a).jobs, jobID, later) <==>
            SeenInHistory(history + EventsOf(s, ttl, a), ttl, jobID, later)
  {
    hide SeenInHistory, Step, Recalled, Forget;
    var loaded, forgotten := Step(s, ttl, a).jobs, Forget(s.jobs.Keys);
    HistoryAppend(history, forgotten, ttl, jobID, later);
    RecalledAgrees(history + forgotten, loaded, loaded.Keys, ttl, jobID, later);
    assert history + (forgotten + Recalled(loaded, loaded.Keys, ttl)) ==
           (history + forgotten) + Recalled(loaded, loaded.Keys, ttl);
  }

  lemma SameJobs(s: System, ttl: int, a: Action)
    requires !a.CrashAndReload? && !a.AddEntry? && !a.Remove? && !a.Cleanup?
    ensures Step(s, ttl, a).jobs == s.jobs && EventsOf(s, ttl, a) == []
  {
  }

  lemma StepAgrees(s: System, history: seq<Event>, ttl: int, a: Action, jobID: string, later: int)
    requires a.Cleanup? ==> LegalEviction(Swept(s.jobs, s.now), a.evicted)
    requires Seen(s.jobs, jobID, later) <==> SeenInHistory(history, ttl, jobID, later)
    requires Step(s, ttl, a).now <= later
    ensures Seen(Step(s, ttl, a).jobs, jobID, later) <==>
            SeenInHistory(history + EventsOf(s, ttl, a), ttl, jobID, later)
  {
    hide SeenInHistory, LegalEviction;
    if a.AddEntry? {
      AddAgrees(s.jobs, history, ttl, a.jobID, s.now, jobID, later);
    } else if a.Remove? {
      HistoryAppend(history, [Forgotten(a.jobID)], ttl, jobID, later);
    } else if a.Cleanup? {
      HistoryAppend(history, Forget(a.evicted), ttl, jobID, later);
      CleanupKeepsAnswers(s.jobs, s.now, a.evicted, jobID, later);
    } else if a.CrashAndReload? {
      CrashAgrees(s, history, ttl, a, jobID, later);
    } else {
      SameJobs(s, ttl, a);
      hide Step;
      assert history + [] == history;
    }
  }

  lemma TimePasses(s: System, ttl: int, a: Action)
    ensures s.now <= Step(s, ttl, a).now
  {
  }

  /** From any state and any history that agree, through any run, crashes and reloads
      included: each answer, at its end and at any later time, is the one the history of
      additions, removals, evictions and reloads gives. */
  lemma {:induction false} AgreesWithHistory(
      s: System, history: seq<Event>, ttl: int, actions: seq<Action>, jobID: string, later: int)
    requires Seen(s.jobs, jobID, later) <==> SeenInHistory(history, ttl, jobID, later)
    requires Legal(s, ttl, actions) && Run(s, ttl, actions).now <= later
    ensures Seen(Run(s, ttl, actions).jobs, jobID, later) <==>
            SeenInHistory(history + History(s, ttl, actions), ttl, jobID, later)
  {
    hide SeenInHistory, Step, LegalEviction;
    if actions == [] {
      assert history + [] == history;
    } else {
      var before, a := actions[..|actions| - 1], actions[|actions| - 1];
      var t := Run(s, ttl, before);
      TimePasses(t, ttl, a);
      AgreesWithHistory(s, history, ttl, before, jobID, later);
      StepAgrees(t, history + History(s, ttl, before), ttl, a, jobID, later);
      assert history + (History(s, ttl, before) + EventsOf(t, ttl, a)) ==
             (history + History(s, ttl, before)) + EventsOf(t, ttl, a);
    }
  }

  /** In particular from the start of a process on any file. */
  lemma StartAgreesWithHistory(
      file: Jobs, now: int, readable: bool, added: set<(string, int)>, ttl: int, actions: seq<Action>, jobID: string,
      later: int)
    requires Legal(Started(file, now, readable, added), ttl, actions)
    requires Run(Started(file, now, readable, added), ttl, actions).now <= later
    ensures
      var s := Started(file, now, readable, added);
      Seen(Run(s, ttl, actions).jobs, jobID, later) <==>
      SeenInHistory(Recalled(s.jobs, s.jobs.Keys, ttl) + History(s, ttl, actions), ttl, jobID, later)
  {
    var s := Started(file, now, readable, added);
    RecalledAgrees([], s.jobs, s.jobs.Keys, ttl, jobID, later);
    assert [] + Recalled(s.jobs, s.jobs.Keys, ttl) == Recalled(s.jobs, s.jobs.Keys, ttl);
    hide Run, Started, Recalled, Legal, History;
    AgreesWithHistory(s, Recalled(s.jobs, s.jobs.Keys, ttl), ttl, actions, jobID, later);
  }

  // ---- Crashes and lossy snapshots -----------------------------------------

  ghost predicate Backed(jobs: Jobs, added: set<(string, int)>) {
    forall j | j in jobs :: (j, jobs[j]) in added
  }

  ghost predicate AllBacked(s: System) {
    && Backed(s.jobs, s.added) && Backed(s.file, s.added)
    && (s.channel.Some? ==> Backed(s.channel.value, s.added))
    && (s.inHand.Some? ==> Backed(s.inHand.value, s.added))
    && (forall p | p in s.pending :: Backed(p, s.added))
  }

  lemma BackedByMore(jobs: Jobs, added: set<(string, int)>, entry: (string, int))
    requires Backed(jobs, added)
    ensures Backed(jobs, added + {entry})
  {
  }

  lemma BackedEntry(jobs: Jobs, added: set<(string, int)>, j: string, expiry: int)
    requires Backed(jobs, added)
    ensures Backed(jobs[j := expiry], added + {(j, expiry)})
  {
  }

  lemma BackedPart(part: Jobs, jobs: Jobs, added: set<(string, int)>)
    requires Backed(jobs, added) && forall j | j in part :: j in jobs && part[j] == jobs[j]
    ensures Backed(part, added)
  {
  }

  lemma AddStaysBacked(s: System, ttl: int, j: string)
    requires AllBacked(s)
    ensures AllBacked(Step(s, ttl, AddEntry(j)))
  {
    hide Backed;
    var entry := (j, s.now + ttl);
    BackedEntry(s.jobs, s.added, j, s.now + ttl);
    BackedByMore(s.file, s.added, entry);
    if s.channel.Some? { BackedByMore(s.channel.value, s.added, entry); }
    if s.inHand.Some? { BackedByMore(s.inHand.value, s.added, entry); }
    forall p | p in s.pending ensures Backed(p, s.added + {entry}) {
      BackedByMore(p, s.added, entry);
    }
  }

  lemma StaysBacked(s: System, ttl: int, a: Action)
    requires AllBacked(s)
    ensures AllBacked(Step(s, ttl, a))
  {
    hide Backed;
    match a
    case AddEntry(j) => AddStaysBacked(s, ttl, j);
    case Remove(j) => BackedPart(s.jobs - {j}, s.jobs, s.added);
    case Cleanup(evicted, _) => BackedPart(Swept(s.jobs, s.now) - evicted, s.jobs, s.added);
    case CrashAndReload(d, _) =>
      BackedPart(Loaded(s.file, s.now + d), s.file, s.added);
      BackedPart(map[], s.file, s.added);
    case _ =>
  }

  /** Whatever is dropped, delayed, reordered or lost in crashes, the store
      reports a job only if it was added with an expiry not yet passed. */
  lemma {:induction false} NeverInventsAJob(s: System, ttl: int, actions: seq<Action>, jobID: string)
    requires AllBacked(s)
    ensures var t := Run(s, ttl, actions);
            AllBacked(t) && (Seen(t.jobs, jobID, t.now) ==> exists e :: (jobID, e) in t.added && t.now <= e)
  {
    hide AllBacked, Step;
    if actions != [] {
      NeverInventsAJob(s, ttl, actions[..|actions| - 1], jobID);
      StaysBacked(Run(s, ttl, actions[..|actions| - 1]), ttl, actions[|actions| - 1]);
    }
    BackedAnswer(Run(s, ttl, actions), jobID);
  }

  lemma BackedAnswer(s: System, jobID: string)
    requires AllBacked(s)
    ensures Seen(s.jobs, jobID, s.now) ==> exists e :: (jobID, e) in s.added && s.now <= e
  {
  }

  /** Two adders copy the store one after the other and offer in the other order: the
      older copy is written last. */
  lemma OffersCanCross(s: System, ttl: int, older: Jobs, newer: Jobs)
    requires older in s.pending && newer in s.pending && older != newer && s.channel.None? && s.inHand.None?
    ensures
      var t := Step(Step(Step(s, ttl, Offer(newer)), ttl, WorkerTakes), ttl, WorkerWrites(true));
      Step(Step(Step(t, ttl, Offer(older)), ttl, WorkerTakes), ttl, WorkerWrites(true)).file == older
  {
  }

  /** A job added just before a crash is reported after it exactly when the file, written
      from an earlier state, already held it with an expiry beyond the downtime: copies
      are made only when the number of entries is a multiple of ten, and take time. */
  lemma RestartRemembersIff(s: System, ttl: int, jobID: string, downtime: nat, readable: bool)
    ensures
      var t := Step(Step(s, ttl, AddEntry(jobID)), ttl, CrashAndReload(downtime, readable));
      Seen(t.jobs, jobID, t.now) <==> readable && jobID in s.file && s.file[jobID] > s.now + downtime
  {
  }
}
