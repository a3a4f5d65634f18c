/** executeConcatMerge and the byte ranges it joins (internal/dispatcher/handlers_unix.go),
    and the object keys of internal/storage/config.go.
 */
module ConcatMerge {
  import Decimal
  import opened MergeModel
  import opened Options

  // ---- Keys ---------------------------------------------------------------------------

  datatype PathType = ChunkPath | ResultPath | MergedPath | OtherPath

  /** GetRemotePathWithSlug; `base` is the dataset's slug, or its ID if there is no slug. */
  function RemotePath(base: string, index: int, pathType: PathType): string {
    match pathType
    case ChunkPath => base + "/chunks/chunk" + "_" + Decimal.Format(index) + ".bin"
    case ResultPath => base + "/chunks/chunk" + "_" + Decimal.Format(index) + ".out"
    case MergedPath => base + "_merged.csv"
    case OtherPath => ""
  }

  lemma StemOf(base: string, index: int, pathType: PathType)
    requires pathType.ChunkPath? || pathType.ResultPath?
    ensures
      var key := RemotePath(base, index, pathType);
      |key| >= 4 && key[..|key| - 4] == base + "/chunks/chunk" + "_" + Decimal.Format(index)
  {
  }

  lemma TypeVisible(base: string, index: int, pathType: PathType)
    requires !pathType.OtherPath?
    ensures
      var key := RemotePath(base, index, pathType);
      |key| > 0 && key[|key| - 1] == match pathType case ChunkPath => 'n' case ResultPath => 't' case _ => 'v'
  {
  }

  /** A key can be read back, whatever the bases hold: two keys are equal only for the
      same type and base, and for the same index too unless they are merged outputs. */
  lemma KeysNeverCollide(base1: string, index1: int, type1: PathType, base2: string, index2: int, type2: PathType)
    requires !type1.OtherPath? && !type2.OtherPath?
    ensures
      RemotePath(base1, index1, type1) == RemotePath(base2, index2, type2)
      <==> type1 == type2 && base1 == base2 && (type1.MergedPath? || index1 == index2)
  {
    var k1, k2 := RemotePath(base1, index1, type1), RemotePath(base2, index2, type2);
    if k1 == k2 {
      TypeVisible(base1, index1, type1);
      TypeVisible(base2, index2, type2);
      if type1.MergedPath? {
        assert k1[..|k1| - 11] == base1 && k2[..|k2| - 11] == base2;
      } else {
        StemOf(base1, index1, type1);
        StemOf(base2, index2, type2);
        var stem1, stem2 := base1 + "/chunks/chunk", base2 + "/chunks/chunk";
        Decimal.TaggedInjective(stem1, index1, stem2, index2);
        assert stem1[..|stem1| - 13] == base1 && stem2[..|stem2| - 13] == base2;
      }
    }
  }

  // ---- The merge against an object store ---------------------------------------------------

  type Objects = map<string, Bytes>

  /** What to merge: the base, and the chunk indexes in payload order. */
  datatype Payload = Payload(base: string, indexes: seq<int>)

  function MergedKey(payload: Payload): string {
    RemotePath(payload.base, 0, MergedPath)
  }

  function ResultKey(payload: Payload, i: nat): string
    requires i < |payload.indexes|
  {
    RemotePath(payload.base, payload.indexes[i], ResultPath)
  }

  /** The cleanup deletes each chunk's result, then its input. */
  function CleanupKey(payload: Payload, t: nat): string
    requires t < 2 * |payload.indexes|
  {
    RemotePath(payload.base, payload.indexes[t / 2], if t % 2 == 0 then ResultPath else ChunkPath)
  }

  ghost predicate AllResults(objects: Objects, payload: Payload) {
    forall i | 0 <= i < |payload.indexes| :: ResultKey(payload, i) in objects
  }

  function ResultAt(objects: Objects, payload: Payload, i: nat): Bytes
    requires i < |payload.indexes|
  {
    if ResultKey(payload, i) in objects then objects[ResultKey(payload, i)] else []
  }

  function Results(objects: Objects, payload: Payload): (results: seq<Bytes>)
    ensures |results| == |payload.indexes|
  {
    seq(|payload.indexes|, i requires 0 <= i < |payload.indexes| => ResultAt(objects, payload, i))
  }

  datatype Phase = Idle | Writing | Deleting(todo: nat)

  datatype State = State(objects: Objects, phase: Phase)

  datatype Event =
    | Begin
    | Write
    /** The write stops after k bytes that stay: a shared mount truncates and streams. */
    | TornWrite(k: nat)
    | Delete
    | DeleteFails
    | Finish
    | Crash

  ghost predicate Enabled(s: State, payload: Payload, e: Event) {
    match e
    case Begin => s.phase.Idle? && AllResults(s.objects, payload)
    case Write => s.phase.Writing?
    case TornWrite(k) => s.phase.Writing? && k <= |Concat(Results(s.objects, payload))|
    case Delete => s.phase.Deleting? && s.phase.todo < 2 * |payload.indexes|
    case DeleteFails => s.phase.Deleting? && s.phase.todo < 2 * |payload.indexes|
    case Finish => s.phase.Deleting? && s.phase.todo == 2 * |payload.indexes|
    case Crash => true
  }

  /** An event that is not enabled changes nothing; after Finish or Crash the same
      merge may run again. */
  ghost function Next(s: State, payload: Payload, e: Event): State {
    if !Enabled(s, payload, e) then s
    else
      match e
      case Begin => s.(phase := Writing)
      case Write =>
        State(s.objects[MergedKey(payload) := Concat(Results(s.objects, payload))], Deleting(0))
      case TornWrite(k) =>
        State(s.objects[MergedKey(payload) := Concat(Results(s.objects, payload))[..k]], Idle)
      case Delete => State(s.objects - {CleanupKey(payload, s.phase.todo)}, Deleting(s.phase.todo + 1))
      case DeleteFails => s.(phase := Deleting(s.phase.todo + 1))
      case Finish => s.(phase := Idle)
      case Crash => s.(phase := Idle)
  }

  ghost function Run(s: State, payload: Payload, events: seq<Event>): State {
    if events == [] then s else Next(Run(s, payload, events[..|events| - 1]), payload, events[|events| - 1])
  }

  ghost predicate MergedWhole(objects: Objects, payload: Payload, results: seq<Bytes>) {
    MergedKey(payload) in objects && objects[MergedKey(payload)] == Concat(results)
  }

  /** The results still there are the original ones. */
  ghost predicate Originals(objects: Objects, payload: Payload, results: seq<Bytes>)
    requires |results| == |payload.indexes|
  {
    forall i | 0 <= i < |payload.indexes| ::
      ResultKey(payload, i) in objects ==> objects[ResultKey(payload, i)] == results[i]
  }

  /** The source of the merged data: all the results, or the merged object. */
  ghost predicate Conserved(s: State, payload: Payload, results: seq<Bytes>) {
    && |results| == |payload.indexes|
    && Originals(s.objects, payload, results)
    && (AllResults(s.objects, payload) || MergedWhole(s.objects, payload, results))
    && (s.phase.Writing? ==> AllResults(s.objects, payload))
    && (s.phase.Deleting? ==> MergedWhole(s.objects, payload, results))
  }

  lemma KeysApart(payload: Payload, i: nat, t: nat)
    ensures i < |payload.indexes| ==> ResultKey(payload, i) != MergedKey(payload)
    ensures t < 2 * |payload.indexes| ==> CleanupKey(payload, t) != MergedKey(payload)
  {
    if i < |payload.indexes| {
      KeysNeverCollide(payload.base, payload.indexes[i], ResultPath, payload.base, 0, MergedPath);
    }
    if t < 2 * |payload.indexes| {
      var pathType := if t % 2 == 0 then ResultPath else ChunkPath;
      KeysNeverCollide(payload.base, payload.indexes[t / 2], pathType, payload.base, 0, MergedPath);
    }
  }

  lemma AllThere(objects: Objects, payload: Payload, results: seq<Bytes>)
    requires |results| == |payload.indexes| && AllResults(objects, payload) && Originals(objects, payload, results)
    ensures Results(objects, payload) == results
  {
    forall i | 0 <= i < |results| ensures Results(objects, payload)[i] == results[i] {
      assert ResultKey(payload, i) in objects;
    }
  }

  lemma WritingKeepsResults(objects: Objects, payload: Payload, results: seq<Bytes>, x: Bytes)
    requires |results| == |payload.indexes| && AllResults(objects, payload) && Originals(objects, payload, results)
    ensures AllResults(objects[MergedKey(payload) := x], payload)
    ensures Originals(objects[MergedKey(payload) := x], payload, results)
  {
    forall i | 0 <= i < |payload.indexes|
      ensures ResultKey(payload, i) != MergedKey(payload) && ResultKey(payload, i) in objects
    {
      KeysApart(payload, i, 0);
    }
    hide RemotePath;
  }

  lemma StepConserves(s: State, payload: Payload, results: seq<Bytes>, e: Event)
    requires Conserved(s, payload, results)
    ensures Conserved(Next(s, payload, e), payload, results)
  {
    hide MergedKey, Concat, Results, AllResults, RemotePath;
    if Enabled(s, payload, e) {
      match e
      case Write =>
        AllThere(s.objects, payload, results);
        hide Originals;
        WritingKeepsResults(s.objects, payload, results, Concat(results));
      case TornWrite(k) =>
        AllThere(s.objects, payload, results);
        hide Originals;
        WritingKeepsResults(s.objects, payload, results, Concat(results)[..k]);
      case Delete => KeysApart(payload, |payload.indexes|, s.phase.todo);
      case _ =>
    }
  }

  lemma {:induction false} RunConserves(s: State, payload: Payload, results: seq<Bytes>, events: seq<Event>)
    requires Conserved(s, payload, results)
    ensures Conserved(Run(s, payload, events), payload, results)
  {
    if events != [] {
      hide Conserved, Next;
      RunConserves(s, payload, results, events[..|events| - 1]);
      StepConserves(Run(s, payload, events[..|events| - 1]), payload, results, events[|events| - 1]);
    }
  }

  /** Over any crashes, torn writes, failed deletes and repetitions: at every moment all
      results are intact or the merged object is complete, in payload order. */
  lemma DataConserved(objects: Objects, payload: Payload, events: seq<Event>)
    requires AllResults(objects, payload)
    ensures
      var now, results := Run(State(objects, Idle), payload, events).objects, Results(objects, payload);
      (AllResults(now, payload) && Results(now, payload) == results) || MergedWhole(now, payload, results)
  {
    var results := Results(objects, payload);
    RunConserves(State(objects, Idle), payload, results, events);
    var now := Run(State(objects, Idle), payload, events).objects;
    if AllResults(now, payload) { AllThere(now, payload, results); }
  }

  /** With a result missing, no run changes anything: neither a partial merge is
      written nor an earlier complete one replaced. */
  lemma {:induction false} MissingResultStops(objects: Objects, payload: Payload, events: seq<Event>)
    requires !AllResults(objects, payload)
    ensures Run(State(objects, Idle), payload, events) == State(objects, Idle)
  {
    if events != [] { MissingResultStops(objects, payload, events[..|events| - 1]); }
  }

  predicate OwnKey(payload: Payload, key: string) {
    key == MergedKey(payload) || exists t | 0 <= t < 2 * |payload.indexes| :: CleanupKey(payload, t) == key
  }

  lemma {:induction false} OtherObjectsStay(s: State, payload: Payload, events: seq<Event>, key: string)
    requires !OwnKey(payload, key)
    ensures
      var now := Run(s, payload, events).objects;
      (key in now <==> key in s.objects) && (key in now ==> now[key] == s.objects[key])
  {
    hide MergedKey, CleanupKey, Concat, Results;
    if events != [] { OtherObjectsStay(s, payload, events[..|events| - 1], key); }
  }

  lemma {:induction false} RunAppends(s: State, payload: Payload, a: seq<Event>, e: Event)
    ensures Run(s, payload, a + [e]) == Next(Run(s, payload, a), payload, e)
  {
    assert (a + [e])[..|a|] == a;
  }

  /** The first n bytes, or all. */
  function Clip(source: Bytes, n: int): Bytes
    requires n >= 0
  {
    if n <= |source| then source[..n] else source
  }

  /** Among the first n deletions, the result and then the input of each chunk, one of this
      key came through. */
  ghost predicate Deleted(payload: Payload, deleteFails: nat -> bool, n: nat, key: string) {
    exists i | 0 <= i < |payload.indexes| ::
      || (key == RemotePath(payload.base, payload.indexes[i], ResultPath) && 2 * i < n && !deleteFails(2 * i))
      || (key == RemotePath(payload.base, payload.indexes[i], ChunkPath) && 2 * i + 1 < n && !deleteFails(2 * i + 1))
  }

  /** Exactly the deleted objects are gone. */
  ghost predicate CleanedUp(before: Objects, after: Objects, payload: Payload, deleteFails: nat -> bool, n: nat) {
    forall key ::
      && (key in after <==> key in before && !Deleted(payload, deleteFails, n, key))
      && (key in after ==> after[key] == before[key])
  }

  lemma DeletedNext(before: Objects, now: Objects, payload: Payload, deleteFails: nat -> bool, t: nat)
    requires t < 2 * |payload.indexes| && CleanedUp(before, now, payload, deleteFails, t)
    ensures
      var after := if deleteFails(t) then now else now - {CleanupKey(payload, t)};
      CleanedUp(before, after, payload, deleteFails, t + 1)
  {
    forall key
      ensures Deleted(payload, deleteFails, t + 1, key) <==>
        Deleted(payload, deleteFails, t, key) || (!deleteFails(t) && key == CleanupKey(payload, t))
    {
      DeletedOneMore(payload, deleteFails, t, key);
    }
    hide RemotePath, Deleted;
  }

  lemma DeletedOneMore(payload: Payload, deleteFails: nat -> bool, t: nat, key: string)
    requires t < 2 * |payload.indexes|
    ensures Deleted(payload, deleteFails, t + 1, key) <==>
      Deleted(payload, deleteFails, t, key) || (!deleteFails(t) && key == CleanupKey(payload, t))
  {
    hide RemotePath;
    var j := t / 2;
    assert t == 2 * j || t == 2 * j + 1;
    if !deleteFails(t) && key == CleanupKey(payload, t) {
      assert 0 <= j < |payload.indexes|;
    }
  }

  lemma NothingDeleted(objects: Objects, payload: Payload, deleteFails: nat -> bool)
    ensures CleanedUp(objects, objects, payload, deleteFails, 0)
  {
    hide RemotePath;
  }

  lemma MergedStays(before: Objects, after: Objects, payload: Payload, deleteFails: nat -> bool)
    requires MergedKey(payload) in before && CleanedUp(before, after, payload, deleteFails, 2 * |payload.indexes|)
    ensures MergedKey(payload) in after && after[MergedKey(payload)] == before[MergedKey(payload)]
  {
    forall i | 0 <= i < |payload.indexes|
      ensures MergedKey(payload) != RemotePath(payload.base, payload.indexes[i], ResultPath)
      ensures MergedKey(payload) != RemotePath(payload.base, payload.indexes[i], ChunkPath)
    {
      KeysNeverCollide(payload.base, payload.indexes[i], ResultPath, payload.base, 0, MergedPath);
      KeysNeverCollide(payload.base, payload.indexes[i], ChunkPath, payload.base, 0, MergedPath);
    }
    hide RemotePath;
  }

  class ConcatMerger {
    var objects: Objects

    /** Opens every result before anything is written. */
    method ReadResults(payload: Payload) returns (results: Option<seq<Bytes>>)
      ensures results.Some? <==> AllResults(objects, payload)
      ensures results.Some? ==> results.value == Results(objects, payload)
    {
      var read := [];
      for i := 0 to |payload.indexes|
        invariant forall j | 0 <= j < i :: ResultKey(payload, j) in objects
        invariant read == Results(objects, payload)[..i]
      {
        var key := ResultKey(payload, i);
        if key !in objects { return None; }
        read := read + [objects[key]];
      }
      return Some(read);
    }

    /** The deletions after a merge; one that fails is only logged. */
    method CleanUp(payload: Payload, deleteFails: nat -> bool, ghost s0: State) returns (ghost events: seq<Event>)
      requires s0 == State(objects, Deleting(0))
      modifies this
      ensures Run(s0, payload, events) == State(objects, Deleting(2 * |payload.indexes|))
      ensures CleanedUp(old(objects), objects, payload, deleteFails, 2 * |payload.indexes|)
    {
      hide Run, MergedKey, CleanupKey, CleanedUp;
      events := [];
      RunOfNothing(s0, payload);
      NothingDeleted(objects, payload, deleteFails);
      for t := 0 to 2 * |payload.indexes|
        invariant Run(s0, payload, events) == State(objects, Deleting(t))
        invariant CleanedUp(old(objects), objects, payload, deleteFails, t)
      {
        DeletedNext(old(objects), objects, payload, deleteFails, t);
        if deleteFails(t) {
          RunAppends(s0, payload, events, DeleteFails);
          events := events + [DeleteFails];
        } else {
          objects := objects - {CleanupKey(payload, t)};
          RunAppends(s0, payload, events, Delete);
          events := events + [Delete];
        }
      }
    }

    /** executeConcatMerge against a storage backend. `torn`: the write stops after that
        many bytes. On success the merged object holds the results in payload order, the
        chunks' results and inputs are gone but for those whose deletion failed, and all
        else is as it was. */
    method ExecuteConcatMerge(payload: Payload, torn: Option<nat>, deleteFails: nat -> bool)
      returns (ok: bool, ghost events: seq<Event>)
      modifies this
      ensures Run(State(old(objects), Idle), payload, events) == State(objects, Idle)
      ensures ok <==> AllResults(old(objects), payload) && torn.None?
      ensures !AllResults(old(objects), payload) ==> objects == old(objects)
      ensures ok ==> MergedWhole(objects, payload, Results(old(objects), payload))
      ensures ok ==>
        var written := old(objects)[MergedKey(payload) := Concat(Results(old(objects), payload))];
        CleanedUp(written, objects, payload, deleteFails, 2 * |payload.indexes|)
      ensures AllResults(old(objects), payload) && torn.Some? ==>
        objects == old(objects)[MergedKey(payload) := Clip(Concat(Results(old(objects), payload)), torn.value)]
    {
      hide Run, MergedKey, CleanupKey, AllResults, Results, Concat, CleanedUp;
      ghost var s0, more := State(objects, Idle), [];
      events := [];
      RunOfNothing(s0, payload);
      var results := ReadResults(payload);
      if results.None? { return false, events; }
      RunAppends(s0, payload, events, Begin);
      events := events + [Begin];
      var merged := Concat(results.value);
      if torn.Some? {
        var k := if torn.value <= |merged| then torn.value else |merged|;
        assert merged[..k] == Clip(merged, torn.value);
        objects := objects[MergedKey(payload) := merged[..k]];
        RunAppends(s0, payload, events, TornWrite(k));
        return false, events + [TornWrite(k)];
      }
      objects := objects[MergedKey(payload) := merged];
      RunAppends(s0, payload, events, Write);
      events := events + [Write];
      ghost var written := objects;
      more := CleanUp(payload, deleteFails, State(objects, Deleting(0)));
      MergedStays(written, objects, payload, deleteFails);
      RunConcat(s0, payload, events, more);
      events := events + more;
      RunAppends(s0, payload, events, Finish);
      return true, events + [Finish];
    }
  }

  lemma {:induction false} RunConcat(s: State, payload: Payload, a: seq<Event>, b: seq<Event>)
    ensures Run(s, payload, a + b) == Run(Run(s, payload, a), payload, b)
  {
    hide Next;
    if b == [] {
      assert a + b == a;
    } else {
      RunConcat(s, payload, a, b[..|b| - 1]);
      assert (a + b)[..|a + b| - 1] == a + b[..|b| - 1];
    }
  }

  lemma RunOfNothing(s: State, payload: Payload)
    ensures Run(s, payload, []) == s
  {
  }

  // ---- The local branch ---------------------------------------------------------------------

  /** Chunk outputs on a mount by chunk index, and the merged file. */
  datatype Mount = Mount(chunks: map<int, Bytes>, merged: Bytes)

  /** The loop over `indexes` from an open merged file: append, then delete at once. */
  function Joined(mount: Mount, indexes: seq<int>): Mount {
    if indexes == [] then mount
    else
      var before, index := Joined(mount, indexes[..|indexes| - 1]), indexes[|indexes| - 1];
      if index in before.chunks then Mount(before.chunks - {index}, before.merged + before.chunks[index]) else before
  }

  /** os.Create truncates. */
  function Truncated(mount: Mount): Mount {
    mount.(merged := [])
  }

  /** The copy of one chunk has put k bytes into the merged file; the chunk is still there. */
  function Copied(mount: Mount, index: int, k: nat): Mount {
    if index in mount.chunks && k <= |mount.chunks[index]| then
      mount.(merged := mount.merged + mount.chunks[index][..k])
    else mount
  }

  /** Where an attempt stops: before position p of the list, or in its iteration there,
      k bytes into the copy, at most just before the remove. */
  function Attempt(mount: Mount, indexes: seq<int>, p: nat, k: nat): Mount
    requires p <= |indexes|
  {
    var before := Joined(Truncated(mount), indexes[..p]);
    if p < |indexes| then Copied(before, indexes[p], k) else before
  }

  class LocalMerger {
    var mount: Mount

    /** executeConcatMerge without a backend, dying k bytes into the copy at position p;
        p == |indexes| is an attempt that ends. */
    method LocalConcatMerge(indexes: seq<int>, p: nat, k: nat)
      requires p <= |indexes|
      modifies this
      ensures mount == Attempt(old(mount), indexes, p, k)
    {
      mount := mount.(merged := []);
      for i := 0 to |indexes|
        invariant i <= p && mount == Joined(Truncated(old(mount)), indexes[..i])
      {
        if indexes[i] in mount.chunks {
          var chunk := mount.chunks[indexes[i]];
          if i == p {
            if k <= |chunk| { mount := mount.(merged := mount.merged + chunk[..k]); }
            return;
          }
          mount := mount.(merged := mount.merged + chunk);
          mount := mount.(chunks := mount.chunks - {indexes[i]});
        } else if i == p {
          return;
        }
        assert indexes[..i + 1][..i] == indexes[..i];
      }
    }
  }

  lemma {:induction false} JoinedParts(mount: Mount, a: seq<int>, b: seq<int>)
    ensures Joined(mount, a + b) == Joined(Joined(mount, a), b)
  {
    if b == [] {
      assert a + b == a;
    } else {
      JoinedParts(mount, a, b[..|b| - 1]);
      assert (a + b)[..|a + b| - 1] == a + b[..|b| - 1];
    }
  }

  /** What was in the merged file before stays in front and does not matter. */
  lemma {:induction false} JoinedFrom(mount: Mount, indexes: seq<int>)
    ensures
      var j, j0 := Joined(mount, indexes), Joined(Truncated(mount), indexes);
      j.chunks == j0.chunks && j.merged == mount.merged + j0.merged
  {
    if indexes != [] { JoinedFrom(mount, indexes[..|indexes| - 1]); }
  }

  lemma {:induction false} JoinedUses(mount: Mount, indexes: seq<int>)
    ensures Joined(mount, indexes).chunks.Keys <= mount.chunks.Keys
    ensures forall i | i in indexes :: i !in Joined(mount, indexes).chunks
  {
    if indexes != [] {
      JoinedUses(mount, indexes[..|indexes| - 1]);
      assert indexes == indexes[..|indexes| - 1] + [indexes[|indexes| - 1]];
    }
  }

  lemma {:induction false} JoinedSkips(mount: Mount, indexes: seq<int>)
    requires forall i | i in indexes :: i !in mount.chunks
    ensures Joined(mount, indexes) == mount
  {
    if indexes != [] {
      JoinedSkips(mount, indexes[..|indexes| - 1]);
      assert indexes[|indexes| - 1] in indexes;
    }
  }

  lemma LocalTwice(mount: Mount, a: seq<int>, b: seq<int>)
    ensures
      var first := Joined(Truncated(mount), a);
      var again, whole := Joined(Truncated(first), a + b), Joined(Truncated(mount), a + b);
      first.merged <= whole.merged && whole.merged[|first.merged|..] == again.merged
  {
    hide Joined;
    var first := Joined(Truncated(mount), a);
    JoinedParts(Truncated(mount), a, b);
    JoinedFrom(first, b);
    JoinedUses(Truncated(mount), a);
    JoinedParts(Truncated(first), a, b);
    JoinedSkips(Truncated(first), a);
  }

  lemma {:induction false} JoinedNothingIff(mount: Mount, indexes: seq<int>)
    ensures
      Joined(Truncated(mount), indexes).merged == []
      <==> forall i | i in indexes && i in mount.chunks :: mount.chunks[i] == []
    ensures forall i | i in Joined(Truncated(mount), indexes).chunks ::
      i in mount.chunks && Joined(Truncated(mount), indexes).chunks[i] == mount.chunks[i]
    ensures forall i | i in mount.chunks && i !in indexes :: i in Joined(Truncated(mount), indexes).chunks
  {
    if indexes != [] {
      var n := |indexes| - 1;
      JoinedNothingIff(mount, indexes[..n]);
      JoinedUses(Truncated(mount), indexes[..n]);
      assert indexes == indexes[..n] + [indexes[n]];
    }
  }

  /** A crash at position p, k bytes into its copy, then the whole merge again: the file
      is truncated, so the output is what the chunks still there make, namely the whole
      without the part of the p chunks removed. It is whole exactly when those were
      empty or missing. */
  lemma LocalCrashLosesIff(mount: Mount, indexes: seq<int>, p: nat, k: nat)
    requires p <= |indexes|
    ensures
      var removed := Joined(Truncated(mount), indexes[..p]).merged;
      var again := Joined(Truncated(Attempt(mount, indexes, p, k)), indexes);
      var whole := Joined(Truncated(mount), indexes);
      && removed <= whole.merged && again.merged == whole.merged[|removed|..]
      && (again.merged == whole.merged <==>
            forall i | i in indexes[..p] && i in mount.chunks :: mount.chunks[i] == [])
  {
    var first := Joined(Truncated(mount), indexes[..p]);
    assert Truncated(Attempt(mount, indexes, p, k)) == Truncated(first);
    hide Joined, Truncated, Attempt;
    assert indexes[..p] + indexes[p..] == indexes;
    LocalTwice(mount, indexes[..p], indexes[p..]);
    JoinedNothingIff(mount, indexes[..p]);
  }

  // ---- Byte ranges -----------------------------------------------------------------------------

  /** The object-storage branch of executeProcessChunkByteRange: skip `start` bytes if
      positive, then copy up to `end - start`, an early end of file tolerated. */
  function Extract(source: Bytes, start: int, end: int): Option<Bytes> {
    if start > |source| then None
    else
      var from := if start > 0 then start else 0;
      var length := if end - start > |source| - from then |source| - from else end - start;
      if length <= 0 then None else Some(source[from..from + length])
  }

  ghost predicate Tiling(bounds: seq<int>) {
    |bounds| >= 2 && bounds[0] == 0 && forall i, j | 0 <= i < j < |bounds| :: bounds[i] < bounds[j]
  }

  function TileAt(source: Bytes, bounds: seq<int>, i: nat): Option<Bytes>
    requires i + 1 < |bounds|
  {
    Extract(source, bounds[i], bounds[i + 1])
  }

  ghost predicate Extracted(source: Bytes, bounds: seq<int>, tiles: seq<Bytes>) {
    |tiles| + 1 == |bounds| && forall i | 0 <= i < |tiles| :: TileAt(source, bounds, i) == Some(tiles[i])
  }

  lemma {:induction false} TilesJoin(source: Bytes, bounds: seq<int>, tiles: seq<Bytes>, m: nat)
    requires Tiling(bounds) && Extracted(source, bounds, tiles) && m <= |tiles|
    ensures Concat(tiles[..m]) == Clip(source, bounds[m])
  {
    if m > 0 {
      TilesJoin(source, bounds, tiles, m - 1);
      assert tiles[..m][..m - 1] == tiles[..m - 1];
      assert TileAt(source, bounds, m - 1) == Some(tiles[m - 1]);
      BoundsNotNegative(bounds, m - 1);
      TileExtends(source, bounds[m - 1], bounds[m], tiles[m - 1]);
      hide Clip, Extract, Tiling, Extracted;
    }
  }

  lemma BoundsNotNegative(bounds: seq<int>, i: nat)
    requires Tiling(bounds) && i + 1 < |bounds|
    ensures 0 <= bounds[i] < bounds[i + 1]
  {
  }

  lemma TileExtends(source: Bytes, start: int, end: int, tile: Bytes)
    requires 0 <= start < end && Extract(source, start, end) == Some(tile)
    ensures Clip(source, start) + tile == Clip(source, end)
  {
  }

  /** Ranges that follow one another from 0 can all be extracted exactly when the last
      starts inside the source, and then they join up to the source exactly when the
      last reaches its end. */
  lemma TilesRejoinIff(source: Bytes, bounds: seq<int>)
    requires Tiling(bounds)
    ensures
      var n := |bounds| - 1;
      && ((exists tiles :: Extracted(source, bounds, tiles)) <==> bounds[n - 1] < |source|)
      && (forall tiles | Extracted(source, bounds, tiles) :: Concat(tiles) == source <==> |source| <= bounds[n])
  {
    var n := |bounds| - 1;
    hide Concat, Clip, TileAt;
    if bounds[n - 1] < |source| {
      var tiles := AllTiles(source, bounds);
      assert Extracted(source, bounds, tiles);
    }
    forall tiles | Extracted(source, bounds, tiles)
      ensures bounds[n - 1] < |source| && (Concat(tiles) == source <==> |source| <= bounds[n])
    {
      LastTile(source, bounds, tiles);
      TilesJoin(source, bounds, tiles, n);
      ClipIsAll(source, bounds[n]);
      assert tiles[..n] == tiles;
    }
  }

  lemma ClipIsAll(source: Bytes, n: int)
    requires n >= 0
    ensures Clip(source, n) == source <==> |source| <= n
  {
  }

  lemma LastTile(source: Bytes, bounds: seq<int>, tiles: seq<Bytes>)
    requires Tiling(bounds) && Extracted(source, bounds, tiles)
    ensures bounds[|bounds| - 2] < |source|
  {
    assert TileAt(source, bounds, |bounds| - 2) == Some(tiles[|bounds| - 2]);
  }

  lemma AllTiles(source: Bytes, bounds: seq<int>) returns (tiles: seq<Bytes>)
    requires Tiling(bounds) && bounds[|bounds| - 2] < |source|
    ensures Extracted(source, bounds, tiles)
  {
    var n := |bounds| - 1;
    tiles := [];
    for i := 0 to n
      invariant |tiles| == i && forall j | 0 <= j < i :: TileAt(source, bounds, j) == Some(tiles[j])
    {
      assert i < n - 1 ==> bounds[i] < bounds[n - 1];
      tiles := tiles + [TileAt(source, bounds, i).value];
    }
  }

  /** Byte ranges through an identity plugin and the concat merge: if the payload lists
      chunk 0, 1, ... and result i is range i as extracted, then from every state any run
      can reach, the source can be had, from the results or as the merged object. */
  lemma SourceConserved(source: Bytes, bounds: seq<int>, objects: Objects, base: string, events: seq<Event>)
    requires Tiling(bounds) && bounds[|bounds| - 2] < |source| <= bounds[|bounds| - 1]
    requires forall i: int | 0 <= i < |bounds| - 1 ::
      RemotePath(base, i, ResultPath) in objects
      && Extract(source, bounds[i], bounds[i + 1]) == Some(objects[RemotePath(base, i, ResultPath)])
    ensures
      var payload := Payload(base, seq(|bounds| - 1, i => i));
      var now := Run(State(objects, Idle), payload, events).objects;
      (AllResults(now, payload) && Concat(Results(now, payload)) == source)
      || (MergedKey(payload) in now && now[MergedKey(payload)] == source)
  {
    hide RemotePath, Run, Concat;
    var payload := Payload(base, seq(|bounds| - 1, i => i));
    forall i | 0 <= i < |payload.indexes|
      ensures ResultKey(payload, i) in objects && TileAt(source, bounds, i) == Some(Results(objects, payload)[i])
    {
      assert ResultKey(payload, i) == RemotePath(base, i, ResultPath);
    }
    TilesRejoinIff(source, bounds);
    assert Extracted(source, bounds, Results(objects, payload));
    DataConserved(objects, payload, events);
  }
}
