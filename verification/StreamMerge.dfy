/** StreamMerge and planTreeMerge of internal/dataset/merge.go as they update the disk,
    against the event machine of MergeCrash and against the disk they leave.
 */
module StreamMerge {
  import opened Sorting
  import opened MergeModel
  import opened Options
  import opened MergeCrash

  datatype DeviceOutput = DeviceOutput(mount: Path, file: seq<string>)

  datatype MergeConfig = MergeConfig(
    datasetID: string,
    datasetSlug: string,
    deviceOutput: Option<DeviceOutput>,
    chunks: seq<ChunkInfo>,
    strategy: string,
    mountPath: Path,
    agentID: string)

  datatype Error =
    | DatasetIDRequired
    | AgentIDRequired
    | NoOutputDir
    | InsufficientSpace
    | CheckpointUnreadable
    | OpenPartialFailed
    | SeekFailed
    | Cancelled
    | StatFailed
    | ChunkIsDirectory
    | OpenFailed
    | WriteFailed
    | SyncFailed
    | RenameFailed

  /** The errors that can end a merge before its loop. */
  type SetupError = e: Error |
    e.NoOutputDir? || e.InsufficientSpace? || e.CheckpointUnreadable? || e.OpenPartialFailed? || e.SeekFailed?
    witness NoOutputDir

  datatype Result =
    | Done(output: Path, merged: nat, skipped: nat, deleted: nat)
    | Failed(error: Error)

  /** What befalls the loop at a position: ctx is done; the chunk cannot be examined or
      opened; the copy fails after some bytes; the partial file cannot be synced; or the
      checkpoint cannot be saved, which is only logged. */
  datatype Trouble = Fine | Cancel | StatFails | OpenFails | WriteFails(k: nat) | SyncFails | SaveFails

  /** What befalls a merge: an error before the loop; trouble in it; the final sync, the
      rename and, only logged, the removal of the checkpoint. */
  datatype Weather = Weather(setup: Option<SetupError>, loop: nat -> Trouble, syncs: bool, renames: bool, clears: bool)

  /** getOutputPath */
  function OutputPath(config: MergeConfig): Path {
    var name := (if config.datasetSlug != "" then config.datasetSlug else config.datasetID) + "_merged.csv";
    match config.deviceOutput
    case Some(d) => if d.file != [] then Path(d.mount.abs, d.mount.parts + d.file) else Child(d.mount, name)
    case None => Child(HERE, name)
  }

  /** A file name given with the device is the output; otherwise it is named after the slug,
      or the dataset if there is none, in the device's mount or the working directory. */
  lemma OutputPathIs(config: MergeConfig, d: DeviceOutput)
    ensures config.deviceOutput == Some(d) && d.file != [] ==> OutputPath(config).parts == d.mount.parts + d.file
    ensures config.deviceOutput == Some(d) && d.file == [] ==> Dir(OutputPath(config)) == d.mount
    ensures config.deviceOutput == None ==> Dir(OutputPath(config)) == Path(false, [])
    ensures config.deviceOutput == None || config.deviceOutput.value.file == [] ==>
      && (config.datasetSlug != "" ==> Base(OutputPath(config)) == config.datasetSlug + "_merged.csv")
      && (config.datasetSlug == "" ==> Base(OutputPath(config)) == config.datasetID + "_merged.csv")
  {
  }

  function JobOf(config: MergeConfig): Job {
    Job(InOrder(config.chunks), config.strategy, config.mountPath, OutputPath(config))
  }

  /** Where a chunk is read. */
  function Source(job: Job, c: ChunkInfo): Option<Path> {
    Resolve(job.strategy, job.mount, c.path)
  }

  function Paths(chunks: seq<ChunkInfo>): (paths: set<Path>)
    ensures forall p :: p in paths <==> exists c :: c in chunks && c.path == p
  {
    set c | c in chunks :: c.path
  }

  /** The disk a merge leaves: the partial file has become the output with the blocks
      from the start position on appended, the chunks and the checkpoint are gone. */
  function MergedDisk(disk: Disk, job: Job): Disk {
    var blocks := Blocks(disk.files, job);
    var merged := Content(disk.files, Partial(job.output)) + Concat(blocks[StartPosition(disk, job)..]);
    Disk(
      (disk.files - Paths(job.chunks))[job.output := merged] - {Partial(job.output)},
      disk.dirs,
      disk.checkpoints - {job.output})
  }

  /** Positions below r count as merged without a look at them. */
  function CountMerged(b: seq<Bytes>, r: nat): nat {
    if b == [] then 0
    else CountMerged(b[..|b| - 1], r) + if |b| - 1 < r || b[|b| - 1] != [] then 1 else 0
  }

  /** Nothing befalls a merge of this job. */
  ghost predicate Smooth(disk: Disk, job: Job, weather: Weather) {
    && weather.setup.None? && weather.syncs && weather.renames
    && (forall i | 0 <= i < |job.chunks| :: weather.loop(i).Fine? || weather.loop(i).SaveFails?)
    && (forall c | c in job.chunks :: Source(job, c).Some? ==> Source(job, c).value !in disk.dirs)
  }

  lemma {:induction false} ActiveAppend(a: seq<ChunkInfo>, c: ChunkInfo)
    ensures Active(a + [c]) == Active(a) + if c.isSkipped then [] else [c]
  {
    if a == [] {
      assert a + [c] == [c];
    } else {
      ActiveAppend(a[1..], c);
      assert (a + [c])[1..] == a[1..] + [c];
    }
  }

  method FilterActive(chunks: seq<ChunkInfo>) returns (active: seq<ChunkInfo>)
    ensures active == Active(chunks)
  {
    active := [];
    for i := 0 to |chunks|
      invariant active == Active(chunks[..i])
    {
      ActiveAppend(chunks[..i], chunks[i]);
      assert chunks[..i + 1] == chunks[..i] + [chunks[i]];
      if !chunks[i].isSkipped { active := active + [chunks[i]]; }
    }
    assert chunks[..|chunks|] == chunks;
  }

  datatype Verdict = MergedIt | SkippedIt | Stopped(error: Error)

  /** An iteration ends the merge if the call is cancelled, or the chunk cannot be examined
      or is a directory, or is there and cannot be opened, copied or, if it has bytes, synced. */
  predicate StopsAt(d: Disk, job: Job, i: nat, trouble: Trouble)
    requires i < |job.chunks|
  {
    var source := Source(job, job.chunks[i]);
    || trouble.Cancel?
    || (source.Some? && (trouble.StatFails? || source.value in d.dirs))
    || (source.Some? && source.value in d.files &&
        (|| trouble.OpenFails? || trouble.WriteFails?
         || (trouble.SyncFails? && Block(d.files, job, job.chunks[i]) != [])))
  }

  /** One iteration of the loop past the resume position: when it ends the merge, and what
      it does to the disk. A saved checkpoint names the index of the chunk appended. */
  ghost predicate Iterated(d: Disk, d': Disk, job: Job, i: nat, trouble: Trouble, verdict: Verdict)
    requires i < |job.chunks|
  {
    var chunk, partial := job.chunks[i], Partial(job.output);
    var source, block := Source(job, chunk), Block(d.files, job, chunk);
    && d'.dirs == d.dirs && (verdict.Stopped? <==> StopsAt(d, job, i, trouble))
    && match verdict
       case MergedIt =>
         && block != [] && d'.files == Grown(d.files, partial, block)
         && d'.checkpoints ==
            if trouble.SaveFails? then d.checkpoints else d.checkpoints[job.output := chunk.index]
       case SkippedIt => block == [] && d' == d
       case Stopped(error) =>
         && Blamed(d, job, i, trouble, error) && d'.checkpoints == d.checkpoints
         && d'.files ==
            (if error.WriteFailed? || error.SyncFailed? then Grown(d.files, partial, Remnant(block, trouble))
             else d.files)
  }

  /** The error an iteration ends with names its trouble. */
  predicate Blamed(d: Disk, job: Job, i: nat, trouble: Trouble, error: Error)
    requires i < |job.chunks|
  {
    match error
    case Cancelled => trouble.Cancel?
    case StatFailed => trouble.StatFails?
    case ChunkIsDirectory => var source := Source(job, job.chunks[i]); source.Some? && source.value in d.dirs
    case OpenFailed => trouble.OpenFails?
    case WriteFailed => trouble.WriteFails?
    case SyncFailed => trouble.SyncFails?
    case _ => false
  }

  /** What of a chunk a failed copy, or a copy that could not be synced, has appended. */
  function Remnant(block: Bytes, trouble: Trouble): Bytes {
    match trouble
    case WriteFails(k) => block[..if k <= |block| then k else |block|]
    case SyncFails => block
    case _ => []
  }

  /** The chunk index in the checkpoint saved last from position r up to position i. */
  function LastSaved(b: seq<Bytes>, job: Job, loop: nat -> Trouble, r: nat, i: nat): Option<int>
    requires i <= |b| == |job.chunks|
  {
    if i <= r then None
    else if b[i - 1] != [] && !loop(i - 1).SaveFails? then Some(job.chunks[i - 1].index)
    else LastSaved(b, job, loop, r, i - 1)
  }

  function Checkpointed(checkpoints: map<Path, int>, output: Path, saved: Option<int>): map<Path, int> {
    match saved
    case None => checkpoints
    case Some(index) => checkpoints[output := index]
  }

  ghost predicate Unstopped(d: Disk, job: Job, loop: nat -> Trouble, r: nat, i: nat)
    requires i <= |job.chunks|
  {
    forall q | r <= q < i :: !StopsAt(d, job, q, loop(q))
  }

  /** What the loop from position r has done to the disk before position i. */
  ghost predicate LoopEffect(d0: Disk, d: Disk, job: Job, loop: nat -> Trouble, r: nat, i: nat) {
    var b := Blocks(d0.files, job);
    && r <= i <= |job.chunks|
    && d.files == Grown(d0.files, Partial(job.output), Concat(b[r..i]))
    && d.dirs == d0.dirs
    && d.checkpoints == Checkpointed(d0.checkpoints, job.output, LastSaved(b, job, loop, r, i))
    && Unstopped(d0, job, loop, r, i)
  }

  /** Bytes of the chunk at which the loop stopped are in the partial file. */
  function Left(block: Bytes, trouble: Trouble, error: Error): Bytes {
    if error.WriteFailed? || error.SyncFailed? then Remnant(block, trouble) else []
  }

  /** The loop stopped at its first position with trouble. */
  ghost predicate StoppedAt(d0: Disk, d: Disk, job: Job, loop: nat -> Trouble, error: Error, at: nat) {
    var b, r := Blocks(d0.files, job), StartPosition(d0, job);
    && r <= at < |job.chunks| && StopsAt(d0, job, at, loop(at))
    && d.files == Grown(d0.files, Partial(job.output), Concat(b[r..at]) + Left(b[at], loop(at), error))
    && Blamed(d0, job, at, loop(at), error) && d.dirs == d0.dirs
    && d.checkpoints == Checkpointed(d0.checkpoints, job.output, LastSaved(b, job, loop, r, at))
    && Unstopped(d0, job, loop, r, at)
  }

  ghost predicate StoppedSomewhere(d0: Disk, d: Disk, job: Job, loop: nat -> Trouble, error: Error) {
    exists at: nat :: StoppedAt(d0, d, job, loop, error, at)
  }

  /** The merge fails before its loop. */
  predicate FailsBefore(d0: Disk, job: Job, weather: Weather) {
    weather.setup.Some? && (weather.setup.value.SeekFailed? ==> job.output in d0.checkpoints)
  }

  /** The loop got through, the chunks are deleted, and the last sync or the rename failed. */
  ghost predicate FailedAfter(d0: Disk, d: Disk, job: Job, weather: Weather, error: Error) {
    var b, r := Blocks(d0.files, job), StartPosition(d0, job);
    && error == (if weather.syncs then RenameFailed else SyncFailed) && !(weather.syncs && weather.renames)
    && d.files == Grown(d0.files, Partial(job.output), Concat(b[r..])) - Paths(job.chunks)
    && d.dirs == d0.dirs
    && d.checkpoints == Checkpointed(d0.checkpoints, job.output, LastSaved(b, job, weather.loop, r, |b|))
    && Unstopped(d0, job, weather.loop, r, |job.chunks|)
  }

  /** Why a merge failed, and what it left. */
  ghost predicate Broken(d0: Disk, d: Disk, job: Job, weather: Weather, error: Error) {
    if FailsBefore(d0, job, weather) then
      && weather.setup == Some(error)
      && d == if error.SeekFailed? then d0.(files := Grown(d0.files, Partial(job.output), [])) else d0
    else StoppedSomewhere(d0, d, job, weather.loop, error) || FailedAfter(d0, d, job, weather, error)
  }

  /** Nothing befalls a merge that would end it. */
  ghost predicate GetsThrough(d0: Disk, job: Job, weather: Weather) {
    && !FailsBefore(d0, job, weather) && weather.syncs && weather.renames
    && Unstopped(d0, job, weather.loop, StartPosition(d0, job), |job.chunks|)
  }

  class Merger {
    var disk: Disk

    /** One iteration of the loop past the resume position. `s` is the machine's state
        before, `events` its steps. */
    method MergeChunk(job: Job, i: nat, trouble: Trouble, ghost s: State)
      returns (verdict: Verdict, ghost events: seq<Event>)
      requires i < |job.chunks| == |s.tears| && s.phase == Merging(i) && s.disk == disk
      modifies this
      ensures
        var s' := Run(s, job, events);
        && s'.disk == disk && |s'.tears| == |s.tears|
        && s'.phase == (if verdict.Stopped? then Idle else Merging(i + 1))
        && (!verdict.Stopped? ==> CrashFree(events))
      ensures Iterated(old(disk), disk, job, i, trouble, verdict)
    {
      hide Run, Next, Partial, CrashFree, Grown;
      var chunk, partial := job.chunks[i], Partial(job.output);
      if trouble.Cancel? {
        CrashRuns(s, job);
        return Stopped(Cancelled), [Crash];
      }
      var source := Resolve(job.strategy, job.mount, chunk.path);
      if source.None? {
        SkipRuns(s, job);
        return SkippedIt, [Skip];
      }
      if trouble.StatFails? {
        CrashRuns(s, job);
        return Stopped(StatFailed), [Crash];
      }
      if source.value !in disk.files && source.value !in disk.dirs {
        SkipRuns(s, job);
        return SkippedIt, [Skip];
      }
      if source.value in disk.dirs {
        CrashRuns(s, job);
        return Stopped(ChunkIsDirectory), [Crash];
      }
      if trouble.OpenFails? {
        CrashRuns(s, job);
        return Stopped(OpenFailed), [Crash];
      }
      verdict, events := CopyChunk(job, i, trouble, source.value, s);
    }

    /** The copy of a chunk that could be opened, its sync and its checkpoint. */
    method CopyChunk(job: Job, i: nat, trouble: Trouble, source: Path, ghost s: State)
      returns (verdict: Verdict, ghost events: seq<Event>)
      requires i < |job.chunks| == |s.tears| && s.phase == Merging(i) && s.disk == disk
      requires Source(job, job.chunks[i]) == Some(source) && source in disk.files && source !in disk.dirs
      requires !trouble.Cancel? && !trouble.StatFails? && !trouble.OpenFails?
      modifies this
      ensures
        var s' := Run(s, job, events);
        && s'.disk == disk && |s'.tears| == |s.tears|
        && s'.phase == (if verdict.Stopped? then Idle else Merging(i + 1))
        && (!verdict.Stopped? ==> CrashFree(events))
      ensures Iterated(old(disk), disk, job, i, trouble, verdict)
    {
      hide Run, Next, Partial, CrashFree, Grown;
      var partial := Partial(job.output);
      var block := disk.files[source];
      assert block == Block(disk.files, job, job.chunks[i]);
      hide Block, Resolve;
      if trouble.WriteFails? {
        var k := if trouble.k <= |block| then trouble.k else |block|;
        TearRuns(s, job, k);
        disk := disk.(files := Grown(disk.files, partial, block[..k]));
        return Stopped(WriteFailed), [TearCrash(k)];
      }
      if block == [] {
        SkipRuns(s, job);
        return SkippedIt, [Skip];
      }
      AppendRuns(s, job);
      disk := disk.(files := Grown(disk.files, partial, block));
      if trouble.SyncFails? {
        return Stopped(SyncFailed), [Append, Crash];
      }
      if trouble.SaveFails? {
        return MergedIt, [Append, Event.SaveFails];
      }
      disk := disk.(checkpoints := disk.checkpoints[job.output := job.chunks[i].index]);
      return MergedIt, [Append, Save];
    }

    /** cleanupChunks: removes the paths as given, resolved or not. */
    method CleanupChunks(chunks: seq<ChunkInfo>) returns (deleted: nat)
      modifies this
      ensures disk == old(disk).(files := old(disk.files) - Paths(chunks))
      ensures deleted == |Paths(chunks) * old(disk.files).Keys|
    {
      hide Paths;
      deleted := 0;
      assert Paths(chunks[..0]) == {} by { NoPaths(); }
      for i := 0 to |chunks|
        invariant disk == old(disk).(files := old(disk.files) - Paths(chunks[..i]))
        invariant deleted == |Paths(chunks[..i]) * old(disk.files).Keys|
      {
        var path := chunks[i].path;
        PathsGrow(chunks, i);
        RemoveOne(old(disk.files), Paths(chunks[..i]), path);
        if path in disk.files {
          disk := disk.(files := disk.files - {path});
          deleted := deleted + 1;
        }
      }
      assert chunks[..|chunks|] == chunks;
    }

    /** The loop over the active chunks; `s` is the machine's state with the partial
        file open. */
    method MergeAll(job: Job, weather: Weather, ghost s: State)
      returns (stopped: Option<Error>, merged: nat, skipped: nat, ghost events: seq<Event>)
      requires s.phase == Merging(StartPosition(disk, job)) && s.disk == disk && |s.tears| == |job.chunks|
      requires Partial(job.output) in disk.files
      modifies this
      ensures
        var s' := Run(s, job, events);
        && s'.disk == disk && s'.phase == (if stopped.Some? then Idle else Merging(|job.chunks|))
        && (stopped.None? ==> CrashFree(events))
      ensures Separate(job) ==>
        match stopped
        case None => LoopEffect(old(disk), disk, job, weather.loop, StartPosition(old(disk), job), |job.chunks|)
        case Some(error) => StoppedSomewhere(old(disk), disk, job, weather.loop, error)
      ensures stopped.None? && Separate(job) ==>
        && merged == CountMerged(Blocks(old(disk.files), job), StartPosition(old(disk), job))
        && merged + skipped == |job.chunks|
    {
      hide Run, Separate, LoopEffect, StartPosition, Blocks, Block, StopsAt, StoppedAt, Iterated;
      merged, skipped, events := 0, 0, [];
      var resumeIndex := if job.output in disk.checkpoints then disk.checkpoints[job.output] + 1 else 0;
      ghost var d0, r := disk, StartPosition(disk, job);
      ghost var b := Blocks(disk.files, job);
      StartIsResumeIndex(disk, job, resumeIndex, 0);
      NothingLooped(disk, job, weather.loop, r);
      RunNothing(s, job);
      for i := 0 to |job.chunks|
        invariant Run(s, job, events).disk == disk && |Run(s, job, events).tears| == |job.chunks|
        invariant Run(s, job, events).phase == Merging(if i < r then r else i) && CrashFree(events)
        invariant LoopOk(d0, disk, job, weather.loop, r, if i < r then r else i)
        invariant Separate(job) ==> merged == CountMerged(b[..i], r) && merged + skipped == i
      {
        CountOneMore(b, i, r);
        StartIsResumeIndex(d0, job, resumeIndex, i);
        if i < resumeIndex {
          merged := merged + 1;
          continue;
        }
        ghost var t, before := Run(s, job, events), disk;
        ghost var more;
        var verdict;
        verdict, more := MergeChunk(job, i, weather.loop(i), t);
        RunAppend(s, job, events, more);
        events := events + more;
        IterationEffect(d0, before, disk, job, weather.loop, r, i, verdict);
        match verdict {
          case MergedIt => merged := merged + 1;
          case SkippedIt => skipped := skipped + 1;
          case Stopped(error) => return Some(error), merged, skipped, events;
        }
      }
      assert b[..|b|] == b;
      stopped := None;
    }

    /** After the loop: delete the chunks, sync, rename the partial file, clear the checkpoint. */
    method FinishMerge(job: Job, weather: Weather, ghost s: State)
      returns (failed: Option<Error>, deleted: nat, ghost events: seq<Event>)
      requires s.phase == Merging(|job.chunks|) && s.disk == disk
      modifies this
      ensures
        var s' := Run(s, job, events);
        && s'.disk == disk
        && s'.phase == (if failed.Some? then Idle else if weather.clears then Phase.Finished else Phase.Renamed)
      ensures failed.None? ==> CrashFree(events) && disk == AfterRename(old(disk), job, weather.clears)
      ensures failed.Some? ==>
        && disk == old(disk).(files := old(disk.files) - Paths(job.chunks))
        && failed.value == if weather.syncs then RenameFailed else SyncFailed
      ensures failed.None? <==>
        && weather.syncs && weather.renames
        && Partial(job.output) in old(disk.files) && Partial(job.output) !in Paths(job.chunks)
      ensures deleted == |Paths(job.chunks) * old(disk.files).Keys|
    {
      hide Run, Step, Enabled, Paths, Partial, CrashFree, AfterRename;
      deleted := CleanupChunks(job.chunks);
      CleanupTrace(s, job);
      var partial := Partial(job.output);
      if !weather.syncs {
        return Some(SyncFailed), deleted, [BeginCleanup] + Deletes(|job.chunks|) + [Crash];
      }
      if !weather.renames || partial !in disk.files {
        return Some(RenameFailed), deleted, [BeginCleanup] + Deletes(|job.chunks|) + [Crash];
      }
      RenameTrace(s, job);
      disk := disk.(files := disk.files[job.output := disk.files[partial]] - {partial});
      if !weather.clears {
        return None, deleted, [BeginCleanup] + Deletes(|job.chunks|) + [Rename];
      }
      disk := disk.(checkpoints := disk.checkpoints - {job.output});
      return None, deleted, [BeginCleanup] + Deletes(|job.chunks|) + [Rename, Clear];
    }

    /** StreamMerge once its configuration is accepted. */
    method MergeJob(job: Job, weather: Weather) returns (result: Result, ghost events: seq<Event>)
      modifies this
      ensures Ended(Run(Initial(old(disk), job), job, events), disk, result, weather)
      ensures result.Done? ==> CrashFree(events)
      ensures Separate(job) ==> (result.Done? <==> GetsThrough(old(disk), job, weather))
      ensures Separate(job) ==>
        match result
        case Done(_, _, _, _) => Merged(old(disk), disk, job, weather, result)
        case Failed(error) => Broken(old(disk), disk, job, weather, error)
    {
      hide Run, Separate, LoopEffect, LoopOk, Blocks, Concat, Paths, CountMerged, Partial, AfterRename,
           MergedDisk, StartPosition, CrashFree, Merged, StoppedSomewhere, StopsAt, FailedAfter;
      ghost var d0, s0 := disk, Initial(disk, job);
      StartRuns(s0, job);
      if weather.setup.Some? && !weather.setup.value.SeekFailed? {
        RunNothing(s0, job);
        return Failed(weather.setup.value), [];
      }

      disk := disk.(files := Grown(disk.files, Partial(job.output), []));
      if weather.setup.Some? && job.output in disk.checkpoints {
        StartThenCrash(s0, job);
        return Failed(SeekFailed), [Start, Crash];
      }
      ghost var atOpen, more := disk, [];
      OpeningChangesNothing(d0, atOpen, job, weather.loop);
      var stopped, merged, skipped;
      stopped, merged, skipped, more := MergeAll(job, weather, Run(s0, job, [Start]));
      Joined(s0, job, [Start], more);
      events := [Start] + more;
      if stopped.Some? {
        if Separate(job) {
          StoppedFromStart(d0, atOpen, disk, job, weather, stopped.value);
        }
        return Failed(stopped.value), events;
      }

      ghost var looped := disk;
      if Separate(job) { LoopedFromStart(d0, atOpen, looped, job, weather); }
      var failed, deleted;
      failed, deleted, more := FinishMerge(job, weather, Run(s0, job, events));
      Joined(s0, job, events, more);
      events := events + more;
      if failed.Some? {
        if Separate(job) { FailedIs(d0, looped, disk, job, weather, failed.value); }
        return Failed(failed.value), events;
      }
      result := Done(job.output, merged, skipped, deleted);
      if Separate(job) {
        SameDeleted(d0, looped, job, weather.loop);
        RenamedIs(d0, looped, disk, job, weather, result);
      }
    }

    /** StreamMerge. `events` are the machine's steps from the disk as it was. */
    method StreamMerge(config: MergeConfig, weather: Weather) returns (result: Result, ghost events: seq<Event>)
      modifies this
      ensures config.datasetID == "" ==> result == Failed(DatasetIDRequired) && disk == old(disk)
      ensures config.datasetID != "" && config.agentID == "" ==> result == Failed(AgentIDRequired) && disk == old(disk)
      ensures config.datasetID != "" && config.agentID != "" ==>
        Ended(Run(Initial(old(disk), JobOf(config)), JobOf(config), events), disk, result, weather)
        && (result.Done? ==> CrashFree(events))
      ensures result.Done? && Separate(JobOf(config)) ==> Merged(old(disk), disk, JobOf(config), weather, result)
      ensures Accepted(config) && Separate(JobOf(config)) ==>
        && (result.Done? <==> GetsThrough(old(disk), JobOf(config), weather))
        && (result.Failed? ==> Broken(old(disk), disk, JobOf(config), weather, result.error))
      ensures Accepted(config) && Separate(JobOf(config)) && Smooth(old(disk), JobOf(config), weather) ==> result.Done?
    {
      hide Run, Separate, Ended, Merged, CrashFree, GetsThrough, Broken;
      if config.datasetID == "" { return Failed(DatasetIDRequired), []; }
      if config.agentID == "" { return Failed(AgentIDRequired), []; }
      var active := FilterActive(config.chunks);
      var chunks := SortBy(IndexOf(), active);
      var job := Job(chunks, config.strategy, config.mountPath, OutputPath(config));
      assert job == JobOf(config);
      if Smooth(disk, job, weather) { SmoothGetsThrough(disk, job, weather); }
      hide Smooth;
      result, events := MergeJob(job, weather);
    }
  }

  predicate Accepted(config: MergeConfig) {
    config.datasetID != "" && config.agentID != ""
  }

  /** The call is a run of the machine: to the end, or up to a death between two calls. */
  ghost predicate Ended(s: State, disk: Disk, result: Result, weather: Weather) {
    && s.disk == disk
    && s.phase == (if result.Failed? then Idle else if weather.clears then Phase.Finished else Phase.Renamed)
  }

  /** What a successful merge leaves and reports; if the checkpoint could not be removed,
      the files are the same. */
  ghost predicate Merged(before: Disk, after: Disk, job: Job, weather: Weather, result: Result)
    requires result.Done?
  {
    var b := Blocks(before.files, job);
    && after.files == MergedDisk(before, job).files && after.dirs == before.dirs
    && (weather.clears ==> after == MergedDisk(before, job))
    && (!weather.clears ==>
          after.checkpoints ==
          Checkpointed(before.checkpoints, job.output,
                       LastSaved(b, job, weather.loop, StartPosition(before, job), |b|)))
    && result.deleted == |Paths(job.chunks) * before.files.Keys|
    && result.output == job.output && result.merged == CountMerged(b, StartPosition(before, job))
    && result.merged + result.skipped == |job.chunks|
  }

  function AfterRename(disk: Disk, job: Job, cleared: bool): Disk {
    var files := disk.files - Paths(job.chunks);
    disk.(files := files[job.output := Content(files, Partial(job.output))] - {Partial(job.output)},
          checkpoints := if cleared then disk.checkpoints - {job.output} else disk.checkpoints)
  }

  lemma CrashRuns(s: State, job: Job)
    requires s.phase.Merging?
    ensures var t := Run(s, job, [Crash]); t.disk == s.disk && t.phase == Idle && |t.tears| == |s.tears|
  {
    RunShort(s, job, Crash, Crash);
  }

  lemma SkipRuns(s: State, job: Job)
    requires s.phase.Merging? && s.phase.next < |job.chunks| && BlockAt(s, job, s.phase.next) == []
    ensures Run(s, job, [Skip]) == s.(phase := Merging(s.phase.next + 1)) && CrashFree([Skip])
  {
    RunShort(s, job, Skip, Skip);
  }

  lemma TearRuns(s: State, job: Job, k: nat)
    requires s.phase.Merging? && s.phase.next < |job.chunks| == |s.tears| && k <= |BlockAt(s, job, s.phase.next)|
    ensures
      var t := Run(s, job, [TearCrash(k)]);
      && t.disk == s.disk.(files := Grown(s.disk.files, Partial(job.output), BlockAt(s, job, s.phase.next)[..k]))
      && t.phase == Idle && |t.tears| == |s.tears|
  {
    RunShort(s, job, TearCrash(k), Crash);
    hide Run, Grown, BlockAt, Partial, Again;
  }

  lemma AppendRuns(s: State, job: Job)
    requires s.phase.Merging? && s.phase.next < |job.chunks| && BlockAt(s, job, s.phase.next) != []
    ensures
      var i := s.phase.next;
      var grown := s.disk.(files := Grown(s.disk.files, Partial(job.output), BlockAt(s, job, i)));
      var failed, saved := Run(s, job, [Append, Event.SaveFails]), Run(s, job, [Append, Save]);
      var died := Run(s, job, [Append, Crash]);
      && (|s.tears| == |job.chunks| ==> died.disk == grown && died.phase == Idle && |died.tears| == |s.tears|)
      && failed.disk == grown && failed.phase == Merging(i + 1) && failed.tears == s.tears
      && saved.disk == grown.(checkpoints := s.disk.checkpoints[job.output := job.chunks[i].index])
      && saved.phase == Merging(i + 1) && saved.tears == s.tears
    ensures CrashFree([Append, Event.SaveFails]) && CrashFree([Append, Save])
  {
    RunShort(s, job, Append, Event.SaveFails);
    RunShort(s, job, Append, Save);
    RunShort(s, job, Append, Crash);
    hide Grown, Block;
  }

  ghost predicate LoopOk(d0: Disk, d: Disk, job: Job, loop: nat -> Trouble, r: nat, i: nat) {
    Separate(job) ==> LoopEffect(d0, d, job, loop, r, i)
  }

  lemma StartIsResumeIndex(disk: Disk, job: Job, resumeIndex: int, i: nat)
    requires resumeIndex == if job.output in disk.checkpoints then disk.checkpoints[job.output] + 1 else 0
    ensures StartPosition(disk, job) <= |job.chunks|
    ensures i < |job.chunks| ==> (i < resumeIndex <==> i < StartPosition(disk, job))
  {
  }

  lemma NothingLooped(d: Disk, job: Job, loop: nat -> Trouble, r: nat)
    requires r <= |job.chunks| && Partial(job.output) in d.files
    ensures LoopOk(d, d, job, loop, r, r)
  {
    assert Blocks(d.files, job)[r..r] == [];
    GrownByNothing(d.files, Partial(job.output));
  }

  lemma GrownByNothing(files: Files, p: Path)
    requires p in files
    ensures Grown(files, p, []) == files
  {
    assert files[p] + [] == files[p];
  }

  lemma RunNothing(s: State, job: Job)
    ensures Run(s, job, []) == s
  {
  }

  lemma CountOneMore(b: seq<Bytes>, i: nat, r: nat)
    requires i < |b|
    ensures CountMerged(b[..0], r) == 0
    ensures CountMerged(b[..i + 1], r) == CountMerged(b[..i], r) + if i < r || b[i] != [] then 1 else 0
  {
    assert b[..i + 1][..i] == b[..i];
  }

  /** The chunk read at position i is the one there was before the loop. */
  lemma SameBlock(d0: Disk, d: Disk, job: Job, loop: nat -> Trouble, r: nat, i: nat)
    requires Separate(job) && r <= i < |job.chunks| && LoopEffect(d0, d, job, loop, r, i)
    ensures Block(d.files, job, job.chunks[i]) == Blocks(d0.files, job)[i]
    ensures Concat(Blocks(d0.files, job)[r..i + 1]) == Concat(Blocks(d0.files, job)[r..i]) + Blocks(d0.files, job)[i]
  {
    var b := Blocks(d0.files, job);
    GrownKeepsBlocks(d0.files, job, Concat(b[r..i]));
    assert Blocks(d.files, job)[i] == b[i];
    hide Separate, Block, Grown;
    assert b[r..i + 1][..i - r] == b[r..i];
  }

  lemma SameStop(d0: Disk, d: Disk, job: Job, i: nat, trouble: Trouble, more: Bytes)
    requires Separate(job) && i < |job.chunks| && d.dirs == d0.dirs
    requires d.files == Grown(d0.files, Partial(job.output), more)
    ensures StopsAt(d, job, i, trouble) <==> StopsAt(d0, job, i, trouble)
  {
    assert job.chunks[i] in job.chunks;
    GrownKeepsBlocks(d0.files, job, more);
    assert Block(d.files, job, job.chunks[i]) == Blocks(d.files, job)[i] == Blocks(d0.files, job)[i];
  }

  lemma SavedOne(
      checkpoints: map<Path, int>, b: seq<Bytes>, job: Job, loop: nat -> Trouble, r: nat, i: nat)
    requires r <= i < |b| == |job.chunks|
    ensures
      var before := Checkpointed(checkpoints, job.output, LastSaved(b, job, loop, r, i));
      Checkpointed(checkpoints, job.output, LastSaved(b, job, loop, r, i + 1)) ==
      if b[i] == [] || loop(i).SaveFails? then before else before[job.output := job.chunks[i].index]
  {
  }

  lemma MergedFiles(d0: Disk, d: Disk, d': Disk, job: Job, loop: nat -> Trouble, r: nat, i: nat)
    requires Separate(job) && r <= i < |job.chunks| && LoopEffect(d0, d, job, loop, r, i)
    requires Iterated(d, d', job, i, loop(i), MergedIt)
    ensures
      var b := Blocks(d0.files, job);
      b[i] != [] && d'.dirs == d0.dirs && d'.files == Grown(d0.files, Partial(job.output), Concat(b[r..i + 1]))
  {
    var b := Blocks(d0.files, job);
    SameBlock(d0, d, job, loop, r, i);
    GrownTwice(d0.files, Partial(job.output), Concat(b[r..i]), b[i]);
    hide Separate, Blocks, Block, Concat, Grown, Partial, StopsAt, Unstopped, LastSaved, Checkpointed;
  }

  lemma OneMoreUnstopped(
      d0: Disk, d: Disk, d': Disk, job: Job, loop: nat -> Trouble, r: nat, i: nat, verdict: Verdict)
    requires Separate(job) && r <= i < |job.chunks| && LoopEffect(d0, d, job, loop, r, i)
    requires Iterated(d, d', job, i, loop(i), verdict) && !verdict.Stopped?
    ensures Unstopped(d0, job, loop, r, i + 1)
  {
    SameStop(d0, d, job, i, loop(i), Concat(Blocks(d0.files, job)[r..i]));
    hide Separate, Blocks, Block, Concat, Grown, Partial, StopsAt, LastSaved, Checkpointed;
  }

  lemma MergedCheckpoint(d0: Disk, d: Disk, d': Disk, job: Job, loop: nat -> Trouble, r: nat, i: nat)
    requires r <= i < |job.chunks| && LoopEffect(d0, d, job, loop, r, i)
    requires Iterated(d, d', job, i, loop(i), MergedIt) && Blocks(d0.files, job)[i] != []
    ensures d'.checkpoints ==
      Checkpointed(d0.checkpoints, job.output, LastSaved(Blocks(d0.files, job), job, loop, r, i + 1))
  {
    SavedOne(d0.checkpoints, Blocks(d0.files, job), job, loop, r, i);
    hide Blocks, Block, Concat, Grown, Partial, StopsAt, Unstopped, LastSaved, Checkpointed;
  }

  lemma MergedOne(d0: Disk, d: Disk, d': Disk, job: Job, loop: nat -> Trouble, r: nat, i: nat)
    requires Separate(job) && r <= i < |job.chunks| && LoopEffect(d0, d, job, loop, r, i)
    requires Iterated(d, d', job, i, loop(i), MergedIt)
    ensures LoopEffect(d0, d', job, loop, r, i + 1) && Blocks(d0.files, job)[i] != []
  {
    MergedFiles(d0, d, d', job, loop, r, i);
    OneMoreUnstopped(d0, d, d', job, loop, r, i, MergedIt);
    MergedCheckpoint(d0, d, d', job, loop, r, i);
    hide Iterated, Separate, Blocks, Concat, Grown, Partial, Unstopped, LastSaved, Checkpointed;
  }

  lemma SkippedOne(d0: Disk, d: Disk, d': Disk, job: Job, loop: nat -> Trouble, r: nat, i: nat)
    requires Separate(job) && r <= i < |job.chunks| && LoopEffect(d0, d, job, loop, r, i)
    requires Iterated(d, d', job, i, loop(i), SkippedIt)
    ensures LoopEffect(d0, d', job, loop, r, i + 1) && Blocks(d0.files, job)[i] == []
  {
    var b := Blocks(d0.files, job);
    SameBlock(d0, d, job, loop, r, i);
    OneMoreUnstopped(d0, d, d', job, loop, r, i, SkippedIt);
    assert Concat(b[r..i]) + [] == Concat(b[r..i]);
    SavedOne(d0.checkpoints, b, job, loop, r, i);
    hide Separate, Blocks, Block, Concat, Grown, Partial, StopsAt, Unstopped, LastSaved, Checkpointed;
  }

  lemma StoppedOne(d0: Disk, d: Disk, d': Disk, job: Job, loop: nat -> Trouble, i: nat, error: Error)
    requires Separate(job) && StartPosition(d0, job) <= i < |job.chunks|
    requires LoopEffect(d0, d, job, loop, StartPosition(d0, job), i)
    requires Iterated(d, d', job, i, loop(i), Stopped(error))
    ensures StoppedAt(d0, d', job, loop, error, i)
  {
    var b, r := Blocks(d0.files, job), StartPosition(d0, job);
    SameBlock(d0, d, job, loop, r, i);
    SameStop(d0, d, job, i, loop(i), Concat(b[r..i]));
    var x := Left(b[i], loop(i), error);
    GrownTwice(d0.files, Partial(job.output), Concat(b[r..i]), x);
    assert Concat(b[r..i]) + [] == Concat(b[r..i]);
    hide Separate, Blocks, Block, Concat, Partial, StopsAt, LastSaved, StartPosition, Remnant;
  }

  lemma IterationEffect(
      d0: Disk, d: Disk, d': Disk, job: Job, loop: nat -> Trouble, r: nat, i: nat, verdict: Verdict)
    requires r == StartPosition(d0, job) && r <= i < |job.chunks| && LoopOk(d0, d, job, loop, r, i)
    requires Iterated(d, d', job, i, loop(i), verdict)
    ensures !verdict.Stopped? ==> LoopOk(d0, d', job, loop, r, i + 1)
    ensures Separate(job) && !verdict.Stopped? ==> (verdict.MergedIt? <==> Blocks(d0.files, job)[i] != [])
    ensures Separate(job) && verdict.Stopped? ==> StoppedAt(d0, d', job, loop, verdict.error, i)
  {
    hide Separate, LoopEffect, Iterated, Blocks, StartPosition, StoppedAt;
    if Separate(job) {
      match verdict
      case MergedIt => MergedOne(d0, d, d', job, loop, r, i);
      case SkippedIt => SkippedOne(d0, d, d', job, loop, r, i);
      case Stopped(error) => StoppedOne(d0, d, d', job, loop, i, error);
    }
  }

  lemma Joined(s: State, job: Job, a: seq<Event>, b: seq<Event>)
    ensures Run(s, job, a + b) == Run(Run(s, job, a), job, b)
    ensures CrashFree(a) && CrashFree(b) ==> CrashFree(a + b)
    ensures CrashFree([Start])
  {
    RunAppend(s, job, a, b);
  }

  lemma StartRuns(s: State, job: Job)
    requires s.phase.Idle?
    ensures
      Run(s, job, [Start]) ==
      s.(disk := s.disk.(files := Grown(s.disk.files, Partial(job.output), [])),
         phase := Merging(StartPosition(s.disk, job)))
  {
    RunShort(s, job, Start, Start);
  }

  lemma StartThenCrash(s: State, job: Job)
    requires s.phase.Idle?
    ensures
      var t := Run(s, job, [Start, Crash]);
      t.disk == s.disk.(files := Grown(s.disk.files, Partial(job.output), [])) && t.phase == Idle
  {
    RunShort(s, job, Start, Crash);
  }

  lemma SmoothGetsThrough(disk: Disk, job: Job, weather: Weather)
    requires Smooth(disk, job, weather)
    ensures GetsThrough(disk, job, weather)
  {
    hide StartPosition, Block;
    forall q | StartPosition(disk, job) <= q < |job.chunks| ensures !StopsAt(disk, job, q, weather.loop(q)) {
      assert job.chunks[q] in job.chunks;
    }
  }

  lemma OpeningChangesNothing(d0: Disk, d: Disk, job: Job, loop: nat -> Trouble)
    requires d == d0.(files := Grown(d0.files, Partial(job.output), []))
    ensures StartPosition(d0, job) == StartPosition(d, job) && Partial(job.output) in d.files
    ensures Separate(job) ==>
      && Blocks(d.files, job) == Blocks(d0.files, job)
      && forall q | 0 <= q < |job.chunks| :: StopsAt(d, job, q, loop(q)) <==> StopsAt(d0, job, q, loop(q))
  {
    if Separate(job) {
      GrownKeepsBlocks(d0.files, job, []);
      forall q | 0 <= q < |job.chunks| ensures StopsAt(d, job, q, loop(q)) <==> StopsAt(d0, job, q, loop(q)) {
        SameStop(d0, d, job, q, loop(q), []);
      }
    }
  }

  lemma StoppedFromStart(d0: Disk, atOpen: Disk, d: Disk, job: Job, weather: Weather, error: Error)
    requires Separate(job) && atOpen == d0.(files := Grown(d0.files, Partial(job.output), []))
    requires StoppedSomewhere(atOpen, d, job, weather.loop, error)
    ensures StoppedSomewhere(d0, d, job, weather.loop, error) && !GetsThrough(d0, job, weather)
  {
    var at: nat :| StoppedAt(atOpen, d, job, weather.loop, error, at);
    OpeningChangesNothing(d0, atOpen, job, weather.loop);
    var b, r := Blocks(d0.files, job), StartPosition(d0, job);
    var more := Concat(b[r..at]) + Left(b[at], weather.loop(at), error);
    hide Blocks, StartPosition, StopsAt, Concat, Left, LastSaved;
    GrownTwice(d0.files, Partial(job.output), [], more);
    assert [] + more == more;
    hide Grown, Partial;
    assert StoppedAt(d0, d, job, weather.loop, error, at);
  }

  lemma LoopedFromStart(d0: Disk, atOpen: Disk, d: Disk, job: Job, weather: Weather)
    requires Separate(job) && atOpen == d0.(files := Grown(d0.files, Partial(job.output), []))
    requires LoopEffect(atOpen, d, job, weather.loop, StartPosition(atOpen, job), |job.chunks|)
    ensures LoopEffect(d0, d, job, weather.loop, StartPosition(d0, job), |job.chunks|)
    ensures Partial(job.output) in d.files && Partial(job.output) !in Paths(job.chunks)
    ensures !FailsBefore(d0, job, weather) ==> (GetsThrough(d0, job, weather) <==> weather.syncs && weather.renames)
  {
    OpeningChangesNothing(d0, atOpen, job, weather.loop);
    var b, r := Blocks(d0.files, job), StartPosition(d0, job);
    hide Blocks, StartPosition, StopsAt, LastSaved;
    GrownTwice(d0.files, Partial(job.output), [], Concat(b[r..|b|]));
    assert [] + Concat(b[r..|b|]) == Concat(b[r..|b|]);
  }

  lemma FailedIs(d0: Disk, looped: Disk, d: Disk, job: Job, weather: Weather, error: Error)
    requires LoopEffect(d0, looped, job, weather.loop, StartPosition(d0, job), |job.chunks|)
    requires d == looped.(files := looped.files - Paths(job.chunks))
    requires error == (if weather.syncs then RenameFailed else SyncFailed) && !(weather.syncs && weather.renames)
    ensures FailedAfter(d0, d, job, weather, error)
  {
    var b, r := Blocks(d0.files, job), StartPosition(d0, job);
    assert b[r..|b|] == b[r..];
    hide Blocks, StartPosition, StopsAt, LastSaved, Concat, Grown, Paths;
  }

  lemma {:induction false} DeletesEffect(s: State, job: Job, m: nat)
    requires s.phase == Cleaning(0) && m <= |job.chunks|
    ensures
      Run(s, job, Deletes(m)) ==
      s.(disk := s.disk.(files := s.disk.files - Paths(job.chunks[..m])), phase := Cleaning(m))
  {
    if m == 0 {
      assert Deletes(0) == [];
      NoPaths();
      assert s.disk.files - {} == s.disk.files;
    } else {
      DeletesEffect(s, job, m - 1);
      assert Deletes(m)[..m - 1] == Deletes(m - 1);
      PathsGrow(job.chunks, m - 1);
      SubtractTwice(s.disk.files, Paths(job.chunks[..m - 1]), {job.chunks[m - 1].path});
      hide Paths;
    }
  }

  lemma CleanupRuns(s: State, job: Job)
    requires s.phase == Merging(|job.chunks|)
    ensures
      Run(s, job, [BeginCleanup] + Deletes(|job.chunks|)) ==
      s.(disk := s.disk.(files := s.disk.files - Paths(job.chunks)), phase := Cleaning(|job.chunks|))
  {
    RunShort(s, job, BeginCleanup, BeginCleanup);
    RunAppend(s, job, [BeginCleanup], Deletes(|job.chunks|));
    DeletesEffect(Run(s, job, [BeginCleanup]), job, |job.chunks|);
    assert job.chunks[..|job.chunks|] == job.chunks;
  }

  lemma CleanupTrace(s: State, job: Job)
    requires s.phase == Merging(|job.chunks|)
    ensures
      var files := s.disk.files - Paths(job.chunks);
      var events := [BeginCleanup] + Deletes(|job.chunks|);
      Run(s, job, events + [Crash]).phase == Idle && Run(s, job, events + [Crash]).disk == s.disk.(files := files)
    ensures
      Partial(job.output) in s.disk.files - Paths(job.chunks)
      <==> Partial(job.output) in s.disk.files && Partial(job.output) !in Paths(job.chunks)
  {
    hide Run, Paths, Partial;
    CleanupRuns(s, job);
    var events := [BeginCleanup] + Deletes(|job.chunks|);
    RunShort(Run(s, job, events), job, Crash, Crash);
    RunAppend(s, job, events, [Crash]);
  }

  lemma RenameTrace(s: State, job: Job)
    requires s.phase == Merging(|job.chunks|) && Partial(job.output) in s.disk.files - Paths(job.chunks)
    ensures
      var files, partial := s.disk.files - Paths(job.chunks), Partial(job.output);
      var events := [BeginCleanup] + Deletes(|job.chunks|);
      var renamed, cleared := Run(s, job, events + [Rename]), Run(s, job, events + [Rename, Clear]);
      && renamed.phase == Phase.Renamed && cleared.phase == Phase.Finished
      && renamed.disk == s.disk.(files := files[job.output := files[partial]] - {partial})
      && cleared.disk == renamed.disk.(checkpoints := s.disk.checkpoints - {job.output})
      && renamed.disk == AfterRename(s.disk, job, false) && cleared.disk == AfterRename(s.disk, job, true)
    ensures
      var events := [BeginCleanup] + Deletes(|job.chunks|);
      CrashFree(events + [Rename]) && CrashFree(events + [Rename, Clear])
  {
    hide Run, Paths, Partial;
    CleanupRuns(s, job);
    var events := [BeginCleanup] + Deletes(|job.chunks|);
    RunShort(Run(s, job, events), job, Rename, Clear);
    RunAppend(s, job, events, [Rename, Clear]);
    RunAppend(s, job, events, [Rename]);
  }

  lemma SameDeleted(d0: Disk, looped: Disk, job: Job, loop: nat -> Trouble)
    requires Separate(job) && LoopEffect(d0, looped, job, loop, StartPosition(d0, job), |job.chunks|)
    ensures Paths(job.chunks) * looped.files.Keys == Paths(job.chunks) * d0.files.Keys
  {
    assert Partial(job.output) !in Paths(job.chunks);
    hide Blocks, Concat, Partial, Unstopped, LastSaved, StartPosition;
  }

  lemma RenamedIs(d0: Disk, looped: Disk, after: Disk, job: Job, weather: Weather, result: Result)
    requires Separate(job) && LoopEffect(d0, looped, job, weather.loop, StartPosition(d0, job), |job.chunks|)
    requires after == AfterRename(looped, job, weather.clears)
    requires result.Done? && result.output == job.output && result.merged + result.skipped == |job.chunks|
    requires result.merged == CountMerged(Blocks(d0.files, job), StartPosition(d0, job))
    requires result.deleted == |Paths(job.chunks) * d0.files.Keys|
    ensures Merged(d0, after, job, weather, result)
  {
    RenamedFiles(d0, looped, after, job, weather);
    RenamedCheckpoint(d0, looped, after, job, weather);
    MergedRest(d0, job);
    hide AfterRename, LoopEffect, MergedDisk, Blocks, Paths, CountMerged, LastSaved, StartPosition, Checkpointed;
    hide Separate;
  }

  lemma RenamedCheckpoint(d0: Disk, looped: Disk, after: Disk, job: Job, weather: Weather)
    requires LoopEffect(d0, looped, job, weather.loop, StartPosition(d0, job), |job.chunks|)
    requires after == AfterRename(looped, job, weather.clears)
    ensures
      var saved := LastSaved(Blocks(d0.files, job), job, weather.loop, StartPosition(d0, job), |job.chunks|);
      && after.dirs == d0.dirs
      && after.checkpoints ==
         if weather.clears then d0.checkpoints - {job.output} else Checkpointed(d0.checkpoints, job.output, saved)
  {
    var saved := LastSaved(Blocks(d0.files, job), job, weather.loop, StartPosition(d0, job), |job.chunks|);
    RenamedRest(looped, job, weather.clears);
    LoopRest(d0, looped, job, weather.loop);
    CheckpointGone(d0.checkpoints, job.output, saved);
    hide AfterRename, LoopEffect, Blocks, LastSaved, StartPosition, Checkpointed;
  }

  lemma RenamedRest(disk: Disk, job: Job, cleared: bool)
    ensures
      var after := AfterRename(disk, job, cleared);
      && after.dirs == disk.dirs
      && after.checkpoints == if cleared then disk.checkpoints - {job.output} else disk.checkpoints
  {
    hide Content, Partial, Paths;
  }

  lemma LoopRest(d0: Disk, looped: Disk, job: Job, loop: nat -> Trouble)
    requires LoopEffect(d0, looped, job, loop, StartPosition(d0, job), |job.chunks|)
    ensures
      && looped.dirs == d0.dirs && |Blocks(d0.files, job)| == |job.chunks|
      && looped.checkpoints ==
         Checkpointed(d0.checkpoints, job.output,
                      LastSaved(Blocks(d0.files, job), job, loop, StartPosition(d0, job), |job.chunks|))
  {
    hide Concat, Partial, StartPosition, Unstopped, LastSaved, Checkpointed, Grown;
  }

  lemma MergedRest(disk: Disk, job: Job)
    ensures MergedDisk(disk, job).dirs == disk.dirs
    ensures MergedDisk(disk, job).checkpoints == disk.checkpoints - {job.output}
  {
    hide Content, Partial, Paths, Concat, Blocks;
  }

  lemma RenamedFiles(d0: Disk, looped: Disk, after: Disk, job: Job, weather: Weather)
    requires Separate(job) && LoopEffect(d0, looped, job, weather.loop, StartPosition(d0, job), |job.chunks|)
    requires after == AfterRename(looped, job, weather.clears)
    ensures after.files == MergedDisk(d0, job).files
  {
    var partial, b, r := Partial(job.output), Blocks(d0.files, job), StartPosition(d0, job);
    assert b[r..|b|] == b[r..];
    assert partial !in Paths(job.chunks);
    hide Separate, Blocks, Concat, Partial, Paths, StopsAt, LastSaved, StartPosition;
    RenameMap(d0.files, Paths(job.chunks), partial, job.output, Content(d0.files, partial) + Concat(b[r..]));
  }

  lemma CheckpointGone(checkpoints: map<Path, int>, output: Path, saved: Option<int>)
    ensures Checkpointed(checkpoints, output, saved) - {output} == checkpoints - {output}
  {
  }

  lemma RenameMap(files: Files, gone: set<Path>, partial: Path, output: Path, merged: Bytes)
    ensures (files[partial := merged] - gone)[output := merged] - {partial} ==
      (files - gone)[output := merged] - {partial}
  {
  }

  lemma SubtractNothing(files: Files)
    ensures files - {} == files
  {
  }

  lemma NoPaths()
    ensures Paths([]) == {}
  {
  }

  lemma SubtractTwice(files: Files, gone: set<Path>, more: set<Path>)
    ensures files - (gone + more) == (files - gone) - more
  {
  }

  lemma SubtractAbsent(files: Files, p: Path)
    requires p !in files
    ensures files - {p} == files
  {
  }

  lemma RemoveOne(files: Files, gone: set<Path>, p: Path)
    ensures files - (gone + {p}) == (files - gone) - {p}
    ensures p !in files - gone ==> files - (gone + {p}) == files - gone
    ensures |(gone + {p}) * files.Keys| == |gone * files.Keys| + if p in files - gone then 1 else 0
  {
    CountOne(files.Keys, gone, p);
    SubtractTwice(files, gone, {p});
    if p !in files - gone { SubtractAbsent(files - gone, p); }
  }

  lemma CountOne(keys: set<Path>, gone: set<Path>, p: Path)
    ensures |(gone + {p}) * keys| == |gone * keys| + if p in keys && p !in gone then 1 else 0
  {
    if p in keys && p !in gone {
      assert (gone + {p}) * keys == gone * keys + {p};
    } else {
      assert (gone + {p}) * keys == gone * keys;
    }
  }

  lemma PathsGrow(chunks: seq<ChunkInfo>, i: nat)
    requires i < |chunks|
    ensures Paths(chunks[..i + 1]) == Paths(chunks[..i]) + {chunks[i].path}
  {
    assert chunks[..i + 1] == chunks[..i] + [chunks[i]];
    forall p ensures p in Paths(chunks[..i + 1]) <==> p in Paths(chunks[..i]) + {chunks[i].path} {
      if p in Paths(chunks[..i]) {
        var c :| c in chunks[..i] && c.path == p;
        assert c in chunks[..i + 1];
      }
      if p == chunks[i].path { assert chunks[i] in chunks[..i + 1]; }
      if p in Paths(chunks[..i + 1]) {
        var c :| c in chunks[..i + 1] && c.path == p;
        assert c in chunks[..i] || c == chunks[i];
      }
    }
  }

  /** A checkpoint that was not removed makes the next merge into that output skip the
      positions it covers: harmless exactly when no chunk there has bytes. */
  lemma LeftoverCheckpointIff(disk: Disk, job: Job)
    requires Partial(job.output) !in disk.files
    ensures
      var b := Blocks(disk.files, job);
      Content(MergedDisk(disk, job).files, job.output) == Concat(b)
      <==> forall q | 0 <= q < StartPosition(disk, job) :: b[q] == []
  {
    PartialIsAnother(job.output);
    var b, r := Blocks(disk.files, job), StartPosition(disk, job);
    assert [] + Concat(b[r..]) == Concat(b[r..]);
    assert b[..r] + b[r..] == b && b[0..] == b;
    hide Blocks, Partial, Paths;
    if forall q | 0 <= q < r :: b[q] == [] {
      ConcatAppend(b[..r], b[r..]);
      ConcatEmpty(b[..r]);
    } else {
      var q :| 0 <= q < r && b[q] != [];
      TailLonger(b, 0, r, q);
    }
  }
}
