/** The tree variant of the merge in internal/dataset/merge.go: passes of at most 64
    chunks into intermediate files, then a merge of the intermediates.
 */
module TreeMerge {
  import opened Sorting
  import Decimal
  import opened MergeModel
  import opened Options
  import opened MergeCrash
  import opened StreamMerge

  const MAX_CHUNKS_PER_PASS := 64
  const CHUNK_COUNT_THRESHOLD := 200
  const DATASET_SIZE_THRESHOLD := 50 * 1024 * 1024 * 1024

  function TotalSize(chunks: seq<ChunkInfo>): int {
    if chunks == [] then 0 else TotalSize(chunks[..|chunks| - 1]) + chunks[|chunks| - 1].sizeBytes
  }

  lemma {:induction false} TotalSizeAdds(a: seq<ChunkInfo>, b: seq<ChunkInfo>, c: ChunkInfo)
    ensures TotalSize([c]) == c.sizeBytes && TotalSize(a + b) == TotalSize(a) + TotalSize(b)
  {
    assert [c][..0] == [];
    if b == [] {
      assert a + b == a;
    } else {
      TotalSizeAdds(a, b[..|b| - 1], c);
      assert (a + b)[..|a + b| - 1] == a + b[..|b| - 1];
    }
  }

  /** The sum the code takes over the active chunks. */
  method MeasureSize(active: seq<ChunkInfo>) returns (total: int)
    ensures total == TotalSize(active)
  {
    total := 0;
    for i := 0 to |active|
      invariant total == TotalSize(active[..i])
    {
      total := total + active[i].sizeBytes;
      assert active[..i + 1][..i] == active[..i];
    }
    assert active[..|active|] == active;
  }

  predicate ShouldUseTreeMerge(active: seq<ChunkInfo>, totalSize: int) {
    |active| > CHUNK_COUNT_THRESHOLD || totalSize > DATASET_SIZE_THRESHOLD
  }

  // ---- The plan --------------------------------------------------------------------

  function StageCount(cs: seq<ChunkInfo>): nat {
    (|cs| + MAX_CHUNKS_PER_PASS - 1) / MAX_CHUNKS_PER_PASS
  }

  /** How many chunks the first k passes take. */
  function Taken(cs: seq<ChunkInfo>, k: nat): (n: nat)
    ensures n <= |cs|
  {
    if MAX_CHUNKS_PER_PASS * k <= |cs| then MAX_CHUNKS_PER_PASS * k else |cs|
  }

  function Stage(cs: seq<ChunkInfo>, k: nat): seq<ChunkInfo> {
    cs[Taken(cs, k)..Taken(cs, k + 1)]
  }

  /** The chunk at position q goes into pass q / 64; the passes are never empty and
      only the last may be short. */
  lemma StageShape(cs: seq<ChunkInfo>, q: nat)
    requires q < |cs|
    ensures
      var k, j := q / 64, q % 64;
      && k < StageCount(cs) && 1 <= |Stage(cs, k)| <= 64
      && j < |Stage(cs, k)| && Stage(cs, k)[j] == cs[q]
      && (|Stage(cs, k)| < 64 ==> k == StageCount(cs) - 1)
  {
  }

  lemma TakenAll(cs: seq<ChunkInfo>)
    ensures Taken(cs, StageCount(cs)) == |cs|
    ensures forall k: nat | k < StageCount(cs) :: Taken(cs, k) < Taken(cs, k + 1)
  {
  }

  /** planTreeMerge's loop before chunk i, c passes planned. */
  predicate Planned(cs: seq<ChunkInfo>, c: nat, i: nat) {
    if i == |cs| then c == StageCount(cs) else MAX_CHUNKS_PER_PASS * c <= i < MAX_CHUNKS_PER_PASS * (c + 1)
  }

  lemma PlanStep(cs: seq<ChunkInfo>, c: nat, i: nat)
    requires i < |cs| && Planned(cs, c, i)
    ensures MAX_CHUNKS_PER_PASS * c <= i
    ensures cs[MAX_CHUNKS_PER_PASS * c..i] + [cs[i]] == cs[MAX_CHUNKS_PER_PASS * c..i + 1]
    ensures
      if i + 1 - MAX_CHUNKS_PER_PASS * c >= MAX_CHUNKS_PER_PASS || i == |cs| - 1 then
        && Stage(cs, c) == cs[MAX_CHUNKS_PER_PASS * c..i + 1] && Planned(cs, c + 1, i + 1)
        && (i + 1 < |cs| ==> MAX_CHUNKS_PER_PASS * (c + 1) == i + 1)
      else Planned(cs, c, i + 1)
  {
  }

  /** planTreeMerge */
  method PlanTreeMerge(chunks: seq<ChunkInfo>) returns (stages: seq<seq<ChunkInfo>>)
    ensures |stages| == StageCount(InOrder(chunks))
    ensures forall k | 0 <= k < |stages| :: stages[k] == Stage(InOrder(chunks), k)
  {
    var active := FilterActive(chunks);
    active := SortBy(IndexOf(), active);
    stages := CutStages(active);
  }

  method CutStages(active: seq<ChunkInfo>) returns (stages: seq<seq<ChunkInfo>>)
    ensures |stages| == StageCount(active)
    ensures forall k | 0 <= k < |stages| :: stages[k] == Stage(active, k)
  {
    assert Planned(active, 0, 0);
    stages := [];
    var current := [];
    for i := 0 to |active|
      invariant Planned(active, |stages|, i)
      invariant i < |active| ==>
        MAX_CHUNKS_PER_PASS * |stages| <= i && current == active[MAX_CHUNKS_PER_PASS * |stages|..i]
      invariant forall k | 0 <= k < |stages| :: stages[k] == Stage(active, k)
    {
      hide Stage, StageCount, Planned;
      PlanStep(active, |stages|, i);
      current := current + [active[i]];
      if |current| >= MAX_CHUNKS_PER_PASS || i == |active| - 1 {
        stages := stages + [current];
        current := [];
      }
    }
  }

  // ---- The passes --------------------------------------------------------------------

  function StageName(id: string, k: nat): string {
    "stage_" + Decimal.Format(k) + ("_" + id + ".partial")
  }

  function OutputDir(config: MergeConfig): Path {
    Dir(OutputPath(config))
  }

  function StageOutput(config: MergeConfig, k: nat): Path {
    Child(OutputDir(config), StageName(config.datasetID, k))
  }

  function StageConfig(config: MergeConfig, k: nat, chunks: seq<ChunkInfo>): MergeConfig {
    var suffix := "_stage_" + Decimal.Format(k);
    var slug := if config.datasetSlug != "" then config.datasetSlug else config.datasetID;
    config.(
      datasetID := config.datasetID + suffix,
      datasetSlug := slug + suffix,
      deviceOutput := Some(DeviceOutput(OutputDir(config), [Base(StageOutput(config, k))])),
      chunks := chunks)
  }

  function StageJob(config: MergeConfig, k: nat): Job {
    Job(Stage(InOrder(config.chunks), k), config.strategy, config.mountPath, StageOutput(config, k))
  }

  function Intermediate(files: Files, config: MergeConfig, k: nat): ChunkInfo {
    var path := StageOutput(config, k);
    ChunkInfo("intermediate_" + Decimal.Format(k), path, k, |Content(files, path)|, false)
  }

  function FinalConfig(files: Files, config: MergeConfig, m: nat): MergeConfig {
    config.(chunks := seq(m, k requires 0 <= k < m => Intermediate(files, config, k)), mountPath := OutputDir(config))
  }

  function FinalJob(files: Files, config: MergeConfig): Job {
    var m := StageCount(InOrder(config.chunks));
    Job(FinalConfig(files, config, m).chunks, config.strategy, OutputDir(config), OutputPath(config))
  }

  /** The disk once the first k passes are merged. */
  function StagesDone(disk: Disk, config: MergeConfig, k: nat): Disk {
    if k == 0 then disk else MergedDisk(StagesDone(disk, config, k - 1), StageJob(config, k - 1))
  }

  function Renamed(files: Files, from: Path, to: Path): Files {
    if from == to || from !in files then files else files[to := files[from]] - {from}
  }

  function FirstOutputs(config: MergeConfig, k: nat): set<Path> {
    set i: nat | i < k :: StageOutput(config, i)
  }

  function StageOutputs(config: MergeConfig): set<Path> {
    FirstOutputs(config, StageCount(InOrder(config.chunks)))
  }

  /** The disk StreamMergeTree leaves. */
  function TreeDisk(disk: Disk, config: MergeConfig): Disk {
    var m := StageCount(InOrder(config.chunks));
    var staged := StagesDone(disk, config, m);
    var merged := if m == 1 then staged else MergedDisk(staged, FinalJob(staged.files, config));
    var last := if m == 1 then StageOutput(config, 0) else OutputPath(config);
    merged.(files := Renamed(merged.files, last, OutputPath(config)) - StageOutputs(config))
  }

  lemma {:induction false} SortedAlready(cs: seq<ChunkInfo>)
    requires Ascending(IndexOf(), cs) && forall c | c in cs :: !c.isSkipped
    ensures InOrder(cs) == cs
  {
    ActiveAlready(cs);
    SortOfSorted(cs);
  }

  lemma {:induction false} ActiveAlready(cs: seq<ChunkInfo>)
    requires forall c | c in cs :: !c.isSkipped
    ensures Active(cs) == cs
  {
    if cs != [] {
      assert cs[0] in cs;
      ActiveAlready(cs[1..]);
    }
  }

  lemma {:induction false} SortOfSorted(cs: seq<ChunkInfo>)
    requires Ascending(IndexOf(), cs)
    ensures SortBy(IndexOf(), cs) == cs
  {
    if cs != [] {
      SortOfSorted(cs[1..]);
      assert Sorting.Position(IndexOf(), cs[0], cs[1..], 0) == 0;
      assert cs == [cs[0]] + cs[1..];
    }
  }

  lemma InOrderFacts(chunks: seq<ChunkInfo>)
    ensures Ascending(IndexOf(), InOrder(chunks))
    ensures forall c | c in InOrder(chunks) :: !c.isSkipped
  {
    forall c | c in InOrder(chunks) ensures !c.isSkipped {
      SameElements(InOrder(chunks), Active(chunks));
      ActiveMembers(chunks, c);
    }
  }

  lemma StageInOrder(chunks: seq<ChunkInfo>, k: nat)
    ensures InOrder(Stage(InOrder(chunks), k)) == Stage(InOrder(chunks), k)
  {
    hide InOrder;
    InOrderFacts(chunks);
    SortedAlready(Stage(InOrder(chunks), k));
  }

  lemma StageJobIs(config: MergeConfig, k: nat)
    ensures JobOf(StageConfig(config, k, Stage(InOrder(config.chunks), k))) == StageJob(config, k)
  {
    StageInOrder(config.chunks, k);
    var dir := OutputDir(config);
    hide InOrder, Stage, OutputDir, StageName;
    assert dir.parts + [Base(StageOutput(config, k))] == StageOutput(config, k).parts;
  }

  lemma FinalJobIs(files: Files, config: MergeConfig)
    ensures JobOf(FinalConfig(files, config, StageCount(InOrder(config.chunks)))) == FinalJob(files, config)
  {
    hide InOrder, OutputDir, StageOutput;
    SortedAlready(FinalJob(files, config).chunks);
  }

  // ---- StreamMergeTree -----------------------------------------------------------------

  /** No merge of the tree reads or deletes at its own partial file. */
  ghost predicate TreeSeparate(config: MergeConfig) {
    && (forall k: nat | k < StageCount(InOrder(config.chunks)) :: Separate(StageJob(config, k)))
    && (forall files :: Separate(FinalJob(files, config)))
  }

  /** Nothing befalls any merge of the tree; weather(k) is pass k's, and the final
      merge's comes last. */
  ghost predicate TreeSmooth(disk: Disk, config: MergeConfig, weather: nat -> Weather) {
    var m := StageCount(InOrder(config.chunks));
    && Accepted(config)
    && (forall k: nat | k < m :: Smooth(disk, StageJob(config, k), weather(k)))
    && (forall files :: Smooth(disk, FinalJob(files, config), weather(m)))
  }

  lemma SmoothByDirs(d: Disk, e: Disk, job: Job, weather: Weather)
    requires Smooth(d, job, weather) && e.dirs == d.dirs
    ensures Smooth(e, job, weather)
  {
  }

  lemma StageSettings(config: MergeConfig, k: nat)
    ensures
      var stage := StageConfig(config, k, Stage(InOrder(config.chunks), k));
      stage.datasetID != "" && stage.agentID == config.agentID
  {
  }

  lemma FirstOutputsGrow(config: MergeConfig, k: nat)
    ensures FirstOutputs(config, 0) == {}
    ensures FirstOutputs(config, k + 1) == FirstOutputs(config, k) + {StageOutput(config, k)}
  {
  }

  lemma StagesDoneDirs(disk: Disk, config: MergeConfig, k: nat)
    ensures StagesDone(disk, config, k).dirs == disk.dirs
  {
  }

  lemma MergedHasOutput(disk: Disk, job: Job)
    ensures job.output in MergedDisk(disk, job).files
  {
    PartialIsAnother(job.output);
    hide Partial, Blocks, Paths, Concat, Content;
  }

  lemma OneStageHasOutput(disk: Disk, config: MergeConfig)
    ensures StageOutput(config, 0) in StagesDone(disk, config, 1).files
  {
    hide InOrder, StageOutput, MergedDisk, Stage;
    assert StagesDone(disk, config, 0) == disk;
    MergedHasOutput(disk, StageJob(config, 0));
  }

  /** Every checkpoint can be removed. */
  ghost predicate TreeClears(config: MergeConfig, weather: nat -> Weather) {
    forall k: nat | k <= StageCount(InOrder(config.chunks)) :: weather(k).clears
  }

  /** The merge after the first k passes: pass k, or the final one. */
  function TreeJob(disk: Disk, config: MergeConfig, k: nat): Job {
    if k < StageCount(InOrder(config.chunks)) then StageJob(config, k)
    else FinalJob(StagesDone(disk, config, k).files, config)
  }

  /** The tree ended in the merge after the first `at` passes, which are done. */
  ghost predicate StoppedIn(before: Disk, after: Disk, config: MergeConfig, at: nat, events: seq<Event>) {
    && at <= StageCount(InOrder(config.chunks))
    && var job := TreeJob(before, config, at);
       after == MergeCrash.Run(Initial(StagesDone(before, config, at), job), job, events).disk
  }

  /** Pass k is run and ends well. */
  ghost predicate PassGetsThrough(
      disk: Disk, config: MergeConfig, weather: nat -> Weather, cancelled: set<nat>, k: nat)
  {
    && k !in cancelled && config.agentID != ""
    && GetsThrough(StagesDone(disk, config, k), StageJob(config, k), weather(k))
  }

  ghost predicate PassesGetThrough(
      disk: Disk, config: MergeConfig, weather: nat -> Weather, cancelled: set<nat>, n: nat)
  {
    forall k: nat | k < n :: PassGetsThrough(disk, config, weather, cancelled, k)
  }

  /** Why pass k failed, and what it left of the disk of the passes before it. */
  ghost predicate PassFailed(
      disk: Disk, after: Disk, config: MergeConfig, weather: nat -> Weather, cancelled: set<nat>, k: nat, error: Error)
  {
    var before := StagesDone(disk, config, k);
    if k in cancelled then error == Cancelled && after == before
    else if config.agentID == "" then error == AgentIDRequired && after == before
    else Broken(before, after, StageJob(config, k), weather(k), error)
  }

  /** What follows the m passes goes well: the final merge, or the rename of the only
      intermediate. */
  ghost predicate EndGetsThrough(disk: Disk, config: MergeConfig, weather: nat -> Weather, m: nat) {
    var staged := StagesDone(disk, config, m);
    if m > 1 then Accepted(config) && GetsThrough(staged, FinalJob(staged.files, config), weather(m))
    else StageOutput(config, 0) == OutputPath(config) || weather(m).renames
  }

  ghost predicate EndFailed(
      disk: Disk, after: Disk, config: MergeConfig, weather: nat -> Weather, m: nat, error: Error)
  {
    var staged := StagesDone(disk, config, m);
    if m <= 1 then error == RenameFailed && after == staged
    else if config.datasetID == "" then error == DatasetIDRequired && after == staged
    else Broken(staged, after, FinalJob(staged.files, config), weather(m), error)
  }

  lemma StoppedAtOnce(before: Disk, config: MergeConfig, at: nat)
    requires at <= StageCount(InOrder(config.chunks))
    ensures StoppedIn(before, StagesDone(before, config, at), config, at, [])
  {
  }

  /** One pass. */
  method MergePass(merger: Merger, config: MergeConfig, k: nat, chunks: seq<ChunkInfo>, weather: Weather)
    returns (failed: Option<Error>, ghost events: seq<Event>)
    requires chunks == Stage(InOrder(config.chunks), k)
    modifies merger
    ensures failed.None? && weather.clears && Separate(StageJob(config, k)) ==>
      merger.disk == MergedDisk(old(merger.disk), StageJob(config, k))
    ensures failed.Some? ==>
      var before, job := old(merger.disk), StageJob(config, k);
      || (merger.disk == before && events == [])
      || merger.disk == MergeCrash.Run(Initial(before, job), job, events).disk
    ensures
      var before, job := old(merger.disk), StageJob(config, k);
      Separate(job) ==>
        match failed
        case None => config.agentID != "" && GetsThrough(before, job, weather)
        case Some(error) =>
          if config.agentID == "" then error == AgentIDRequired && merger.disk == before
          else !GetsThrough(before, job, weather) && Broken(before, merger.disk, job, weather, error)
  {
    hide InOrder, Stage, StageConfig, StageJob, Separate, Smooth, MergedDisk, JobOf, Run, GetsThrough, Broken;
    StageJobIs(config, k);
    StageSettings(config, k);
    ghost var before := merger.disk;
    var result;
    result, events := merger.StreamMerge(StageConfig(config, k, chunks), weather);
    if result.Failed? {
      if merger.disk == before { events := []; }
      return Some(result.error), events;
    }
    failed := None;
  }

  /** Runs the passes one after another; the context is done before those in `cancelled`. */
  method MergeStages(
      merger: Merger, config: MergeConfig, stages: seq<seq<ChunkInfo>>, weather: nat -> Weather, cancelled: set<nat>)
    returns (failed: Option<Error>, ghost at: nat, ghost events: seq<Event>)
    requires |stages| == StageCount(InOrder(config.chunks))
    requires forall k | 0 <= k < |stages| :: stages[k] == Stage(InOrder(config.chunks), k)
    modifies merger
    ensures failed.None? && TreeSeparate(config) && TreeClears(config, weather) ==>
      merger.disk == StagesDone(old(merger.disk), config, |stages|)
    ensures failed.Some? && TreeSeparate(config) && TreeClears(config, weather) ==>
      at < |stages| && StoppedIn(old(merger.disk), merger.disk, config, at, events)
    ensures TreeSeparate(config) && TreeClears(config, weather) ==>
      match failed
      case None => PassesGetThrough(old(merger.disk), config, weather, cancelled, |stages|)
      case Some(error) =>
        && at < |stages| && PassesGetThrough(old(merger.disk), config, weather, cancelled, at)
        && !PassGetsThrough(old(merger.disk), config, weather, cancelled, at)
        && PassFailed(old(merger.disk), merger.disk, config, weather, cancelled, at, error)
  {
    hide InOrder, StageCount, Stage, StageJob, FinalJob, Separate, MergedDisk, Run, StagesDone, StoppedIn, GetsThrough,
         Broken;
    ghost var d0 := merger.disk;
    at, events := 0, [];
    NoStagesDone(d0, config);
    for k := 0 to |stages|
      invariant TreeSeparate(config) && TreeClears(config, weather) ==>
        merger.disk == StagesDone(d0, config, k) && PassesGetThrough(d0, config, weather, cancelled, k)
    {
      at := k;
      if k in cancelled {
        StoppedAtOnce(d0, config, k);
        return Some(Cancelled), k, [];
      }
      OneMorePass(d0, config, k);
      ghost var before := merger.disk;
      failed, events := MergePass(merger, config, k, stages[k], weather(k));
      if failed.Some? {
        StoppedInPass(d0, before, merger.disk, config, k, events);
        return failed, k, events;
      }
    }
    failed := None;
  }

  lemma NoStagesDone(disk: Disk, config: MergeConfig)
    ensures StagesDone(disk, config, 0) == disk
  {
  }

  lemma OneMorePass(disk: Disk, config: MergeConfig, k: nat)
    ensures StagesDone(disk, config, k + 1) == MergedDisk(StagesDone(disk, config, k), StageJob(config, k))
  {
  }

  lemma StoppedInPass(d0: Disk, before: Disk, after: Disk, config: MergeConfig, k: nat, events: seq<Event>)
    requires k < StageCount(InOrder(config.chunks))
    requires
      var job := StageJob(config, k);
      (after == before && events == []) || after == MergeCrash.Run(Initial(before, job), job, events).disk
    ensures before == StagesDone(d0, config, k) ==> StoppedIn(d0, after, config, k, events)
  {
  }

  method RemoveIntermediates(merger: Merger, config: MergeConfig, m: nat)
    requires m == StageCount(InOrder(config.chunks))
    modifies merger
    ensures merger.disk == old(merger.disk).(files := old(merger.disk.files) - StageOutputs(config))
  {
    hide StageOutput, InOrder, StageCount, FirstOutputs;
    FirstOutputsGrow(config, 0);
    SubtractNothing(merger.disk.files);
    for k := 0 to m
      invariant merger.disk == old(merger.disk).(files := old(merger.disk.files) - FirstOutputs(config, k))
    {
      FirstOutputsGrow(config, k);
      SubtractTwice(old(merger.disk.files), FirstOutputs(config, k), {StageOutput(config, k)});
      merger.disk := merger.disk.(files := merger.disk.files - {StageOutput(config, k)});
    }
  }

  /** The merge of the intermediates. */
  method MergeIntermediates(merger: Merger, config: MergeConfig, m: nat, weather: Weather, ghost d0: Disk)
    returns (failed: Option<Error>, ghost events: seq<Event>)
    requires m == StageCount(InOrder(config.chunks))
    modifies merger
    ensures failed.None? && weather.clears && Separate(FinalJob(old(merger.disk.files), config)) ==>
      merger.disk == MergedDisk(old(merger.disk), FinalJob(old(merger.disk.files), config))
    ensures failed.Some? && old(merger.disk) == StagesDone(d0, config, m) ==>
      StoppedIn(d0, merger.disk, config, m, events)
    ensures
      var before := old(merger.disk);
      var job := FinalJob(before.files, config);
      config.agentID != "" && Separate(job) ==>
        match failed
        case None => config.datasetID != "" && GetsThrough(before, job, weather)
        case Some(error) =>
          if config.datasetID == "" then error == DatasetIDRequired && merger.disk == before
          else !GetsThrough(before, job, weather) && Broken(before, merger.disk, job, weather, error)
  {
    hide InOrder, StageCount, FinalConfig, FinalJob, Separate, Smooth, MergedDisk, JobOf, Run, StagesDone, StoppedIn,
         GetsThrough, Broken;
    FinalJobIs(merger.disk.files, config);
    FinalSettings(merger.disk.files, config, m);
    ghost var before := merger.disk;
    var result;
    result, events := merger.StreamMerge(FinalConfig(merger.disk.files, config, m), weather);
    if result.Failed? {
      if merger.disk == before { events := []; }
      StoppedInFinal(d0, before, merger.disk, config, m, events);
      return Some(result.error), events;
    }
    failed := None;
  }

  lemma StoppedInFinal(d0: Disk, before: Disk, after: Disk, config: MergeConfig, m: nat, events: seq<Event>)
    requires m == StageCount(InOrder(config.chunks))
    requires
      var job := FinalJob(before.files, config);
      (after == before && events == []) || after == MergeCrash.Run(Initial(before, job), job, events).disk
    ensures before == StagesDone(d0, config, m) ==> StoppedIn(d0, after, config, m, events)
  {
  }

  lemma PassesNeedAgent(disk: Disk, config: MergeConfig, weather: nat -> Weather, cancelled: set<nat>, n: nat)
    requires n > 0
    ensures PassesGetThrough(disk, config, weather, cancelled, n) ==> config.agentID != ""
  {
    if PassesGetThrough(disk, config, weather, cancelled, n) {
      assert PassGetsThrough(disk, config, weather, cancelled, 0);
    }
  }

  /** It succeeds exactly when every pass and what follows get through; otherwise it stops in
      the first that does not. */
  ghost predicate TreeOutcome(
      before: Disk, after: Disk, config: MergeConfig, weather: nat -> Weather, cancelled: set<nat>, result: Result,
      at: nat)
  {
    var m := StageCount(InOrder(config.chunks));
    match result
    case Done(_, _, _, _) =>
      PassesGetThrough(before, config, weather, cancelled, m) && EndGetsThrough(before, config, weather, m)
    case Failed(error) =>
      && at <= m && PassesGetThrough(before, config, weather, cancelled, at)
      && if at < m then
           !PassGetsThrough(before, config, weather, cancelled, at)
           && PassFailed(before, after, config, weather, cancelled, at, error)
         else !EndGetsThrough(before, config, weather, m) && EndFailed(before, after, config, weather, m, error)
  }

  /** The tree itself, once chosen; then there is a chunk, and the code's check for an
      empty plan cannot fire. With a single pass weather(1) is that of the last
      rename. On failure the first `at` passes are done and the next merge has got as
      far as `events`. */
  method MergeTree(merger: Merger, config: MergeConfig, weather: nat -> Weather, cancelled: set<nat>)
    returns (result: Result, ghost at: nat, ghost events: seq<Event>)
    requires StageCount(InOrder(config.chunks)) > 0
    modifies merger
    ensures result.Done? && TreeSeparate(config) && TreeClears(config, weather) ==>
      merger.disk == TreeDisk(old(merger.disk), config) && result.output == OutputPath(config)
      && result.merged == |Active(config.chunks)|
    ensures result.Failed? && TreeSeparate(config) && TreeClears(config, weather) ==>
      StoppedIn(old(merger.disk), merger.disk, config, at, events)
    ensures TreeSeparate(config) && TreeClears(config, weather) ==>
      TreeOutcome(old(merger.disk), merger.disk, config, weather, cancelled, result, at)
  {
    hide InOrder, StageCount, Stage, FinalConfig, StageOutput, StageJob, StageOutputs, FinalJob, Separate,
         MergedDisk, JobOf, Run, OutputPath, StagesDone, StoppedIn, Smooth, GetsThrough, Broken, PassGetsThrough,
         PassFailed;
    ghost var d0 := merger.disk;
    var stages := PlanTreeMerge(config.chunks);
    var m := |stages|;
    var failed;
    failed, at, events := MergeStages(merger, config, stages, weather, cancelled);
    if failed.Some? { return Failed(failed.value), at, events; }

    var output, last := OutputPath(config), StageOutput(config, 0);
    StoppedAtOnce(d0, config, m);
    StagesDoneDirs(d0, config, m);
    PassesNeedAgent(d0, config, weather, cancelled, m);
    if m > 1 {
      last := output;
      failed, events := MergeIntermediates(merger, config, m, weather(m), d0);
      if failed.Some? { return Failed(failed.value), m, events; }
    } else {
      OneStageHasOutput(d0, config);
    }
    if last != output {
      if !weather(m).renames || last !in merger.disk.files { return Failed(RenameFailed), m, []; }
      merger.disk := merger.disk.(files := merger.disk.files[output := merger.disk.files[last]] - {last});
    }
    RemoveIntermediates(merger, config, m);
    var active := FilterActive(config.chunks);
    return Done(output, |active|, 0, 0), m, [];
  }

  lemma SmoothTreeGetsThrough(
      disk: Disk, after: Disk, config: MergeConfig, weather: nat -> Weather, result: Result, at: nat)
    requires TreeSmooth(disk, config, weather) && TreeOutcome(disk, after, config, weather, {}, result, at)
    ensures result.Done?
  {
    hide StagesDone, StageJob, FinalJob, GetsThrough, Smooth, OutputPath, InOrder, StageCount, PassFailed, EndFailed;
    var m := StageCount(InOrder(config.chunks));
    if result.Failed? {
      StagesDoneDirs(disk, config, at);
      var staged := StagesDone(disk, config, at);
      if at < m {
        SmoothByDirs(disk, staged, StageJob(config, at), weather(at));
        SmoothGetsThrough(staged, StageJob(config, at), weather(at));
      } else {
        var final := FinalJob(staged.files, config);
        SmoothByDirs(disk, staged, final, weather(m));
        SmoothGetsThrough(staged, final, weather(m));
        SmoothRenames(staged, final, weather(m));
      }
    }
  }

  lemma SmoothRenames(disk: Disk, job: Job, weather: Weather)
    requires Smooth(disk, job, weather)
    ensures weather.renames
  {
  }

  lemma FinalSettings(files: Files, config: MergeConfig, m: nat)
    ensures
      FinalConfig(files, config, m).datasetID == config.datasetID
      && FinalConfig(files, config, m).agentID == config.agentID
  {
  }

  /** StreamMergeTree. The plain merge has weather(0); `cancelled` are the passes before which
      the context is done. */
  method StreamMergeTree(merger: Merger, config: MergeConfig, weather: nat -> Weather, cancelled: set<nat>)
    returns (result: Result, ghost at: nat, ghost events: seq<Event>)
    modifies merger
    ensures UsesTree(config) && TreeSeparate(config) && TreeClears(config, weather) ==>
      if result.Done? then
        && merger.disk == TreeDisk(old(merger.disk), config) && result.output == OutputPath(config)
        && result.merged == |Active(config.chunks)|
      else StoppedIn(old(merger.disk), merger.disk, config, at, events)
    ensures UsesTree(config) && TreeSeparate(config) && TreeClears(config, weather) ==>
      && TreeOutcome(old(merger.disk), merger.disk, config, weather, cancelled, result, at)
      && (cancelled == {} && TreeSmooth(old(merger.disk), config, weather) ==> result.Done?)
    ensures !UsesTree(config) && Accepted(config) && Separate(JobOf(config)) ==>
      match result
      case Done(_, _, _, _) =>
        && GetsThrough(old(merger.disk), JobOf(config), weather(0))
        && Merged(old(merger.disk), merger.disk, JobOf(config), weather(0), result)
      case Failed(error) =>
        && !GetsThrough(old(merger.disk), JobOf(config), weather(0))
        && Broken(old(merger.disk), merger.disk, JobOf(config), weather(0), error)
  {
    hide TreeSeparate, TreeSmooth, TreeClears, Separate, TreeDisk, MergedDisk, OutputPath, Smooth, Run, InOrder, Merged,
         StoppedIn, TreeOutcome, GetsThrough, Broken, JobOf;
    ghost var d0 := merger.disk;
    var active := FilterActive(config.chunks);
    var totalSize := MeasureSize(active);
    if !ShouldUseTreeMerge(active, totalSize) {
      result, events := merger.StreamMerge(config, weather(0));
      return result, 0, events;
    }
    TreeHasChunks(config);
    result, at, events := MergeTree(merger, config, weather, cancelled);
    if cancelled == {} && TreeSeparate(config) && TreeClears(config, weather) && TreeSmooth(d0, config, weather) {
      SmoothTreeGetsThrough(d0, merger.disk, config, weather, result, at);
    }
  }

  /** More than 200 chunks to merge, or more than 50 GB. */
  predicate UsesTree(config: MergeConfig) {
    |Active(config.chunks)| > 200 || TotalSize(Active(config.chunks)) > 53_687_091_200
  }

  lemma TreeHasChunks(config: MergeConfig)
    requires UsesTree(config)
    ensures StageCount(InOrder(config.chunks)) >= 1
  {
    assert |InOrder(config.chunks)| == |Active(config.chunks)|;
    hide InOrder;
    assert TotalSize([]) == 0;
  }
}
