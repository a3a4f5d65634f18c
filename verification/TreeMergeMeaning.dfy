/** When StreamMergeTree leaves the output StreamMerge would: internal/dataset/merge.go,
    over every chunk list and every disk without leftovers.
 */
module TreeMergeMeaning {
  import opened Sorting
  import Decimal
  import opened MergeModel
  import opened Options
  import opened MergeCrash
  import opened StreamMerge
  import opened TreeMerge

  // ---- The names of intermediates ----------------------------------------------------

  function StagePartials(config: MergeConfig): set<Path> {
    set k: nat | k < StageCount(InOrder(config.chunks)) :: Partial(StageOutput(config, k))
  }

  /** The paths only the tree merge writes. */
  function TreeNames(config: MergeConfig): set<Path> {
    StageOutputs(config) + StagePartials(config)
  }

  lemma StageNamesDiffer(id: string, i: nat, j: nat)
    ensures StageName(id, i) == StageName(id, j) ==> i == j
    ensures StageName(id, i) != StageName(id, j) + ".partial"
  {
    var tail := "_" + id + ".partial";
    if StageName(id, i) == StageName(id, j) {
      Decimal.EmbeddedInjective("stage_", i, j, tail);
    }
    var s, t := StageName(id, i), StageName(id, j) + ".partial";
    if |s| == |t| {
      var at := 6 + |Decimal.Format(j)|;
      assert t[at] == '_';
      assert s[at] == Decimal.Format(i)[at - 6];
      assert s[at] in Decimal.Format(i);
    }
  }

  lemma OutputsDiffer(config: MergeConfig, i: nat, j: nat)
    ensures StageOutput(config, i) == StageOutput(config, j) ==> i == j
    ensures StageOutput(config, i) != Partial(StageOutput(config, j))
    ensures Partial(StageOutput(config, i)) == Partial(StageOutput(config, j)) ==> i == j
  {
    var id := config.datasetID;
    StageNamesDiffer(id, i, j);
    hide StageName, OutputDir;
    assert Base(StageOutput(config, i)) == StageName(id, i) && Base(StageOutput(config, j)) == StageName(id, j);
    assert Base(Partial(StageOutput(config, i))) == StageName(id, i) + ".partial";
    assert Base(Partial(StageOutput(config, j))) == StageName(id, j) + ".partial";
    assert StageName(id, i) + ".partial" == StageName(id, j) + ".partial" ==> StageName(id, i) == StageName(id, j) by {
      assert (StageName(id, i) + ".partial")[..|StageName(id, i)|] == StageName(id, i);
      assert (StageName(id, j) + ".partial")[..|StageName(id, j)|] == StageName(id, j);
    }
  }

  lemma NameIsTaken(config: MergeConfig, k: nat)
    requires k < StageCount(InOrder(config.chunks))
    ensures StageOutput(config, k) in TreeNames(config) && Partial(StageOutput(config, k)) in TreeNames(config)
    ensures StageOutput(config, k) in StageOutputs(config)
  {
  }

  /** Where the final merge looks for intermediate k: it is handed the path already
      joined to the output directory, and that directory as its mount. */
  function ReadPlace(config: MergeConfig, k: nat): Option<Path> {
    Resolve(config.strategy, OutputDir(config), StageOutput(config, k))
  }

  /** The final merge finds the intermediates where the passes put them. */
  predicate Readable(config: MergeConfig) {
    OutputDir(config).abs
    || (config.strategy != "affinity" && (config.strategy == "shared_mount" ==> OutputDir(config) == HERE))
  }

  lemma ReadableIff(config: MergeConfig, k: nat)
    ensures Readable(config) ==> ReadPlace(config, k) == Some(StageOutput(config, k))
    ensures !Readable(config) && ReadPlace(config, k).Some? ==> ReadPlace(config, k).value !in TreeNames(config)
  {
    var dir := OutputDir(config);
    hide OutputDir, StageName;
    if Readable(config) {
      assert [] + StageOutput(config, k).parts == StageOutput(config, k).parts;
    } else if ReadPlace(config, k).Some? {
      var place := ReadPlace(config, k).value;
      assert |place.parts| == 2 * |dir.parts| + 1 && |dir.parts| > 0;
      forall p | p in TreeNames(config) ensures |p.parts| == |dir.parts| + 1 {
        var i :| p == StageOutput(config, i) || p == Partial(StageOutput(config, i));
      }
    }
  }

  // ---- What the passes leave ------------------------------------------------------------

  predicate Avoids(job: Job, paths: set<Path>) {
    forall c | c in job.chunks ::
      c.path !in paths && (Source(job, c).Some? ==> Source(job, c).value !in paths)
  }

  /** No file of an earlier merge is in the way, and no chunk and not the output itself
      bears a name the tree merge uses. */
  ghost predicate ClearGround(disk: Disk, config: MergeConfig) {
    var job, names := JobOf(config), TreeNames(config);
    && Avoids(job, names + {Partial(job.output)})
    && job.output !in names && Partial(job.output) !in names
    && FreshDisk(disk, job)
    && (forall k: nat | k < StageCount(job.chunks) :: Untouched(disk, config, k))
  }

  predicate Untouched(disk: Disk, config: MergeConfig, k: nat) {
    && FreshDisk(disk, StageJob(config, k))
    && (ReadPlace(config, k).Some? && !Readable(config) ==> ReadPlace(config, k).value !in disk.files)
  }

  /** The output's file name is none of the names the tree merge makes up. */
  ghost predicate PlainName(config: MergeConfig) {
    var name := Base(OutputPath(config));
    forall k: nat | k < StageCount(InOrder(config.chunks)) ::
      var stage := StageName(config.datasetID, k);
      && name != stage && name != stage + ".partial"
      && name + ".partial" != stage && name + ".partial" != stage + ".partial"
  }

  /** What is enough for clear ground: an absolute output directory with no file and no
      checkpoint in it, chunks at absolute paths elsewhere, and an output with a plain name. */
  lemma OwnDirectorySuffices(disk: Disk, config: MergeConfig)
    requires OutputDir(config).abs && OutputPath(config).parts != [] && PlainName(config)
    requires forall p | p in disk.files.Keys + disk.checkpoints.Keys :: Dir(p) != OutputDir(config)
    requires forall c | c in InOrder(config.chunks) :: c.path.abs && Dir(c.path) != OutputDir(config)
    ensures ClearGround(disk, config)
  {
    var job, names, partial := JobOf(config), TreeNames(config), Partial(OutputPath(config));
    hide InOrder, OutputPath, StageName;
    forall p | p in names + {partial} ensures Dir(p) == OutputDir(config) {
      if p != partial { NamesAreInside(config, p); }
    }
    hide TreeNames;
    if job.output in names { MadeUpName(config, job.output); }
    if partial in names { MadeUpName(config, partial); }
    forall k: nat | k < StageCount(InOrder(config.chunks)) ensures Untouched(disk, config, k) {
      NameIsTaken(config, k);
    }
  }

  lemma NamesAreInside(config: MergeConfig, p: Path)
    requires p in TreeNames(config)
    ensures Dir(p) == OutputDir(config)
  {
    hide InOrder, OutputPath, StageName;
  }

  lemma MadeUpName(config: MergeConfig, p: Path)
    requires p in TreeNames(config)
    ensures exists k: nat | k < StageCount(InOrder(config.chunks)) ::
      Base(p) == StageName(config.datasetID, k) || Base(p) == StageName(config.datasetID, k) + ".partial"
  {
    hide InOrder, OutputPath, StageName;
  }

  /** The paths the first k passes delete. */
  function Gone(config: MergeConfig, k: nat): set<Path> {
    Paths(InOrder(config.chunks)[..Taken(InOrder(config.chunks), k)])
  }

  /** The blocks pass k finds. */
  function SeenBlocks(files: Files, config: MergeConfig, k: nat): seq<Bytes> {
    Blocks(files - Gone(config, k), StageJob(config, k))
  }

  ghost predicate StagesInv(disk: Disk, d: Disk, config: MergeConfig, k: nat) {
    && d.files - TreeNames(config) == (disk.files - Gone(config, k)) - TreeNames(config)
    && (forall i: nat | i < k ::
          StageOutput(config, i) in d.files
          && d.files[StageOutput(config, i)] == Concat(SeenBlocks(disk.files, config, i)))
    && (forall i: nat | i < StageCount(InOrder(config.chunks)) :: Partial(StageOutput(config, i)) !in d.files)
    && d.checkpoints.Keys <= disk.checkpoints.Keys && d.dirs == disk.dirs
  }

  lemma BlocksAgree(f: Files, g: Files, job: Job, names: set<Path>)
    requires Avoids(job, names) && f - names == g - names
    ensures Blocks(f, job) == Blocks(g, job)
  {
    forall i | 0 <= i < |job.chunks| ensures Block(f, job, job.chunks[i]) == Block(g, job, job.chunks[i]) {
      var c := job.chunks[i];
      assert c in job.chunks;
      if Source(job, c).Some? {
        var p := Source(job, c).value;
        assert p in f <==> p in f - names;
        assert p in g <==> p in g - names;
        if p in f { assert f[p] == (f - names)[p] == (g - names)[p] == g[p]; }
      }
    }
  }

  lemma StageAvoids(config: MergeConfig, k: nat, names: set<Path>, more: set<Path>)
    requires Avoids(JobOf(config), names + more)
    ensures Avoids(StageJob(config, k), names) && Paths(StageJob(config, k).chunks) !! names
  {
    hide InOrder, OutputPath, TreeNames;
    forall c | c in StageJob(config, k).chunks
      ensures c in JobOf(config).chunks && Source(StageJob(config, k), c) == Source(JobOf(config), c)
    {
    }
  }

  lemma GoneGrows(config: MergeConfig, k: nat)
    ensures Gone(config, k + 1) == Gone(config, k) + Paths(StageJob(config, k).chunks)
  {
    hide InOrder, OutputDir;
    var cs := InOrder(config.chunks);
    assert cs[..Taken(cs, k + 1)] == cs[..Taken(cs, k)] + Stage(cs, k);
    PathsOfSum(cs[..Taken(cs, k)], Stage(cs, k));
  }

  lemma PathsOfSum(a: seq<ChunkInfo>, b: seq<ChunkInfo>)
    ensures Paths(a + b) == Paths(a) + Paths(b)
  {
    forall p ensures p in Paths(a + b) <==> p in Paths(a) + Paths(b) {
      if p in Paths(a) {
        var c :| c in a && c.path == p;
        assert c in a + b;
      } else if p in Paths(b) {
        var c :| c in b && c.path == p;
        assert c in a + b;
      }
    }
  }

  /** One pass, as far as files elsewhere and the earlier intermediates go. */
  lemma PassFiles(f: Files, g: Files, gone: set<Path>, more: set<Path>, names: set<Path>, output: Path,
                  partial: Path, merged: Bytes)
    requires f - names == (g - gone) - names && output in names && partial in names && output != partial
    ensures
      var f' := (f - more)[output := merged] - {partial};
      && f' - names == (g - (gone + more)) - names
      && output in f' && f'[output] == merged && partial !in f'
      && (forall p | p in f && p in names && p !in more && p != output && p != partial :: p in f' && f'[p] == f[p])
      && (forall p | p !in f && p != output :: p !in f')
  {
    var f' := (f - more)[output := merged] - {partial};
    forall p | p !in names
      ensures p in f' <==> p in g - (gone + more)
      ensures p in f' ==> f'[p] == g[p]
    {
      assert p in f <==> p in f - names;
      assert p in g - gone <==> p in (g - gone) - names;
      if p in f { assert f[p] == (f - names)[p] == ((g - gone) - names)[p]; }
    }
  }

  lemma EarlierOutputsStay(disk: Disk, d: Disk, config: MergeConfig, k: nat)
    requires ClearGround(disk, config) && k < StageCount(InOrder(config.chunks)) && StagesInv(disk, d, config, k)
    ensures Separate(StageJob(config, k)) && StartPosition(d, StageJob(config, k)) == 0
    ensures Content(d.files, Partial(StageOutput(config, k))) == []
    ensures Blocks(d.files, StageJob(config, k)) == SeenBlocks(disk.files, config, k)
    ensures Paths(StageJob(config, k).chunks) !! TreeNames(config)
  {
    hide InOrder, TreeNames, SeenBlocks, Blocks, Paths, Partial, StageOutput, Stage;
    var names := TreeNames(config);
    StageAvoids(config, k, names, {Partial(OutputPath(config))});
    NameIsTaken(config, k);
    assert Untouched(disk, config, k);
    SeenBlocksIs(disk.files, config, k);
    BlocksAgree(d.files, disk.files - Gone(config, k), StageJob(config, k), names);
  }

  lemma SeenBlocksIs(files: Files, config: MergeConfig, k: nat)
    ensures SeenBlocks(files, config, k) == Blocks(files - Gone(config, k), StageJob(config, k))
  {
  }

  lemma StagesStep(disk: Disk, d: Disk, config: MergeConfig, k: nat)
    requires ClearGround(disk, config) && k < StageCount(InOrder(config.chunks)) && StagesInv(disk, d, config, k)
    ensures StagesInv(disk, MergedDisk(d, StageJob(config, k)), config, k + 1)
  {
    hide InOrder, TreeNames, SeenBlocks, Blocks, Paths, Partial, StageOutput, Stage, StageCount, Gone, ClearGround,
         StartPosition;
    EarlierOutputsStay(disk, d, config, k);
    GoneGrows(config, k);
    NameIsTaken(config, k);
    OutputsDiffer(config, k, k);
    var seen := SeenBlocks(disk.files, config, k);
    assert seen[0..] == seen && [] + Concat(seen) == Concat(seen);
    PassFiles(d.files, disk.files, Gone(config, k), Paths(StageJob(config, k).chunks), TreeNames(config),
      StageOutput(config, k), Partial(StageOutput(config, k)), Concat(seen));
    forall i: nat | i < StageCount(InOrder(config.chunks))
      ensures StageOutput(config, i) in TreeNames(config)
      ensures i != k ==> StageOutput(config, i) != StageOutput(config, k)
      ensures StageOutput(config, i) != Partial(StageOutput(config, k))
      ensures Partial(StageOutput(config, i)) != StageOutput(config, k)
    {
      NameIsTaken(config, i);
      OutputsDiffer(config, i, k);
      OutputsDiffer(config, k, i);
    }
  }

  lemma {:induction false} StagesHold(disk: Disk, config: MergeConfig, k: nat)
    requires ClearGround(disk, config) && k <= StageCount(InOrder(config.chunks))
    ensures StagesInv(disk, StagesDone(disk, config, k), config, k)
  {
    hide InOrder, ClearGround, StageCount, MergedDisk, StagesInv, StageJob;
    if k == 0 {
      NothingStaged(disk, config);
    } else {
      StagesHold(disk, config, k - 1);
      StagesStep(disk, StagesDone(disk, config, k - 1), config, k - 1);
    }
  }

  lemma NothingStaged(disk: Disk, config: MergeConfig)
    requires ClearGround(disk, config)
    ensures StagesInv(disk, disk, config, 0)
  {
    hide InOrder, TreeNames, FreshDisk, StageOutput, Gone, Avoids, SeenBlocks, OutputPath;
    NothingGone(disk.files, config);
    forall i: nat | i < StageCount(InOrder(config.chunks)) ensures Partial(StageOutput(config, i)) !in disk.files {
      assert Untouched(disk, config, i);
      UntouchedIsFresh(disk, config, i);
    }
  }

  lemma NothingGone(files: Files, config: MergeConfig)
    ensures files - Gone(config, 0) == files
  {
    hide InOrder;
    assert InOrder(config.chunks)[..0] == [];
    NoPaths();
    SubtractNothing(files);
  }

  lemma UntouchedIsFresh(disk: Disk, config: MergeConfig, k: nat)
    requires Untouched(disk, config, k)
    ensures Partial(StageOutput(config, k)) !in disk.files && StageOutput(config, k) !in disk.checkpoints
  {
  }

  // ---- The output of the tree -------------------------------------------------------------

  function TreeOutput(disk: Disk, config: MergeConfig): Bytes {
    Content(TreeDisk(disk, config).files, OutputPath(config))
  }

  function StreamOutput(disk: Disk, config: MergeConfig): Bytes {
    Content(MergedDisk(disk, JobOf(config)).files, OutputPath(config))
  }

  /** What the first k passes find, end to end. */
  function Seen(files: Files, config: MergeConfig, k: nat): Bytes {
    if k == 0 then [] else Seen(files, config, k - 1) + Concat(SeenBlocks(files, config, k - 1))
  }

  lemma {:induction false} ConcatOfSeen(files: Files, config: MergeConfig, blocks: seq<Bytes>)
    requires forall k | 0 <= k < |blocks| :: blocks[k] == Concat(SeenBlocks(files, config, k))
    ensures Concat(blocks) == Seen(files, config, |blocks|)
  {
    hide SeenBlocks;
    if blocks != [] { ConcatOfSeen(files, config, blocks[..|blocks| - 1]); }
  }

  /** A path the tree merge does not write is in a pass's disk only if it was there, and
      the passes have not deleted it. */
  lemma OutsideNames(disk: Disk, d: Disk, config: MergeConfig, k: nat, p: Path)
    requires StagesInv(disk, d, config, k) && p !in TreeNames(config)
    ensures p in d.files <==> p in disk.files && p !in Gone(config, k)
  {
    hide TreeNames, Gone, SeenBlocks;
    assert p in d.files <==> p in d.files - TreeNames(config);
    assert p in disk.files - Gone(config, k) <==> p in (disk.files - Gone(config, k)) - TreeNames(config);
  }

  lemma ReadableBlock(d: Disk, config: MergeConfig, k: nat)
    requires Readable(config)
    ensures
      Block(d.files, FinalJob(d.files, config), Intermediate(d.files, config, k)) ==
      Content(d.files, StageOutput(config, k))
  {
    ReadableIff(config, k);
    hide InOrder, StageOutput, Readable, OutputDir, Resolve, StageCount;
  }

  lemma UnreadableBlock(d: Disk, config: MergeConfig, k: nat)
    requires ReadPlace(config, k).Some? ==> ReadPlace(config, k).value !in d.files
    ensures Block(d.files, FinalJob(d.files, config), Intermediate(d.files, config, k)) == []
  {
    hide InOrder, StageOutput, OutputDir, Resolve, StageCount;
  }

  /** What the final merge reads as intermediate k. */
  lemma FinalBlock(disk: Disk, d: Disk, config: MergeConfig, k: nat)
    requires ClearGround(disk, config) && StagesInv(disk, d, config, StageCount(InOrder(config.chunks)))
    requires k < StageCount(InOrder(config.chunks))
    ensures
      Block(d.files, FinalJob(d.files, config), Intermediate(d.files, config, k))
      == if Readable(config) then Concat(SeenBlocks(disk.files, config, k)) else []
  {
    hide InOrder, TreeNames, SeenBlocks, StageOutput, Readable, Concat, OutputDir, Gone, FreshDisk, Avoids, StageCount,
         Block, FinalJob, Intermediate, ReadPlace;
    if Readable(config) {
      ReadableBlock(d, config, k);
    } else {
      assert Untouched(disk, config, k);
      hide ClearGround;
      ReadableIff(config, k);
      if ReadPlace(config, k).Some? {
        OutsideNames(disk, d, config, StageCount(InOrder(config.chunks)), ReadPlace(config, k).value);
      }
      UnreadableBlock(d, config, k);
    }
  }

  lemma FinalBlocks(disk: Disk, d: Disk, config: MergeConfig)
    requires ClearGround(disk, config) && StagesInv(disk, d, config, StageCount(InOrder(config.chunks)))
    ensures
      Concat(Blocks(d.files, FinalJob(d.files, config)))
      == if Readable(config) then Seen(disk.files, config, StageCount(InOrder(config.chunks))) else []
  {
    hide InOrder, SeenBlocks, StageCount, StageOutput, Readable, Concat, OutputDir, ClearGround, StagesInv,
         Intermediate, Block;
    var blocks := Blocks(d.files, FinalJob(d.files, config));
    forall k | 0 <= k < |blocks|
      ensures blocks[k] == if Readable(config) then Concat(SeenBlocks(disk.files, config, k)) else []
    {
      FinalBlock(disk, d, config, k);
    }
    if Readable(config) {
      ConcatOfSeen(disk.files, config, blocks);
    } else {
      ConcatEmpty(blocks);
    }
  }

  lemma TreeOutputIs(disk: Disk, config: MergeConfig)
    requires ClearGround(disk, config) && StageCount(InOrder(config.chunks)) >= 1
    ensures
      var m := StageCount(InOrder(config.chunks));
      TreeOutput(disk, config) == if m == 1 || Readable(config) then Seen(disk.files, config, m) else []
  {
    hide InOrder, TreeNames, SeenBlocks, StageCount, StageOutput, Readable, OutputPath, Gone, StagesDone, Concat,
         Blocks, MergedDisk;
    var m, output := StageCount(InOrder(config.chunks)), OutputPath(config);
    var d := StagesDone(disk, config, m);
    StagesHold(disk, config, m);
    OutputsApart(disk, config);
    if m == 1 {
      SeenOnce(disk.files, config);
    } else {
      FinalBlocks(disk, d, config);
      OutsideNames(disk, d, config, m, Partial(output));
      FreshOutput(d, FinalJob(d.files, config));
    }
  }

  lemma SeenOnce(files: Files, config: MergeConfig)
    ensures Seen(files, config, 1) == Concat(SeenBlocks(files, config, 0))
  {
    assert Seen(files, config, 0) == [];
  }

  lemma OutputsApart(disk: Disk, config: MergeConfig)
    requires ClearGround(disk, config)
    ensures OutputPath(config) !in StageOutputs(config) && OutputPath(config) != Partial(OutputPath(config))
    ensures forall k: nat | k < StageCount(InOrder(config.chunks)) :: StageOutput(config, k) != OutputPath(config)
    ensures Partial(OutputPath(config)) !in disk.files && OutputPath(config) !in disk.checkpoints
    ensures Partial(OutputPath(config)) !in TreeNames(config)
  {
    hide InOrder, OutputPath, StageOutput, Partial;
    PartialIsAnother(OutputPath(config));
    forall k: nat | k < StageCount(InOrder(config.chunks)) ensures StageOutput(config, k) != OutputPath(config) {
      NameIsTaken(config, k);
    }
  }

  /** What a merge from nothing leaves as its output. */
  lemma FreshOutput(d: Disk, job: Job)
    requires job.output != Partial(job.output) && job.output !in d.checkpoints && Partial(job.output) !in d.files
    ensures job.output in MergedDisk(d, job).files
    ensures MergedDisk(d, job).files[job.output] == Concat(Blocks(d.files, job))
  {
    hide Partial, Blocks, Paths, Concat;
    var b := Blocks(d.files, job);
    assert b[0..] == b && [] + Concat(b) == Concat(b);
  }

  lemma StreamOutputIs(disk: Disk, config: MergeConfig)
    requires ClearGround(disk, config)
    ensures StreamOutput(disk, config) == Concat(Blocks(disk.files, JobOf(config)))
  {
    hide InOrder, OutputPath, Partial, Blocks, StageOutput, Concat, ClearGround, MergedDisk;
    OutputsApart(disk, config);
    FreshOutput(disk, JobOf(config));
  }

  // ---- When nothing is lost between passes ----------------------------------------------------

  lemma {:induction false} ConcatShrinks(a: seq<Bytes>, b: seq<Bytes>)
    requires |a| == |b| && forall i | 0 <= i < |a| :: a[i] == b[i] || a[i] == []
    ensures |Concat(a)| <= |Concat(b)|
    ensures a != b ==> |Concat(a)| < |Concat(b)|
  {
    if a != [] {
      var n := |a| - 1;
      ConcatShrinks(a[..n], b[..n]);
      assert a == a[..n] + [a[n]] && b == b[..n] + [b[n]];
    }
  }

  ghost predicate Intact(files: Files, config: MergeConfig, k: nat) {
    forall i: nat | i < k :: SeenBlocks(files, config, i) == Blocks(files, StageJob(config, i))
  }

  lemma SeenShrinks(files: Files, config: MergeConfig, k: nat)
    ensures |SeenBlocks(files, config, k)| == |Blocks(files, StageJob(config, k))|
    ensures forall j | 0 <= j < |SeenBlocks(files, config, k)| ::
      SeenBlocks(files, config, k)[j] == Blocks(files, StageJob(config, k))[j] || SeenBlocks(files, config, k)[j] == []
  {
    hide InOrder, Gone, Stage;
  }

  lemma FullGrows(files: Files, config: MergeConfig, k: nat)
    ensures
      var cs, b := InOrder(config.chunks), Blocks(files, JobOf(config));
      Concat(b[..Taken(cs, k + 1)]) == Concat(b[..Taken(cs, k)]) + Concat(Blocks(files, StageJob(config, k)))
  {
    hide InOrder, OutputPath, StageOutput, Concat, Taken;
    var cs, b := InOrder(config.chunks), Blocks(files, JobOf(config));
    TakenGrows(cs, k);
    var i, j := Taken(cs, k), Taken(cs, k + 1);
    assert b[i..j] == Blocks(files, StageJob(config, k));
    assert b[..j] == b[..i] + b[i..j];
    ConcatAppend(b[..i], b[i..j]);
  }

  lemma TakenGrows(cs: seq<ChunkInfo>, k: nat)
    ensures Taken(cs, k) <= Taken(cs, k + 1)
  {
  }

  lemma {:induction false} SeenIff(files: Files, config: MergeConfig, k: nat)
    ensures
      var full := Concat(Blocks(files, JobOf(config))[..Taken(InOrder(config.chunks), k)]);
      if Intact(files, config, k) then Seen(files, config, k) == full else |Seen(files, config, k)| < |full|
  {
    hide InOrder, Taken, Blocks, SeenBlocks, OutputPath, StageJob, Concat;
    if k == 0 {
      NothingTaken(files, config);
    } else {
      SeenIff(files, config, k - 1);
      FullGrows(files, config, k - 1);
      SeenShrinks(files, config, k - 1);
      ConcatShrinks(SeenBlocks(files, config, k - 1), Blocks(files, StageJob(config, k - 1)));
      assert Intact(files, config, k) <==>
        Intact(files, config, k - 1) && SeenBlocks(files, config, k - 1) == Blocks(files, StageJob(config, k - 1));
    }
  }

  lemma NothingTaken(files: Files, config: MergeConfig)
    ensures Concat(Blocks(files, JobOf(config))[..Taken(InOrder(config.chunks), 0)]) == []
  {
    hide InOrder, Blocks;
  }

  /** No pass deletes, by its path as given, a file a later pass reads as a chunk. */
  predicate NoPassDeletesAhead(files: Files, config: MergeConfig) {
    var job := JobOf(config);
    forall p, q | 0 <= p < |job.chunks| && 0 <= q < |job.chunks| && p / MAX_CHUNKS_PER_PASS < q / MAX_CHUNKS_PER_PASS ::
      Source(job, job.chunks[q]) == Some(job.chunks[p].path) ==> Block(files, job, job.chunks[q]) == []
  }

  /** What pass k finds of its chunk j: nothing when an earlier pass deleted it. */
  lemma SeenAt(files: Files, config: MergeConfig, k: nat, j: nat)
    requires k < StageCount(InOrder(config.chunks)) && j < |Stage(InOrder(config.chunks), k)|
    ensures
      var job, q := JobOf(config), MAX_CHUNKS_PER_PASS * k + j;
      && q < |job.chunks| && q / MAX_CHUNKS_PER_PASS == k
      && Blocks(files, StageJob(config, k))[j] == Block(files, job, job.chunks[q])
      && SeenBlocks(files, config, k)[j] ==
         (if Source(job, job.chunks[q]).Some? && Source(job, job.chunks[q]).value in Gone(config, k) then []
          else Block(files, job, job.chunks[q]))
  {
    hide InOrder, Gone, OutputPath, StageOutput;
  }

  lemma GoneIff(config: MergeConfig, k: nat, path: Path)
    requires k < StageCount(InOrder(config.chunks))
    ensures
      var cs := InOrder(config.chunks);
      path in Gone(config, k) <==> exists p :: 0 <= p < |cs| && p / MAX_CHUNKS_PER_PASS < k && cs[p].path == path
  {
    hide InOrder;
    var cs := InOrder(config.chunks);
    if path in Gone(config, k) {
      var c :| c in cs[..Taken(cs, k)] && c.path == path;
      var p :| 0 <= p < Taken(cs, k) && cs[p] == c;
      assert p / MAX_CHUNKS_PER_PASS < k;
    }
    if p :| 0 <= p < |cs| && p / MAX_CHUNKS_PER_PASS < k && cs[p].path == path {
      assert p < Taken(cs, k) && cs[..Taken(cs, k)][p] == cs[p];
      assert cs[p] in cs[..Taken(cs, k)];
    }
  }

  lemma IntactIff(files: Files, config: MergeConfig)
    ensures Intact(files, config, StageCount(InOrder(config.chunks))) <==> NoPassDeletesAhead(files, config)
  {
    if NoPassDeletesAhead(files, config) {
      forall k: nat | k < StageCount(InOrder(config.chunks)) {
        SafePass(files, config, k);
      }
    } else {
      var job := JobOf(config);
      var p, q :| 0 <= p < |job.chunks| && 0 <= q < |job.chunks| && p / MAX_CHUNKS_PER_PASS < q / MAX_CHUNKS_PER_PASS
        && Source(job, job.chunks[q]) == Some(job.chunks[p].path) && Block(files, job, job.chunks[q]) != [];
      RobbedPass(files, config, p, q);
    }
  }

  lemma SafePass(files: Files, config: MergeConfig, k: nat)
    requires NoPassDeletesAhead(files, config) && k < StageCount(InOrder(config.chunks))
    ensures SeenBlocks(files, config, k) == Blocks(files, StageJob(config, k))
  {
    hide InOrder, Gone, OutputPath, StageOutput, Stage, StageCount, SeenBlocks, Blocks, Block, Resolve;
    SeenShrinks(files, config, k);
    BlocksLength(files, config, k);
    forall j | 0 <= j < |Stage(InOrder(config.chunks), k)|
      ensures SeenBlocks(files, config, k)[j] == Blocks(files, StageJob(config, k))[j]
    {
      SeenAt(files, config, k, j);
      var job, q := JobOf(config), MAX_CHUNKS_PER_PASS * k + j;
      if Source(job, job.chunks[q]).Some? && Source(job, job.chunks[q]).value in Gone(config, k) {
        GoneIff(config, k, Source(job, job.chunks[q]).value);
      }
    }
  }

  lemma BlocksLength(files: Files, config: MergeConfig, k: nat)
    ensures |Blocks(files, StageJob(config, k))| == |Stage(InOrder(config.chunks), k)|
  {
  }

  lemma RobbedPass(files: Files, config: MergeConfig, p: nat, q: nat)
    requires p < |JobOf(config).chunks| && q < |JobOf(config).chunks|
    requires p / MAX_CHUNKS_PER_PASS < q / MAX_CHUNKS_PER_PASS
    requires Source(JobOf(config), JobOf(config).chunks[q]) == Some(JobOf(config).chunks[p].path)
    requires Block(files, JobOf(config), JobOf(config).chunks[q]) != []
    ensures !Intact(files, config, StageCount(InOrder(config.chunks)))
  {
    hide InOrder, Gone, OutputPath, StageOutput, SeenBlocks, Blocks, Block, Resolve;
    var k, j := q / MAX_CHUNKS_PER_PASS, q % MAX_CHUNKS_PER_PASS;
    StageShape(InOrder(config.chunks), q);
    SeenAt(files, config, k, j);
    GoneIff(config, k, JobOf(config).chunks[p].path);
  }

  // ---- Main results -------------------------------------------------------------------------

  /** The tree merge leaves StreamMerge's bytes exactly when no pass deletes a later
      pass's chunk and the intermediates are read back from where they were written;
      short of that only if there was a single pass, or nothing to merge. */
  lemma TreeKeepsMeaningIff(disk: Disk, config: MergeConfig)
    requires ClearGround(disk, config) && UsesTree(config)
    ensures
      var job, m := JobOf(config), StageCount(InOrder(config.chunks));
      TreeOutput(disk, config) == StreamOutput(disk, config) <==>
        && NoPassDeletesAhead(disk.files, config)
        && (m == 1 || Readable(config) || forall c | c in job.chunks :: Block(disk.files, job, c) == [])
  {
    hide TreeOutput, StreamOutput, NoPassDeletesAhead, Readable, ClearGround, InOrder, Seen, OutputPath, Block;
    var job, cs, m := JobOf(config), InOrder(config.chunks), StageCount(InOrder(config.chunks));
    TreeHasChunks(config);
    TreeOutputIs(disk, config);
    StreamOutputIs(disk, config);
    IntactIff(disk.files, config);
    SeenIff(disk.files, config, m);
    TakenAll(cs);
    var b := Blocks(disk.files, job);
    assert b[..|b|] == b;
    AllEmptyIff(disk.files, config);
  }

  /** Nothing to merge: then nothing is lost between passes either. */
  lemma AllEmptyIff(files: Files, config: MergeConfig)
    ensures
      Concat(Blocks(files, JobOf(config))) == []
      <==> forall c | c in JobOf(config).chunks :: Block(files, JobOf(config), c) == []
    ensures Concat(Blocks(files, JobOf(config))) == [] ==> NoPassDeletesAhead(files, config)
  {
    hide InOrder, OutputPath, Block;
    var job := JobOf(config);
    var b := Blocks(files, job);
    if forall c | c in job.chunks :: Block(files, job, c) == [] {
      ConcatEmpty(b);
    } else {
      var c :| c in job.chunks && Block(files, job, c) != [];
      var q :| 0 <= q < |b| && job.chunks[q] == c;
      TailLonger(b, 0, |b|, q);
      assert b[0..] == b && b[|b|..] == [];
    }
  }

  /** Chunks at distinct absolute paths, an absolute output directory: the tree merge
      means what StreamMerge means, with chunks missing or empty or not. */
  lemma TreeKeepsMeaning(disk: Disk, config: MergeConfig)
    requires ClearGround(disk, config) && UsesTree(config)
    requires OutputDir(config).abs && forall c | c in config.chunks :: c.path.abs
    requires forall p, q | 0 <= p < q < |JobOf(config).chunks| ::
      JobOf(config).chunks[p].path != JobOf(config).chunks[q].path
    ensures TreeOutput(disk, config) == StreamOutput(disk, config)
    ensures StreamOutput(disk, config) == Concat(Blocks(disk.files, JobOf(config)))
  {
    TreeKeepsMeaningIff(disk, config);
    StreamOutputIs(disk, config);
    hide ClearGround, UsesTree, InOrder, OutputPath, TreeOutput, StreamOutput, Block, Blocks;
    forall c | c in JobOf(config).chunks ensures c.path.abs {
      MembersOfOrder(config.chunks, c);
    }
  }

  lemma MembersOfOrder(chunks: seq<ChunkInfo>, c: ChunkInfo)
    ensures c in InOrder(chunks) <==> c in chunks && !c.isSkipped
  {
    SameElements(InOrder(chunks), Active(chunks));
    ActiveMembers(chunks, c);
  }

  /** A relative output directory with the affinity strategy, or with shared_mount and
      not the current directory: two passes or more lose everything. The output is
      empty; chunks and intermediates are gone. */
  lemma UnreadableTreeLosesData(disk: Disk, config: MergeConfig)
    requires ClearGround(disk, config) && UsesTree(config)
    requires !Readable(config) && StageCount(InOrder(config.chunks)) > 1
    ensures TreeOutput(disk, config) == []
    ensures forall p | p in StageOutputs(config) :: p !in TreeDisk(disk, config).files
    ensures forall c | c in JobOf(config).chunks && c.path != OutputPath(config) ::
      c.path !in TreeDisk(disk, config).files
  {
    hide ClearGround, InOrder, OutputPath, StageCount, UsesTree, Readable, StagesDone, StageOutputs,
         StagesInv, Gone, TreeOutput, Seen, FinalJob;
    var m := StageCount(InOrder(config.chunks));
    TreeOutputIs(disk, config);
    StagesHold(disk, config, m);
    forall c | c in JobOf(config).chunks && c.path != OutputPath(config)
      ensures c.path !in TreeDisk(disk, config).files
    {
      ChunkIsGone(disk, config, c);
      TreeDiskAdds(disk, config, c.path);
    }
  }

  lemma TreeDiskAdds(disk: Disk, config: MergeConfig, p: Path)
    requires StageCount(InOrder(config.chunks)) > 1 && p != OutputPath(config)
    requires p !in StagesDone(disk, config, StageCount(InOrder(config.chunks))).files
    ensures p !in TreeDisk(disk, config).files
  {
    hide InOrder, OutputPath, StageCount, StagesDone, StageOutputs, Blocks, Paths, FinalConfig, Partial;
  }

  lemma ChunkIsGone(disk: Disk, config: MergeConfig, c: ChunkInfo)
    requires ClearGround(disk, config) && c in InOrder(config.chunks)
    ensures c.path !in StagesDone(disk, config, StageCount(InOrder(config.chunks))).files
  {
    hide InOrder, OutputPath, StageCount, TreeNames, StagesInv;
    var m := StageCount(InOrder(config.chunks));
    StagesHold(disk, config, m);
    assert c in JobOf(config).chunks;
    TakenAll(InOrder(config.chunks));
    var cs := InOrder(config.chunks);
    assert cs[..|cs|] == cs;
    OutsideNames(disk, StagesDone(disk, config, m), config, m, c.path);
  }

  /** On clear ground StreamMergeTree's contract applies. */
  lemma ClearGroundIsSeparate(disk: Disk, config: MergeConfig)
    requires ClearGround(disk, config)
    ensures TreeSeparate(config) && Separate(JobOf(config))
  {
    forall k: nat | k < StageCount(InOrder(config.chunks)) ensures Separate(StageJob(config, k)) {
      StageIsSeparate(disk, config, k);
    }
    forall files ensures Separate(FinalJob(files, config)) {
      FinalIsSeparate(disk, config, files);
    }
    JobIsSeparate(disk, config);
  }

  lemma StageIsSeparate(disk: Disk, config: MergeConfig, k: nat)
    requires ClearGround(disk, config) && k < StageCount(InOrder(config.chunks))
    ensures Separate(StageJob(config, k))
  {
    hide InOrder, TreeNames, StageOutput, OutputPath, Stage, Partial, Resolve;
    StageAvoids(config, k, TreeNames(config), {Partial(OutputPath(config))});
    NameIsTaken(config, k);
  }

  lemma JobIsSeparate(disk: Disk, config: MergeConfig)
    requires ClearGround(disk, config)
    ensures Separate(JobOf(config))
  {
    hide InOrder, TreeNames, StageOutput, OutputPath, Stage, Partial, Resolve;
    var partial := Partial(OutputPath(config));
    forall c | c in JobOf(config).chunks ensures Source(JobOf(config), c) != Some(partial) && c.path != partial {
      assert partial in TreeNames(config) + {partial};
    }
  }

  lemma FinalIsSeparate(disk: Disk, config: MergeConfig, files: Files)
    requires ClearGround(disk, config)
    ensures Separate(FinalJob(files, config))
  {
    hide InOrder, TreeNames, StageOutput, OutputPath, Partial, Resolve, StageCount;
    var job := FinalJob(files, config);
    var partial := Partial(OutputPath(config));
    forall c | c in job.chunks ensures Source(job, c) != Some(partial) && c.path != partial {
      var k :| 0 <= k < |job.chunks| && job.chunks[k] == c;
      NameIsTaken(config, k);
      ReadsNoPartial(config, k);
    }
  }

  lemma ReadsNoPartial(config: MergeConfig, k: nat)
    requires StageOutput(config, k) != Partial(OutputPath(config))
    ensures ReadPlace(config, k) != Some(Partial(OutputPath(config)))
  {
    var dir := OutputDir(config);
    hide OutputPath, StageName;
    if ReadPlace(config, k).Some? && ReadPlace(config, k).value != StageOutput(config, k) {
      assert |ReadPlace(config, k).value.parts| == 2 * |dir.parts| + 1;
    }
  }

  // ---- The tree merge called again after some passes ---------------------------------------

  /** Between passes the ground is still clear: nothing stops a further call. */
  lemma GroundStaysClear(disk: Disk, config: MergeConfig, k: nat)
    requires ClearGround(disk, config) && k <= StageCount(InOrder(config.chunks))
    ensures ClearGround(StagesDone(disk, config, k), config)
  {
    var d := StagesDone(disk, config, k);
    StagesHold(disk, config, k);
    OutputsApart(disk, config);
    hide InOrder, TreeNames, StageOutput, OutputPath, Gone, StagesDone, Avoids, Readable, SeenBlocks, ReadPlace,
         Partial;
    OutsideNames(disk, d, config, k, Partial(OutputPath(config)));
    forall i: nat | i < StageCount(InOrder(config.chunks)) ensures Untouched(d, config, i) {
      assert Untouched(disk, config, i);
      UntouchedIsFresh(disk, config, i);
      ReadableIff(config, i);
      if ReadPlace(config, i).Some? && !Readable(config) {
        OutsideNames(disk, d, config, k, ReadPlace(config, i).value);
      }
    }
  }

  /** Of a pass that is done, called again, only what its own deletions left is found. */
  function LeftBlocks(files: Files, config: MergeConfig, i: nat, k: nat): seq<Bytes> {
    SeenBlocks(files - Gone(config, k), config, i)
  }

  lemma SeenAgain(disk: Disk, config: MergeConfig, i: nat, k: nat)
    requires ClearGround(disk, config) && k <= StageCount(InOrder(config.chunks))
    ensures SeenBlocks(StagesDone(disk, config, k).files, config, i) == LeftBlocks(disk.files, config, i, k)
  {
    var d, names, gone := StagesDone(disk, config, k), TreeNames(config), Gone(config, i);
    StagesHold(disk, config, k);
    StageAvoids(config, i, names, {Partial(OutputPath(config))});
    hide InOrder, TreeNames, StageOutput, OutputPath, Gone, StagesDone, Avoids, Stage, Partial, Blocks;
    SubtractCommutes(d.files, disk.files - Gone(config, k), gone, names);
    BlocksAgree(d.files - gone, disk.files - Gone(config, k) - gone, StageJob(config, i), names);
    SeenBlocksIs(d.files, config, i);
    SeenBlocksIs(disk.files - Gone(config, k), config, i);
  }

  lemma SubtractCommutes(f: Files, g: Files, gone: set<Path>, names: set<Path>)
    requires f - names == g - names
    ensures (f - gone) - names == (g - gone) - names
  {
    SubtractTwice(f, gone, names);
    SubtractTwice(g, gone, names);
    SubtractTwice(f, names, gone);
    SubtractTwice(g, names, gone);
    assert gone + names == names + gone;
  }

  /** What is left is what was seen, or nothing. */
  lemma LeftShrinks(files: Files, config: MergeConfig, i: nat, k: nat)
    ensures |LeftBlocks(files, config, i, k)| == |SeenBlocks(files, config, i)|
    ensures forall j | 0 <= j < |LeftBlocks(files, config, i, k)| ::
      LeftBlocks(files, config, i, k)[j] == SeenBlocks(files, config, i)[j] || LeftBlocks(files, config, i, k)[j] == []
  {
    hide InOrder, Gone, Stage, OutputPath, StageOutput;
  }

  ghost predicate SameAgain(files: Files, config: MergeConfig, m: nat, k: nat) {
    forall i: nat | i < m :: LeftBlocks(files, config, i, k) == SeenBlocks(files, config, i)
  }

  lemma {:induction false} SeenAgainIff(disk: Disk, config: MergeConfig, m: nat, k: nat)
    requires ClearGround(disk, config) && k <= StageCount(InOrder(config.chunks))
    ensures
      var first, again := Seen(disk.files, config, m), Seen(StagesDone(disk, config, k).files, config, m);
      if SameAgain(disk.files, config, m, k) then again == first else |again| < |first|
  {
    hide InOrder, SeenBlocks, StagesDone, ClearGround, StageCount, LeftBlocks, Concat;
    if m > 0 {
      SeenAgainIff(disk, config, m - 1, k);
      SeenAgain(disk, config, m - 1, k);
      LeftShrinks(disk.files, config, m - 1, k);
      ConcatShrinks(LeftBlocks(disk.files, config, m - 1, k), SeenBlocks(disk.files, config, m - 1));
      assert SameAgain(disk.files, config, m, k) <==>
        SameAgain(disk.files, config, m - 1, k)
        && LeftBlocks(disk.files, config, m - 1, k) == SeenBlocks(disk.files, config, m - 1);
    }
  }

  /** After k passes the process dies, or a later pass fails before it touches the disk,
      and the tree merge is called again: its output is what one undisturbed call would
      have left if and only if every pass finds again what it found, or the output is
      empty anyway because the intermediates are not read back. */
  lemma RetryKeepsOutputIff(disk: Disk, config: MergeConfig, k: nat)
    requires ClearGround(disk, config) && UsesTree(config)
    requires k <= StageCount(InOrder(config.chunks))
    ensures
      var m := StageCount(InOrder(config.chunks));
      TreeOutput(StagesDone(disk, config, k), config) == TreeOutput(disk, config) <==>
        SameAgain(disk.files, config, m, k) || (m > 1 && !Readable(config))
  {
    hide InOrder, StagesDone, ClearGround, TreeOutput, Seen, Readable, SameAgain, UsesTree;
    var m := StageCount(InOrder(config.chunks));
    TreeHasChunks(config);
    hide StageCount;
    GroundStaysClear(disk, config, k);
    TreeOutputIs(disk, config);
    TreeOutputIs(StagesDone(disk, config, k), config);
    SeenAgainIff(disk, config, m, k);
  }

  /** Chunks are read where they are deleted. */
  predicate ReadWhereDeleted(job: Job) {
    forall c | c in job.chunks :: Source(job, c) == Some(c.path)
  }

  lemma NothingLeft(files: Files, config: MergeConfig, i: nat, k: nat)
    requires ReadWhereDeleted(JobOf(config)) && i < k
    ensures forall j | 0 <= j < |LeftBlocks(files, config, i, k)| :: LeftBlocks(files, config, i, k)[j] == []
  {
    var cs, job := InOrder(config.chunks), StageJob(config, i);
    hide InOrder, OutputPath, StageOutput;
    forall j | 0 <= j < |job.chunks|
      ensures LeftBlocks(files, config, i, k)[j] == []
    {
      var q := Taken(cs, i) + j;
      assert job.chunks[j] == cs[q] && q < Taken(cs, k);
      assert cs[..Taken(cs, k)][q] == cs[q] && cs[q] in cs[..Taken(cs, k)];
      assert cs[q] in JobOf(config).chunks && Source(JobOf(config), cs[q]) == Source(job, cs[q]) == Some(cs[q].path);
      assert cs[q].path in Gone(config, k);
    }
  }

  /** With chunks read where they are deleted (absolute paths do), a call after k passes
      finds nothing of their chunks: pass i < k replaces its finished intermediate, with
      all it holds, by an empty one. */
  lemma RetryErasesFinishedPasses(disk: Disk, config: MergeConfig, k: nat, i: nat)
    requires ClearGround(disk, config) && ReadWhereDeleted(JobOf(config)) && i < k <= StageCount(InOrder(config.chunks))
    ensures
      var d, output := StagesDone(disk, config, k), StageOutput(config, i);
      var again := StagesDone(d, config, i + 1);
      && output in d.files && d.files[output] == Concat(SeenBlocks(disk.files, config, i))
      && output in again.files && again.files[output] == []
    ensures LeftBlocks(disk.files, config, i, k) == SeenBlocks(disk.files, config, i)
      <==> Concat(SeenBlocks(disk.files, config, i)) == []
  {
    hide InOrder, StagesDone, ClearGround, SeenBlocks, StageOutput, ReadWhereDeleted, LeftBlocks, StageCount, Concat;
    var d := StagesDone(disk, config, k);
    StageHolds(disk, config, k, i);
    GroundStaysClear(disk, config, k);
    StageHolds(d, config, i + 1, i);
    SeenAgain(disk, config, i, k);
    NothingLeft(disk.files, config, i, k);
    ConcatEmpty(LeftBlocks(disk.files, config, i, k));
    LeftShrinks(disk.files, config, i, k);
    ConcatShrinks(LeftBlocks(disk.files, config, i, k), SeenBlocks(disk.files, config, i));
  }

  /** One finished intermediate. */
  lemma StageHolds(disk: Disk, config: MergeConfig, k: nat, i: nat)
    requires ClearGround(disk, config) && i < k <= StageCount(InOrder(config.chunks))
    ensures
      var files := StagesDone(disk, config, k).files;
      StageOutput(config, i) in files && files[StageOutput(config, i)] == Concat(SeenBlocks(disk.files, config, i))
  {
    hide InOrder, StagesDone, ClearGround, SeenBlocks, StageOutput, Gone, TreeNames, StageCount, Concat;
    StagesHold(disk, config, k);
  }

  lemma {:induction false} SeenNothingIff(files: Files, config: MergeConfig, k: nat)
    ensures Seen(files, config, k) == [] <==> forall i: nat | i < k :: Concat(SeenBlocks(files, config, i)) == []
  {
    hide SeenBlocks, Concat;
    if k > 0 { SeenNothingIff(files, config, k - 1); }
  }

  lemma {:induction false} GoneMonotone(config: MergeConfig, k: nat, i: nat)
    requires k <= i
    ensures Gone(config, k) <= Gone(config, i)
    decreases i
  {
    hide Gone, Paths, StageJob;
    if k < i {
      GoneMonotone(config, k, i - 1);
      GoneGrows(config, i - 1);
    }
  }

  lemma LaterPassesSame(files: Files, config: MergeConfig, i: nat, k: nat)
    requires k <= i
    ensures LeftBlocks(files, config, i, k) == SeenBlocks(files, config, i)
  {
    GoneMonotone(config, k, i);
    SubtractTwice(files, Gone(config, k), Gone(config, i));
    assert Gone(config, k) + Gone(config, i) == Gone(config, i);
    hide Gone, StageJob;
  }

  /** So a further call after k passes is harmless if and only if those passes had found
      nothing, or two passes or more would not read their intermediates back anyway. */
  lemma RetryHarmlessIff(disk: Disk, config: MergeConfig, k: nat)
    requires ClearGround(disk, config) && UsesTree(config) && ReadWhereDeleted(JobOf(config))
    requires k <= StageCount(InOrder(config.chunks))
    ensures
      TreeOutput(StagesDone(disk, config, k), config) == TreeOutput(disk, config) <==>
        Seen(disk.files, config, k) == [] || (StageCount(InOrder(config.chunks)) > 1 && !Readable(config))
  {
    hide InOrder, StagesDone, ClearGround, TreeOutput, Seen, Readable, UsesTree, ReadWhereDeleted, LeftBlocks,
         SeenBlocks, Concat, StageOutput, StageCount;
    RetryKeepsOutputIff(disk, config, k);
    SeenNothingIff(disk.files, config, k);
    forall i: nat | i < StageCount(InOrder(config.chunks))
      ensures LeftBlocks(disk.files, config, i, k) == SeenBlocks(disk.files, config, i)
        <==> k <= i || Concat(SeenBlocks(disk.files, config, i)) == []
    {
      if k <= i { LaterPassesSame(disk.files, config, i, k); } else { RetryErasesFinishedPasses(disk, config, k, i); }
    }
  }
}
