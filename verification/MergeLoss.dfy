/** What StreamMerge of internal/dataset/merge.go may lose or repeat, over every run:
    torn appends, failed checkpoints, and crashes while a checkpoint lags included.
 */
module MergeLoss {
  import opened MergeModel
  import opened Options
  import opened MergeCrash

  /** The first m chunks occur in `out` whole, in order and apart, with anything
      between them. */
  predicate Covers(out: Bytes, b: seq<Bytes>, m: nat)
    requires m <= |b|
    decreases m
  {
    m == 0 || exists k | 0 <= k <= |out| :: EndsAt(out, b[m - 1], k) && Covers(out[..k], b, m - 1)
  }

  predicate EndsAt(out: Bytes, block: Bytes, k: nat) {
    k + |block| <= |out| && out[k..k + |block|] == block
  }

  lemma CoversAt(out: Bytes, b: seq<Bytes>, m: nat, k: nat)
    requires 0 < m <= |b| && k <= |out| && EndsAt(out, b[m - 1], k) && Covers(out[..k], b, m - 1)
    ensures Covers(out, b, m)
  {
  }

  lemma CoversSplit(out: Bytes, b: seq<Bytes>, m: nat) returns (k: nat)
    requires 0 < m <= |b| && Covers(out, b, m)
    ensures k <= |out| && EndsAt(out, b[m - 1], k) && Covers(out[..k], b, m - 1)
  {
    k :| 0 <= k <= |out| && EndsAt(out, b[m - 1], k) && Covers(out[..k], b, m - 1);
  }

  lemma {:induction false} CoversMore(out: Bytes, x: Bytes, b: seq<Bytes>, m: nat)
    requires m <= |b| && Covers(out, b, m)
    ensures Covers(out + x, b, m)
  {
    if m > 0 {
      var k := CoversSplit(out, b, m);
      assert (out + x)[..k] == out[..k];
      assert (out + x)[k..k + |b[m - 1]|] == out[k..k + |b[m - 1]|];
      CoversAt(out + x, b, m, k);
    }
  }

  lemma CoversOneFewer(out: Bytes, b: seq<Bytes>, m: nat)
    requires 0 < m <= |b| && Covers(out, b, m)
    ensures Covers(out, b, m - 1)
  {
    hide Covers, EndsAt;
    var k := CoversSplit(out, b, m);
    assert out[..k] + out[k..] == out;
    CoversMore(out[..k], out[k..], b, m - 1);
  }

  lemma {:induction false} CoversFewer(out: Bytes, b: seq<Bytes>, m: nat, m0: nat)
    requires m0 <= m <= |b| && Covers(out, b, m)
    ensures Covers(out, b, m0)
    decreases m
  {
    hide Covers;
    if m0 < m {
      CoversOneFewer(out, b, m);
      CoversFewer(out, b, m - 1, m0);
    }
  }

  lemma CoversNext(out: Bytes, b: seq<Bytes>, m: nat)
    requires m < |b| && Covers(out, b, m)
    ensures Covers(out + b[m], b, m + 1)
  {
    assert (out + b[m])[..|out|] == out;
    assert (out + b[m])[|out|..|out| + |b[m]|] == b[m];
    CoversAt(out + b[m], b, m + 1, |out|);
  }

  /** Every contributing chunk before j is before i. */
  ghost predicate NoneBetween(b: seq<Bytes>, i: nat, j: nat) {
    forall q | 0 <= q < |b| && b[q] != [] && q < j :: q < i
  }

  lemma {:induction false} CoversSkipping(out: Bytes, b: seq<Bytes>, i: nat, j: nat)
    requires i <= |b| && j <= |b| && Covers(out, b, i) && NoneBetween(b, i, j)
    ensures Covers(out, b, j)
    decreases j
  {
    if j <= i {
      CoversFewer(out, b, i, j);
    } else {
      CoversSkipping(out, b, i, j - 1);
      assert b[j - 1] == [];
      CoversNext(out, b, j - 1);
      assert out + [] == out;
    }
  }

  lemma {:induction false} CoversLength(out: Bytes, b: seq<Bytes>, m: nat)
    requires m <= |b| && Covers(out, b, m)
    ensures |out| >= |Concat(b[..m])|
    decreases m
  {
    if m > 0 {
      var k := CoversSplit(out, b, m);
      CoversLength(out[..k], b, m - 1);
      assert b[..m][..m - 1] == b[..m - 1];
    }
  }

  /** No checkpoint points past a contributing chunk that comes after its own. */
  ghost predicate NeverAhead(b: seq<Bytes>, job: Job)
    requires |b| == |job.chunks|
  {
    forall p, q | 0 <= p < q < |b| && b[p] != [] && b[q] != [] :: job.chunks[p].index < q
  }

  function Reached(s: State, job: Job): nat {
    Position(s, job) + if s.phase.Written? then 1 else 0
  }

  ghost predicate Progress(s: State, job: Job, b: seq<Bytes>) {
    && Reached(s, job) <= |b|
    && Blocks(s.disk.files, job) == b
    && (s.phase.Written? ==> b[s.phase.pos] != [])
    && Covers(Content(s.disk.files, Partial(job.output)), b, Reached(s, job))
    && NoneBetween(b, Reached(s, job), StartPosition(s.disk, job))
  }

  /** Either all is in the partial file, or no chunk has been touched and the
      checkpoint is not ahead. */
  ghost predicate Kept(s: State, job: Job, b: seq<Bytes>) {
    && |b| == |job.chunks|
    && (if Over(s) then Covers(Output(s, job), b, |b|)
        else Covers(Content(s.disk.files, Partial(job.output)), b, |b|) || Progress(s, job, b))
  }

  lemma ContentGrows(s: State, job: Job, e: Event)
    requires Separate(job) && Enabled(s, job, e) && !Over(s) && !e.Rename?
    ensures Content(s.disk.files, Partial(job.output)) <= Content(Step(s, job, e).disk.files, Partial(job.output))
    ensures !Over(Step(s, job, e))
  {
    hide Block, StartPosition, Partial;
    if e.Delete? { assert job.chunks[s.phase.todo] in job.chunks; }
  }

  lemma AllCoveredStays(s: State, job: Job, b: seq<Bytes>, e: Event)
    requires Separate(job) && Enabled(s, job, e) && |b| == |job.chunks| && !Over(s)
    requires Covers(Content(s.disk.files, Partial(job.output)), b, |b|)
    ensures Kept(Step(s, job, e), job, b)
  {
    hide Covers, Separate, Progress, Partial;
    if e.Rename? {
      RenameMoves(s, job);
    } else {
      ContentGrows(s, job, e);
      hide Step, Enabled, Content;
      var before := Content(s.disk.files, Partial(job.output));
      var after := Content(Step(s, job, e).disk.files, Partial(job.output));
      CoversMore(before, after[|before|..], b, |b|);
      assert before + after[|before|..] == after;
    }
  }

  lemma RenameMoves(s: State, job: Job)
    requires Enabled(s, job, Rename)
    ensures Over(Step(s, job, Rename))
    ensures Output(Step(s, job, Rename), job) == Content(s.disk.files, Partial(job.output))
  {
    PartialIsAnother(job.output);
    hide Partial;
  }

  lemma StartProgress(s: State, job: Job, b: seq<Bytes>)
    requires Separate(job) && Progress(s, job, b) && Enabled(s, job, Start)
    ensures Progress(Step(s, job, Start), job, b)
  {
    hide Covers, Blocks, Separate, NoneBetween;
    GrownKeepsBlocks(s.disk.files, job, []);
    assert Content(s.disk.files, Partial(job.output)) + [] == Content(s.disk.files, Partial(job.output));
  }

  lemma SkipProgress(s: State, job: Job, b: seq<Bytes>)
    requires Progress(s, job, b) && Enabled(s, job, Skip)
    ensures Progress(Step(s, job, Skip), job, b)
  {
    hide Covers, Block;
    var i := s.phase.next;
    assert b[i] == Blocks(s.disk.files, job)[i] == [];
    CoversSkipping(Content(s.disk.files, Partial(job.output)), b, i, i + 1);
  }

  lemma AppendProgress(s: State, job: Job, b: seq<Bytes>)
    requires Separate(job) && Progress(s, job, b) && Enabled(s, job, Append)
    ensures Progress(Step(s, job, Append), job, b)
  {
    hide Covers, Block, Separate;
    var i := s.phase.next;
    assert b[i] == Blocks(s.disk.files, job)[i];
    GrownKeepsBlocks(s.disk.files, job, b[i]);
    CoversNext(Content(s.disk.files, Partial(job.output)), b, i);
  }

  lemma SaveProgress(s: State, job: Job, b: seq<Bytes>)
    requires |b| == |job.chunks| && NeverAhead(b, job) && Progress(s, job, b) && Enabled(s, job, Save)
    ensures Progress(Step(s, job, Save), job, b)
  {
    hide Covers, Blocks;
  }

  /** A crash, after `x` more bytes. */
  lemma CrashProgress(s: State, job: Job, b: seq<Bytes>, s': State, x: Bytes)
    requires Separate(job) && Progress(s, job, b) && s'.phase.Idle? && |b| == |job.chunks|
    requires s'.disk == s.disk.(files := s'.disk.files)
    requires s'.disk.files == s.disk.files || s'.disk.files == Grown(s.disk.files, Partial(job.output), x)
    ensures Progress(s', job, b)
  {
    hide Covers, Blocks, Separate, NoneBetween;
    GrownKeepsBlocks(s.disk.files, job, x);
    var before := Content(s.disk.files, Partial(job.output));
    CoversMore(before, x, b, Reached(s, job));
    CoversSkipping(Content(s'.disk.files, Partial(job.output)), b, Reached(s, job), StartPosition(s.disk, job));
    NoneBetweenSame(b, StartPosition(s.disk, job));
  }

  lemma NoneBetweenSame(b: seq<Bytes>, i: nat)
    ensures NoneBetween(b, i, i)
  {
  }

  lemma StepKeepsAll(s: State, job: Job, b: seq<Bytes>, e: Event)
    requires Separate(job) && |b| == |job.chunks| && NeverAhead(b, job) && Kept(s, job, b)
    ensures Kept(Next(s, job, e), job, b)
  {
    hide Covers, Progress, Separate, NeverAhead;
    if Enabled(s, job, e) && !Over(s) {
      if Covers(Content(s.disk.files, Partial(job.output)), b, |b|) {
        AllCoveredStays(s, job, b, e);
      } else {
        match e
        case Start => StartProgress(s, job, b);
        case Skip => SkipProgress(s, job, b);
        case Append => AppendProgress(s, job, b);
        case Save => SaveProgress(s, job, b);
        case TearCrash(k) => CrashProgress(s, job, b, Step(s, job, e), BlockAt(s, job, s.phase.next)[..k]);
        case Crash => CrashProgress(s, job, b, Step(s, job, e), []);
        case _ => RestProgress(s, job, b, e);
      }
    }
  }

  lemma RestProgress(s: State, job: Job, b: seq<Bytes>, e: Event)
    requires Enabled(s, job, e) && Progress(s, job, b) && |b| == |job.chunks|
    requires !Covers(Content(s.disk.files, Partial(job.output)), b, |b|)
    requires e.SaveFails? || e.BeginCleanup? || e.Delete? || e.Rename?
    ensures Kept(Step(s, job, e), job, b)
  {
    hide Covers, Blocks;
  }

  lemma {:induction false} RunKeepsAll(disk: Disk, job: Job, events: seq<Event>)
    requires FreshDisk(disk, job) && Separate(job) && NeverAhead(Blocks(disk.files, job), job)
    ensures Kept(Run(Initial(disk, job), job, events), job, Blocks(disk.files, job))
  {
    hide Kept, Next, Separate, NeverAhead;
    if events == [] {
      assert Kept(Initial(disk, job), job, Blocks(disk.files, job)) by { InitialKept(disk, job); }
    } else {
      var before := events[..|events| - 1];
      RunKeepsAll(disk, job, before);
      StepKeepsAll(Run(Initial(disk, job), job, before), job, Blocks(disk.files, job), events[|events| - 1]);
    }
  }

  lemma InitialKept(disk: Disk, job: Job)
    requires FreshDisk(disk, job)
    ensures Kept(Initial(disk, job), job, Blocks(disk.files, job))
  {
  }

  ghost predicate NothingLost(disk: Disk, job: Job) {
    forall events ::
      var s := Run(Initial(disk, job), job, events);
      Over(s) ==> Covers(Output(s, job), Blocks(disk.files, job), |job.chunks|)
  }

  /** In every run with any crashes and any failed checkpoints all chunks reach the
      output, whole and in order, exactly when no checkpoint index reaches past a
      later contributing chunk. */
  lemma NothingLostIff(disk: Disk, job: Job)
    requires FreshDisk(disk, job) && Separate(job)
    ensures NothingLost(disk, job) <==> NeverAhead(Blocks(disk.files, job), job)
  {
    hide Separate, Covers, Run;
    var b := Blocks(disk.files, job);
    if NeverAhead(b, job) {
      forall events ensures Kept(Run(Initial(disk, job), job, events), job, b) {
        RunKeepsAll(disk, job, events);
      }
    } else {
      var p, q :| 0 <= p < q < |b| && b[p] != [] && b[q] != [] && q <= job.chunks[p].index;
      LosingRun(disk, job, p, q);
    }
  }

  lemma LosingRun(disk: Disk, job: Job, p: nat, q: nat)
    requires FreshDisk(disk, job) && Separate(job) && p < q < |job.chunks| && q <= job.chunks[p].index
    requires Blocks(disk.files, job)[p] != [] && Blocks(disk.files, job)[q] != []
    ensures !NothingLost(disk, job)
  {
    hide Separate, Covers, Run, Blocks, FreshDisk, CrashAt;
    var b := Blocks(disk.files, job);
    var r := ResumePosition(job, job.chunks[p].index);
    CrashAtOutput(disk, job, p + 1, r, true);
    var s := Run(Initial(disk, job), job, CrashAt(b, p + 1, r, true));
    assert b == b[..p + 1] + b[p + 1..];
    ConcatAppend(b[..p + 1], b[p + 1..]);
    TailLonger(b, p + 1, r, q);
    assert b[..|b|] == b;
    if Covers(Output(s, job), b, |b|) {
      CoversLength(Output(s, job), b, |b|);
    }
  }

  // ---- Merging again ---------------------------------------------------------------

  /** Chunks are read where they are deleted, and none is the output. */
  ghost predicate OwnFiles(job: Job) {
    forall c | c in job.chunks :: Resolve(job.strategy, job.mount, c.path) == Some(c.path) && c.path != job.output
  }

  ghost predicate Gone(files: Files, job: Job, m: nat) {
    forall q | 0 <= q < m && q < |job.chunks| :: job.chunks[q].path !in files
  }

  ghost predicate Deleting(s: State, job: Job) {
    match s.phase
    case Cleaning(todo) => Gone(s.disk.files, job, todo)
    case Renamed => Gone(s.disk.files, job, |job.chunks|) && Partial(job.output) !in s.disk.files
    case Finished => Gone(s.disk.files, job, |job.chunks|) && Partial(job.output) !in s.disk.files
    case _ => true
  }

  lemma StepDeletes(s: State, job: Job, e: Event)
    requires OwnFiles(job) && Deleting(s, job)
    ensures Deleting(Next(s, job, e), job)
  {
    PartialIsAnother(job.output);
    forall q | 0 <= q < |job.chunks| ensures job.chunks[q].path != job.output {
      assert job.chunks[q] in job.chunks;
    }
  }

  lemma {:induction false} RunDeletes(disk: Disk, job: Job, events: seq<Event>)
    requires OwnFiles(job)
    ensures Deleting(Run(Initial(disk, job), job, events), job)
  {
    hide OwnFiles, Deleting, Next;
    if events == [] {
      assert Deleting(Initial(disk, job), job) by { InitialDeletes(disk, job); }
    } else {
      var before := events[..|events| - 1];
      RunDeletes(disk, job, before);
      StepDeletes(Run(Initial(disk, job), job, before), job, events[|events| - 1]);
    }
  }

  lemma InitialDeletes(disk: Disk, job: Job)
    ensures Deleting(Initial(disk, job), job)
  {
  }

  ghost predicate NothingToMerge(s: State, job: Job) {
    && (forall i | 0 <= i < |job.chunks| :: BlockAt(s, job, i) == [])
    && Content(s.disk.files, Partial(job.output)) == []
    && (!s.phase.Idle? && !Over(s) ==> Partial(job.output) in s.disk.files)
    && !s.phase.Written?
  }

  lemma StepMergesNothing(s: State, job: Job, e: Event)
    requires Separate(job) && if Over(s) then Output(s, job) == [] else NothingToMerge(s, job)
    ensures var s' := Next(s, job, e); if Over(s') then Output(s', job) == [] else NothingToMerge(s', job)
  {
    if Enabled(s, job, e) && !Over(s) && !e.Rename? {
      var s' := Next(s, job, e);
      forall i | 0 <= i < |job.chunks| ensures BlockAt(s', job, i) == [] {
        assert BlockAt(s, job, i) == [];
        assert job.chunks[i] in job.chunks;
      }
      if e.Delete? { assert job.chunks[s.phase.todo] in job.chunks; }
    }
  }

  lemma {:induction false} RunMergesNothing(s: State, job: Job, events: seq<Event>)
    requires Separate(job) && s.phase.Idle? && NothingToMerge(s, job)
    ensures var s' := Run(s, job, events); if Over(s') then Output(s', job) == [] else NothingToMerge(s', job)
  {
    if events != [] {
      hide Next, Separate, NothingToMerge;
      RunMergesNothing(s, job, events[..|events| - 1]);
      StepMergesNothing(Run(s, job, events[..|events| - 1]), job, events[|events| - 1]);
    }
  }

  /** Running a merge again once its output was renamed into place, with the same chunks
      or only some of them: they are gone, so an empty file replaces the output. */
  lemma MergingAgainErases(disk: Disk, job: Job, events: seq<Event>, left: seq<ChunkInfo>, again: seq<Event>)
    requires Separate(job) && OwnFiles(job) && forall c | c in left :: c in job.chunks
    requires Over(Run(Initial(disk, job), job, events))
    ensures
      var s, second := Run(Initial(disk, job), job, events), job.(chunks := left);
      var s' := Run(Initial(s.disk, second), second, again);
      Over(s') ==> Output(s', second) == []
  {
    hide Run;
    RunDeletes(disk, job, events);
    var s, second := Run(Initial(disk, job), job, events), job.(chunks := left);
    forall i | 0 <= i < |left| ensures Block(s.disk.files, second, left[i]) == [] {
      assert left[i] in left && left[i] in job.chunks;
    }
    RunMergesNothing(Initial(s.disk, second), second, again);
  }
}
