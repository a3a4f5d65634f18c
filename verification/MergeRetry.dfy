/** Two calls of StreamMerge on one job: what the second makes of what a first one that
    stopped in its loop has left.
 */
module MergeRetry {
  import opened Options
  import opened MergeModel
  import opened MergeCrash
  import opened StreamMerge

  /** Where a call resumes after the checkpoint saved last, if any was. */
  function ResumeFrom(job: Job, saved: Option<int>): nat {
    match saved
    case None => 0
    case Some(index) => ResumePosition(job, index)
  }

  /** The second call's output: what the first appended, whole and torn, and everything
      from the position its last saved checkpoint names. */
  lemma SecondCall(
      d0: Disk, d1: Disk, d2: Disk, job: Job, loop: nat -> Trouble, error: Error, at: nat, weather: Weather,
      result: Result)
    requires FreshDisk(d0, job) && Separate(job) && StoppedAt(d0, d1, job, loop, error, at)
    requires result.Done? && Merged(d1, d2, job, weather, result)
    ensures
      var b := Blocks(d0.files, job);
      var from := ResumeFrom(job, LastSaved(b, job, loop, 0, at));
      && at < |b| && from <= |b|
      && Content(d2.files, job.output) == Concat(b[..at]) + Left(b[at], loop(at), error) + Concat(b[from..])
  {
    var b := Blocks(d0.files, job);
    var from := ResumeFrom(job, LastSaved(b, job, loop, 0, at));
    LeftByFirst(d0, d1, job, loop, error, at);
    assert Content(d2.files, job.output) == Content(MergedDisk(d1, job).files, job.output);
    MergedContent(d1, job);
    hide MergedDisk, Merged, StoppedAt, Blocks, Concat, Left, LastSaved, Separate, StartPosition, ResumePosition;
    assert from == StartPosition(d1, job) <= |job.chunks|;
  }

  lemma MergedContent(disk: Disk, job: Job)
    ensures StartPosition(disk, job) <= |job.chunks|
    ensures
      Content(MergedDisk(disk, job).files, job.output) ==
      Content(disk.files, Partial(job.output)) + Concat(Blocks(disk.files, job)[StartPosition(disk, job)..])
  {
    PartialIsAnother(job.output);
    hide Blocks, Concat, Partial, Paths;
  }

  /** What the second call finds. */
  lemma LeftByFirst(d0: Disk, d1: Disk, job: Job, loop: nat -> Trouble, error: Error, at: nat)
    requires FreshDisk(d0, job) && Separate(job) && StoppedAt(d0, d1, job, loop, error, at)
    ensures
      var b := Blocks(d0.files, job);
      && at < |b| && Blocks(d1.files, job) == b
      && StartPosition(d1, job) == ResumeFrom(job, LastSaved(b, job, loop, 0, at))
      && Content(d1.files, Partial(job.output)) == Concat(b[..at]) + Left(b[at], loop(at), error)
  {
    var b := Blocks(d0.files, job);
    var more := Concat(b[..at]) + Left(b[at], loop(at), error);
    assert StartPosition(d0, job) == 0 && b[0..at] == b[..at];
    GrownKeepsBlocks(d0.files, job, more);
    hide Blocks, Concat, Left, LastSaved, Unstopped, StopsAt, Separate, Blamed;
    assert Content(d0.files, Partial(job.output)) + more == more;
  }

  /** Every chunk before position at that was appended is covered by a saved checkpoint. */
  ghost predicate AllSaved(b: seq<Bytes>, loop: nat -> Trouble, at: nat)
    requires at <= |b|
  {
    forall q | 0 <= q < at && b[q] != [] && loop(q).SaveFails? ::
      exists p :: q < p < at && b[p] != [] && !loop(p).SaveFails?
  }

  lemma {:induction false} SavedCoversIff(b: seq<Bytes>, job: Job, loop: nat -> Trouble, at: nat)
    requires at <= |b| == |job.chunks| && forall p | 0 <= p < |b| :: job.chunks[p].index == p
    ensures
      var from := ResumeFrom(job, LastSaved(b, job, loop, 0, at));
      && from <= at && (from > 0 ==> b[from - 1] != [] && !loop(from - 1).SaveFails?)
      && forall q | from <= q < at && b[q] != [] :: loop(q).SaveFails?
  {
    if at > 0 && (b[at - 1] == [] || loop(at - 1).SaveFails?) {
      SavedCoversIff(b, job, loop, at - 1);
    }
  }

  lemma ConcatSplit(b: seq<Bytes>, i: nat)
    requires i <= |b|
    ensures Concat(b) == Concat(b[..i]) + Concat(b[i..])
  {
    assert b == b[..i] + b[i..];
    ConcatAppend(b[..i], b[i..]);
  }

  lemma {:induction false} ConcatEmptyIff(b: seq<Bytes>, i: nat, j: nat)
    requires i <= j <= |b|
    ensures Concat(b[i..j]) == [] <==> forall q | i <= q < j :: b[q] == []
    decreases j
  {
    if i < j {
      ConcatEmptyIff(b, i, j - 1);
      assert b[i..j][..j - 1 - i] == b[i..j - 1];
    }
  }

  /** With indexes 0 .. n-1: the second call's output is that of one undisturbed call if and
      only if the first tore no bytes into the partial file and left no appended chunk
      without a checkpoint that covers it. */
  lemma RetryExactIff(b: seq<Bytes>, job: Job, loop: nat -> Trouble, error: Error, at: nat)
    requires at < |b| == |job.chunks| && forall p | 0 <= p < |b| :: job.chunks[p].index == p
    ensures
      var from := ResumeFrom(job, LastSaved(b, job, loop, 0, at));
      && from <= |b|
      && (Concat(b[..at]) + Left(b[at], loop(at), error) + Concat(b[from..]) == Concat(b)
          <==> Left(b[at], loop(at), error) == [] && AllSaved(b, loop, at))
  {
    var from := ResumeFrom(job, LastSaved(b, job, loop, 0, at));
    SavedCoversIff(b, job, loop, at);
    hide Left, LastSaved, ResumeFrom, Concat, AllSaved;
    RepeatedIff(b, from, at, Left(b[at], loop(at), error));
    ConcatEmptyIff(b, from, at);
    SavedIsCovered(b, loop, from, at);
  }

  /** Extra bytes x, and a second start that goes back to `from`. */
  lemma RepeatedIff(b: seq<Bytes>, from: nat, at: nat, x: Bytes)
    requires from <= at <= |b|
    ensures Concat(b[..at]) + x + Concat(b[from..]) == Concat(b) <==> x == [] && Concat(b[from..at]) == []
  {
    hide Concat;
    assert Concat(b) == Concat(b[..at]) + Concat(b[at..]) by { ConcatSplit(b, at); }
    assert Concat(b[from..]) == Concat(b[from..at]) + Concat(b[at..]) by {
      ConcatSplit(b[from..], at - from);
      assert b[from..][..at - from] == b[from..at] && b[from..][at - from..] == b[at..];
    }
    Inserted(Concat(b[..at]), x, Concat(b[from..at]), Concat(b[at..]));
  }

  lemma Inserted(front: Bytes, x: Bytes, again: Bytes, rest: Bytes)
    ensures front + x + (again + rest) == front + rest <==> x == [] && again == []
  {
    if x == [] && again == [] {
      assert front + [] + ([] + rest) == front + rest;
    } else {
      assert |front + x + (again + rest)| > |front + rest|;
    }
  }

  lemma SavedIsCovered(b: seq<Bytes>, loop: nat -> Trouble, from: nat, at: nat)
    requires from <= at <= |b| && (from > 0 ==> b[from - 1] != [] && !loop(from - 1).SaveFails?)
    requires forall q | from <= q < at && b[q] != [] :: loop(q).SaveFails?
    ensures AllSaved(b, loop, at) <==> forall q | from <= q < at :: b[q] == []
  {
    if forall q | from <= q < at :: b[q] == [] {
      forall q | 0 <= q < at && b[q] != [] && loop(q).SaveFails?
        ensures exists p :: q < p < at && b[p] != [] && !loop(p).SaveFails?
      {
        assert q < from - 1 < at;
      }
    }
  }

  lemma MustStop(d0: Disk, d1: Disk, job: Job, weather: Weather, result: Result)
    requires FreshDisk(d0, job) && weather.setup.None?
    requires exists q | 0 <= q < |job.chunks| :: StopsAt(d0, job, q, weather.loop(q))
    requires result.Done? <==> GetsThrough(d0, job, weather)
    requires result.Failed? ==> Broken(d0, d1, job, weather, result.error)
    ensures result.Failed? && StoppedSomewhere(d0, d1, job, weather.loop, result.error)
  {
    hide StopsAt;
  }

  lemma NothingTorn(d0: Disk, d1: Disk, job: Job, loop: nat -> Trouble, error: Error, at: nat)
    requires StoppedAt(d0, d1, job, loop, error, at)
    requires forall q | 0 <= q < |job.chunks| :: loop(q) in {Fine, Cancel, StatFails, OpenFails}
    ensures
      var b := Blocks(d0.files, job);
      at < |b| && Left(b[at], loop(at), error) == [] && AllSaved(b, loop, at) && d1.dirs == d0.dirs
  {
    hide Blocks, Concat, StopsAt;
  }

  lemma StaysSmooth(d0: Disk, d1: Disk, job: Job, weather: Weather)
    requires d1.dirs == d0.dirs && Smooth(d0, job, weather)
    ensures Smooth(d1, job, weather)
  {
  }

  /** The job comes again after a call that was cancelled, or could not examine or open a
      chunk: with indexes 0 .. n-1 and no checkpoint failing to save, the second call
      leaves every chunk once, in order. */
  method MergeAgain(merger: Merger, config: MergeConfig, first: Weather, second: Weather) returns (result: Result)
    requires Accepted(config) && Separate(JobOf(config)) && FreshDisk(merger.disk, JobOf(config))
    requires forall p | 0 <= p < |JobOf(config).chunks| :: JobOf(config).chunks[p].index == p
    requires first.setup.None?
    requires exists q | 0 <= q < |JobOf(config).chunks| :: StopsAt(merger.disk, JobOf(config), q, first.loop(q))
    requires forall q | 0 <= q < |JobOf(config).chunks| :: first.loop(q) in {Fine, Cancel, StatFails, OpenFails}
    requires Smooth(merger.disk, JobOf(config), second)
    modifies merger
    ensures result.Done?
    ensures
      Content(merger.disk.files, OutputPath(config)) == Concat(Blocks(old(merger.disk.files), JobOf(config)))
  {
    ghost var d0, job, events := merger.disk, JobOf(config), [];
    assert job.output == OutputPath(config);
    hide JobOf, Separate, FreshDisk, Smooth, StopsAt, Accepted, StoppedAt, Broken, GetsThrough, Merged, Ended, Blocks;
    var failed;
    failed, events := merger.StreamMerge(config, first);
    ghost var d1 := merger.disk;
    MustStop(d0, d1, job, first, failed);
    ghost var at: nat :| StoppedAt(d0, d1, job, first.loop, failed.error, at);
    NothingTorn(d0, d1, job, first.loop, failed.error, at);
    StaysSmooth(d0, d1, job, second);
    result, events := merger.StreamMerge(config, second);
    SecondCall(d0, d1, merger.disk, job, first.loop, failed.error, at, second, result);
    RetryExactIff(Blocks(d0.files, job), job, first.loop, failed.error, at);
  }
}
