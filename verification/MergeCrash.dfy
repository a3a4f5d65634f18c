/** StreamMerge of internal/dataset/merge.go as a sequence of disk effects, with a
    crash possible between any two and inside an append. A crash also stands for
    an early error return: both leave the disk as it is.
 */
module MergeCrash {
  import opened MergeModel

  datatype Phase =
    | Idle
    | Merging(next: nat)
    | Written(pos: nat)
    | Cleaning(todo: nat)
    | Renamed
    | Finished

  /** The last three are history. `tears[q]`: how many bytes of chunk q, to be merged
      again, each crash left in the partial file. `unsaved`: the chunks this call
      appended since it last saved a checkpoint. `staleCrash`: some crash left a chunk to
      be merged again that was not the last in the partial file. */
  datatype State = State(disk: Disk, phase: Phase, tears: seq<seq<nat>>, unsaved: seq<nat>, staleCrash: bool)

  datatype Event =
    | Start
    | Skip
    | Append
    | Save
    | SaveFails
    | BeginCleanup
    | Delete
    | Rename
    | Clear
    /** Dies having put k bytes of the current chunk on disk. */
    | TearCrash(k: nat)
    | Crash

  function BlockAt(s: State, job: Job, i: nat): Bytes
    requires i < |job.chunks|
  {
    Block(s.disk.files, job, job.chunks[i])
  }

  predicate Enabled(s: State, job: Job, e: Event) {
    match e
    case Start => s.phase.Idle?
    case Skip => s.phase.Merging? && s.phase.next < |job.chunks| && BlockAt(s, job, s.phase.next) == []
    case Append => s.phase.Merging? && s.phase.next < |job.chunks| && BlockAt(s, job, s.phase.next) != []
    case Save => s.phase.Written? && s.phase.pos < |job.chunks|
    case SaveFails => s.phase.Written? && s.phase.pos < |job.chunks|
    case BeginCleanup => s.phase.Merging? && s.phase.next == |job.chunks|
    case Delete => s.phase.Cleaning? && s.phase.todo < |job.chunks|
    case Rename => s.phase.Cleaning? && s.phase.todo == |job.chunks| && Partial(job.output) in s.disk.files
    case Clear => s.phase.Renamed?
    case TearCrash(k) =>
      && s.phase.Merging? && s.phase.next < |job.chunks| && s.phase.next < |s.tears|
      && k <= |BlockAt(s, job, s.phase.next)|
    case Crash =>
      || s.phase.Merging? || s.phase.Cleaning? || (s.phase.Written? && s.phase.pos < |job.chunks|)
  }

  function Grown(files: Files, partial: Path, more: Bytes): Files {
    files[partial := Content(files, partial) + more]
  }

  function Torn(tears: seq<seq<nat>>, q: nat, k: nat): seq<seq<nat>>
    requires q < |tears|
  {
    tears[q := tears[q] + [k]]
  }

  predicate Readable(s: State, job: Job, q: nat) {
    q < |job.chunks| && q < |s.tears| && BlockAt(s, job, q) != []
  }

  /** A restart merges one of these chunks again. */
  predicate Again(s: State, job: Job, chunks: seq<nat>) {
    exists q | q in chunks :: Readable(s, job, q)
  }

  /** Dies with the chunks of `unsaved` appended whole. */
  function Died(s: State, job: Job): State {
    var n := |s.unsaved|;
    if n == 0 then s.(phase := Idle)
    else
      var last := s.unsaved[n - 1];
      s.(phase := Idle, unsaved := [], staleCrash := s.staleCrash || Again(s, job, s.unsaved[..n - 1]),
         tears := if Readable(s, job, last) then Torn(s.tears, last, |BlockAt(s, job, last)|) else s.tears)
  }

  function Step(s: State, job: Job, e: Event): State
    requires Enabled(s, job, e)
  {
    var files, partial := s.disk.files, Partial(job.output);
    match e
    case Start =>
      s.(disk := s.disk.(files := Grown(files, partial, [])), phase := Merging(StartPosition(s.disk, job)))
    case Skip => s.(phase := Merging(s.phase.next + 1))
    case Append =>
      s.(disk := s.disk.(files := Grown(files, partial, BlockAt(s, job, s.phase.next))), phase := Written(s.phase.next),
         unsaved := s.unsaved + [s.phase.next])
    case Save =>
      s.(disk := s.disk.(checkpoints := s.disk.checkpoints[job.output := job.chunks[s.phase.pos].index]),
         phase := Merging(s.phase.pos + 1), unsaved := [])
    case SaveFails => s.(phase := Merging(s.phase.pos + 1))
    case BeginCleanup => s.(phase := Cleaning(0))
    case Delete =>
      s.(disk := s.disk.(files := files - {job.chunks[s.phase.todo].path}), phase := Cleaning(s.phase.todo + 1))
    case Rename =>
      s.(disk := s.disk.(files := files[job.output := files[partial]] - {partial}), phase := Renamed)
    case Clear => s.(disk := s.disk.(checkpoints := s.disk.checkpoints - {job.output}), phase := Finished)
    case TearCrash(k) =>
      var torn := s.(disk := s.disk.(files := Grown(files, partial, BlockAt(s, job, s.phase.next)[..k])));
      if k == 0 then Died(torn, job)
      else
        torn.(phase := Idle, unsaved := [], staleCrash := s.staleCrash || Again(s, job, s.unsaved),
              tears := Torn(s.tears, s.phase.next, k))
    case Crash => Died(s, job)
  }

  /** An event that is not enabled changes nothing. */
  function Next(s: State, job: Job, e: Event): State {
    if Enabled(s, job, e) then Step(s, job, e) else s
  }

  function Run(s: State, job: Job, events: seq<Event>): State {
    if events == [] then s else Next(Run(s, job, events[..|events| - 1]), job, events[|events| - 1])
  }

  function Initial(disk: Disk, job: Job): State {
    State(disk, Idle, seq(|job.chunks|, _ => []), [], false)
  }

  /** Nothing of an earlier merge is left. */
  predicate FreshDisk(disk: Disk, job: Job) {
    Partial(job.output) !in disk.files && job.output !in disk.checkpoints
  }

  predicate IsCrash(e: Event) {
    e.Crash? || e.TearCrash?
  }

  /** Chunk positions and chunk indexes agree where it matters: the checkpoint of
      a contributing chunk separates the contributing chunks as its position does. */
  ghost predicate ResumeSafe(blocks: seq<Bytes>, job: Job)
    requires |blocks| == |job.chunks|
  {
    forall p, q | 0 <= p < |blocks| && 0 <= q < |blocks| && blocks[p] != [] && blocks[q] != [] ::
      q <= p <==> q <= job.chunks[p].index
  }

  // ---- What the partial file holds -----------------------------------------------

  /** The remains of chunk `block` left by crashes. */
  function Remains(block: Bytes, tears: seq<nat>): Bytes {
    if tears == [] then []
    else
      var k := tears[|tears| - 1];
      Remains(block, tears[..|tears| - 1]) + block[..if k <= |block| then k else |block|]
  }

  /** What position q has contributed once the positions before i are done. */
  function Piece(blocks: seq<Bytes>, tears: seq<seq<nat>>, i: nat, q: nat): Bytes
    requires q < |blocks| == |tears|
  {
    Remains(blocks[q], tears[q]) + if q < i then blocks[q] else []
  }

  function Mix(blocks: seq<Bytes>, tears: seq<seq<nat>>, i: nat, m: nat): Bytes
    requires m <= |blocks| == |tears|
  {
    if m == 0 then [] else Mix(blocks, tears, i, m - 1) + Piece(blocks, tears, i, m - 1)
  }

  lemma {:induction false} MixCongruent(b: seq<Bytes>, t1: seq<seq<nat>>, i1: nat, t2: seq<seq<nat>>, i2: nat, m: nat)
    requires m <= |b| == |t1| == |t2|
    requires forall q | 0 <= q < m :: Piece(b, t1, i1, q) == Piece(b, t2, i2, q)
    ensures Mix(b, t1, i1, m) == Mix(b, t2, i2, m)
  {
    if m > 0 { MixCongruent(b, t1, i1, t2, i2, m - 1); }
  }

  /** Pieces from m0 on that are empty add nothing. */
  lemma {:induction false} MixStops(b: seq<Bytes>, t: seq<seq<nat>>, i: nat, m0: nat, m: nat)
    requires m0 <= m <= |b| == |t|
    requires forall q | m0 <= q < m :: Piece(b, t, i, q) == []
    ensures Mix(b, t, i, m) == Mix(b, t, i, m0)
    decreases m
  {
    if m > m0 { MixStops(b, t, i, m0, m - 1); }
  }

  lemma MixMoves(b: seq<Bytes>, t: seq<seq<nat>>, i: nat, j: nat)
    requires i <= |b| == |t| && j <= |b|
    requires forall q | 0 <= q < |b| && b[q] != [] :: q < i <==> q < j
    ensures Mix(b, t, i, |b|) == Mix(b, t, j, |b|)
  {
    MixCongruent(b, t, i, t, j, |b|);
  }

  ghost predicate NothingBeyond(b: seq<Bytes>, t: seq<seq<nat>>, i: nat)
    requires |b| == |t|
  {
    forall p, q | i <= p < q < |b| && b[p] != [] :: t[q] == []
  }

  /** A chunk that contributes is the last to have done so while it is current. */
  lemma MixTop(b: seq<Bytes>, t: seq<seq<nat>>, i: nat, j: nat)
    requires i < |b| == |t| && b[i] != [] && NothingBeyond(b, t, i) && i <= j <= i + 1
    ensures Mix(b, t, j, |b|) == Mix(b, t, j, i) + Piece(b, t, j, i)
  {
    hide Mix;
    forall q | i + 1 <= q < |b| ensures Piece(b, t, j, q) == [] {
      assert t[q] == [];
    }
    MixStops(b, t, j, i + 1, |b|);
    assert Mix(b, t, j, i + 1) == Mix(b, t, j, i) + Piece(b, t, j, i) by { MixStep(b, t, j, i); }
  }

  lemma MixStep(b: seq<Bytes>, t: seq<seq<nat>>, i: nat, m: nat)
    requires m < |b| == |t|
    ensures Mix(b, t, i, m + 1) == Mix(b, t, i, m) + Piece(b, t, i, m)
  {
  }

  lemma PieceGrows(b: seq<Bytes>, t: seq<seq<nat>>, i: nat)
    requires i < |b| == |t|
    ensures Piece(b, t, i + 1, i) == Piece(b, t, i, i) + b[i]
    ensures forall q | 0 <= q < i :: Piece(b, t, i + 1, q) == Piece(b, t, i, q)
  {
  }

  lemma MixAppends(b: seq<Bytes>, t: seq<seq<nat>>, i: nat)
    requires i < |b| == |t| && b[i] != [] && NothingBeyond(b, t, i)
    ensures Mix(b, t, i, |b|) + b[i] == Mix(b, t, i + 1, |b|)
  {
    hide Mix, Piece, NothingBeyond;
    MixTop(b, t, i, i);
    MixTop(b, t, i, i + 1);
    PieceGrows(b, t, i);
    MixCongruent(b, t, i, t, i + 1, i);
  }

  lemma PieceTorn(b: seq<Bytes>, t: seq<seq<nat>>, i: nat, k: nat)
    requires i < |b| == |t| && k <= |b[i]|
    ensures Piece(b, t[i := t[i] + [k]], i, i) == Piece(b, t, i, i) + b[i][..k]
  {
    assert (t[i] + [k])[..|t[i]|] == t[i];
  }

  lemma TornKeepsBeyond(b: seq<Bytes>, t: seq<seq<nat>>, i: nat, k: nat)
    requires i < |b| == |t| && NothingBeyond(b, t, i)
    ensures NothingBeyond(b, t[i := t[i] + [k]], i)
    ensures forall q | 0 <= q < |b| && q != i :: Piece(b, t[i := t[i] + [k]], i, q) == Piece(b, t, i, q)
  {
  }

  lemma MixTears(b: seq<Bytes>, t: seq<seq<nat>>, i: nat, k: nat)
    requires i < |b| == |t| && NothingBeyond(b, t, i) && k <= |b[i]|
    ensures Mix(b, t, i, |b|) + b[i][..k] == Mix(b, t[i := t[i] + [k]], i, |b|)
  {
    hide Mix, Piece, NothingBeyond;
    var u := t[i := t[i] + [k]];
    PieceTorn(b, t, i, k);
    TornKeepsBeyond(b, t, i, k);
    if b[i] == [] {
      MixCongruent(b, t, i, u, i, |b|);
    } else {
      MixTop(b, t, i, i);
      MixTop(b, u, i, i);
      MixCongruent(b, t, i, u, i, i);
    }
  }

  // ---- What every run keeps ------------------------------------------------------

  /** Two loop positions that no chunk tells apart, of those with something in them. */
  ghost predicate Agree(blocks: seq<Bytes>, i: nat, j: nat) {
    forall q | 0 <= q < |blocks| && blocks[q] != [] :: q < i <==> q < j
  }

  /** The position whose chunk comes next. */
  function Position(s: State, job: Job): nat {
    match s.phase
    case Idle => StartPosition(s.disk, job)
    case Merging(next) => next
    case Written(pos) => pos
    case _ => |job.chunks|
  }

  /** Chunks are as they were, but for some already merged that are gone. */
  ghost predicate Remaining(b: seq<Bytes>, now: seq<Bytes>, d: nat) {
    && |now| == |b|
    && (forall q | 0 <= q < |b| :: now[q] == b[q] || now[q] == [])
    && (forall q | d <= q < |b| :: now[q] == b[q])
  }

  ghost predicate TearsFit(b: seq<Bytes>, t: seq<seq<nat>>) {
    |t| == |b| && forall q, j | 0 <= q < |b| && 0 <= j < |t[q]| :: t[q][j] <= |b[q]|
  }

  predicate Over(s: State) {
    s.phase.Renamed? || s.phase.Finished?
  }

  /** The unsaved chunks are in order and the last contributions before position e. */
  ghost predicate Trail(b: seq<Bytes>, unsaved: seq<nat>, e: nat) {
    && (forall k, l | 0 <= k < l < |unsaved| :: unsaved[k] < unsaved[l])
    && (forall k | 0 <= k < |unsaved| :: unsaved[k] < e && unsaved[k] < |b| && b[unsaved[k]] != [])
    && (unsaved != [] ==> forall q | unsaved[|unsaved| - 1] < q < |b| && b[q] != [] :: e <= q)
  }

  /** Of the chunks still there, those before position e are those before the restart
      position `from` and, beyond it, the unsaved ones. */
  ghost predicate Lagging(now: seq<Bytes>, from: nat, unsaved: seq<nat>, e: nat) {
    forall q | 0 <= q < |now| && now[q] != [] ::
      (q < e <==> q < from || q in unsaved) && (q in unsaved ==> from <= q)
  }

  function FirstUnsaved(unsaved: seq<nat>, d: nat): nat {
    if unsaved == [] then d else unsaved[0]
  }

  /** The positions before d are done, and the loop has nothing to merge before it gets to d. */
  ghost predicate Underway(s: State, job: Job, b: seq<Bytes>, safe: bool, d: nat)
    requires |b| == |job.chunks| == |s.tears|
  {
    var i, now := Position(s, job), Blocks(s.disk.files, job);
    var e := if s.phase.Written? then d + 1 else d;
    && i <= |b| && e <= |b| && Agree(now, i, d)
    && (s.phase.Written? ==> i == d && b[d] != [])
    && (s.phase.Idle? ==> s.unsaved == [])
    && (!s.phase.Idle? ==> Partial(job.output) in s.disk.files)
    && Remaining(b, now, d)
    && Trail(b, s.unsaved, e)
    && NothingBeyond(b, s.tears, FirstUnsaved(s.unsaved, d))
    && (safe ==> Lagging(now, StartPosition(s.disk, job), s.unsaved, e))
    && Content(s.disk.files, Partial(job.output)) == Mix(b, s.tears, d, |b|) + (if s.phase.Written? then b[d] else [])
  }

  /** The invariant; b holds the chunks' bytes before the first run. `safe` if it is
      to survive crashes. */
  ghost predicate Inv(s: State, job: Job, b: seq<Bytes>, safe: bool) {
    && |b| == |job.chunks| == |s.tears|
    && TearsFit(b, s.tears)
    && (if Over(s) then Content(s.disk.files, job.output) == Mix(b, s.tears, |b|, |b|)
        else exists d: nat :: Underway(s, job, b, safe, d))
  }

  lemma GrownContent(files: Files, partial: Path, more: Bytes)
    ensures Content(Grown(files, partial, more), partial) == Content(files, partial) + more
  {
  }

  lemma GrownKeepsBlocks(files: Files, job: Job, more: Bytes)
    requires Separate(job)
    ensures Blocks(Grown(files, Partial(job.output), more), job) == Blocks(files, job)
  {
    forall i | 0 <= i < |job.chunks|
      ensures Block(Grown(files, Partial(job.output), more), job, job.chunks[i]) == Block(files, job, job.chunks[i])
    {
      assert job.chunks[i] in job.chunks;
    }
  }

  lemma InvAt(s: State, job: Job, b: seq<Bytes>, safe: bool, d: nat)
    requires |b| == |job.chunks| == |s.tears| && TearsFit(b, s.tears) && !Over(s) && Underway(s, job, b, safe, d)
    ensures Inv(s, job, b, safe)
  {
    hide Underway, TearsFit;
  }

  lemma InitialInv(disk: Disk, job: Job, safe: bool)
    requires FreshDisk(disk, job)
    ensures Inv(Initial(disk, job), job, Blocks(disk.files, job), safe)
  {
    var s, b := Initial(disk, job), Blocks(disk.files, job);
    forall q | 0 <= q < |b| ensures Piece(b, s.tears, 0, q) == [] {
    }
    MixStops(b, s.tears, 0, 0, |b|);
    hide Mix, Blocks;
    assert Underway(s, job, b, safe, 0);
  }

  lemma StartKeeps(s: State, job: Job, b: seq<Bytes>, safe: bool, d: nat)
    requires |b| == |job.chunks| == |s.tears|
    requires Separate(job) && Underway(s, job, b, safe, d) && Enabled(s, job, Start)
    ensures Underway(Step(s, job, Start), job, b, safe, d)
  {
    hide Mix, NothingBeyond, Blocks, Separate, Remaining, Agree, Trail, Lagging;
    GrownKeepsBlocks(s.disk.files, job, []);
  }

  lemma SkipKeeps(s: State, job: Job, b: seq<Bytes>, safe: bool, d: nat)
    requires |b| == |job.chunks| == |s.tears|
    requires Underway(s, job, b, safe, d) && Enabled(s, job, Skip)
    ensures Underway(Step(s, job, Skip), job, b, safe, d)
  {
    hide Mix, Block, NothingBeyond, Remaining, Trail, Lagging;
    assert Blocks(s.disk.files, job)[s.phase.next] == [];
  }

  /** The loop finds a chunk with something in it: all before it are done. */
  lemma DoneUpTo(b: seq<Bytes>, now: seq<Bytes>, t: seq<seq<nat>>, i: nat, d: nat)
    requires i < |b| == |t| && d <= |b| && Remaining(b, now, d) && Agree(now, i, d) && now[i] != []
    ensures d <= i && now[i] == b[i] && Remaining(b, now, i)
    ensures Mix(b, t, d, |b|) == Mix(b, t, i, |b|)
  {
    MixMoves(b, t, d, i);
  }

  lemma AppendTrails(b: seq<Bytes>, now: seq<Bytes>, t: seq<seq<nat>>, unsaved: seq<nat>, i: nat, d: nat)
    requires d <= i < |b| == |now| == |t| && Agree(now, i, d) && now[i] == b[i] != []
    requires Trail(b, unsaved, d) && NothingBeyond(b, t, FirstUnsaved(unsaved, d))
    ensures Trail(b, unsaved + [i], i + 1) && NothingBeyond(b, t, FirstUnsaved(unsaved + [i], i))
    ensures forall from :: Lagging(now, from, unsaved, d) ==> Lagging(now, from, unsaved + [i], i + 1)
  {
  }

  /** What the invariant says at the loop head. */
  lemma AtLoopHead(s: State, job: Job, b: seq<Bytes>, safe: bool, d: nat)
    requires |b| == |job.chunks| == |s.tears| && Underway(s, job, b, safe, d) && s.phase.Merging?
    ensures
      var now := Blocks(s.disk.files, job);
      && s.phase.next <= |b| && d <= |b| && Agree(now, s.phase.next, d) && Remaining(b, now, d)
      && Partial(job.output) in s.disk.files && Trail(b, s.unsaved, d)
      && NothingBeyond(b, s.tears, FirstUnsaved(s.unsaved, d))
      && (safe ==> Lagging(now, StartPosition(s.disk, job), s.unsaved, d))
      && Content(s.disk.files, Partial(job.output)) == Mix(b, s.tears, d, |b|)
  {
    hide Mix, NothingBeyond, Blocks, Remaining, Trail, Lagging, Agree, StartPosition, Partial, Content, FirstUnsaved;
  }

  lemma AppendIs(s: State, job: Job)
    requires Enabled(s, job, Append)
    ensures
      var i := s.phase.next;
      Step(s, job, Append) ==
      s.(disk := s.disk.(files := Grown(s.disk.files, Partial(job.output), BlockAt(s, job, i))), phase := Written(i),
         unsaved := s.unsaved + [i])
  {
    hide Grown, Partial, BlockAt;
  }

  lemma WrittenUnderway(s: State, job: Job, b: seq<Bytes>, safe: bool, i: nat)
    requires i < |b| == |job.chunks| == |s.tears| && s.phase == Written(i) && b[i] != []
    requires Partial(job.output) in s.disk.files && Remaining(b, Blocks(s.disk.files, job), i)
    requires Trail(b, s.unsaved, i + 1) && NothingBeyond(b, s.tears, FirstUnsaved(s.unsaved, i))
    requires safe ==> Lagging(Blocks(s.disk.files, job), StartPosition(s.disk, job), s.unsaved, i + 1)
    requires Content(s.disk.files, Partial(job.output)) == Mix(b, s.tears, i, |b|) + b[i]
    ensures Underway(s, job, b, safe, i)
  {
    hide Mix, NothingBeyond, Blocks, Remaining, Trail, Lagging, StartPosition, Partial, Content, FirstUnsaved;
  }

  lemma AppendKeeps(s: State, job: Job, b: seq<Bytes>, safe: bool, d: nat)
    requires |b| == |job.chunks| == |s.tears|
    requires Separate(job) && Underway(s, job, b, safe, d) && Enabled(s, job, Append)
    ensures Underway(Step(s, job, Append), job, b, safe, s.phase.next)
  {
    var i, now := s.phase.next, Blocks(s.disk.files, job);
    assert BlockAt(s, job, i) == now[i] && now[i] != [];
    AtLoopHead(s, job, b, safe, d);
    AppendIs(s, job);
    hide Mix, NothingBeyond, Separate, Blocks, BlockAt, Remaining, Trail, Lagging, StartPosition, Partial,
         FirstUnsaved, Agree, Step, Enabled, Underway;
    DoneUpTo(b, now, s.tears, i, d);
    AppendTrails(b, now, s.tears, s.unsaved, i, d);
    GrownKeepsBlocks(s.disk.files, job, b[i]);
    WrittenUnderway(Step(s, job, Append), job, b, safe, i);
  }

  /** Position d is done: one more contribution, and nothing else moves. */
  lemma DoneKeeps(b: seq<Bytes>, now: seq<Bytes>, t: seq<seq<nat>>, unsaved: seq<nat>, d: nat)
    requires d < |b| == |t| && b[d] != [] && Remaining(b, now, d)
    requires Trail(b, unsaved, d + 1) && NothingBeyond(b, t, FirstUnsaved(unsaved, d))
    ensures Mix(b, t, d, |b|) + b[d] == Mix(b, t, d + 1, |b|)
    ensures Remaining(b, now, d + 1)
    ensures NothingBeyond(b, t, d + 1) && NothingBeyond(b, t, FirstUnsaved(unsaved, d + 1))
  {
    assert NothingBeyond(b, t, d);
    MixAppends(b, t, d);
  }

  lemma CheckpointAgrees(b: seq<Bytes>, now: seq<Bytes>, job: Job, d: nat)
    requires |b| == |job.chunks| && ResumeSafe(b, job) && d < |b| && b[d] != [] && Remaining(b, now, d)
    ensures Lagging(now, ResumePosition(job, job.chunks[d].index), [], d + 1)
  {
  }

  lemma SaveKeeps(s: State, job: Job, b: seq<Bytes>, safe: bool, d: nat)
    requires |b| == |job.chunks| == |s.tears|
    requires Underway(s, job, b, safe, d) && (safe ==> ResumeSafe(b, job)) && Enabled(s, job, Save)
    ensures Underway(Step(s, job, Save), job, b, safe, d + 1)
  {
    hide Mix, NothingBeyond, Remaining, ResumeSafe, Blocks, Lagging;
    DoneKeeps(b, Blocks(s.disk.files, job), s.tears, s.unsaved, d);
    if safe { CheckpointAgrees(b, Blocks(s.disk.files, job), job, d); }
  }

  lemma SaveFailsKeeps(s: State, job: Job, b: seq<Bytes>, safe: bool, d: nat)
    requires |b| == |job.chunks| == |s.tears|
    requires Underway(s, job, b, safe, d) && Enabled(s, job, SaveFails)
    ensures Underway(Step(s, job, SaveFails), job, b, safe, d + 1)
  {
    hide Mix, NothingBeyond, Remaining, Blocks, Lagging, Trail;
    DoneKeeps(b, Blocks(s.disk.files, job), s.tears, s.unsaved, d);
  }

  lemma FewerStay(b: seq<Bytes>, now: seq<Bytes>, later: seq<Bytes>, d: nat)
    requires Remaining(b, now, d) && Agree(now, |b|, d) && |later| == |now|
    requires forall q | 0 <= q < |now| :: later[q] == now[q] || later[q] == []
    ensures Remaining(b, later, d) && Agree(later, |b|, d)
    ensures forall from, unsaved :: Lagging(now, from, unsaved, d) ==> Lagging(later, from, unsaved, d)
  {
  }

  lemma DeleteKeeps(s: State, job: Job, b: seq<Bytes>, safe: bool, d: nat)
    requires |b| == |job.chunks| == |s.tears|
    requires Separate(job) && Underway(s, job, b, safe, d) && Enabled(s, job, Delete)
    ensures Underway(Step(s, job, Delete), job, b, safe, d)
  {
    hide Mix, NothingBeyond, Agree, Remaining, Trail, Lagging;
    var s' := Step(s, job, Delete);
    assert job.chunks[s.phase.todo] in job.chunks;
    forall q | 0 <= q < |b|
      ensures Blocks(s'.disk.files, job)[q] == Blocks(s.disk.files, job)[q] || Blocks(s'.disk.files, job)[q] == []
    {
    }
    FewerStay(b, Blocks(s.disk.files, job), Blocks(s'.disk.files, job), d);
  }

  lemma PartialIsAnother(p: Path)
    ensures Partial(p) != p
  {
    if p.parts != [] { assert |Base(Partial(p))| == |Base(p)| + 8; }
  }

  lemma RenameKeeps(s: State, job: Job, b: seq<Bytes>, safe: bool, d: nat)
    requires |b| == |job.chunks| == |s.tears|
    requires TearsFit(b, s.tears) && Underway(s, job, b, safe, d) && Enabled(s, job, Rename)
    ensures Inv(Step(s, job, Rename), job, b, safe)
  {
    hide Mix, NothingBeyond, Trail, Lagging, Blocks;
    PartialIsAnother(job.output);
    MixMoves(b, s.tears, d, |b|);
  }

  // ---- Crashes -------------------------------------------------------------------

  /** Where a crash that is not stale leaves things: the restart finds nothing between
      its position and d. */
  lemma Resumes(s: State, job: Job, b: seq<Bytes>, safe: bool, d: nat)
    requires |b| == |job.chunks| == |s.tears| && d <= |b| && s.phase.Idle? && s.unsaved == []
    requires Remaining(b, Blocks(s.disk.files, job), d) && NothingBeyond(b, s.tears, d)
    requires Lagging(Blocks(s.disk.files, job), StartPosition(s.disk, job), [], d)
    requires Content(s.disk.files, Partial(job.output)) == Mix(b, s.tears, d, |b|)
    ensures Underway(s, job, b, safe, d)
  {
    hide Mix, Blocks, Remaining, NothingBeyond;
  }

  lemma TearsFitTorn(b: seq<Bytes>, t: seq<seq<nat>>, i: nat, k: nat)
    requires TearsFit(b, t) && i < |b| && k <= |b[i]|
    ensures TearsFit(b, Torn(t, i, k))
  {
  }

  lemma BeyondLater(b: seq<Bytes>, t: seq<seq<nat>>, unsaved: seq<nat>, d: nat, i: nat)
    requires |b| == |t| && Trail(b, unsaved, i) && NothingBeyond(b, t, FirstUnsaved(unsaved, d)) && d <= i
    ensures NothingBeyond(b, t, i)
    ensures unsaved != [] ==> NothingBeyond(b, t, unsaved[|unsaved| - 1])
  {
  }

  /** No unsaved chunk is there any more, so the restart finds nothing before e. */
  lemma NoneAgain(now: seq<Bytes>, from: nat, unsaved: seq<nat>, e: nat)
    requires Lagging(now, from, unsaved, e) && forall q | q in unsaved && q < |now| :: now[q] == []
    ensures Lagging(now, from, [], e)
  {
  }

  /** Only the last unsaved chunk is there, so the restart begins with that. */
  lemma LastAgain(b: seq<Bytes>, now: seq<Bytes>, t: seq<seq<nat>>, from: nat, unsaved: seq<nat>, e: nat)
    requires |b| == |t| && e <= |b| && Remaining(b, now, e) && unsaved != []
    requires Trail(b, unsaved, e) && Lagging(now, from, unsaved, e)
    requires now[unsaved[|unsaved| - 1]] != []
    requires forall q | q in unsaved[..|unsaved| - 1] && q < |now| :: now[q] == []
    ensures
      var last := unsaved[|unsaved| - 1];
      now[last] == b[last] && Remaining(b, now, last) && Lagging(now, from, [], last) && Agree(b, e, last + 1)
  {
    var last := unsaved[|unsaved| - 1];
    forall q | last <= q < |b| ensures now[q] == b[q] {
      if q > last && b[q] != [] { assert e <= q; }
    }
    assert unsaved == unsaved[..|unsaved| - 1] + [last];
    forall q | 0 <= q < |now| && now[q] != [] ensures q < last <==> q < from {
      assert q in unsaved ==> q == last;
    }
  }

  lemma MixTearsWhole(b: seq<Bytes>, t: seq<seq<nat>>, e: nat, last: nat)
    requires last < |b| == |t| && e <= |b| && b[last] != [] && NothingBeyond(b, t, last) && Agree(b, e, last + 1)
    ensures Mix(b, t, e, |b|) == Mix(b, Torn(t, last, |b[last]|), last, |b|)
  {
    MixMoves(b, t, e, last + 1);
    MixAppends(b, t, last);
    assert b[last][..|b[last]|] == b[last];
    MixTears(b, t, last, |b[last]|);
  }

  /** What a crash finds in the partial file: all before position e. */
  lemma WrittenIsDone(s: State, job: Job, b: seq<Bytes>, safe: bool, d: nat) returns (e: nat)
    requires |b| == |job.chunks| == |s.tears| && Underway(s, job, b, safe, d)
    ensures e == (if s.phase.Written? then d + 1 else d) <= |b| && Trail(b, s.unsaved, e)
    ensures Content(s.disk.files, Partial(job.output)) == Mix(b, s.tears, e, |b|)
    ensures Remaining(b, Blocks(s.disk.files, job), e) && NothingBeyond(b, s.tears, e)
    ensures s.unsaved != [] ==> NothingBeyond(b, s.tears, s.unsaved[|s.unsaved| - 1])
    ensures safe ==> Lagging(Blocks(s.disk.files, job), StartPosition(s.disk, job), s.unsaved, e)
  {
    hide Mix, NothingBeyond, Blocks, Lagging, Agree;
    e := if s.phase.Written? then d + 1 else d;
    BeyondLater(b, s.tears, s.unsaved, d, e);
    if s.phase.Written? { DoneKeeps(b, Blocks(s.disk.files, job), s.tears, s.unsaved, d); }
  }

  lemma NotAgain(s: State, job: Job, chunks: seq<nat>)
    requires |s.tears| == |job.chunks| && !Again(s, job, chunks)
    ensures forall q | q in chunks && q < |job.chunks| :: Blocks(s.disk.files, job)[q] == []
  {
    forall q | q in chunks && q < |job.chunks| ensures Blocks(s.disk.files, job)[q] == [] {
      assert !Readable(s, job, q);
    }
  }

  /** What a crash leaves when no unsaved chunk will be merged again. */
  lemma DiedAtEnd(s: State, job: Job, b: seq<Bytes>, d: nat)
    requires |b| == |job.chunks| == |s.tears| && TearsFit(b, s.tears) && Underway(s, job, b, true, d)
    requires !Again(s, job, s.unsaved)
    ensures Inv(s.(phase := Idle, unsaved := []), job, b, true)
  {
    var e := WrittenIsDone(s, job, b, true, d);
    var now := Blocks(s.disk.files, job);
    NotAgain(s, job, s.unsaved);
    hide Mix, NothingBeyond, Blocks, Agree, TearsFit, Remaining, Lagging, Trail, Again;
    hide Underway, StartPosition, Partial;
    NoneAgain(now, StartPosition(s.disk, job), s.unsaved, e);
    var t := s.(phase := Idle, unsaved := []);
    Resumes(t, job, b, true, e);
    InvAt(t, job, b, true, e);
  }

  /** What it leaves when the last of them will. */
  lemma DiedAtLast(s: State, job: Job, b: seq<Bytes>, d: nat, last: nat)
    requires |b| == |job.chunks| == |s.tears| && TearsFit(b, s.tears) && Underway(s, job, b, true, d)
    requires s.unsaved != [] && last == s.unsaved[|s.unsaved| - 1]
    requires Readable(s, job, last) && !Again(s, job, s.unsaved[..|s.unsaved| - 1])
    ensures
      Inv(s.(phase := Idle, unsaved := [], tears := Torn(s.tears, last, |BlockAt(s, job, last)|)), job, b, true)
  {
    hide Mix, NothingBeyond, Agree, TearsFit, Remaining, Lagging, Trail, Again, Underway;
    hide StartPosition, Partial, Content, FirstUnsaved;
    var now := Blocks(s.disk.files, job);
    var e := WrittenIsDone(s, job, b, true, d);
    NotAgain(s, job, s.unsaved[..|s.unsaved| - 1]);
    assert BlockAt(s, job, last) == now[last];
    hide Blocks, BlockAt, Readable;
    LastTorn(b, now, s.tears, StartPosition(s.disk, job), s.unsaved, e);
    var t := s.(phase := Idle, unsaved := [], tears := Torn(s.tears, last, |b[last]|));
    Resumes(t, job, b, true, last);
    InvAt(t, job, b, true, last);
  }

  lemma LastTorn(b: seq<Bytes>, now: seq<Bytes>, t: seq<seq<nat>>, from: nat, unsaved: seq<nat>, e: nat)
    requires TearsFit(b, t) && e <= |b| && Remaining(b, now, e) && unsaved != []
    requires Trail(b, unsaved, e) && Lagging(now, from, unsaved, e)
    requires NothingBeyond(b, t, unsaved[|unsaved| - 1]) && now[unsaved[|unsaved| - 1]] != []
    requires forall q | q in unsaved[..|unsaved| - 1] && q < |now| :: now[q] == []
    ensures
      var last := unsaved[|unsaved| - 1];
      var u := Torn(t, last, |b[last]|);
      && now[last] == b[last] && Remaining(b, now, last) && Lagging(now, from, [], last)
      && TearsFit(b, u) && NothingBeyond(b, u, last) && Mix(b, t, e, |b|) == Mix(b, u, last, |b|)
  {
    var last := unsaved[|unsaved| - 1];
    hide Mix, NothingBeyond, Agree, TearsFit, Remaining, Lagging;
    LastAgain(b, now, t, from, unsaved, e);
    hide Trail;
    MixTearsWhole(b, t, e, last);
    TornKeepsBeyond(b, t, last, |b[last]|);
    TearsFitTorn(b, t, last, |b[last]|);
  }

  lemma DiedKeeps(s: State, job: Job, b: seq<Bytes>, d: nat)
    requires |b| == |job.chunks| == |s.tears| && TearsFit(b, s.tears) && Underway(s, job, b, true, d)
    requires !Died(s, job).staleCrash
    ensures Inv(Died(s, job), job, b, true)
  {
    var n := |s.unsaved|;
    hide Underway, Inv, TearsFit;
    if n > 0 && Readable(s, job, s.unsaved[n - 1]) {
      DiedAtLast(s, job, b, d, s.unsaved[n - 1]);
    } else {
      assert s.unsaved == if n == 0 then [] else s.unsaved[..n - 1] + [s.unsaved[n - 1]];
      DiedAtEnd(s, job, b, d);
    }
  }

  lemma TearCrashIs(s: State, job: Job, k: nat)
    requires Enabled(s, job, TearCrash(k)) && k > 0
    ensures
      var i := s.phase.next;
      Step(s, job, TearCrash(k)) ==
      State(s.disk.(files := Grown(s.disk.files, Partial(job.output), BlockAt(s, job, i)[..k])), Idle,
            Torn(s.tears, i, k), [], s.staleCrash || Again(s, job, s.unsaved))
  {
    hide Grown, Partial, BlockAt, Again;
  }

  lemma TearCrashKeeps(s: State, job: Job, b: seq<Bytes>, d: nat, k: nat)
    requires |b| == |job.chunks| == |s.tears| && TearsFit(b, s.tears) && Underway(s, job, b, true, d)
    requires Separate(job) && Enabled(s, job, TearCrash(k)) && k > 0 && !Step(s, job, TearCrash(k)).staleCrash
    ensures Inv(Step(s, job, TearCrash(k)), job, b, true)
  {
    var i, now, t := s.phase.next, Blocks(s.disk.files, job), Step(s, job, TearCrash(k));
    assert BlockAt(s, job, i) == now[i] && now[i] != [];
    AtLoopHead(s, job, b, true, d);
    TearCrashIs(s, job, k);
    NotAgain(s, job, s.unsaved);
    hide Again, Blocks, BlockAt, Mix, NothingBeyond, TearsFit, Separate, Agree, Remaining, Lagging, Trail,
         StartPosition, Partial, FirstUnsaved, Step, Enabled, Underway, Inv, Grown, Content;
    DoneUpTo(b, now, s.tears, i, d);
    TornLater(b, now, s.tears, StartPosition(s.disk, job), s.unsaved, d, i);
    GrownKeepsBlocks(s.disk.files, job, b[i][..k]);
    GrownContent(s.disk.files, Partial(job.output), b[i][..k]);
    TornOnce(b, s.tears, i, k);
    Resumes(t, job, b, true, i);
    InvAt(t, job, b, true, i);
  }

  lemma TornOnce(b: seq<Bytes>, t: seq<seq<nat>>, i: nat, k: nat)
    requires i < |b| && TearsFit(b, t) && NothingBeyond(b, t, i) && k <= |b[i]|
    ensures
      var u := Torn(t, i, k);
      TearsFit(b, u) && NothingBeyond(b, u, i) && Mix(b, u, i, |b|) == Mix(b, t, i, |b|) + b[i][..k]
  {
    hide Mix, NothingBeyond;
    MixTears(b, t, i, k);
    TornKeepsBeyond(b, t, i, k);
    TearsFitTorn(b, t, i, k);
  }

  lemma TornLater(b: seq<Bytes>, now: seq<Bytes>, t: seq<seq<nat>>, from: nat, unsaved: seq<nat>, d: nat, i: nat)
    requires d <= i < |b| == |t| && Remaining(b, now, d) && Agree(now, i, d)
    requires Trail(b, unsaved, d) && NothingBeyond(b, t, FirstUnsaved(unsaved, d)) && Lagging(now, from, unsaved, d)
    requires forall q | q in unsaved && q < |now| :: now[q] == []
    ensures NothingBeyond(b, t, i) && Lagging(now, from, [], i)
  {
    BeyondLater(b, t, unsaved, d, d);
    hide Trail;
    NoneAgain(now, from, unsaved, d);
  }

  lemma TearNothing(s: State, job: Job, b: seq<Bytes>, safe: bool, d: nat)
    requires |b| == |job.chunks| == |s.tears|
    requires Separate(job) && Underway(s, job, b, safe, d) && Enabled(s, job, TearCrash(0))
    ensures
      var t := s.(disk := s.disk.(files := Grown(s.disk.files, Partial(job.output), [])));
      Step(s, job, TearCrash(0)) == Died(t, job) && Underway(t, job, b, safe, d)
  {
    hide Mix, NothingBeyond, Blocks, Separate, Remaining, Agree, Trail, Lagging, Died;
    assert BlockAt(s, job, s.phase.next)[..0] == [];
    GrownKeepsBlocks(s.disk.files, job, []);
  }

  lemma CrashKeeps(s: State, job: Job, b: seq<Bytes>, d: nat, e: Event)
    requires |b| == |job.chunks| == |s.tears| && TearsFit(b, s.tears) && Underway(s, job, b, true, d)
    requires Separate(job) && Enabled(s, job, e) && IsCrash(e) && !Step(s, job, e).staleCrash
    ensures Inv(Step(s, job, e), job, b, true)
  {
    hide Underway, TearsFit, Separate, Inv;
    if e.Crash? {
      DiedKeeps(s, job, b, d);
    } else if e.k == 0 {
      TearNothing(s, job, b, true, d);
      DiedKeeps(s.(disk := s.disk.(files := Grown(s.disk.files, Partial(job.output), []))), job, b, d);
    } else {
      TearCrashKeeps(s, job, b, d, e.k);
    }
  }

  /** One step of the loop or the cleanup. */
  lemma MoveKeeps(s: State, job: Job, b: seq<Bytes>, safe: bool, d: nat, e: Event)
    requires |b| == |job.chunks| == |s.tears| && TearsFit(b, s.tears) && Underway(s, job, b, safe, d) && !Over(s)
    requires Separate(job) && (safe ==> ResumeSafe(b, job)) && Enabled(s, job, e) && !IsCrash(e)
    ensures Inv(Step(s, job, e), job, b, safe)
  {
    hide Separate, ResumeSafe, TearsFit, Underway, Inv;
    if e.Rename? {
      RenameKeeps(s, job, b, safe, d);
    } else {
      var d' := LoopKeeps(s, job, b, safe, d, e);
      InvAt(Step(s, job, e), job, b, safe, d');
    }
  }

  lemma LoopKeeps(s: State, job: Job, b: seq<Bytes>, safe: bool, d: nat, e: Event) returns (d': nat)
    requires |b| == |job.chunks| == |s.tears| && Underway(s, job, b, safe, d) && !Over(s)
    requires Separate(job) && (safe ==> ResumeSafe(b, job)) && Enabled(s, job, e) && !IsCrash(e) && !e.Rename?
    ensures |Step(s, job, e).tears| == |b| && Underway(Step(s, job, e), job, b, safe, d')
  {
    hide Separate, ResumeSafe, Underway;
    d' := if e.Append? then s.phase.next else if e.Save? || e.SaveFails? then d + 1 else d;
    match e
    case Start => StartKeeps(s, job, b, safe, d);
    case Skip => SkipKeeps(s, job, b, safe, d);
    case Append => AppendKeeps(s, job, b, safe, d);
    case Save => SaveKeeps(s, job, b, safe, d);
    case SaveFails => SaveFailsKeeps(s, job, b, safe, d);
    case Delete => DeleteKeeps(s, job, b, safe, d);
    case BeginCleanup => BeginCleanupKeeps(s, job, b, safe, d);
  }

  lemma BeginCleanupKeeps(s: State, job: Job, b: seq<Bytes>, safe: bool, d: nat)
    requires |b| == |job.chunks| == |s.tears|
    requires Underway(s, job, b, safe, d) && Enabled(s, job, BeginCleanup)
    ensures Underway(Step(s, job, BeginCleanup), job, b, safe, d)
  {
    hide Mix, NothingBeyond, Blocks, Remaining, Trail, Lagging, Agree, StartPosition, Partial, Content, FirstUnsaved;
  }

  lemma StepKeeps(s: State, job: Job, b: seq<Bytes>, safe: bool, e: Event)
    requires Separate(job) && Inv(s, job, b, safe) && (safe ==> ResumeSafe(b, job))
    requires IsCrash(e) ==> safe && !Next(s, job, e).staleCrash
    ensures Inv(Next(s, job, e), job, b, safe)
  {
    hide Separate, ResumeSafe, Mix, TearsFit, Underway;
    if Enabled(s, job, e) && !Over(s) {
      var d: nat :| Underway(s, job, b, safe, d);
      hide Inv, Step, Enabled;
      if IsCrash(e) { CrashKeeps(s, job, b, d, e); } else { MoveKeeps(s, job, b, safe, d, e); }
    }
  }

  predicate CrashFree(events: seq<Event>) {
    forall e | e in events :: !IsCrash(e)
  }

  lemma StaleCrashStays(s: State, job: Job, e: Event)
    ensures s.staleCrash ==> Next(s, job, e).staleCrash
  {
    hide Again, Readable;
  }

  lemma {:induction false} RunKeeps(disk: Disk, job: Job, events: seq<Event>, safe: bool)
    requires FreshDisk(disk, job) && Separate(job)
    requires if safe then ResumeSafe(Blocks(disk.files, job), job) else CrashFree(events)
    requires !Run(Initial(disk, job), job, events).staleCrash
    ensures Inv(Run(Initial(disk, job), job, events), job, Blocks(disk.files, job), safe)
  {
    hide Inv, Separate, ResumeSafe, FreshDisk, Next;
    if events == [] {
      InitialInv(disk, job, safe);
    } else {
      var before := events[..|events| - 1];
      var s, e := Run(Initial(disk, job), job, before), events[|events| - 1];
      assert e in events;
      StaleCrashStays(s, job, e);
      RunKeeps(disk, job, before, safe);
      StepKeeps(s, job, Blocks(disk.files, job), safe, e);
    }
  }

  // ---- The merged output ---------------------------------------------------------

  function Output(s: State, job: Job): Bytes {
    Content(s.disk.files, job.output)
  }

  /** Whatever crashes and failed saves a run meets, short of a stale crash:
      the output is, chunk by chunk, what crashes left of it and then all of it. */
  lemma MergedOutput(disk: Disk, job: Job, events: seq<Event>)
    requires FreshDisk(disk, job) && Separate(job) && ResumeSafe(Blocks(disk.files, job), job)
    ensures
      var s, b := Run(Initial(disk, job), job, events), Blocks(disk.files, job);
      Over(s) && !s.staleCrash ==> TearsFit(b, s.tears) && Output(s, job) == Mix(b, s.tears, |b|, |b|)
  {
    if !Run(Initial(disk, job), job, events).staleCrash {
      hide Separate, ResumeSafe, FreshDisk, Mix;
      RunKeeps(disk, job, events, true);
    }
  }

  /** Without crashes, the indexes do not matter. */
  lemma CrashFreeOutput(disk: Disk, job: Job, events: seq<Event>)
    requires FreshDisk(disk, job) && Separate(job) && CrashFree(events)
    ensures var s := Run(Initial(disk, job), job, events); Over(s) ==> Output(s, job) == Concat(Blocks(disk.files, job))
  {
    CrashFreeLeavesNoTears(disk, job, events);
    RunKeeps(disk, job, events, false);
    var s, b := Run(Initial(disk, job), job, events), Blocks(disk.files, job);
    if Over(s) { ExactIffNoTears(b, s.tears); }
  }

  lemma {:induction false} CrashFreeLeavesNoTears(disk: Disk, job: Job, events: seq<Event>)
    requires CrashFree(events)
    ensures var s := Run(Initial(disk, job), job, events); s.tears == Initial(disk, job).tears && !s.staleCrash
  {
    if events != [] {
      assert events[|events| - 1] in events;
      CrashFreeLeavesNoTears(disk, job, events[..|events| - 1]);
    }
  }

  ghost predicate NoTears(t: seq<seq<nat>>) {
    forall q, j | 0 <= q < |t| && 0 <= j < |t[q]| :: t[q][j] == 0
  }

  function Sum(tears: seq<nat>): nat {
    if tears == [] then 0 else Sum(tears[..|tears| - 1]) + tears[|tears| - 1]
  }

  lemma {:induction false} RemainsLength(block: Bytes, tears: seq<nat>)
    requires forall j | 0 <= j < |tears| :: tears[j] <= |block|
    ensures |Remains(block, tears)| == Sum(tears)
    ensures Sum(tears) == 0 <==> forall j | 0 <= j < |tears| :: tears[j] == 0
  {
    if tears != [] {
      var m := |tears| - 1;
      RemainsLength(block, tears[..m]);
      assert forall j | 0 <= j < m :: tears[j] == tears[..m][j];
    }
  }

  lemma NoTearsGrows(t: seq<seq<nat>>, m: nat)
    requires m < |t|
    ensures NoTears(t[..m + 1]) <==> NoTears(t[..m]) && forall j | 0 <= j < |t[m]| :: t[m][j] == 0
  {
    assert t[..m + 1] == t[..m] + [t[m]];
    assert t[..m + 1][m] == t[m];
  }

  lemma {:induction false} MixLength(b: seq<Bytes>, t: seq<seq<nat>>, m: nat)
    requires TearsFit(b, t) && m <= |b|
    ensures |Mix(b, t, |b|, m)| >= |Concat(b[..m])|
    ensures if NoTears(t[..m]) then Mix(b, t, |b|, m) == Concat(b[..m]) else |Mix(b, t, |b|, m)| > |Concat(b[..m])|
  {
    if m > 0 {
      var piece := Remains(b[m - 1], t[m - 1]) + b[m - 1];
      assert Mix(b, t, |b|, m) == Mix(b, t, |b|, m - 1) + piece;
      assert Concat(b[..m]) == Concat(b[..m - 1]) + b[m - 1] by { assert b[..m][..m - 1] == b[..m - 1]; }
      hide Mix, Concat, NoTears, Remains, Sum;
      MixLength(b, t, m - 1);
      RemainsLength(b[m - 1], t[m - 1]);
      NoTearsGrows(t, m - 1);
    }
  }

  /** The output is the plain concatenation exactly when no crash left a byte of a
      chunk that was merged again. */
  lemma ExactIffNoTears(b: seq<Bytes>, t: seq<seq<nat>>)
    requires TearsFit(b, t)
    ensures Mix(b, t, |b|, |b|) == Concat(b) <==> NoTears(t)
  {
    MixLength(b, t, |b|);
    assert b[..|b|] == b && t[..|t|] == t;
  }

  function Power(block: Bytes, r: nat): Bytes {
    if r == 0 then [] else Power(block, r - 1) + block
  }

  /** Chunks from position i to position m, each repeated r times its own. */
  function Repeated(b: seq<Bytes>, r: seq<nat>, i: nat, m: nat): Bytes
    requires m <= |b| == |r|
  {
    if m <= i then [] else Repeated(b, r, i, m - 1) + Power(b[m - 1], r[m - 1])
  }

  /** Appends are atomic: a crash finds none of an append on disk, or all of it. */
  predicate Atomic(events: seq<Event>) {
    forall e | e in events :: !e.TearCrash?
  }

  /** The last chunk this call appended is q, its checkpoint is not saved, and a restart
      will find the chunk still there. */
  predicate Repeats(s: State, job: Job, q: nat) {
    s.unsaved != [] && s.unsaved[|s.unsaved| - 1] == q && Readable(s, job, q)
  }

  /** How often the run died in such a state. */
  function CrashesUnsaved(s: State, job: Job, events: seq<Event>, q: nat): nat {
    if events == [] then 0
    else
      var before, e := events[..|events| - 1], events[|events| - 1];
      CrashesUnsaved(s, job, before, q)
      + if e.Crash? && Enabled(Run(s, job, before), job, e) && Repeats(Run(s, job, before), job, q) then 1 else 0
  }

  ghost predicate WholeTears(b: seq<Bytes>, t: seq<seq<nat>>) {
    |t| == |b| && forall q, j | 0 <= q < |b| && 0 <= j < |t[q]| :: t[q][j] == |b[q]|
  }

  lemma WholeTearsGrow(b: seq<Bytes>, t: seq<seq<nat>>, q: nat)
    requires WholeTears(b, t) && q < |b|
    ensures WholeTears(b, Torn(t, q, |b[q]|))
  {
  }

  /** In an atomic run the tears are whole, one for each crash that a chunk is repeated for. */
  lemma {:induction false} AtomicTears(disk: Disk, job: Job, events: seq<Event>)
    requires FreshDisk(disk, job) && Separate(job) && ResumeSafe(Blocks(disk.files, job), job)
    requires Atomic(events) && !Run(Initial(disk, job), job, events).staleCrash
    ensures
      var s, b := Run(Initial(disk, job), job, events), Blocks(disk.files, job);
      && WholeTears(b, s.tears)
      && forall q | 0 <= q < |b| :: |s.tears[q]| == CrashesUnsaved(Initial(disk, job), job, events, q)
  {
    if events != [] {
      var before, e := events[..|events| - 1], events[|events| - 1];
      var s0, b := Initial(disk, job), Blocks(disk.files, job);
      var s := Run(s0, job, before);
      assert e in events;
      StaleCrashStays(s, job, e);
      AtomicTears(disk, job, before);
      RunKeeps(disk, job, before, true);
      AtomicStep(s, job, b, e);
      hide Next, Inv, WholeTears, Separate, ResumeSafe, FreshDisk;
    }
  }

  lemma AtomicStep(s: State, job: Job, b: seq<Bytes>, e: Event)
    requires Inv(s, job, b, true) && WholeTears(b, s.tears) && !e.TearCrash?
    ensures
      var t := Next(s, job, e);
      && WholeTears(b, t.tears)
      && forall q | 0 <= q < |b| ::
        |t.tears[q]| == |s.tears[q]| + if e.Crash? && Enabled(s, job, e) && Repeats(s, job, q) then 1 else 0
  {
    if e.Crash? && Enabled(s, job, e) && s.unsaved != [] && Readable(s, job, s.unsaved[|s.unsaved| - 1]) {
      var q := s.unsaved[|s.unsaved| - 1];
      ReadableIsWhole(s, job, b, q);
      WholeTearsGrow(b, s.tears, q);
      hide WholeTears, BlockAt, Inv, Again;
    } else {
      hide Inv, WholeTears, BlockAt, Again;
    }
  }

  lemma ReadableIsWhole(s: State, job: Job, b: seq<Bytes>, q: nat)
    requires Inv(s, job, b, true) && !Over(s) && Readable(s, job, q)
    ensures q < |b| && BlockAt(s, job, q) == b[q]
  {
    var d: nat :| Underway(s, job, b, true, d);
    hide Mix, NothingBeyond, Agree, Block, Trail, Lagging, TearsFit;
    assert BlockAt(s, job, q) == Blocks(s.disk.files, job)[q];
  }

  lemma {:induction false} RemainsWhole(block: Bytes, tears: seq<nat>)
    requires forall j | 0 <= j < |tears| :: tears[j] == |block|
    ensures Remains(block, tears) == Power(block, |tears|)
  {
    if tears != [] { RemainsWhole(block, tears[..|tears| - 1]); }
  }

  lemma {:induction false} MixWhole(b: seq<Bytes>, t: seq<seq<nat>>, r: seq<nat>, m: nat)
    requires m <= |b| == |r| && WholeTears(b, t) && forall q | 0 <= q < |b| :: r[q] == |t[q]| + 1
    ensures Mix(b, t, |b|, m) == Repeated(b, r, 0, m)
  {
    if m > 0 {
      MixWhole(b, t, r, m - 1);
      RemainsWhole(b[m - 1], t[m - 1]);
      assert Power(b[m - 1], r[m - 1]) == Power(b[m - 1], |t[m - 1]|) + b[m - 1];
    }
  }

  /** One more than the crashes each chunk was repeated for. */
  function Repetitions(disk: Disk, job: Job, events: seq<Event>): (r: seq<nat>)
    ensures |r| == |job.chunks|
  {
    seq(|job.chunks|, (q: nat) => 1 + CrashesUnsaved(Initial(disk, job), job, events, q))
  }

  /** With atomic appends a run ends with c0^r0 + c1^r1 + ... in index order, each r one
      more than the crashes that found that chunk appended last, unsaved and still there. */
  lemma AtomicRun(disk: Disk, job: Job, events: seq<Event>)
    requires FreshDisk(disk, job) && Separate(job) && ResumeSafe(Blocks(disk.files, job), job) && Atomic(events)
    ensures
      var s, b := Run(Initial(disk, job), job, events), Blocks(disk.files, job);
      Over(s) && !s.staleCrash ==> Output(s, job) == Repeated(b, Repetitions(disk, job, events), 0, |b|)
  {
    hide Separate, ResumeSafe, FreshDisk, Mix, WholeTears, Run;
    if !Run(Initial(disk, job), job, events).staleCrash {
      AtomicTears(disk, job, events);
      MergedOutput(disk, job, events);
      var tears := Run(Initial(disk, job), job, events).tears;
      MixWhole(Blocks(disk.files, job), tears, Repetitions(disk, job, events), |job.chunks|);
    }
  }

  // ---- One call after another ------------------------------------------------------

  /** The run's history, beside the disk and the phase, has no effect on them. */
  ghost predicate SameButHistory(s: State, t: State) {
    s.disk == t.disk && s.phase == t.phase && |s.tears| == |t.tears|
  }

  lemma StepIsInert(s: State, t: State, job: Job, e: Event)
    requires SameButHistory(s, t)
    ensures Enabled(s, job, e) <==> Enabled(t, job, e)
    ensures Enabled(s, job, e) ==> SameButHistory(Step(s, job, e), Step(t, job, e))
    ensures Enabled(s, job, e) ==> |Step(s, job, e).tears| == |s.tears|
  {
    hide Block, Grown, StartPosition, Content, Partial;
  }

  lemma {:induction false} HistoryIsInert(s: State, t: State, job: Job, events: seq<Event>)
    requires SameButHistory(s, t)
    ensures SameButHistory(Run(s, job, events), Run(t, job, events))
    ensures |Run(s, job, events).tears| == |s.tears|
  {
    hide Step, Enabled, SameButHistory;
    if events != [] {
      var before := events[..|events| - 1];
      HistoryIsInert(s, t, job, before);
      StepIsInert(Run(s, job, before), Run(t, job, before), job, events[|events| - 1]);
    }
  }

  /** A call that fails and a further call with the same job are one run with a crash
      in it, so what holds of every run holds of every series of calls. */
  lemma CallsCompose(disk: Disk, job: Job, first: seq<Event>, second: seq<Event>)
    requires Run(Initial(disk, job), job, first).phase.Idle?
    ensures
      var between := Run(Initial(disk, job), job, first).disk;
      var one, two := Run(Initial(disk, job), job, first + second), Run(Initial(between, job), job, second);
      one.disk == two.disk && one.phase == two.phase
  {
    var s0 := Initial(disk, job);
    var s := Run(s0, job, first);
    RunAppend(s0, job, first, second);
    HistoryIsInert(s0, s0, job, first);
    HistoryIsInert(s, Initial(s.disk, job), job, second);
  }

  // ---- When indexes and positions agree --------------------------------------------

  lemma DenseIndexesAreSafe(b: seq<Bytes>, job: Job)
    requires |b| == |job.chunks| && forall p | 0 <= p < |b| :: job.chunks[p].index == p
    ensures ResumeSafe(b, job)
  {
  }

  lemma {:induction false} AscendingFromZero(chunks: seq<ChunkInfo>, p: nat)
    requires p < |chunks| && 0 <= chunks[0].index
    requires forall i, j | 0 <= i < j < |chunks| :: chunks[i].index < chunks[j].index
    ensures p <= chunks[p].index
  {
    if p > 0 { AscendingFromZero(chunks, p - 1); }
  }

  /** Distinct indexes counted from 0, some of them perhaps skipped chunks': only
      the last chunk may have an index above its position. */
  lemma SafeIffDense(b: seq<Bytes>, job: Job)
    requires |b| == |job.chunks| && |b| > 0 && 0 <= job.chunks[0].index
    requires forall i, j | 0 <= i < j < |b| :: job.chunks[i].index < job.chunks[j].index
    requires forall q | 0 <= q < |b| :: b[q] != []
    ensures ResumeSafe(b, job) <==> forall p | 0 <= p < |b| - 1 :: job.chunks[p].index == p
  {
    forall p | 0 <= p < |b| ensures p <= job.chunks[p].index {
      AscendingFromZero(job.chunks, p);
    }
    if ResumeSafe(b, job) {
      forall p | 0 <= p < |b| - 1 ensures job.chunks[p].index == p {
        assert b[p] != [] && b[p + 1] != [];
      }
    }
  }

  // ---- A run that crashes cleanly after some chunk -----------------------------------

  lemma {:induction false} RunAppend(s: State, job: Job, a: seq<Event>, b: seq<Event>)
    ensures Run(s, job, a + b) == Run(Run(s, job, a), job, b)
  {
    if b == [] {
      assert a + b == a;
    } else {
      RunAppend(s, job, a, b[..|b| - 1]);
      assert (a + b)[..|a + b| - 1] == a + b[..|b| - 1];
    }
  }

  /** The loop from position i up to position j. */
  function Pass(b: seq<Bytes>, i: nat, j: nat, saved: bool): seq<Event>
    requires j <= |b|
  {
    if j <= i then []
    else Pass(b, i, j - 1, saved) + if b[j - 1] == [] then [Skip] else [Append, if saved then Save else SaveFails]
  }

  /** The positions from i up to j with something in them. */
  function Live(b: seq<Bytes>, i: nat, j: nat): seq<nat>
    requires j <= |b|
  {
    if j <= i then [] else Live(b, i, j - 1) + if b[j - 1] == [] then [] else [j - 1]
  }

  lemma RunShort(s: State, job: Job, e: Event, f: Event)
    ensures Run(s, job, []) == s
    ensures Run(s, job, [e]) == Next(s, job, e)
    ensures Run(s, job, [e, f]) == Next(Next(s, job, e), job, f)
  {
    hide Next;
    assert [e][..0] == [];
    assert [e, f][..1] == [e];
  }

  lemma RunTwo(s: State, job: Job, events: seq<Event>, e: Event, f: Event)
    ensures Run(s, job, events + [e]) == Next(Run(s, job, events), job, e)
    ensures Run(s, job, events + [e, f]) == Next(Next(Run(s, job, events), job, e), job, f)
  {
    hide Next;
    assert (events + [e])[..|events|] == events;
    assert (events + [e, f])[..|events| + 1] == events + [e];
  }

  /** What a pass from position i has done at position j. */
  ghost predicate Passed(s: State, s': State, job: Job, b: seq<Bytes>, i: nat, j: nat, saved: bool)
    requires i <= j <= |b|
  {
    && s'.phase == Merging(j)
    && s'.disk.files == Grown(s.disk.files, Partial(job.output), Concat(b[i..j]))
    && s'.tears == s.tears && s'.staleCrash == s.staleCrash
    && (saved && s.unsaved == [] ==> s'.unsaved == [])
    && (!saved ==> s'.unsaved == s.unsaved + Live(b, i, j))
    && (!saved ==> s'.disk.checkpoints == s.disk.checkpoints)
    && (saved && i < j && b[j - 1] != [] && j <= |job.chunks| ==>
          job.output in s'.disk.checkpoints && s'.disk.checkpoints[job.output] == job.chunks[j - 1].index)
  }

  lemma GrownTwice(files: Files, partial: Path, x: Bytes, y: Bytes)
    ensures Grown(Grown(files, partial, x), partial, y) == Grown(files, partial, x + y)
  {
    assert Content(files, partial) + (x + y) == (Content(files, partial) + x) + y;
  }

  /** What the loop finds at position j of a pass, and what it will have merged then. */
  lemma AtNext(s: State, t: State, job: Job, b: seq<Bytes>, i: nat, j: nat)
    requires Separate(job) && |b| == |job.chunks| && Blocks(s.disk.files, job) == b && i <= j < |b|
    requires t.disk.files == Grown(s.disk.files, Partial(job.output), Concat(b[i..j]))
    ensures BlockAt(t, job, j) == b[j] && Concat(b[i..j + 1]) == Concat(b[i..j]) + b[j]
    ensures Grown(t.disk.files, Partial(job.output), b[j]) ==
      Grown(s.disk.files, Partial(job.output), Concat(b[i..j + 1]))
  {
    var x := Concat(b[i..j]);
    GrownKeepsBlocks(s.disk.files, job, x);
    hide Grown, Separate, Partial;
    assert BlockAt(t, job, j) == Blocks(t.disk.files, job)[j] == b[j];
    hide Block, Blocks;
    assert Concat(b[i..j + 1]) == x + b[j] by { assert b[i..j + 1][..j - i] == b[i..j]; }
    GrownTwice(s.disk.files, Partial(job.output), x, b[j]);
  }

  lemma SkipAdvances(t: State, job: Job)
    requires t.phase.Merging? && t.phase.next < |job.chunks| && BlockAt(t, job, t.phase.next) == []
    ensures Next(t, job, Skip) == t.(phase := Merging(t.phase.next + 1))
  {
  }

  lemma AppendAdvances(t: State, job: Job, saved: bool)
    requires t.phase.Merging? && t.phase.next < |job.chunks| && BlockAt(t, job, t.phase.next) != []
    ensures
      var j, v := t.phase.next, Next(Next(t, job, Append), job, if saved then Save else SaveFails);
      && v.phase == Merging(j + 1) && v.tears == t.tears && v.staleCrash == t.staleCrash
      && v.unsaved == (if saved then [] else t.unsaved + [j])
      && v.disk.files == Grown(t.disk.files, Partial(job.output), BlockAt(t, job, j))
      && v.disk.checkpoints ==
         if saved then t.disk.checkpoints[job.output := job.chunks[j].index] else t.disk.checkpoints
  {
    hide Grown, BlockAt, Partial, StartPosition;
  }

  lemma OneSkip(s: State, t: State, job: Job, b: seq<Bytes>, i: nat, j: nat, saved: bool)
    requires Separate(job) && |b| == |job.chunks|
    requires Blocks(s.disk.files, job) == b && i <= j < |b| && Passed(s, t, job, b, i, j, saved)
    requires b[j] == []
    ensures Passed(s, Next(t, job, Skip), job, b, i, j + 1, saved)
  {
    hide Separate, Blocks, BlockAt, Concat, Grown, Partial, Next;
    AtNext(s, t, job, b, i, j);
    SkipAdvances(t, job);
    assert Concat(b[i..j]) + [] == Concat(b[i..j]);
  }

  lemma OneAppend(s: State, t: State, job: Job, b: seq<Bytes>, i: nat, j: nat, saved: bool)
    requires Separate(job) && |b| == |job.chunks|
    requires Blocks(s.disk.files, job) == b && i <= j < |b| && Passed(s, t, job, b, i, j, saved)
    requires b[j] != []
    ensures Passed(s, Next(Next(t, job, Append), job, if saved then Save else SaveFails), job, b, i, j + 1, saved)
  {
    hide Separate, Blocks, BlockAt, Concat, Grown, Partial, Next;
    AtNext(s, t, job, b, i, j);
    AppendAdvances(t, job, saved);
  }

  lemma PassNothing(s: State, job: Job, b: seq<Bytes>, i: nat, saved: bool)
    requires i <= |b| && s.phase == Merging(i) && Partial(job.output) in s.disk.files
    ensures Pass(b, i, i, saved) == [] && Run(s, job, []) == s && Passed(s, s, job, b, i, i, saved)
  {
    assert b[i..i] == [];
    var files, partial := s.disk.files, Partial(job.output);
    assert files[partial] + [] == files[partial];
    assert Grown(files, partial, []) == files;
  }

  lemma {:induction false} PassRuns(s: State, job: Job, b: seq<Bytes>, i: nat, j: nat, saved: bool)
    requires Separate(job) && |b| == |job.chunks|
    requires Blocks(s.disk.files, job) == b && i <= j <= |b| && s.phase == Merging(i)
    requires Partial(job.output) in s.disk.files
    ensures Passed(s, Run(s, job, Pass(b, i, j, saved)), job, b, i, j, saved)
  {
    hide Passed, Next, Run, Separate, Blocks;
    if j == i {
      PassNothing(s, job, b, i, saved);
    } else {
      PassRuns(s, job, b, i, j - 1, saved);
      var before := Pass(b, i, j - 1, saved);
      if b[j - 1] == [] {
        OneSkip(s, Run(s, job, before), job, b, i, j - 1, saved);
      } else {
        OneAppend(s, Run(s, job, before), job, b, i, j - 1, saved);
      }
      RunTwo(s, job, before, if b[j - 1] == [] then Skip else Append, if saved then Save else SaveFails);
    }
  }

  function Deletes(n: nat): seq<Event> {
    seq(n, _ => Delete)
  }

  lemma {:induction false} DeletesRun(s: State, job: Job, m: nat)
    requires Separate(job) && s.phase == Cleaning(0) && m <= |job.chunks| && Partial(job.output) in s.disk.files
    ensures
      var s' := Run(s, job, Deletes(m));
      && s'.phase == Cleaning(m) && s'.tears == s.tears && s'.staleCrash == s.staleCrash && s'.unsaved == s.unsaved
      && Partial(job.output) in s'.disk.files
      && s'.disk.files[Partial(job.output)] == s.disk.files[Partial(job.output)]
  {
    if m > 0 {
      DeletesRun(s, job, m - 1);
      assert Deletes(m)[..m - 1] == Deletes(m - 1);
      assert job.chunks[m - 1] in job.chunks;
    }
  }

  function Finish(n: nat): seq<Event> {
    [BeginCleanup] + Deletes(n) + [Rename]
  }

  lemma FinishRuns(s: State, job: Job)
    requires Separate(job) && s.phase == Merging(|job.chunks|) && Partial(job.output) in s.disk.files
    ensures
      var s' := Run(s, job, Finish(|job.chunks|));
      && s'.phase.Renamed? && s'.tears == s.tears && s'.staleCrash == s.staleCrash
      && Output(s', job) == s.disk.files[Partial(job.output)]
  {
    hide Run, Separate, Deletes;
    PartialIsAnother(job.output);
    hide Partial;
    var n := |job.chunks|;
    RunShort(s, job, BeginCleanup, Rename);
    RunAppend(s, job, [BeginCleanup], Deletes(n));
    RunTwo(s, job, [BeginCleanup] + Deletes(n), Rename, Rename);
    DeletesRun(Run(s, job, [BeginCleanup]), job, n);
  }

  /** Merge up to position m, die between chunks, restart, and run to the rename. */
  function CrashAt(b: seq<Bytes>, m: nat, r: nat, saved: bool): seq<Event>
    requires m <= |b|
  {
    [Start] + Pass(b, 0, m, saved) + [Crash, Start] + Pass(b, r, |b|, true) + Finish(|b|)
  }

  lemma FirstLeg(disk: Disk, job: Job, m: nat, saved: bool) returns (s: State)
    requires FreshDisk(disk, job) && Separate(job) && m <= |job.chunks|
    ensures s == Run(Initial(disk, job), job, [Start] + Pass(Blocks(disk.files, job), 0, m, saved))
    ensures s.phase == Merging(m) && s.tears == Initial(disk, job).tears && !s.staleCrash
    ensures s.unsaved == if saved then [] else Live(Blocks(disk.files, job), 0, m)
    ensures s.disk.files == Grown(disk.files, Partial(job.output), Concat(Blocks(disk.files, job)[..m]))
    ensures !saved ==> job.output !in s.disk.checkpoints
    ensures saved && m > 0 && Blocks(disk.files, job)[m - 1] != [] ==>
      job.output in s.disk.checkpoints && s.disk.checkpoints[job.output] == job.chunks[m - 1].index
  {
    var b, s0 := Blocks(disk.files, job), Initial(disk, job);
    hide Run, Blocks, Separate, Pass;
    RunShort(s0, job, Start, Start);
    var s1 := Run(s0, job, [Start]);
    GrownKeepsBlocks(disk.files, job, []);
    RunAppend(s0, job, [Start], Pass(b, 0, m, saved));
    PassRuns(s1, job, b, 0, m, saved);
    s := Run(s1, job, Pass(b, 0, m, saved));
    assert b[0..m] == b[..m];
  }

  lemma Restarts(s: State, job: Job)
    requires s.phase.Merging? && Partial(job.output) in s.disk.files
    ensures StartPosition(s.disk, job) <= |job.chunks|
    ensures
      var t := Run(s, job, [Crash, Start]);
      && t == Died(s, job).(phase := Merging(StartPosition(s.disk, job))) && t.disk == s.disk
  {
    hide Run;
    RunShort(s, job, Crash, Start);
    assert s.disk.files[Partial(job.output)] + [] == s.disk.files[Partial(job.output)];
    hide Partial, StartPosition, Again, Readable;
    assert s.disk.files[Partial(job.output) := s.disk.files[Partial(job.output)]] == s.disk.files;
  }

  lemma SecondLeg(s: State, job: Job, b: seq<Bytes>, r: nat)
    requires Separate(job) && s.phase.Merging? && |b| == |job.chunks|
    requires Blocks(s.disk.files, job) == b && r == StartPosition(s.disk, job)
    requires Partial(job.output) in s.disk.files
    ensures
      var s' := Run(s, job, [Crash, Start] + Pass(b, r, |b|, true) + Finish(|b|));
      && s'.phase.Renamed? && s'.tears == Died(s, job).tears && s'.staleCrash == Died(s, job).staleCrash
      && Output(s', job) == s.disk.files[Partial(job.output)] + Concat(b[r..])
  {
    hide Run, Next, Blocks, Separate, Pass, Finish, StartPosition, Partial;
    Restarts(s, job);
    var s1 := Run(s, job, [Crash, Start]);
    var pass := Pass(b, r, |b|, true);
    RunAppend(s, job, [Crash, Start], pass);
    PassRuns(s1, job, b, r, |b|, true);
    RunAppend(s, job, [Crash, Start] + pass, Finish(|b|));
    assert b[r..|b|] == b[r..];
    FinishRuns(Run(s1, job, pass), job);
  }

  lemma {:induction false} LiveMembers(b: seq<Bytes>, m: nat)
    requires m <= |b|
    ensures forall q :: q in Live(b, 0, m) <==> 0 <= q < m && b[q] != []
    ensures |Live(b, 0, m)| > 1 <==> exists p, q :: 0 <= p < q < m && b[p] != [] && b[q] != []
  {
    if m > 0 {
      LiveMembers(b, m - 1);
      var rest := Live(b, 0, m - 1);
      if b[m - 1] != [] && rest != [] { assert rest[0] in rest; }
    }
  }

  /** A crash after the first chunks with none of them saved. */
  lemma UnsavedCrash(s: State, job: Job, b: seq<Bytes>, m: nat)
    requires m <= |b| == |job.chunks| == |s.tears| && Blocks(s.disk.files, job) == b
    requires s.unsaved == Live(b, 0, m) && !s.staleCrash
    ensures Died(s, job).staleCrash <==> |Live(b, 0, m)| > 1
  {
    LiveMembers(b, m);
    var u := s.unsaved;
    if |u| > 1 {
      assert u[0] in u[..|u| - 1] && u[0] in u;
      assert BlockAt(s, job, u[0]) == b[u[0]];
      assert Readable(s, job, u[0]);
    }
  }

  lemma DiesSaved(s: State, job: Job)
    requires s.unsaved == []
    ensures Died(s, job) == s.(phase := Idle)
  {
  }

  lemma CrashAtOutput(disk: Disk, job: Job, m: nat, r: nat, saved: bool)
    requires FreshDisk(disk, job) && Separate(job) && m <= |job.chunks|
    requires
      if saved then m > 0 && Blocks(disk.files, job)[m - 1] != [] && r == ResumePosition(job, job.chunks[m - 1].index)
      else r == 0
    ensures
      var b := Blocks(disk.files, job);
      var s := Run(Initial(disk, job), job, CrashAt(b, m, r, saved));
      && s.phase.Renamed? && (saved ==> s.tears == Initial(disk, job).tears && !s.staleCrash)
      && (!saved ==> (s.staleCrash <==> |Live(b, 0, m)| > 1))
      && Output(s, job) == Concat(b[..m]) + Concat(b[r..])
  {
    hide Run, Next, Step, Separate, Pass, Finish, Blocks, Live, Died;
    var b := Blocks(disk.files, job);
    var s := FirstLeg(disk, job, m, saved);
    GrownKeepsBlocks(disk.files, job, Concat(b[..m]));
    SecondLeg(s, job, b, r);
    if saved { DiesSaved(s, job); } else { UnsavedCrash(s, job, b, m); }
    var first, rest := [Start] + Pass(b, 0, m, saved), [Crash, Start] + Pass(b, r, |b|, true) + Finish(|b|);
    RunAppend(Initial(disk, job), job, first, rest);
    assert CrashAt(b, m, r, saved) == first + rest;
  }

  // ---- Exactly when every clean crash is harmless -------------------------------------

  /** No crash left a byte of a chunk to be merged again. */
  ghost predicate Clean(s: State) {
    !s.staleCrash && NoTears(s.tears)
  }

  ghost predicate CleanRunsConcatenate(disk: Disk, job: Job) {
    forall events ::
      var s := Run(Initial(disk, job), job, events);
      Over(s) && Clean(s) ==> Output(s, job) == Concat(Blocks(disk.files, job))
  }

  lemma TailLonger(b: seq<Bytes>, i: nat, j: nat, q: nat)
    requires i <= q < j <= |b| && b[q] != []
    ensures |Concat(b[i..])| > |Concat(b[j..])|
  {
    assert b[i..] == (b[i..q] + [b[q]]) + b[q + 1..];
    assert b[q + 1..] == b[q + 1..j] + b[j..];
    ConcatAppend(b[i..q] + [b[q]], b[q + 1..]);
    ConcatAppend(b[q + 1..j], b[j..]);
    assert (b[i..q] + [b[q]])[..q - i] == b[i..q];
  }

  lemma UnsafeCleanRun(disk: Disk, job: Job, p: nat, q: nat)
    requires FreshDisk(disk, job) && Separate(job) && p < |job.chunks| && q < |job.chunks|
    requires Blocks(disk.files, job)[p] != [] && Blocks(disk.files, job)[q] != []
    requires (q <= p) != (q <= job.chunks[p].index)
    ensures !CleanRunsConcatenate(disk, job)
  {
    hide Separate, Run, Blocks, FreshDisk, CrashAt, ResumeSafe;
    var b := Blocks(disk.files, job);
    var r := ResumePosition(job, job.chunks[p].index);
    CrashAtOutput(disk, job, p + 1, r, true);
    assert b == b[..p + 1] + b[p + 1..];
    ConcatAppend(b[..p + 1], b[p + 1..]);
    if q <= p { TailLonger(b, r, p + 1, q); } else { TailLonger(b, p + 1, r, q); }
    var s := Run(Initial(disk, job), job, CrashAt(b, p + 1, r, true));
    assert Over(s) && Clean(s);
  }

  /** Resuming from a checkpoint is correct in every run that crashes only cleanly
      exactly when the chunks' indexes serve as their positions. */
  lemma CleanRunsConcatenateIff(disk: Disk, job: Job)
    requires FreshDisk(disk, job) && Separate(job)
    ensures CleanRunsConcatenate(disk, job) <==> ResumeSafe(Blocks(disk.files, job), job)
  {
    var b := Blocks(disk.files, job);
    if ResumeSafe(b, job) {
      forall events | Over(Run(Initial(disk, job), job, events)) && Clean(Run(Initial(disk, job), job, events))
        ensures Output(Run(Initial(disk, job), job, events), job) == Concat(b)
      {
        MergedOutput(disk, job, events);
        ExactIffNoTears(b, Run(Initial(disk, job), job, events).tears);
      }
    } else {
      var p, q :| 0 <= p < |b| && 0 <= q < |b| && b[p] != [] && b[q] != [] && (q <= p) != (q <= job.chunks[p].index);
      UnsafeCleanRun(disk, job, p, q);
    }
  }

  /** A crash while the checkpoint lags repeats the chunks as a group; it is stale as soon
      as two of them have something in them. */
  lemma StaleCrashRepeatsAGroup(disk: Disk, job: Job, m: nat)
    requires FreshDisk(disk, job) && Separate(job) && m <= |job.chunks|
    ensures
      var b := Blocks(disk.files, job);
      var s := Run(Initial(disk, job), job, CrashAt(b, m, 0, false));
      && s.phase.Renamed? && Output(s, job) == Concat(b[..m]) + Concat(b)
      && (s.staleCrash <==> exists p, q :: 0 <= p < q < m && b[p] != [] && b[q] != [])
  {
    CrashAtOutput(disk, job, m, 0, false);
    LiveMembers(Blocks(disk.files, job), m);
    assert Blocks(disk.files, job)[0..] == Blocks(disk.files, job);
  }

  /** The byte x occurs in chunk q and in no other. */
  ghost predicate Marks(b: seq<Bytes>, q: nat, x: byte) {
    q < |b| && x in b[q] && forall k | 0 <= k < |b| && k != q :: x !in b[k]
  }

  lemma {:induction false} InConcat(b: seq<Bytes>, q: nat, x: byte)
    requires q < |b| && x in b[q]
    ensures x in Concat(b)
  {
    if q < |b| - 1 { InConcat(b[..|b| - 1], q, x); }
  }

  lemma {:induction false} InPower(block: Bytes, r: nat, x: byte)
    requires x in Power(block, r)
    ensures x in block
  {
    if x !in block { InPower(block, r - 1, x); }
  }

  lemma {:induction false} InRepeated(b: seq<Bytes>, r: seq<nat>, i: nat, m: nat, x: byte)
    requires m <= |b| == |r| && x in Repeated(b, r, i, m)
    ensures exists q :: i <= q < m && x in b[q]
  {
    if x in Power(b[m - 1], r[m - 1]) {
      InPower(b[m - 1], r[m - 1], x);
    } else {
      InRepeated(b, r, i, m - 1, x);
    }
  }

  lemma {:induction false} RepeatedParts(b: seq<Bytes>, r: seq<nat>, i: nat, m: nat)
    requires i <= m <= |b| == |r|
    ensures Repeated(b, r, 0, m) == Repeated(b, r, 0, i) + Repeated(b, r, i, m)
  {
    if i < m {
      RepeatedParts(b, r, i, m - 1);
    } else {
      assert Repeated(b, r, i, m) == [];
    }
  }

  /** That group is out of order: if chunks p < q < m each have a byte of their own, no
      repetitions r make the output c0^r0 + c1^r1 + ... */
  lemma GroupIsOutOfOrder(b: seq<Bytes>, r: seq<nat>, m: nat, p: nat, q: nat, x: byte, y: byte)
    requires p < q < m <= |b| == |r| && Marks(b, p, x) && Marks(b, q, y)
    ensures Concat(b[..m]) + Concat(b) != Repeated(b, r, 0, |b|)
  {
    var early, late := Repeated(b, r, 0, q), Repeated(b, r, q, |b|);
    RepeatedParts(b, r, q, |b|);
    if y in early { InRepeated(b, r, 0, q, y); }
    if x in late { InRepeated(b, r, q, |b|, x); }
    InConcat(b[..m], q, y);
    InConcat(b, p, x);
    hide Repeated, Concat, Marks;
    NotInThatOrder(Concat(b[..m]), Concat(b), early, late, x, y);
  }

  lemma NotInThatOrder(first: Bytes, second: Bytes, early: Bytes, late: Bytes, x: byte, y: byte)
    requires y in first && x in second && y !in early && x !in late
    ensures first + second != early + late
  {
    var i :| 0 <= i < |first| && first[i] == y;
    var j :| 0 <= j < |second| && second[j] == x;
    var got, wanted := first + second, early + late;
    assert got[i] == y && got[|first| + j] == x;
    assert forall k | 0 <= k < |wanted| && wanted[k] == y :: |early| <= k;
    assert forall k | 0 <= k < |wanted| && wanted[k] == x :: k < |early|;
  }
}
