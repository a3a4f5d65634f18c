/** Paths, chunks and the disk of internal/dataset/merge.go. A path is its clean
    form: whether it is absolute, and its components. "." and "" are the relative
    path without components.
 */
module MergeModel {
  import opened Options
  import opened Sorting

  type byte = x: int | 0 <= x < 256
  type Bytes = seq<byte>

  datatype Path = Path(abs: bool, parts: seq<string>)

  const HERE := Path(false, [])

  /** filepath.Join of a directory with something relative. */
  function Join(dir: Path, rest: Path): Path {
    Path(dir.abs, dir.parts + rest.parts)
  }

  function Child(dir: Path, name: string): (p: Path)
    ensures Dir(p) == dir && Base(p) == name && p.abs == dir.abs
  {
    Path(dir.abs, dir.parts + [name])
  }

  function Dir(p: Path): Path {
    if p.parts == [] then p else Path(p.abs, p.parts[..|p.parts| - 1])
  }

  function Base(p: Path): string {
    if p.parts == [] then "." else p.parts[|p.parts| - 1]
  }

  /** Go's outputPath + suffix. */
  function Suffixed(p: Path, suffix: string): Path {
    Child(Dir(p), Base(p) + suffix)
  }

  function Partial(output: Path): Path {
    Suffixed(output, ".partial")
  }

  datatype ChunkInfo = ChunkInfo(chunkID: string, path: Path, index: int, sizeBytes: int, isSkipped: bool)

  function Active(chunks: seq<ChunkInfo>): seq<ChunkInfo> {
    if chunks == [] then []
    else if chunks[0].isSkipped then Active(chunks[1..])
    else [chunks[0]] + Active(chunks[1..])
  }

  lemma {:induction false} ActiveMembers(chunks: seq<ChunkInfo>, c: ChunkInfo)
    ensures c in Active(chunks) <==> c in chunks && !c.isSkipped
  {
    if chunks != [] { ActiveMembers(chunks[1..], c); }
  }

  function IndexOf(): ChunkInfo -> int {
    (c: ChunkInfo) => c.index
  }

  /** The active chunks in merge order. */
  function InOrder(chunks: seq<ChunkInfo>): seq<ChunkInfo> {
    SortBy(IndexOf(), Active(chunks))
  }

  /** Where a merge reads its chunks and writes its output. */
  datatype Job = Job(chunks: seq<ChunkInfo>, strategy: string, mount: Path, output: Path)

  /** resolveChunkPath */
  function Resolve(strategy: string, mount: Path, path: Path): Option<Path> {
    if path.abs then Some(path)
    else if strategy == "affinity" then None
    else if strategy == "shared_mount" then Some(Join(mount, path))
    else Some(path)
  }

  type Files = map<Path, Bytes>

  function Content(files: Files, p: Path): Bytes {
    if p in files then files[p] else []
  }

  /** What chunk c adds to the output: nothing when it cannot be resolved, is
      missing, or is empty. */
  function Block(files: Files, job: Job, c: ChunkInfo): Bytes {
    match Resolve(job.strategy, job.mount, c.path)
    case None => []
    case Some(p) => Content(files, p)
  }

  function Blocks(files: Files, job: Job): (blocks: seq<Bytes>)
    ensures |blocks| == |job.chunks|
  {
    seq(|job.chunks|, i requires 0 <= i < |job.chunks| => Block(files, job, job.chunks[i]))
  }

  function Concat(blocks: seq<Bytes>): Bytes {
    if blocks == [] then [] else Concat(blocks[..|blocks| - 1]) + blocks[|blocks| - 1]
  }

  lemma {:induction false} ConcatAppend(a: seq<Bytes>, b: seq<Bytes>)
    ensures Concat(a + b) == Concat(a) + Concat(b)
  {
    if b == [] {
      assert a + b == a;
    } else {
      ConcatAppend(a, b[..|b| - 1]);
      assert (a + b)[..|a + b| - 1] == a + b[..|b| - 1];
    }
  }

  lemma {:induction false} ConcatEmpty(blocks: seq<Bytes>)
    requires forall i | 0 <= i < |blocks| :: blocks[i] == []
    ensures Concat(blocks) == []
  {
    if blocks != [] { ConcatEmpty(blocks[..|blocks| - 1]); }
  }

  /** The files; which paths are directories; and, by output path, the
      LastChunkIndex of the checkpoint beside it. */
  datatype Disk = Disk(files: Files, dirs: set<Path>, checkpoints: map<Path, int>)

  /** No chunk is read from, and none is deleted at, the partial output. */
  ghost predicate Separate(job: Job) {
    forall c | c in job.chunks ::
      Resolve(job.strategy, job.mount, c.path) != Some(Partial(job.output)) && c.path != Partial(job.output)
  }

  /** Where the loop picks up after a checkpoint: its index + 1, read as a position. */
  function ResumePosition(job: Job, lastIndex: int): nat {
    if lastIndex + 1 < 0 then 0 else if lastIndex + 1 > |job.chunks| then |job.chunks| else lastIndex + 1
  }

  function StartPosition(disk: Disk, job: Job): nat {
    if job.output in disk.checkpoints then ResumePosition(job, disk.checkpoints[job.output]) else 0
  }
}
