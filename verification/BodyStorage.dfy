/**
 Request bodies kept in memory or in a cache file behind one interface, and the global counters of
 open buffers and files.
*/
module BodyStorage {
  import opened Bytes

  const MAX_INT64 := TWO_63 - 1

  /** The 64-bit sum the source computes. */
  function Wrap(x: int): (r: int)
    ensures IsInt64(r) && (IsInt64(x) ==> r == x)
  {
    Signed(x % TWO_64)
  }

  // ---- one abstract file

  datatype File = File(data: seq<Byte>, pos: nat, closed: bool)

  datatype Whence = FromStart | FromCurrent | FromEnd

  datatype Op = Read(k: nat) | Seek(offset: int, whence: Whence) | GetBytes | Close

  datatype Answer = Closed | EndOfFile | Content(bytes: seq<Byte>) | Position(pos: nat) | BadSeek | Done

  function Available(f: File, k: nat): nat {
    if f.pos + k <= |f.data| then k else if f.pos <= |f.data| then |f.data| - f.pos else 0
  }

  function Target(f: File, offset: int, whence: Whence): int {
    match whence
    case FromStart => offset
    case FromCurrent => f.pos + offset
    case FromEnd => |f.data| + offset
  }

  function Chunk(f: File, k: nat): seq<Byte> {
    if f.pos <= |f.data| then f.data[f.pos..f.pos + Available(f, k)] else []
  }

  /** A memory reader reports the end of the data even to a read of nothing. */
  function MemoryAnswer(f: File, op: Op): Answer {
    if op.Read? && !f.closed then if f.pos >= |f.data| then EndOfFile else Content(Chunk(f, op.k))
    else OtherAnswer(f, op)
  }

  /** A file does not. */
  function DiskAnswer(f: File, op: Op): Answer {
    if op.Read? && !f.closed then
      if op.k == 0 then Content([]) else if f.pos >= |f.data| then EndOfFile else Content(Chunk(f, op.k))
    else OtherAnswer(f, op)
  }

  function OtherAnswer(f: File, op: Op): Answer {
    if op.Close? then Done
    else if f.closed then Closed
    else match op
      case Seek(offset, whence) => if Target(f, offset, whence) < 0 then BadSeek else Position(Target(f, offset, whence))
      case _ => Content(f.data)
  }

  function After(f: File, op: Op): (g: File)
    ensures g.data == f.data
  {
    if f.closed then f
    else match op
      case Read(k) => File(f.data, f.pos + Available(f, k), false)
      case Seek(offset, whence) => if Target(f, offset, whence) < 0 then f else File(f.data, Target(f, offset, whence), false)
      case GetBytes => f
      case Close => File(f.data, f.pos, true)
  }

  function FileAfter(f: File, ops: seq<Op>, n: nat): (g: File)
    requires n <= |ops|
    ensures g.data == f.data
  {
    if n == 0 then f else After(FileAfter(f, ops, n - 1), ops[n - 1])
  }

  function Answers(disk: bool, f: File, ops: seq<Op>, n: nat): (answers: seq<Answer>)
    requires n <= |ops|
    ensures |answers| == n
  {
    if n == 0 then []
    else
      var g := FileAfter(f, ops, n - 1);
      Answers(disk, f, ops, n - 1) + [if disk then DiskAnswer(g, ops[n - 1]) else MemoryAnswer(g, ops[n - 1])]
  }

  /** The one difference: reading nothing at the end of an open file. */
  predicate EmptyReadAtEnd(f: File, op: Op) {
    op.Read? && op.k == 0 && !f.closed && f.pos >= |f.data|
  }

  lemma AnswerAgrees(f: File, op: Op)
    ensures MemoryAnswer(f, op) == DiskAnswer(f, op) <==> !EmptyReadAtEnd(f, op)
  {
  }

  /** The run never reads nothing at the end. */
  predicate NoEmptyReads(f: File, ops: seq<Op>, n: nat)
    requires n <= |ops|
  {
    n == 0 || (NoEmptyReads(f, ops, n - 1) && !EmptyReadAtEnd(FileAfter(f, ops, n - 1), ops[n - 1]))
  }

  lemma {:induction false} NonEmptyBuffersSuffice(f: File, ops: seq<Op>, n: nat)
    requires n <= |ops| && forall i :: 0 <= i < n && ops[i].Read? ==> ops[i].k > 0
    ensures NoEmptyReads(f, ops, n)
  {
    if n > 0 {
      NonEmptyBuffersSuffice(f, ops, n - 1);
    }
  }

  /** Memory and disk give the same answers to a run exactly when it never reads nothing at the end. */
  lemma {:induction false} StoragesAgree(f: File, ops: seq<Op>, n: nat)
    requires n <= |ops|
    ensures Answers(false, f, ops, n) == Answers(true, f, ops, n) <==> NoEmptyReads(f, ops, n)
  {
    if n > 0 {
      StoragesAgree(f, ops, n - 1);
      StoragesAgreeStep(f, ops, n);
    }
  }

  lemma StoragesAgreeStep(f: File, ops: seq<Op>, n: nat)
    requires 0 < n <= |ops|
    requires Answers(false, f, ops, n - 1) == Answers(true, f, ops, n - 1) <==> NoEmptyReads(f, ops, n - 1)
    ensures Answers(false, f, ops, n) == Answers(true, f, ops, n) <==> NoEmptyReads(f, ops, n)
  {
    var g := FileAfter(f, ops, n - 1);
    AnswerAgrees(g, ops[n - 1]);
    SnocEqual(Answers(false, f, ops, n - 1), Answers(true, f, ops, n - 1),
              MemoryAnswer(g, ops[n - 1]), DiskAnswer(g, ops[n - 1]));
  }

  lemma SnocEqual(a: seq<Answer>, b: seq<Answer>, x: Answer, y: Answer)
    requires |a| == |b|
    ensures a + [x] == b + [y] <==> a == b && x == y
  {
    if a + [x] == b + [y] {
      assert a == (a + [x])[..|a|] == (b + [y])[..|b|] == b;
      assert x == (a + [x])[|a|] == (b + [y])[|b|] == y;
    }
  }

  /** Reading on from the start to the end of file yields the data, whatever the buffer sizes. */
  lemma {:induction false} ReadsConcatenate(f: File, ops: seq<Op>, n: nat)
    requires n <= |ops| && !f.closed && f.pos == 0 && forall i :: 0 <= i < n ==> ops[i].Read?
    ensures ReadUpTo(f.data, FileAfter(f, ops, n), Answers(false, f, ops, n))
  {
    if n > 0 {
      ReadsConcatenate(f, ops, n - 1);
      ReadOn(FileAfter(f, ops, n - 1), Answers(false, f, ops, n - 1), ops[n - 1]);
    }
  }

  ghost predicate ReadUpTo(data: seq<Byte>, g: File, answers: seq<Answer>) {
    !g.closed && g.pos <= |data| && Joined(answers) == data[..g.pos]
  }

  lemma ReadOn(g: File, answers: seq<Answer>, op: Op)
    requires op.Read? && ReadUpTo(g.data, g, answers)
    ensures ReadUpTo(g.data, After(g, op), answers + [MemoryAnswer(g, op)])
  {
    JoinedSnoc(answers, MemoryAnswer(g, op));
    if g.pos < |g.data| {
      ChunkExtends(g.data, g.pos, g.pos + Available(g, op.k));
    } else {
      assert Available(g, op.k) == 0;
    }
  }

  lemma ChunkExtends(data: seq<Byte>, from: nat, to: nat)
    requires from <= to <= |data|
    ensures data[..from] + data[from..to] == data[..to]
  {
  }

  function Joined(answers: seq<Answer>): seq<Byte> {
    if answers == [] then []
    else Joined(answers[..|answers| - 1])
         + (if answers[|answers| - 1].Content? then answers[|answers| - 1].bytes else [])
  }

  lemma {:induction false} JoinedSnoc(answers: seq<Answer>, a: Answer)
    ensures Joined(answers + [a]) == Joined(answers) + (if a.Content? then a.bytes else [])
  {
    assert (answers + [a])[..|answers|] == answers;
  }

  /** A seek to position `t`, counted from the start, the cursor or the end, makes the next read start there. */
  lemma SeekThenRead(f: File, t: nat, whence: Whence, k: nat, disk: bool)
    requires !f.closed && t < |f.data| && k > 0
    ensures var offset := match whence case FromStart => t case FromCurrent => t - f.pos case FromEnd => t - |f.data|;
            var seek := Op.Seek(offset, whence); var g := After(f, seek);
            && MemoryAnswer(f, seek) == Position(t) && DiskAnswer(f, seek) == Position(t)
            && (if disk then DiskAnswer(g, Op.Read(k)) else MemoryAnswer(g, Op.Read(k))) ==
               Content(f.data[t..if t + k < |f.data| then t + k else |f.data|])
  {
  }

  /** A seek before the start is refused and moves nothing; reading at or behind the end finds the end. */
  lemma SeekOutside(f: File, offset: int, k: nat)
    requires !f.closed
    ensures offset < 0 ==> MemoryAnswer(f, Op.Seek(offset, FromStart)) == BadSeek && After(f, Op.Seek(offset, FromStart)) == f
    ensures offset + f.pos < 0 ==> MemoryAnswer(f, Op.Seek(offset, FromCurrent)) == BadSeek && After(f, Op.Seek(offset, FromCurrent)) == f
    ensures offset + |f.data| < 0 ==> MemoryAnswer(f, Op.Seek(offset, FromEnd)) == BadSeek && After(f, Op.Seek(offset, FromEnd)) == f
    ensures f.pos >= |f.data| && k > 0 ==>
              MemoryAnswer(f, Op.Read(k)) == EndOfFile && DiskAnswer(f, Op.Read(k)) == EndOfFile && After(f, Op.Read(k)) == f
  {
  }

  /** The whole content is what was stored, in every state of every run, and asking for it moves nothing. */
  lemma BytesAreData(f: File, ops: seq<Op>, n: nat)
    requires n <= |ops|
    ensures var g := FileAfter(f, ops, n);
            && After(g, Op.GetBytes) == g
            && (!g.closed ==> MemoryAnswer(g, Op.GetBytes) == Content(f.data) && DiskAnswer(g, Op.GetBytes) == Content(f.data))
  {
  }

  /** Once closed, always closed: every other operation is refused, and closing again is fine. */
  lemma {:induction false} ClosedStays(f: File, ops: seq<Op>, n: nat, disk: bool)
    requires n <= |ops| && f.closed
    ensures FileAfter(f, ops, n) == f
    ensures forall i :: 0 <= i < n ==> Answers(disk, f, ops, n)[i] == if ops[i].Close? then Done else Closed
  {
    if n > 0 {
      ClosedStays(f, ops, n - 1, disk);
    }
  }

  /** Closing closes. */
  lemma CloseCloses(f: File)
    ensures After(f, Op.Close).closed && MemoryAnswer(f, Op.Close) == Done && DiskAnswer(f, Op.Close) == Done
  {
  }

  // ---- the counters

  datatype Counters = Counters(diskFiles: int, diskUsage: int, memoryBuffers: int, memoryUsage: int, diskHits: nat, memoryHits: nat)

  function NotNegative(x: int): int {
    if x < 0 then 0 else x
  }

  function Opened(c: Counters, disk: bool, size: nat): Counters {
    if disk then Counters(c.diskFiles + 1, c.diskUsage + size, c.memoryBuffers, c.memoryUsage, c.diskHits, c.memoryHits)
    else Counters(c.diskFiles, c.diskUsage, c.memoryBuffers + 1, c.memoryUsage + size, c.diskHits, c.memoryHits)
  }

  function Shut(c: Counters, disk: bool, size: nat): Counters {
    if disk
    then Counters(NotNegative(c.diskFiles - 1), NotNegative(c.diskUsage - size),
                  c.memoryBuffers, c.memoryUsage, c.diskHits, c.memoryHits)
    else Counters(c.diskFiles, c.diskUsage, c.memoryBuffers - 1, c.memoryUsage - size, c.diskHits, c.memoryHits)
  }

  function Hit(c: Counters, disk: bool): Counters {
    if disk then Counters(c.diskFiles, c.diskUsage, c.memoryBuffers, c.memoryUsage, c.diskHits + 1, c.memoryHits)
    else Counters(c.diskFiles, c.diskUsage, c.memoryBuffers, c.memoryUsage, c.diskHits, c.memoryHits + 1)
  }

  class Stats {
    var diskFiles: int
    var diskUsage: int
    var memoryBuffers: int
    var memoryUsage: int
    var diskHits: nat
    var memoryHits: nat

    function Value(): Counters
      reads this
    {
      Counters(diskFiles, diskUsage, memoryBuffers, memoryUsage, diskHits, memoryHits)
    }

    constructor ()
      ensures Value() == Counters(0, 0, 0, 0, 0, 0)
    {
      diskFiles, diskUsage, memoryBuffers, memoryUsage, diskHits, memoryHits := 0, 0, 0, 0, 0, 0;
    }

    method IncrementDiskFiles(size: nat)
      modifies this
      ensures Value() == Opened(old(Value()), true, size)
    {
      diskFiles := diskFiles + 1;
      diskUsage := diskUsage + size;
    }

    method DecrementDiskFiles(size: nat)
      modifies this
      ensures Value() == Shut(old(Value()), true, size)
    {
      diskFiles := diskFiles - 1;
      if diskFiles < 0 {
        diskFiles := 0;
      }
      diskUsage := diskUsage - size;
      if diskUsage < 0 {
        diskUsage := 0;
      }
    }

    method IncrementMemoryBuffers(size: nat)
      modifies this
      ensures Value() == Opened(old(Value()), false, size)
    {
      memoryBuffers := memoryBuffers + 1;
      memoryUsage := memoryUsage + size;
    }

    method DecrementMemoryBuffers(size: nat)
      modifies this
      ensures Value() == Shut(old(Value()), false, size)
    {
      memoryBuffers := memoryBuffers - 1;
      memoryUsage := memoryUsage - size;
    }

    method RecordHit(disk: bool)
      modifies this
      ensures Value() == Hit(old(Value()), disk)
    {
      if disk {
        diskHits := diskHits + 1;
      } else {
        memoryHits := memoryHits + 1;
      }
    }
  }

  // ---- the two implementations

  class MemoryStorage {
    const data: seq<Byte>
    var index: nat
    var closed: bool

    function Value(): File
      reads this
    {
      File(data, index, closed)
    }

    constructor (data: seq<Byte>, stats: Stats)
      modifies stats
      ensures Value() == File(data, 0, false)
      ensures stats.Value() == Opened(old(stats.Value()), false, |data|)
    {
      this.data, index, closed := data, 0, false;
      new;
      stats.IncrementMemoryBuffers(|data|);
    }

    method Read(k: nat) returns (a: Answer)
      modifies this
      ensures a == MemoryAnswer(old(Value()), Op.Read(k)) && Value() == After(old(Value()), Op.Read(k))
    {
      if closed {
        return Closed;
      }
      if index >= |data| {
        return EndOfFile;
      }
      var n := if k < |data| - index then k else |data| - index;
      a := Content(data[index..index + n]);
      index := index + n;
    }

    method Seek(offset: int, whence: Whence) returns (a: Answer)
      modifies this
      ensures a == MemoryAnswer(old(Value()), Op.Seek(offset, whence))
      ensures Value() == After(old(Value()), Op.Seek(offset, whence))
    {
      if closed {
        return Closed;
      }
      var target: int;
      match whence {
        case FromStart => target := offset;
        case FromCurrent => target := index + offset;
        case FromEnd => target := |data| + offset;
      }
      if target < 0 {
        return BadSeek;
      }
      index := target;
      return Position(target);
    }

    method GetBytes() returns (a: Answer)
      ensures a == MemoryAnswer(Value(), Op.GetBytes)
    {
      if closed {
        return Closed;
      }
      return Content(data);
    }

    method Close(stats: Stats)
      modifies this, stats
      ensures Value() == After(old(Value()), Op.Close)
      ensures stats.Value() == if old(closed) then old(stats.Value()) else Shut(old(stats.Value()), false, |data|)
    {
      if !closed {
        closed := true;
        stats.DecrementMemoryBuffers(|data|);
      }
    }
  }

  class DiskStorage {
    const content: seq<Byte>
    const size: nat
    var cursor: nat
    var closed: bool

    ghost predicate Valid()
      reads this
    {
      size == |content|
    }

    function Value(): File
      reads this
    {
      File(content, cursor, closed)
    }

    constructor (data: seq<Byte>, stats: Stats)
      modifies stats
      ensures Valid() && Value() == File(data, 0, false)
      ensures stats.Value() == Opened(old(stats.Value()), true, |data|)
    {
      content, size, cursor, closed := data, |data|, 0, false;
      new;
      stats.IncrementDiskFiles(size);
    }

    method Read(k: nat) returns (a: Answer)
      requires Valid()
      modifies this
      ensures a == DiskAnswer(old(Value()), Op.Read(k)) && Value() == After(old(Value()), Op.Read(k))
    {
      if closed {
        return Closed;
      }
      if k == 0 {
        return Content([]);
      }
      if cursor >= |content| {
        return EndOfFile;
      }
      var n := if k < |content| - cursor then k else |content| - cursor;
      a := Content(content[cursor..cursor + n]);
      cursor := cursor + n;
    }

    method Seek(offset: int, whence: Whence) returns (a: Answer)
      requires Valid()
      modifies this
      ensures a == DiskAnswer(old(Value()), Op.Seek(offset, whence))
      ensures Value() == After(old(Value()), Op.Seek(offset, whence))
    {
      if closed {
        return Closed;
      }
      var target: int;
      match whence {
        case FromStart => target := offset;
        case FromCurrent => target := cursor + offset;
        case FromEnd => target := |content| + offset;
      }
      if target < 0 {
        return BadSeek;
      }
      cursor := target;
      return Position(target);
    }

    /** Goes to the start, reads everything and comes back: the cursor does not move. */
    method GetBytes() returns (a: Answer)
      requires Valid()
      modifies this
      ensures a == DiskAnswer(old(Value()), Op.GetBytes) && Value() == old(Value())
    {
      if closed {
        return Closed;
      }
      var saved := Seek(0, FromCurrent);
      var _ := Seek(0, FromStart);
      var whole: seq<Byte> := [];
      if size > 0 {
        var block := Read(size);
        whole := block.bytes;
      }
      var _ := Seek(saved.pos, FromStart);
      return Content(whole);
    }

    method Close(stats: Stats)
      requires Valid()
      modifies this, stats
      ensures Value() == After(old(Value()), Op.Close)
      ensures stats.Value() == if old(closed) then old(stats.Value()) else Shut(old(stats.Value()), true, |content|)
    {
      if !closed {
        closed := true;
        stats.DecrementDiskFiles(size);
      }
    }
  }

  // ---- creation

  datatype CacheConfig = CacheConfig(enabled: bool, threshold: int, maxSize: int)

  /** Which input or output operations fail during a creation. */
  datatype Io = Io(createFails: bool, copyFails: bool, rewindFails: bool, readFails: bool)

  datatype Created = Held(disk: bool, data: seq<Byte>) | TooLarge | Failed

  predicate IsDiskCacheAvailable(cfg: CacheConfig, c: Counters, size: int) {
    cfg.enabled && Wrap(c.diskUsage + size) <= cfg.maxSize
  }

  predicate PrefersDisk(cfg: CacheConfig, c: Counters, size: int) {
    cfg.enabled && size >= cfg.threshold && IsDiskCacheAvailable(cfg, c, size)
  }

  /** At most `limit` bytes of the stream. */
  function Limited(stream: seq<Byte>, limit: int): seq<Byte> {
    if limit <= 0 then [] else if limit < |stream| then stream[..limit] else stream
  }

  /** Whether the data ends up on disk: a failing cache file falls back to memory. */
  predicate OnDisk(cfg: CacheConfig, c: Counters, data: seq<Byte>, io: Io) {
    PrefersDisk(cfg, c, |data|) && !io.createFails && !io.copyFails && !io.rewindFails
  }

  function FromReader(cfg: CacheConfig, c: Counters, stream: seq<Byte>, contentLength: int, maxBytes: int, io: Io): Created {
    var data := Limited(stream, Wrap(maxBytes + 1));
    if contentLength > 0 && PrefersDisk(cfg, c, contentLength) then
      if io.createFails || io.copyFails || io.readFails then Failed
      else if |data| > maxBytes then TooLarge
      else if io.rewindFails then Failed
      else Held(true, data)
    else if io.readFails then Failed
    else if |data| > maxBytes then TooLarge
    else Held(OnDisk(cfg, c, data, io), data)
  }

  function CountersFromReader(c: Counters, created: Created): Counters {
    if created.Held? then Hit(Opened(c, created.disk, |created.data|), created.disk) else c
  }

  /** Barring input and output errors, creation from a reader yields the stream exactly when the stream
      fits; only at the largest 64-bit limit does the limit wrap round and drop the whole body. */
  lemma HoldsStreamIff(cfg: CacheConfig, c: Counters, stream: seq<Byte>, contentLength: int, maxBytes: int)
    requires IsInt64(maxBytes)
    ensures var created := FromReader(cfg, c, stream, contentLength, maxBytes, Io(false, false, false, false));
            && (maxBytes < MAX_INT64 ==> (created == TooLarge <==> |stream| > maxBytes))
            && (maxBytes == MAX_INT64 ==> created.Held? && created.data == [])
            && (created.Held? && created.data == stream <==> |stream| <= maxBytes && (maxBytes < MAX_INT64 || stream == []))
  {
    if maxBytes == MAX_INT64 {
      assert Wrap(maxBytes + 1) == -TWO_63;
    }
  }

  /** The space check is exact except when the 64-bit sum wraps round: then it always passes. */
  lemma AvailableIff(cfg: CacheConfig, c: Counters, size: int)
    requires cfg.enabled && 0 <= cfg.maxSize <= MAX_INT64 && 0 <= c.diskUsage <= MAX_INT64 && 0 <= size <= MAX_INT64
    ensures IsDiskCacheAvailable(cfg, c, size) <==>
            c.diskUsage + size <= cfg.maxSize || c.diskUsage + size > MAX_INT64
  {
    var sum := c.diskUsage + size;
    assert sum % TWO_64 == sum;
  }

  predicate CanWriteFile(io: Io) {
    !io.createFails && !io.copyFails && !io.rewindFails
  }

  /** Which bodies go where, far from the 64-bit limit. A body of known length goes straight to disk when the cache is
      enabled, the declared length reaches the threshold and fits the budget; then a failing file is an
      error. Otherwise the actual length decides, and a failing file falls back to memory. */
  lemma FromReaderMeans(cfg: CacheConfig, c: Counters, stream: seq<Byte>, contentLength: int, maxBytes: int, io: Io)
    requires 0 <= c.diskUsage && c.diskUsage + |stream| <= MAX_INT64 && IsInt64(maxBytes) && maxBytes < MAX_INT64
    requires contentLength > 0 ==> c.diskUsage + contentLength <= MAX_INT64
    ensures FromReader(cfg, c, stream, contentLength, maxBytes, io) ==
            if contentLength > 0 && cfg.enabled && contentLength >= cfg.threshold && c.diskUsage + contentLength <= cfg.maxSize
            then if io.createFails || io.copyFails || io.readFails then Failed
                 else if |stream| > maxBytes then TooLarge
                 else if io.rewindFails then Failed else Held(true, stream)
            else if io.readFails then Failed
            else if |stream| > maxBytes then TooLarge
            else Held(cfg.enabled && |stream| >= cfg.threshold && c.diskUsage + |stream| <= cfg.maxSize && CanWriteFile(io), stream)
  {
  }

  datatype Body = InMemory(memory: MemoryStorage) | OnFile(file: DiskStorage)

  method CreateBodyStorage(cfg: CacheConfig, stats: Stats, data: seq<Byte>, io: Io) returns (b: Body)
    modifies stats
    ensures stats.Value() == Opened(old(stats.Value()), b.OnFile?, |data|)
    ensures b.OnFile? <==> OnDisk(cfg, old(stats.Value()), data, io)
    ensures 0 <= old(stats.diskUsage) && old(stats.diskUsage) + |data| <= MAX_INT64 ==>
              (b.OnFile? <==> cfg.enabled && |data| >= cfg.threshold && old(stats.diskUsage) + |data| <= cfg.maxSize && CanWriteFile(io))
    ensures b.OnFile? ==> b.file.Valid() && b.file.Value() == File(data, 0, false)
    ensures b.InMemory? ==> b.memory.Value() == File(data, 0, false)
  {
    if PrefersDisk(cfg, stats.Value(), |data|) {
      if !io.createFails && !io.copyFails && !io.rewindFails {
        var file := new DiskStorage(data, stats);
        return OnFile(file);
      }
    }
    var memory := new MemoryStorage(data, stats);
    return InMemory(memory);
  }

  datatype Result = Ok(body: Body) | TooLargeError | IoError

  method CreateBodyStorageFromReader(cfg: CacheConfig, stats: Stats, stream: seq<Byte>, contentLength: int, maxBytes: int,
                                     io: Io)
    returns (r: Result)
    modifies stats
    ensures var created := FromReader(cfg, old(stats.Value()), stream, contentLength, maxBytes, io);
            && (created.TooLarge? <==> r.TooLargeError?) && (created.Failed? <==> r.IoError?)
            && stats.Value() == CountersFromReader(old(stats.Value()), created)
            && (r.Ok? ==> created.disk == r.body.OnFile?)
            && (r.Ok? && r.body.OnFile? ==> r.body.file.Valid() && r.body.file.Value() == File(created.data, 0, false))
            && (r.Ok? && r.body.InMemory? ==> r.body.memory.Value() == File(created.data, 0, false))
  {
    var data := Limited(stream, Wrap(maxBytes + 1));
    if contentLength > 0 && PrefersDisk(cfg, stats.Value(), contentLength) {
      if io.createFails || io.copyFails || io.readFails {
        return IoError;
      }
      if |data| > maxBytes {
        return TooLargeError;
      }
      if io.rewindFails {
        return IoError;
      }
      var file := new DiskStorage(data, stats);
      stats.RecordHit(true);
      return Ok(OnFile(file));
    }
    if io.readFails {
      return IoError;
    }
    if |data| > maxBytes {
      return TooLargeError;
    }
    var body := CreateBodyStorage(cfg, stats, data, io);
    stats.RecordHit(body.OnFile?);
    return Ok(body);
  }

  // ---- accounting over runs

  datatype Entry = Entry(disk: bool, size: nat, closed: bool)

  datatype System = System(entries: seq<Entry>, counters: Counters)

  datatype Event =
    | Create(data: seq<Byte>, io: Io)
    | CreateFromReader(stream: seq<Byte>, contentLength: int, maxBytes: int, io: Io)
    | CloseStorage(i: nat)

  const START := System([], Counters(0, 0, 0, 0, 0, 0))

  function Step(cfg: CacheConfig, s: System, e: Event): System {
    match e
    case Create(data, io) =>
      var disk := OnDisk(cfg, s.counters, data, io);
      System(s.entries + [Entry(disk, |data|, false)], Opened(s.counters, disk, |data|))
    case CreateFromReader(stream, contentLength, maxBytes, io) =>
      var created := FromReader(cfg, s.counters, stream, contentLength, maxBytes, io);
      if !created.Held? then s
      else System(s.entries + [Entry(created.disk, |created.data|, false)], CountersFromReader(s.counters, created))
    case CloseStorage(i) =>
      if i >= |s.entries| || s.entries[i].closed then s
      else
        var entry := s.entries[i];
        System(s.entries[i := Entry(entry.disk, entry.size, true)], Shut(s.counters, entry.disk, entry.size))
  }

  function Run(cfg: CacheConfig, s: System, es: seq<Event>, n: nat): System
    requires n <= |es|
  {
    if n == 0 then s else Step(cfg, Run(cfg, s, es, n - 1), es[n - 1])
  }

  /** The number of open storages of one kind among the first `n`. */
  function Count(entries: seq<Entry>, disk: bool, n: nat): nat
    requires n <= |entries|
  {
    if n == 0 then 0 else Count(entries, disk, n - 1) + (if IsOpen(entries[n - 1], disk) then 1 else 0)
  }

  /** Their total size. */
  function Total(entries: seq<Entry>, disk: bool, n: nat): nat
    requires n <= |entries|
  {
    if n == 0 then 0 else Total(entries, disk, n - 1) + (if IsOpen(entries[n - 1], disk) then entries[n - 1].size else 0)
  }

  predicate IsOpen(e: Entry, disk: bool) {
    e.disk == disk && !e.closed
  }

  ghost predicate Accounted(s: System) {
    && s.counters.diskFiles == Count(s.entries, true, |s.entries|)
    && s.counters.diskUsage == Total(s.entries, true, |s.entries|)
    && s.counters.memoryBuffers == Count(s.entries, false, |s.entries|)
    && s.counters.memoryUsage == Total(s.entries, false, |s.entries|)
  }

  lemma {:induction false} PrefixSums(a: seq<Entry>, b: seq<Entry>, disk: bool, n: nat)
    requires n <= |a| && n <= |b| && forall i :: 0 <= i < n ==> a[i] == b[i]
    ensures Count(a, disk, n) == Count(b, disk, n) && Total(a, disk, n) == Total(b, disk, n)
  {
    if n > 0 {
      PrefixSums(a, b, disk, n - 1);
    }
  }

  lemma SnocSums(entries: seq<Entry>, e: Entry, disk: bool)
    ensures var more := entries + [e];
            && Count(more, disk, |more|) == Count(entries, disk, |entries|) + (if IsOpen(e, disk) then 1 else 0)
            && Total(more, disk, |more|) == Total(entries, disk, |entries|) + (if IsOpen(e, disk) then e.size else 0)
  {
    PrefixSums(entries, entries + [e], disk, |entries|);
  }

  lemma {:induction false} CloseSums(entries: seq<Entry>, i: nat, e: Entry, disk: bool, n: nat)
    requires i < n <= |entries| && e == Entry(entries[i].disk, entries[i].size, true) && !entries[i].closed
    ensures var after := entries[i := e]; var counts := IsOpen(entries[i], disk);
            && Count(after, disk, n) == Count(entries, disk, n) - (if counts then 1 else 0)
            && Total(after, disk, n) == Total(entries, disk, n) - (if counts then entries[i].size else 0)
  {
    if i == n - 1 {
      PrefixSums(entries, entries[i := e], disk, n - 1);
    } else {
      CloseSums(entries, i, e, disk, n - 1);
    }
  }

  lemma StepAccounted(cfg: CacheConfig, s: System, e: Event)
    requires Accounted(s)
    ensures Accounted(Step(cfg, s, e))
  {
    match e
    case Create(data, io) =>
      OpenAccounted(s, OnDisk(cfg, s.counters, data, io), |data|);
    case CreateFromReader(stream, contentLength, maxBytes, io) =>
      var created := FromReader(cfg, s.counters, stream, contentLength, maxBytes, io);
      if created.Held? {
        OpenAccounted(s, created.disk, |created.data|);
      }
    case CloseStorage(i) =>
      if i < |s.entries| && !s.entries[i].closed {
        CloseAccounted(s, i);
      }
  }

  lemma OpenAccounted(s: System, disk: bool, size: nat)
    requires Accounted(s)
    ensures Accounted(System(s.entries + [Entry(disk, size, false)], Opened(s.counters, disk, size)))
    ensures Accounted(System(s.entries + [Entry(disk, size, false)], Hit(Opened(s.counters, disk, size), disk)))
  {
    SnocSums(s.entries, Entry(disk, size, false), true);
    SnocSums(s.entries, Entry(disk, size, false), false);
  }

  /** The clamps at zero never act: an open file is counted. */
  lemma CloseAccounted(s: System, i: nat)
    requires Accounted(s) && i < |s.entries| && !s.entries[i].closed
    ensures var e := s.entries[i];
            Accounted(System(s.entries[i := Entry(e.disk, e.size, true)], Shut(s.counters, e.disk, e.size)))
  {
    var e := s.entries[i];
    CloseSums(s.entries, i, Entry(e.disk, e.size, true), true, |s.entries|);
    CloseSums(s.entries, i, Entry(e.disk, e.size, true), false, |s.entries|);
  }

  /** After every run of creations and closes, in any order and with any repeats, the counters are the
      numbers and total sizes of the open storages. */
  lemma {:induction false} RunAccounted(cfg: CacheConfig, es: seq<Event>, n: nat)
    requires n <= |es|
    ensures Accounted(Run(cfg, START, es, n))
  {
    if n > 0 {
      RunAccounted(cfg, es, n - 1);
      StepAccounted(cfg, Run(cfg, START, es, n - 1), es[n - 1]);
    }
  }

  /** A stream no longer than declared, with lengths far enough from the 64-bit limit. */
  predicate Honest(cfg: CacheConfig, e: Event) {
    match e
    case Create(data, _) => cfg.maxSize + |data| <= MAX_INT64
    case CreateFromReader(stream, contentLength, _, _) =>
      cfg.maxSize + |stream| <= MAX_INT64
      && (contentLength > 0 ==> |stream| <= contentLength && cfg.maxSize + contentLength <= MAX_INT64)
    case CloseStorage(_) => true
  }

  predicate WithinCap(cfg: CacheConfig, c: Counters) {
    0 <= c.diskUsage <= cfg.maxSize
  }

  lemma AvailableFits(cfg: CacheConfig, c: Counters, declared: nat, size: nat)
    requires WithinCap(cfg, c) && cfg.maxSize + declared <= MAX_INT64 && size <= declared
    requires PrefersDisk(cfg, c, declared)
    ensures WithinCap(cfg, Opened(c, true, size))
  {
  }

  lemma StepWithinCap(cfg: CacheConfig, s: System, e: Event)
    requires WithinCap(cfg, s.counters) && Honest(cfg, e)
    ensures WithinCap(cfg, Step(cfg, s, e).counters)
  {
    match e
    case Create(data, io) =>
      if OnDisk(cfg, s.counters, data, io) {
        AvailableFits(cfg, s.counters, |data|, |data|);
      }
    case CreateFromReader(stream, contentLength, maxBytes, io) =>
      ReaderWithinCap(cfg, s.counters, stream, contentLength, maxBytes, io);
    case CloseStorage(i) =>
  }

  lemma ReaderWithinCap(cfg: CacheConfig, c: Counters, stream: seq<Byte>, contentLength: int, maxBytes: int, io: Io)
    requires WithinCap(cfg, c) && Honest(cfg, CreateFromReader(stream, contentLength, maxBytes, io))
    ensures WithinCap(cfg, CountersFromReader(c, FromReader(cfg, c, stream, contentLength, maxBytes, io)))
  {
    var created := FromReader(cfg, c, stream, contentLength, maxBytes, io);
    if created.Held? && created.disk {
      if contentLength > 0 && PrefersDisk(cfg, c, contentLength) {
        AvailableFits(cfg, c, contentLength, |created.data|);
      } else {
        AvailableFits(cfg, c, |created.data|, |created.data|);
      }
    }
  }

  /** Sequential creations from streams no longer than declared never exceed the disk budget. */
  lemma {:induction false} RunWithinCap(cfg: CacheConfig, es: seq<Event>, n: nat)
    requires n <= |es| && cfg.maxSize >= 0 && forall i :: 0 <= i < n ==> Honest(cfg, es[i])
    ensures WithinCap(cfg, Run(cfg, START, es, n).counters)
  {
    if n > 0 {
      RunWithinCap(cfg, es, n - 1);
      StepWithinCap(cfg, Run(cfg, START, es, n - 1), es[n - 1]);
    }
  }

  /** How many of the first `n` events created a body from a reader on disk, or in memory. */
  function ReaderCreations(cfg: CacheConfig, es: seq<Event>, n: nat, disk: bool): nat
    requires n <= |es|
  {
    if n == 0 then 0
    else
      var e := es[n - 1];
      var created := if e.CreateFromReader?
                     then FromReader(cfg, Run(cfg, START, es, n - 1).counters, e.stream, e.contentLength, e.maxBytes, e.io)
                     else Failed;
      ReaderCreations(cfg, es, n - 1, disk) + (if created.Held? && created.disk == disk then 1 else 0)
  }

  /** The hit counters count exactly those. */
  lemma {:induction false} RunHits(cfg: CacheConfig, es: seq<Event>, n: nat)
    requires n <= |es|
    ensures var c := Run(cfg, START, es, n).counters;
            c.diskHits == ReaderCreations(cfg, es, n, true) && c.memoryHits == ReaderCreations(cfg, es, n, false)
  {
    if n > 0 {
      RunHits(cfg, es, n - 1);
    }
  }
}
