/** Splitting a file into chunks, in 32-bit arithmetic, and writing chunks back. */
module Chunks {
  import opened Trees

  const CHUNK_SIZE: nat := 262144
  const U32: nat := 0x1_0000_0000

  /** uint32_t arithmetic wraps. */
  function Wrap(n: int): nat {
    n % U32
  }

  function ChunkCount(size: nat): nat {
    if size == 0 then 0 else Wrap(Wrap(size + CHUNK_SIZE) - 1) / CHUNK_SIZE
  }

  function Ceiling(size: nat): nat {
    (size + CHUNK_SIZE - 1) / CHUNK_SIZE
  }

  /** Largest size for which the chunk count does not wrap. */
  const MAX_SIZE: nat := U32 - CHUNK_SIZE

  lemma ChunkCountExactlyWhen(size: nat)
    requires size < U32
    ensures ChunkCount(size) == Ceiling(size) <==> size <= MAX_SIZE
    ensures size > MAX_SIZE ==> ChunkCount(size) == 0
  {
  }

  datatype ChunkInfo = ChunkInfo(index: nat, size: nat, content: Content)

  // --- files as byte sequences ------------------------------------------------------------------

  function ReadChunk(file: Content, offset: nat, size: nat): Content {
    if offset >= |file| then [] else if offset + size <= |file| then file[offset..offset + size] else file[offset..]
  }

  function Zeros(n: nat): (z: Content)
    ensures |z| == n
  {
    seq(n, _ => 0)
  }

  /** Seek and write: a gap is filled with zeros, bytes beyond the write stay. */
  function WriteChunk(part: Content, offset: nat, data: Content): Content {
    if data == [] then part else
    var base := if |part| < offset then part + Zeros(offset - |part|) else part;
    base[..offset] + data + (if offset + |data| < |base| then base[offset + |data|..] else [])
  }

  function ChunkAt(file: Content, index: nat): Content {
    ReadChunk(file, index * CHUNK_SIZE, CHUNK_SIZE)
  }

  // --- compute_chunks ------------------------------------------------------------------------------

  const FAILED: seq<ChunkInfo> := [ChunkInfo(0, 0, [])]

  /** Error value: one chunk of size zero. */
  predicate IsFailed(chunks: seq<ChunkInfo>) {
    |chunks| == 1 && chunks[0].index == 0 && chunks[0].size == 0
  }

  function SizeOfChunk(size: nat, i: nat): nat {
    if i * CHUNK_SIZE >= size then 0 else if size - i * CHUNK_SIZE < CHUNK_SIZE then size - i * CHUNK_SIZE else CHUNK_SIZE
  }

  /** The chunk list negotiated for a file scanned with the given size. A file
      that has since become shorter is noticed when a chunk reads as empty. */
  method ComputeChunks(size: nat, file: Content) returns (chunks: seq<ChunkInfo>)
    requires size < U32
    ensures IsFailed(chunks) <==> exists i: nat :: i < ChunkCount(size) && |file| <= i * CHUNK_SIZE
    ensures !IsFailed(chunks) ==> |chunks| == ChunkCount(size)
    ensures !IsFailed(chunks) ==> forall i :: 0 <= i < |chunks| ==>
              chunks[i] == ChunkInfo(i, SizeOfChunk(size, i), ReadChunk(file, i * CHUNK_SIZE, SizeOfChunk(size, i))) && chunks[i].size > 0
  {
    ChunkCountExactlyWhen(size);
    var count := ChunkCount(size);
    chunks := [];
    for i := 0 to count
      invariant |chunks| == i
      invariant forall j :: 0 <= j < i ==> j * CHUNK_SIZE < |file|
      invariant forall j :: 0 <= j < i ==>
        chunks[j] == ChunkInfo(j, SizeOfChunk(size, j), ReadChunk(file, j * CHUNK_SIZE, SizeOfChunk(size, j))) && chunks[j].size > 0
    {
      NoOverflow(size, i);
      var offset := Wrap(i * CHUNK_SIZE);
      var left := Wrap(size - offset);
      var chunkSize := if CHUNK_SIZE < left then CHUNK_SIZE else left;
      var data := ReadChunk(file, offset, chunkSize);
      if data == [] {
        return FAILED;
      }
      chunks := chunks + [ChunkInfo(i, chunkSize, data)];
    }
  }

  /** For an unmodified file the chunks are consecutive slices of it. */
  lemma SliceOf(file: Content, i: nat)
    ensures ReadChunk(file, i * CHUNK_SIZE, SizeOfChunk(|file|, i)) == ChunkAt(file, i)
    ensures SizeOfChunk(|file|, i) == |ChunkAt(file, i)|
  {
  }

  /** Within the bound no offset computation wraps. */
  lemma NoOverflow(size: nat, i: nat)
    requires size < U32 && i < ChunkCount(size)
    ensures size <= MAX_SIZE && i * CHUNK_SIZE < size && Wrap(i * CHUNK_SIZE) == i * CHUNK_SIZE
    ensures Wrap(size - i * CHUNK_SIZE) == size - i * CHUNK_SIZE
  {
    ChunkCountExactlyWhen(size);
  }

  function TotalSize(chunks: seq<ChunkInfo>): nat {
    if chunks == [] then 0 else TotalSize(chunks[..|chunks| - 1]) + chunks[|chunks| - 1].size
  }

  lemma {:induction false} PrefixSize(file: Content, chunks: seq<ChunkInfo>)
    requires |chunks| <= Ceiling(|file|)
    requires forall i :: 0 <= i < |chunks| ==> chunks[i].size == |ChunkAt(file, i)|
    ensures TotalSize(chunks) == if |chunks| * CHUNK_SIZE <= |file| then |chunks| * CHUNK_SIZE else |file|
  {
    if chunks != [] {
      PrefixSize(file, chunks[..|chunks| - 1]);
    }
  }

  /** Within the bound the chunk sizes are positive and add up to the file. */
  lemma ChunksPartition(file: Content, chunks: seq<ChunkInfo>)
    requires |file| <= MAX_SIZE && |chunks| == ChunkCount(|file|)
    requires forall i :: 0 <= i < |chunks| ==> chunks[i] == ChunkInfo(i, |ChunkAt(file, i)|, ChunkAt(file, i))
    ensures forall i :: 0 <= i < |chunks| ==> 0 < chunks[i].size <= CHUNK_SIZE
    ensures TotalSize(chunks) == |file|
  {
    ChunkCountExactlyWhen(|file|);
    PrefixSize(file, chunks);
  }

  // --- rebuilding the file ------------------------------------------------------------------------------

  /** The partial file agrees with the source on every chunk in got. */
  ghost predicate Agrees(part: Content, file: Content, got: set<nat>) {
    && |part| <= |file|
    && (forall p :: 0 <= p < |file| && p / CHUNK_SIZE in got ==> p < |part| && part[p] == file[p])
  }

  lemma WriteAt(part: Content, offset: nat, data: Content, p: nat)
    requires data != []
    ensures var r := WriteChunk(part, offset, data);
            && |r| == (if |part| < offset + |data| then offset + |data| else |part|)
            && (p < |part| && !(offset <= p < offset + |data|) ==> r[p] == part[p])
            && (offset <= p < offset + |data| ==> r[p] == data[p - offset])
  {
  }

  lemma ChunkBounds(file: Content, i: nat, p: nat)
    requires i < Ceiling(|file|)
    ensures i * CHUNK_SIZE < |file| && 0 < |ChunkAt(file, i)| && i * CHUNK_SIZE + |ChunkAt(file, i)| <= |file|
    ensures p < |file| ==> (p / CHUNK_SIZE == i <==> i * CHUNK_SIZE <= p < i * CHUNK_SIZE + |ChunkAt(file, i)|)
    ensures i * CHUNK_SIZE <= p < i * CHUNK_SIZE + |ChunkAt(file, i)| ==> ChunkAt(file, i)[p - i * CHUNK_SIZE] == file[p]
  {
  }

  lemma WriteAgrees(part: Content, file: Content, got: set<nat>, i: nat)
    requires Agrees(part, file, got) && i < Ceiling(|file|)
    ensures Agrees(WriteChunk(part, i * CHUNK_SIZE, ChunkAt(file, i)), file, got + {i})
  {
    var data := ChunkAt(file, i);
    var r := WriteChunk(part, i * CHUNK_SIZE, data);
    ChunkBounds(file, i, 0);
    WriteAt(part, i * CHUNK_SIZE, data, 0);
    forall p | 0 <= p < |file| && p / CHUNK_SIZE in got + {i} ensures p < |r| && r[p] == file[p] {
      ChunkBounds(file, i, p);
      WriteAt(part, i * CHUNK_SIZE, data, p);
    }
  }

  function WriteAll(file: Content, order: seq<nat>): Content {
    if order == [] then []
    else WriteChunk(WriteAll(file, order[..|order| - 1]), order[|order| - 1] * CHUNK_SIZE, ChunkAt(file, order[|order| - 1]))
  }

  lemma ByteHeld(part: Content, file: Content, got: set<nat>, p: nat)
    requires Agrees(part, file, got) && p < |file| && forall i: nat :: i < Ceiling(|file|) ==> i in got
    ensures p < |part| && part[p] == file[p]
  {
    var i: nat := p / CHUNK_SIZE;
    assert i < Ceiling(|file|) && i in got;
    assert p / CHUNK_SIZE in got;
  }

  lemma AgreementIsEquality(part: Content, file: Content, got: set<nat>)
    requires Agrees(part, file, got) && forall i: nat :: i < Ceiling(|file|) ==> i in got
    ensures part == file
  {
    forall p | 0 <= p < |file| ensures p < |part| && part[p] == file[p] {
      ByteHeld(part, file, got, p);
    }
    if |file| > 0 {
      ByteHeld(part, file, got, |file| - 1);
    }
  }

  function Written(order: seq<nat>): set<nat> {
    set i | i in order
  }

  lemma {:induction false} WritesAgree(file: Content, order: seq<nat>)
    requires forall i :: i in order ==> i < Ceiling(|file|)
    ensures Agrees(WriteAll(file, order), file, Written(order))
  {
    if order != [] {
      var r, i := order[..|order| - 1], order[|order| - 1];
      assert order == r + [i];
      assert i in order && forall j :: j in r ==> j in order;
      WritesAgree(file, r);
      WriteAgrees(WriteAll(file, r), file, Written(r), i);
      assert Written(order) == Written(r) + {i};
    }
  }

  /** Writing every chunk at its place, in any order and with repeats, into an
      empty file rebuilds the source. */
  lemma AnyOrderRebuilds(file: Content, order: seq<nat>)
    requires forall i :: i in order <==> i < Ceiling(|file|)
    ensures WriteAll(file, order) == file
  {
    WritesAgree(file, order);
    AgreementIsEquality(WriteAll(file, order), file, Written(order));
  }
}
