/**
 * Streamed digests. A hash algorithm is left uninterpreted: an initial state, an update that absorbs bytes,
 * and a hex rendering of a state. The one law it must obey is that absorbing a concatenation is the same as
 * absorbing the parts in turn. The checksum loop reads a stream 4096 bytes at a time until an empty read.
 */
module Hashing {
  import opened Wrappers
  import opened Errors

  newtype byte = x: int | 0 <= x < 256
  type Bytes = seq<byte>

  /** The size passed to every `read` of the checksum loops. */
  const ChunkSize: nat := 4096

  /** One `hashlib` constructor: `new()`, `update(chunk)` and `hexdigest()` over an abstract state type. */
  datatype Algorithm<!S> = Algorithm(init: S, update: (S, Bytes) -> S, hexdigest: S -> string)

  /** The algorithms `hashlib.new` knows, by name. */
  type Library<!S> = map<string, Algorithm<S>>

  /** The incremental-update law of a hash: absorbing nothing is a no-op, and updates compose by concatenation. */
  ghost predicate Lawful<S(!new)>(h: Algorithm<S>) {
    (forall s :: h.update(s, []) == s) &&
    (forall s, a, b :: h.update(h.update(s, a), b) == h.update(s, a + b))
  }

  ghost predicate LawfulLibrary<S(!new)>(lib: Library<S>) {
    forall name :: name in lib ==> Lawful(lib[name])
  }

  /** The hex digest of a whole content, absorbed in one update. */
  function Digest<S>(h: Algorithm<S>, data: Bytes): string {
    h.hexdigest(h.update(h.init, data))
  }

  /** `hashlib.new(name)`. */
  function NewHash<S>(lib: Library<S>, name: string): (r: Result<Algorithm<S>, Error>)
    ensures r.Success? <==> name in lib
    ensures r.Success? ==> r.value == lib[name]
    ensures r.Failure? ==> r.error == UnsupportedHash(name)
  {
    if name in lib then Success(lib[name]) else Failure(UnsupportedHash(name))
  }

  /** The bytes of a sequence of chunks, in order. */
  function Flatten(chunks: seq<Bytes>): Bytes {
    if chunks == [] then [] else Flatten(chunks[..|chunks| - 1]) + chunks[|chunks| - 1]
  }

  /** The state after `update` has been called with each chunk in turn, starting from `s`. */
  function Feed<S>(h: Algorithm<S>, s: S, chunks: seq<Bytes>): S {
    if chunks == [] then s else h.update(Feed(h, s, chunks[..|chunks| - 1]), chunks[|chunks| - 1])
  }

  /** Every chunk holds 1 to ChunkSize bytes and every chunk but the last holds exactly ChunkSize. */
  ghost predicate Chunked(chunks: seq<Bytes>) {
    (forall i :: 0 <= i < |chunks| ==> 0 < |chunks[i]| <= ChunkSize) &&
    (forall i :: 0 <= i < |chunks| - 1 ==> |chunks[i]| == ChunkSize)
  }

  lemma FlattenSnoc(chunks: seq<Bytes>, c: Bytes)
    ensures Flatten(chunks + [c]) == Flatten(chunks) + c
  {
    assert (chunks + [c])[..|chunks|] == chunks;
  }

  lemma FeedSnoc<S>(h: Algorithm<S>, s: S, chunks: seq<Bytes>, c: Bytes)
    ensures Feed(h, s, chunks + [c]) == h.update(Feed(h, s, chunks), c)
  {
    assert (chunks + [c])[..|chunks|] == chunks;
  }

  /** Appending a chunk of 1 to ChunkSize bytes after a full last chunk keeps the chunking shape. */
  lemma ChunkedSnoc(chunks: seq<Bytes>, c: Bytes)
    requires Chunked(chunks) && 0 < |c| <= ChunkSize
    requires chunks != [] ==> |chunks[|chunks| - 1]| == ChunkSize
    ensures Chunked(chunks + [c])
  {
    var cs := chunks + [c];
    forall i | 0 <= i < |cs| ensures 0 < |cs[i]| <= ChunkSize {
      if i < |chunks| { assert cs[i] == chunks[i]; }
    }
    forall i | 0 <= i < |cs| - 1 ensures |cs[i]| == ChunkSize {
      assert cs[i] == chunks[i];
    }
  }

  /** Feeding the chunks one by one reaches the state of feeding their concatenation at once. */
  lemma {:induction false} FeedFlatten<S(!new)>(h: Algorithm<S>, s: S, chunks: seq<Bytes>)
    requires Lawful(h)
    ensures Feed(h, s, chunks) == h.update(s, Flatten(chunks))
  {
    if chunks == [] {
      assert h.update(s, []) == s;
    } else {
      var front, last := chunks[..|chunks| - 1], chunks[|chunks| - 1];
      FeedFlatten(h, s, front);
      assert h.update(h.update(s, Flatten(front)), last) == h.update(s, Flatten(front) + last);
    }
  }

  /** Full chunks only: the content is ChunkSize bytes per chunk. */
  lemma {:induction false} FullChunksLength(chunks: seq<Bytes>)
    requires forall i :: 0 <= i < |chunks| ==> |chunks[i]| == ChunkSize
    ensures |Flatten(chunks)| == ChunkSize * |chunks|
  {
    if chunks != [] {
      FullChunksLength(chunks[..|chunks| - 1]);
    }
  }

  /** A chunking of `n` bytes has exactly ceil(n / ChunkSize) chunks. */
  lemma ChunkCount(chunks: seq<Bytes>)
    requires Chunked(chunks)
    ensures |chunks| == (|Flatten(chunks)| + ChunkSize - 1) / ChunkSize
  {
    if chunks != [] {
      var k := |chunks|;
      var front := chunks[..k - 1];
      FullChunksLength(front);
      var n := |Flatten(chunks)|;
      assert n == ChunkSize * (k - 1) + |chunks[k - 1]|;
      assert ChunkSize * k <= n + ChunkSize - 1 < ChunkSize * (k + 1);
    }
  }

  /** An open binary stream: Python's `f.read(size)` returns the next `size` bytes, fewer at the end, `b""` at end of file. */
  class Reader {
    const data: Bytes
    var pos: nat

    ghost predicate Valid()
      reads this
    {
      pos <= |data|
    }

    constructor (data: Bytes)
      ensures this.data == data && pos == 0 && Valid()
    {
      this.data := data;
      pos := 0;
    }

    method Read(size: nat) returns (chunk: Bytes)
      requires Valid()
      modifies this`pos
      ensures Valid()
      ensures pos == if old(pos) + size <= |data| then old(pos) + size else |data|
      ensures chunk == data[old(pos)..pos]
    {
      var end := if pos + size <= |data| then pos + size else |data|;
      chunk := data[pos..end];
      pos := end;
    }
  }

  /**
   * Reads the stream 4096 bytes at a time until a read comes back empty, updating the hash with each chunk:
   * the chunks fed are exactly the stream's bytes, in order, and the state is that of updating with each of
   * them in turn.
   */
  method FeedChunks<S>(f: Reader, h: Algorithm<S>) returns (state: S, ghost chunks: seq<Bytes>)
    requires f.Valid() && f.pos == 0
    modifies f
    ensures f.Valid() && f.pos == |f.data|
    ensures Flatten(chunks) == f.data
    ensures Chunked(chunks) && |chunks| == (|f.data| + ChunkSize - 1) / ChunkSize
    ensures state == Feed(h, h.init, chunks)
  {
    ghost var data := f.data;
    ghost var fed := 0;
    state := h.init;
    chunks := [];
    var chunk := f.Read(ChunkSize);
    while chunk != []
      invariant f.Valid() && f.data == data
      invariant fed + |chunk| == f.pos && chunk == data[fed..f.pos] && |chunk| <= ChunkSize
      invariant Flatten(chunks) == data[..fed]
      invariant state == Feed(h, h.init, chunks)
      invariant Chunked(chunks)
      invariant |chunk| < ChunkSize ==> f.pos == |data|
      invariant chunk != [] && chunks != [] ==> |chunks[|chunks| - 1]| == ChunkSize
      decreases |data| - fed
    {
      FeedSnoc(h, h.init, chunks, chunk);
      FlattenSnoc(chunks, chunk);
      ChunkedSnoc(chunks, chunk);
      state := h.update(state, chunk);
      chunks := chunks + [chunk];
      assert data[..f.pos] == data[..fed] + chunk;
      fed := f.pos;
      chunk := f.Read(ChunkSize);
    }
    assert data[..f.pos] == data;
    ChunkCount(chunks);
  }

  /** The checksum of a stream, lines 340-344: feed it chunk by chunk, then `hexdigest()`; it is the digest of the whole content. */
  method DigestStream<S(!new)>(f: Reader, h: Algorithm<S>) returns (hex: string)
    requires f.Valid() && f.pos == 0 && Lawful(h)
    modifies f
    ensures f.Valid() && f.pos == |f.data|
    ensures hex == Digest(h, f.data)
  {
    var state, chunks := FeedChunks(f, h);
    FeedFlatten(h, h.init, chunks);
    hex := h.hexdigest(state);
  }
}
