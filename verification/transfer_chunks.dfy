/** Chunk arithmetic, the digest chain and source manifests of a resumable transfer. */
module TransferChunks {
  import opened Base

  const CHUNK := 262144

  /** Number of journal slots that cover `size` bytes; each slot is 32 bytes on disk. */
  function Slots(size: nat): nat {
    (size + CHUNK - 1) / CHUNK
  }

  function JournalBytes(size: nat): nat {
    Slots(size) * 32
  }

  /** Chunk number i of the first `size` bytes. */
  function Slice(data: Bytes, i: nat, size: nat): Bytes
    requires i * CHUNK <= size <= |data|
  {
    data[i * CHUNK..Min((i + 1) * CHUNK, size)]
  }

  /** The digest chain over chunk digests. */
  function Chain(size: nat, digests: seq<Digest>): Digest {
    if digests == [] then ChainSeed(size)
    else ChainNext(Chain(size, digests[..|digests| - 1]), digests[|digests| - 1])
  }

  function Digests(chunks: seq<Bytes>): (r: seq<Digest>)
    ensures |r| == |chunks|
    ensures forall i :: 0 <= i < |chunks| ==> r[i] == Sha256(chunks[i])
  {
    if chunks == [] then []
    else Digests(chunks[..|chunks| - 1]) + [Sha256(chunks[|chunks| - 1])]
  }

  datatype Algorithm = Plain | Chained

  datatype Manifest = Manifest(algorithm: Algorithm, digest: Digest)

  /** `data` cut into full chunks, the last one possibly shorter. */
  function Split(data: Bytes): (r: seq<Bytes>)
    ensures |r| == Slots(|data|)
    ensures forall i :: 0 <= i < |r| ==> r[i] == Slice(data, i, |data|)
  {
    seq(Slots(|data|), i requires 0 <= i < Slots(|data|) => Slice(data, i, |data|))
  }

  /** What an uploader computes over its source before admission. */
  function ManifestOf(algorithm: Algorithm, source: Bytes): Manifest {
    Manifest(algorithm,
      if algorithm == Plain then Sha256(source) else Chain(|source|, Digests(Split(source))))
  }

  /** The comparison the node makes once every chunk has arrived. */
  predicate SourceMatches(m: Manifest, size: nat, received: seq<Bytes>) {
    m.digest == if m.algorithm == Plain then Sha256(Concat(received)) else Chain(size, Digests(received))
  }

  lemma {:induction false} ChainInjective(n: nat, a: seq<Digest>, m: nat, b: seq<Digest>)
    requires Chain(n, a) == Chain(m, b)
    ensures n == m && a == b
    decreases |a|
  {
    if a != [] && b != [] {
      ChainInjective(n, a[..|a| - 1], m, b[..|b| - 1]);
      assert a == a[..|a| - 1] + [a[|a| - 1]];
      assert b == b[..|b| - 1] + [b[|b| - 1]];
    }
  }

  /** Cutting and joining a source is the identity. */
  lemma {:induction false} SplitJoins(data: Bytes, k: nat)
    requires k <= Slots(|data|)
    ensures Concat(Split(data)[..k]) == data[..Min(k * CHUNK, |data|)]
  {
    if k > 0 {
      SplitJoins(data, k - 1);
      var parts := Split(data);
      assert parts[..k][..k - 1] == parts[..k - 1];
      assert (k - 1) * CHUNK <= |data|;
      assert data[..Min((k - 1) * CHUNK, |data|)] + Slice(data, k - 1, |data|) == data[..Min(k * CHUNK, |data|)];
    }
  }

  /** With an injective hash, either manifest form identifies the source: bytes accepted under it are the source. */
  lemma ManifestIdentifiesSource(algorithm: Algorithm, source: Bytes, size: nat, received: seq<Bytes>)
    requires SourceMatches(ManifestOf(algorithm, source), size, received)
    ensures Concat(received) == source
    ensures algorithm == Chained ==> size == |source|
  {
    if algorithm == Chained {
      ChainInjective(|source|, Digests(Split(source)), size, Digests(received));
      var parts := Split(source);
      assert |parts| == |received|;
      forall i | 0 <= i < |parts| ensures parts[i] == received[i] {
        assert Digests(parts)[i] == Digests(received)[i];
      }
      assert parts == received;
      SplitJoins(source, Slots(|source|));
      assert parts[..Slots(|source|)] == parts;
      assert Slots(|source|) * CHUNK >= |source|;
    }
  }

  /** A positional read: as much of the range as the file has. */
  function Pread(data: Bytes, at: nat, count: nat): Bytes {
    data[Min(at, |data|)..Min(at + count, |data|)]
  }

  /** The stored prefix agrees with its journal: what verification re-reads. */
  ghost predicate PrefixVerifies(data: Bytes, journal: seq<Digest>, offset: nat) {
    && offset <= |data|
    && Slots(offset) <= |journal|
    && forall i :: 0 <= i < Slots(offset) ==> journal[i] == Sha256(Slice(data, i, offset))
  }

  /** Full reads that all match the journal are a verified prefix. */
  lemma ReadsVerify(data: Bytes, journal: seq<Digest>, offset: nat)
    requires Slots(offset) <= |journal| && Min(Slots(offset) * CHUNK, offset) <= |data|
    requires forall k :: 0 <= k < Slots(offset) ==> journal[k] == Sha256(Pread(data, k * CHUNK, Min(CHUNK, offset - k * CHUNK)))
    ensures PrefixVerifies(data, journal, offset)
  {
    assert Slots(offset) * CHUNK >= offset;
    forall k | 0 <= k < Slots(offset) ensures journal[k] == Sha256(Slice(data, k, offset)) {
      assert Slice(data, k, offset) == Pread(data, k * CHUNK, Min(CHUNK, offset - k * CHUNK));
    }
  }

  /** A short or differing read refutes it. */
  lemma BadReadRefutes(data: Bytes, journal: seq<Digest>, offset: nat, i: nat)
    requires i < Slots(offset)
    requires var want := Min(CHUNK, offset - i * CHUNK); var chunk := Pread(data, i * CHUNK, want);
      |chunk| != want || i >= |journal| || journal[i] != Sha256(chunk)
    ensures !PrefixVerifies(data, journal, offset)
  {
    if offset <= |data| {
      assert Slice(data, i, offset) == Pread(data, i * CHUNK, Min(CHUNK, offset - i * CHUNK));
    }
  }

  /** The stored prefix is exactly the accepted chunks. */
  ghost predicate Holds(data: Bytes, journal: seq<Digest>, offset: nat, accepted: seq<Bytes>) {
    && offset <= |data|
    && |accepted| == Slots(offset) <= |journal|
    && forall i :: 0 <= i < |accepted| ==> accepted[i] == Slice(data, i, offset) && journal[i] == Sha256(accepted[i])
  }

  lemma HoldsVerifies(data: Bytes, journal: seq<Digest>, offset: nat, accepted: seq<Bytes>)
    requires Holds(data, journal, offset, accepted)
    ensures PrefixVerifies(data, journal, offset)
    ensures data[..offset] == Concat(accepted)
  {
    HoldsConcat(data, journal, offset, accepted, |accepted|);
    assert accepted[..|accepted|] == accepted;
    assert |accepted| * CHUNK >= offset;
  }

  lemma {:induction false} HoldsConcat(data: Bytes, journal: seq<Digest>, offset: nat, accepted: seq<Bytes>, k: nat)
    requires Holds(data, journal, offset, accepted)
    requires k <= |accepted|
    ensures Concat(accepted[..k]) == data[..Min(k * CHUNK, offset)]
  {
    if k > 0 {
      HoldsConcat(data, journal, offset, accepted, k - 1);
      assert accepted[..k][..k - 1] == accepted[..k - 1];
      assert accepted[k - 1] == Slice(data, k - 1, offset);
      assert data[..Min((k - 1) * CHUNK, offset)] + Slice(data, k - 1, offset) == data[..Min(k * CHUNK, offset)];
    }
  }

  /** Writes at or beyond the accepted offset, torn or not, leave the accepted prefix alone. */
  lemma HoldsFramed(data: Bytes, data': Bytes, journal: seq<Digest>, journal': seq<Digest>, offset: nat, accepted: seq<Bytes>)
    requires Holds(data, journal, offset, accepted)
    requires offset <= |data'| && data'[..offset] == data[..offset]
    requires Slots(offset) <= |journal'| && journal'[..Slots(offset)] == journal[..Slots(offset)]
    ensures Holds(data', journal', offset, accepted)
  {
    forall i | 0 <= i < |accepted|
      ensures accepted[i] == Slice(data', i, offset) && journal'[i] == Sha256(accepted[i])
    {
      assert Slice(data', i, offset) == data'[..offset][i * CHUNK..Min((i + 1) * CHUNK, offset)];
      assert Slice(data, i, offset) == data[..offset][i * CHUNK..Min((i + 1) * CHUNK, offset)];
      assert journal'[i] == journal'[..Slots(offset)][i];
      assert journal[i] == journal[..Slots(offset)][i];
    }
  }

  /** Accepting the next chunk extends the accepted prefix by exactly that chunk. */
  lemma HoldsExtended(data: Bytes, journal: seq<Digest>, offset: nat, accepted: seq<Bytes>, chunk: Bytes)
    requires Holds(data, journal, offset, accepted)
    requires offset % CHUNK == 0 && 0 < |chunk| <= CHUNK
    requires offset + |chunk| <= |data| && data[offset..offset + |chunk|] == chunk
    requires offset / CHUNK < |journal| && journal[offset / CHUNK] == Sha256(chunk)
    ensures Holds(data, journal, offset + |chunk|, accepted + [chunk])
  {
    var n := offset / CHUNK;
    assert Slots(offset) == n && Slots(offset + |chunk|) == n + 1;
    forall i | 0 <= i < n + 1
      ensures (accepted + [chunk])[i] == Slice(data, i, offset + |chunk|)
      ensures journal[i] == Sha256((accepted + [chunk])[i])
    {
      if i < n {
        assert (i + 1) * CHUNK <= offset;
        assert Slice(data, i, offset + |chunk|) == Slice(data, i, offset);
      }
    }
  }

  /** Every chunk is full except the last. */
  ghost predicate Uniform(chunks: seq<Bytes>, size: nat) {
    && |chunks| == Slots(size)
    && forall i :: 0 <= i < |chunks| ==> |chunks[i]| == Min(CHUNK, size - i * CHUNK)
  }

  lemma UniformExtended(chunks: seq<Bytes>, size: nat, chunk: Bytes)
    requires Uniform(chunks, size) && size % CHUNK == 0 && 0 < |chunk| <= CHUNK
    ensures Uniform(chunks + [chunk], size + |chunk|)
  {
    var n := size / CHUNK;
    assert Slots(size) == n && Slots(size + |chunk|) == n + 1;
  }

  /** Where chunk i sits in the joined chunks. */
  lemma {:induction false} ConcatAt(chunks: seq<Bytes>, i: nat, size: nat)
    requires Uniform(chunks, size) && i < |chunks|
    ensures |Concat(chunks)| == size
    ensures Concat(chunks)[i * CHUNK..Min((i + 1) * CHUNK, size)] == chunks[i]
    decreases |chunks|
  {
    var front := chunks[..|chunks| - 1];
    var cut := (|chunks| - 1) * CHUNK;
    assert Slots(cut) == |chunks| - 1;
    if front == [] {
      assert chunks == [chunks[0]];
      assert Concat(chunks) == [] + chunks[0];
    } else {
      ConcatAt(front, if i < |front| then i else 0, cut);
      assert Concat(chunks) == Concat(front) + chunks[|chunks| - 1];
    }
  }

  /** Data that begins with the joined chunks verifies against their digests. */
  lemma SameBytesVerify(data: Bytes, journal: seq<Digest>, size: nat, chunks: seq<Bytes>)
    requires Uniform(chunks, size) && |chunks| <= |journal|
    requires forall i :: 0 <= i < |chunks| ==> journal[i] == Sha256(chunks[i])
    requires size <= |data| && data[..size] == Concat(chunks)
    ensures PrefixVerifies(data, journal, size)
  {
    forall i | 0 <= i < Slots(size) ensures journal[i] == Sha256(Slice(data, i, size)) {
      ConcatAt(chunks, i, size);
      assert Slice(data, i, size) == data[..size][i * CHUNK..Min((i + 1) * CHUNK, size)];
    }
  }

  /** Conversely, verification against those digests accepts no other bytes. */
  lemma VerifiesSameBytes(data: Bytes, journal: seq<Digest>, size: nat, chunks: seq<Bytes>)
    requires |chunks| == Slots(size) <= |journal|
    requires forall i :: 0 <= i < |chunks| ==> journal[i] == Sha256(chunks[i])
    requires PrefixVerifies(data, journal, size)
    ensures data[..size] == Concat(chunks)
  {
    forall i | 0 <= i < |chunks| ensures chunks[i] == Slice(data, i, size) {
      assert journal[i] == Sha256(chunks[i]);
    }
    HoldsVerifies(data, journal, size, chunks);
  }
}
