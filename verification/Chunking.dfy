/** Cutting a file at fixed offsets. */
module Chunking {
  import opened Integers
  import opened Sequences

  const MIB: int := 0x10_0000
  const MAX_CHUNK_SIZE_MIB := 4096
  const MAX_CHUNKS := 0x10_0000

  /** The chunk sizes push accepts, in bytes; 0 turns chunking off. */
  type ChunkSize = c: int | 0 <= c <= MAX_CHUNK_SIZE_MIB * MIB

  /** The writer's chunk count as it computes it, in int64. */
  function CountInt64(size: Int64, chunkSize: ChunkSize): Int64
    requires chunkSize > 0
  {
    Quotient(Wrap64(size + chunkSize - 1), chunkSize)
  }

  /** The sum in the chunk count leaves int64. */
  predicate CountWraps(size: Int64, chunkSize: ChunkSize) {
    size > MAX_INT64 - chunkSize + 1
  }

  /** The number of chunks of a file: its size over the chunk size, rounded up. */
  function ChunkCount(size: nat, chunkSize: nat): nat
    requires chunkSize > 0
  {
    (size + chunkSize - 1) / chunkSize
  }

  /** The pieces of a file, front to back. */
  function Cut(data: Bytes, chunkSize: nat): (pieces: seq<Bytes>)
    requires chunkSize > 0
  {
    if data == [] then []
    else
      var want := Min(chunkSize, |data|);
      [data[..want]] + Cut(data[want..], chunkSize)
  }

  lemma {:induction false} CutLosesNothing(data: Bytes, chunkSize: nat)
    requires chunkSize > 0
    ensures Flatten(Cut(data, chunkSize)) == data
  {
    if data != [] {
      var want := Min(chunkSize, |data|);
      CutLosesNothing(data[want..], chunkSize);
      assert Cut(data, chunkSize)[1..] == Cut(data[want..], chunkSize);
      assert data == data[..want] + data[want..];
    }
  }

  /** Pieces are never empty, and only the last may be shorter than the chunk size. */
  lemma {:induction false} CutIsUniform(data: Bytes, chunkSize: nat, i: nat)
    requires chunkSize > 0 && i < |Cut(data, chunkSize)|
    ensures 0 < |Cut(data, chunkSize)[i]| <= chunkSize
    ensures i < |Cut(data, chunkSize)| - 1 ==> |Cut(data, chunkSize)[i]| == chunkSize
  {
    var want := Min(chunkSize, |data|);
    if i == 0 {
      if |data| <= chunkSize {
        assert data[want..] == [];
      }
    } else {
      CutIsUniform(data[want..], chunkSize, i - 1);
    }
  }

  /** Piece `i` holds the bytes from offset `i` times the chunk size, up to the next offset or the end. */
  lemma CutAt(data: Bytes, chunkSize: nat, i: nat)
    requires chunkSize > 0 && i < |Cut(data, chunkSize)|
    ensures 0 <= i * chunkSize <= |data|
    ensures Cut(data, chunkSize)[i] == data[i * chunkSize..Min((i + 1) * chunkSize, |data|)]
  {
    OneMore(i, chunkSize);
    CutAtOffset(data, chunkSize, i, i * chunkSize);
  }

  lemma {:induction false} CutAtOffset(data: Bytes, chunkSize: nat, i: nat, offset: int)
    requires chunkSize > 0 && i < |Cut(data, chunkSize)| && offset == i * chunkSize
    ensures 0 <= offset <= |data|
    ensures Cut(data, chunkSize)[i] == data[offset..Min(offset + chunkSize, |data|)]
  {
    if i > 0 {
      FirstIsWhole(data, chunkSize);
      OneMore(i - 1, chunkSize);
      var rest, before := data[chunkSize..], offset - chunkSize;
      CutAtOffset(rest, chunkSize, i - 1, before);
      var end := Min(offset, |rest|);
      assert end + chunkSize == Min(offset + chunkSize, |data|);
      DropThenSlice(data, chunkSize, before, end);
    }
  }

  lemma DropThenSlice(data: Bytes, n: nat, lo: nat, hi: nat)
    requires n <= |data| && lo <= hi <= |data| - n
    ensures data[n..][lo..hi] == data[lo + n..hi + n]
  {
  }

  lemma FirstIsWhole(data: Bytes, chunkSize: nat)
    requires chunkSize > 0
    ensures |Cut(data, chunkSize)| > 1 ==> |data| > chunkSize && Cut(data, chunkSize)[1..] == Cut(data[chunkSize..], chunkSize)
  {
    if data != [] && |data| <= chunkSize {
      assert Cut(data, chunkSize) == [data[..|data|]] + Cut(data[|data|..], chunkSize);
      assert Cut(data[|data|..], chunkSize) == [];
    }
  }

  lemma OneMore(i: nat, c: nat)
    ensures (i + 1) * c == i * c + c
  {
  }

  /** The count computed up front is the number of pieces the loop then cuts. */
  lemma {:induction false} CutCount(data: Bytes, chunkSize: nat)
    requires chunkSize > 0
    ensures |Cut(data, chunkSize)| == ChunkCount(|data|, chunkSize)
    decreases |data|
  {
    if data == [] {
      assert (chunkSize - 1) / chunkSize == 0;
    } else if |data| <= chunkSize {
      assert data[Min(chunkSize, |data|)..] == [];
      CeilOfSmall(|data|, chunkSize);
    } else {
      CutCount(data[chunkSize..], chunkSize);
      CeilStep(|data|, chunkSize);
    }
  }

  lemma CeilOfSmall(n: nat, c: nat)
    requires 0 < n <= c
    ensures ChunkCount(n, c) == 1
  {
    assert n + c - 1 == 1 * c + (n - 1);
  }

  lemma CeilStep(n: nat, c: nat)
    requires 0 < c < n
    ensures ChunkCount(n, c) == 1 + ChunkCount(n - c, c)
  {
    assert n + c - 1 == (n - c + c - 1) + c;
    DivStep(n - c + c - 1, c);
  }

  lemma DivStep(a: nat, c: nat)
    requires c > 0
    ensures (a + c) / c == a / c + 1
  {
    var q, r := a / c, a % c;
    assert a == q * c + r;
    assert a + c == (q + 1) * c + r;
    DivUnique(a + c, c, q + 1, r);
  }

  /** A quotient reaches q exactly when q divisors fit. */
  lemma QuotientReaches(a: int, c: int, q: int)
    requires c > 0
    ensures q <= a / c <==> q * c <= a
  {
    var p, r := a / c, a % c;
    assert a == p * c + r;
    assert q <= p ==> q * c <= p * c;
    assert p + 1 <= q ==> (p + 1) * c <= q * c;
  }

  lemma DivUnique(a: nat, c: nat, q: nat, r: nat)
    requires c > 0 && a == q * c + r && r < c
    ensures a / c == q
  {
    var p := a / c;
    assert a == p * c + a % c;
    assert p < q ==> (p + 1) * c <= q * c;
    assert q < p ==> (q + 1) * c <= p * c;
  }

  /** The computed count is the number of chunks exactly when the sum stays in int64; past that it is negative. */
  lemma CountIsExactUnlessItWraps(size: Int64, chunkSize: ChunkSize)
    requires size >= 0 && chunkSize > 0
    ensures CountInt64(size, chunkSize) == ChunkCount(size, chunkSize) <==> !CountWraps(size, chunkSize)
    ensures CountInt64(size, chunkSize) < 0 <==> CountWraps(size, chunkSize)
  {
    WrapOnce(size + chunkSize - 1);
    QuotientReaches(size + chunkSize - 1, chunkSize, 0);
  }

  /** The largest size a tar header can announce, cut into 1 MiB chunks, counts minus eight trillion of them. */
  lemma LargestSizeWraps()
    ensures CountInt64(MAX_INT64, MIB) == -8796093022207
    ensures ChunkCount(MAX_INT64, MIB) == 8796093022208
  {
    WrapOnce(MAX_INT64 + MIB - 1);
    DivUnique(MAX_INT64 + MIB - 1, MIB, 8796093022208, MIB - 2);
    DivUnique(0x8000_0000_0000_0000 - MIB + 2, MIB, 8796093022207, 2);
  }

  /** What enqueueChunks does with an entry: refuse it, cut it, or panic when it allocates a negative number of slots. */
  datatype Cutting = TooMany | Panics | Pieces(pieces: seq<Bytes>)

  /** The chunk loop: fixed-size reads off the front, the last one taking what remains. */
  method CutEntry(size: Int64, data: Bytes, chunkSize: ChunkSize) returns (r: Cutting)
    requires chunkSize > 0 && size == |data|
    ensures r.Panics? <==> CountWraps(size, chunkSize)
    ensures r.TooMany? <==> !CountWraps(size, chunkSize) && ChunkCount(size, chunkSize) > MAX_CHUNKS
    ensures r.Pieces? ==> r.pieces == Cut(data, chunkSize)
  {
    hide CountInt64, ChunkCount, CountWraps;
    var count := CountInt64(size, chunkSize);
    CountIsExactUnlessItWraps(size, chunkSize);
    if count > MAX_CHUNKS {
      return TooMany;
    }
    if count < 0 {
      return Panics;
    }
    CutCount(data, chunkSize);
    var pieces: seq<Bytes> := [];
    var remaining: Int64 := size;
    for i := 0 to count
      invariant 0 <= remaining <= size
      invariant pieces + Cut(data[size - remaining..], chunkSize) == Cut(data, chunkSize)
      invariant |pieces| == i
    {
      var offset := size - remaining;
      var want := Min(chunkSize, remaining);
      assert |data[offset..]| == remaining;
      assert data[offset..][..want] == data[offset..offset + want];
      assert data[offset..][want..] == data[offset + want..];
      pieces := pieces + [data[offset..offset + want]];
      remaining := remaining - want;
    }
    assert |pieces + Cut(data[size - remaining..], chunkSize)| == count;
    r := Pieces(pieces);
  }
}
