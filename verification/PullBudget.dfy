/** Sizing the prefetch pipeline: buffer capacities, decode bounds and the window that fits the memory budget. */
module PullBudget {
  import opened Integers
  import opened Sequences
  import opened Manifest
  import opened Plan
  import Chunking

  const MAX_BUFFERED_CHUNK_BYTES := 0x4000_0000

  /** Buffer capacities: one input buffer holds a stored chunk, one output buffer a decoded one. */
  datatype Caps = Caps(input: int, output: int, anyZstd: bool)

  /** A pipeline; window 0 means every file streams sequentially. */
  datatype Pipeline = Pipeline(window: int, caps: Caps)

  function RawChunkStride(size: int, n: int): int {
    if n <= 1 || size <= 0 then size else (size - 1) / (n - 1) + 1
  }

  function LargestStored(chunks: seq<Descriptor>, n: nat): (stored: int)
    requires n <= |chunks|
    ensures stored >= 0
    ensures forall i :: 0 <= i < n ==> chunks[i].size <= stored
  {
    if n == 0 then 0 else Max(LargestStored(chunks, n - 1), chunks[n - 1].size)
  }

  function BufferCaps(e: LayerPlan): Caps {
    var stored := LargestStored(e.Chunks(), |e.Chunks()|);
    if !e.Zstd() then Caps(0, stored, false)
    else Caps(stored, RawChunkStride(e.meta.size, |e.Chunks()|), true)
  }

  /** Only files of two or more chunks are prefetched. */
  predicate Prefetchable(e: LayerPlan) {
    e.Encoded() && |e.Chunks()| >= 2
  }

  function CapsUpTo(entries: seq<LayerPlan>, n: nat): Caps
    requires n <= |entries|
  {
    if n == 0 then Caps(0, 0, false)
    else
      var before := CapsUpTo(entries, n - 1);
      if !Prefetchable(entries[n - 1]) then before
      else
        var c := BufferCaps(entries[n - 1]);
        Caps(Max(before.input, c.input), Max(before.output, c.output), before.anyZstd || c.anyZstd)
  }

  predicate CapsUsable(c: Caps) {
    0 < c.output <= MAX_BUFFERED_CHUNK_BYTES && c.input <= MAX_BUFFERED_CHUNK_BYTES
  }

  function WindowFor(c: Caps, prefetch: int, budget: int): int
    requires c.input >= 0
  {
    if !CapsUsable(c) || budget <= c.output then 0
    else
      var w := Min(prefetch, (budget - c.output) / (c.input + c.output));
      if w >= 2 then w else 0
  }

  function PipelineFor(entries: seq<LayerPlan>, prefetch: int, budget: int): (p: Pipeline)
    ensures p.window >= 0 && p.caps.input >= 0 && p.caps.output >= 0
  {
    CapsDominate(entries, |entries|);
    var c := CapsUpTo(entries, |entries|);
    Pipeline(WindowFor(c, prefetch, budget), c)
  }

  /** What the pools of a window can hold at most: `window` inputs and `window + 1` outputs. */
  function PullBytes(window: int, c: Caps): int {
    window * c.input + (window + 1) * c.output
  }

  function FileWindow(p: Pipeline, e: LayerPlan): int {
    if p.window < 2 || |e.Chunks()| < 2 then 0 else Min(p.window, |e.Chunks()|)
  }

  predicate InInt64(x: int) {
    MIN_INT64 <= x <= MAX_INT64
  }

  /** The sizes a descriptor or a file record holds are int64 values. */
  predicate SizesFit(e: LayerPlan) {
    InInt64(e.meta.size) && forall i :: 0 <= i < |e.Chunks()| ==> InInt64(e.Chunks()[i].size)
  }

  method ComputeBufferCaps(e: LayerPlan) returns (caps: Caps)
    requires SizesFit(e)
    ensures caps == BufferCaps(e)
  {
    var chunks := e.Chunks();
    var stored: Int64 := 0;
    for i := 0 to |chunks|
      invariant stored == LargestStored(chunks, i)
    {
      stored := Max(stored, chunks[i].size);
    }
    if !e.Zstd() {
      return Caps(0, stored, false);
    }
    caps := Caps(stored, RawChunkStride(e.meta.size, |chunks|), true);
  }

  method NewChunkPipeline(entries: seq<LayerPlan>, prefetch: Int64, budget: Int64) returns (p: Pipeline)
    requires forall i :: 0 <= i < |entries| ==> SizesFit(entries[i])
    ensures p == PipelineFor(entries, prefetch, budget)
  {
    var caps := Caps(0, 0, false);
    for n := 0 to |entries|
      invariant caps == CapsUpTo(entries, n)
    {
      var e := entries[n];
      if e.Encoded() && |e.Chunks()| >= 2 {
        var c := ComputeBufferCaps(e);
        caps := Caps(Max(caps.input, c.input), Max(caps.output, c.output), caps.anyZstd || e.Zstd());
      }
    }
    CapsDominate(entries, |entries|);
    if caps.output <= 0 || caps.input > MAX_BUFFERED_CHUNK_BYTES || caps.output > MAX_BUFFERED_CHUNK_BYTES {
      return Pipeline(0, caps);
    }
    var unit: Int64 := caps.input + caps.output;
    var window := 0;
    if budget > caps.output {
      var spare: Int64 := budget - caps.output;
      var w := Min(prefetch, spare / unit);
      if w >= 2 {
        window := w;
      }
    }
    p := Pipeline(window, caps);
  }

  /** The pipeline's capacities cover every prefetchable file. */
  lemma {:induction false} CapsDominate(entries: seq<LayerPlan>, n: nat)
    requires n <= |entries|
    ensures CapsUpTo(entries, n).input >= 0 && CapsUpTo(entries, n).output >= 0
    ensures forall i :: 0 <= i < n && Prefetchable(entries[i]) ==>
      && BufferCaps(entries[i]).input <= CapsUpTo(entries, n).input
      && BufferCaps(entries[i]).output <= CapsUpTo(entries, n).output
      && (entries[i].Zstd() ==> CapsUpTo(entries, n).anyZstd)
  {
    if n > 0 {
      CapsDominate(entries, n - 1);
    }
  }

  /** They are no larger than some prefetchable file needs. */
  lemma {:induction false} CapsAttained(entries: seq<LayerPlan>, n: nat)
    requires n <= |entries|
    ensures
      var c := CapsUpTo(entries, n);
      && (c.input > 0 ==> exists i :: 0 <= i < n && Prefetchable(entries[i]) && BufferCaps(entries[i]).input == c.input)
      && (c.output > 0 ==> exists i :: 0 <= i < n && Prefetchable(entries[i]) && BufferCaps(entries[i]).output == c.output)
      && (c.anyZstd ==> exists i :: 0 <= i < n && Prefetchable(entries[i]) && entries[i].Zstd())
  {
    if n > 0 {
      CapsAttained(entries, n - 1);
    }
  }

  lemma PullBytesByUnit(window: int, c: Caps)
    ensures PullBytes(window, c) == window * (c.input + c.output) + c.output
  {
  }

  /** A window fits the budget exactly when it is at most the quotient the code computes. */
  lemma WindowFits(window: int, c: Caps, budget: int)
    requires c.input >= 0 && c.output > 0 && budget > c.output
    ensures PullBytes(window, c) <= budget <==> window <= (budget - c.output) / (c.input + c.output)
  {
    PullBytesByUnit(window, c);
    Chunking.QuotientReaches(budget - c.output, c.input + c.output, window);
  }

  lemma NoWindowFits(window: int, c: Caps, budget: int)
    requires c.input >= 0 && 0 < c.output && budget <= c.output && window >= 1
    ensures PullBytes(window, c) > budget
  {
    PullBytesByUnit(window, c);
    assert window * (c.input + c.output) >= c.input + c.output;
  }

  /** The chosen window keeps the pools inside the budget and is the largest that does, or 0 when not even two fit. */
  lemma WindowIsLargestFit(c: Caps, prefetch: int, budget: int)
    requires c.input >= 0
    ensures
      var window := WindowFor(c, prefetch, budget);
      && (window == 0 || (2 <= window <= prefetch && PullBytes(window, c) <= budget))
      && (CapsUsable(c) ==> forall w :: 2 <= w <= prefetch && PullBytes(w, c) <= budget ==> w <= window)
      && (!CapsUsable(c) ==> window == 0)
  {
    var window := WindowFor(c, prefetch, budget);
    if CapsUsable(c) {
      if budget > c.output {
        WindowFits(window, c, budget);
        hide PullBytes;
        forall w | 2 <= w <= prefetch && PullBytes(w, c) <= budget
          ensures w <= window
        {
          WindowFits(w, c, budget);
        }
      } else {
        forall w | 2 <= w <= prefetch
          ensures PullBytes(w, c) > budget
        {
          NoWindowFits(w, c, budget);
        }
      }
    }
  }

  /** A chunk size cuts a file into at least n chunks exactly when it is below the stride the reader recovers. */
  lemma StrideBoundsTheCut(size: nat, chunkSize: nat, n: nat)
    requires size > 0 && chunkSize > 0 && n >= 2
    ensures Chunking.ChunkCount(size, chunkSize) >= n <==> chunkSize < RawChunkStride(size, n)
  {
    var m := n - 1;
    Chunking.QuotientReaches(size + chunkSize - 1, chunkSize, n);
    Chunking.QuotientReaches(size - 1, m, chunkSize);
    assert n * chunkSize == chunkSize * m + chunkSize;
  }
}
