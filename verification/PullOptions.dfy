/** The memory and concurrency of a pull, in terms of the options its caller set. */
module PullOptions {
  import opened Integers
  import opened Sequences
  import opened Manifest
  import opened World
  import opened Plan
  import opened PullBudget
  import opened Pull
  import opened PullProofs
  import Chunking
  import PushBudget
  import Prefetch
  import PrefetchProofs

  /** The bytes a pull's memory option stands for: 4096 MiB unless it is positive. */
  ghost predicate MeansPullBytes(mib: Int64, budget: int) {
    PushBudget.MeansBytes(mib, 4294967296, budget)
  }

  lemma OptionsAreMeant(req: Request, budget: int, asked: int)
    requires MeansPullBytes(req.opts.memoryBudgetMiB, budget) && PushBudget.Asks(req.opts.concurrency, asked)
    ensures req.opts.Budget() == budget && req.opts.Prefetch() == asked
  {
    PushBudget.ShiftIsMeant(req.opts.memoryBudgetMiB, 4294967296, budget);
  }

  /**
   * The window of a pull: the largest up to the concurrency asked for whose input buffers, and one more
   * output buffer than that, fit the budget asked for; none when fewer than two fit, when nothing can be
   * prefetched, or when a chunk is over 1 GiB.
   */
  lemma WindowByOptions(req: Request, entries: seq<LayerPlan>, budget: int, asked: int)
    requires MeansPullBytes(req.opts.memoryBudgetMiB, budget) && PushBudget.Asks(req.opts.concurrency, asked)
    ensures
      var (window, input, output) := (PipeOf(req, entries).window, PipeOf(req, entries).caps.input, PipeOf(req, entries).caps.output);
      && (window == 0 || (2 <= window <= asked && window * input + (window + 1) * output <= budget))
      && (0 < output <= 1073741824 && input <= 1073741824 ==>
           forall w :: 2 <= w <= asked && PullBytes(w, Caps(input, output, false)) <= budget ==> w <= window)
      && (output <= 0 || output > 1073741824 || input > 1073741824 ==> window == 0)
    ensures forall w: int, c: Caps :: PullBytes(w, c) == w * c.input + (w + 1) * c.output
  {
    OptionsAreMeant(req, budget, asked);
    var c := PipeOf(req, entries).caps;
    WindowIsLargestFit(c, asked, budget);
    forall w: int
      ensures PullBytes(w, Caps(c.input, c.output, false)) == PullBytes(w, c)
    {
    }
  }

  /** A file is prefetched exactly when it has two chunks and the pull a window, and then with the smaller of window and chunk count. */
  lemma FileWindowIsTheSmaller(pipe: Pipeline, e: LayerPlan)
    ensures FileWindow(pipe, e) >= 2 <==> pipe.window >= 2 && |e.Chunks()| >= 2
    ensures FileWindow(pipe, e) >= 2 ==>
      && FileWindow(pipe, e) <= pipe.window && FileWindow(pipe, e) <= |e.Chunks()|
      && (FileWindow(pipe, e) == pipe.window || FileWindow(pipe, e) == |e.Chunks()|)
  {
  }

  // ----- What the buffers are for -----

  /** An input buffer need not hold more than `bound` bytes: only compressed chunks are read into one. */
  ghost predicate InputsWithin(e: LayerPlan, bound: int) {
    |e.Chunks()| >= 2 && e.Zstd() ==> forall c :: 0 <= c < |e.Chunks()| ==> e.Chunks()[c].size <= bound
  }

  /** Nor an output buffer: raw chunks are read into it, and n chunks of a compressed file share its bytes but the last evenly. */
  ghost predicate OutputsWithin(e: LayerPlan, bound: int) {
    |e.Chunks()| >= 2 ==>
      if e.Zstd() then e.meta.size <= bound * (|e.Chunks()| - 1)
      else forall c :: 0 <= c < |e.Chunks()| ==> e.Chunks()[c].size <= bound
  }

  lemma {:induction false} LargestStoredWithin(chunks: seq<Descriptor>, n: nat, bound: int)
    requires n <= |chunks| && bound >= 0
    ensures LargestStored(chunks, n) <= bound <==> forall i :: 0 <= i < n ==> chunks[i].size <= bound
  {
    if n > 0 {
      LargestStoredWithin(chunks, n - 1, bound);
    }
  }

  lemma StrideWithin(size: int, n: int, bound: int)
    requires size > 0 && n >= 2 && bound >= 0
    ensures RawChunkStride(size, n) <= bound <==> size <= bound * (n - 1)
  {
    Chunking.QuotientReaches(size - 1, n - 1, bound);
  }

  lemma FileCapsWithin(e: LayerPlan, bound: int)
    requires Prefetchable(e) && e.meta.size > 0 && bound >= 0
    ensures BufferCaps(e).input <= bound <==> InputsWithin(e, bound)
    ensures BufferCaps(e).output <= bound <==> OutputsWithin(e, bound)
  {
    hide IsZstdMediaType, RawChunkStride;
    LargestStoredWithin(e.Chunks(), |e.Chunks()|, bound);
    StrideWithin(e.meta.size, |e.Chunks()|, bound);
  }

  /** The capacities are the least that suffice for every file of two or more chunks. */
  lemma {:induction false} CapsAreTheLeastThatSuffice(entries: seq<LayerPlan>, n: nat, bound: int)
    requires n <= |entries| && bound >= 0
    requires forall t :: 0 <= t < |entries| && |entries[t].Chunks()| >= 2 ==> entries[t].meta.size > 0
    ensures CapsUpTo(entries, n).input <= bound <==> forall t :: 0 <= t < n ==> InputsWithin(entries[t], bound)
    ensures CapsUpTo(entries, n).output <= bound <==> forall t :: 0 <= t < n ==> OutputsWithin(entries[t], bound)
    ensures CapsUpTo(entries, n).anyZstd <==> exists t :: 0 <= t < n && |entries[t].Chunks()| >= 2 && entries[t].Zstd()
  {
    hide IsZstdMediaType, InputsWithin, OutputsWithin, BufferCaps;
    if n > 0 {
      CapsAreTheLeastThatSuffice(entries, n - 1, bound);
      var e := entries[n - 1];
      if Prefetchable(e) {
        FileCapsWithin(e, bound);
        CompressedHasInput(e);
      } else {
        OthersNeedNone(e, bound);
      }
    }
  }

  lemma CompressedHasInput(e: LayerPlan)
    ensures BufferCaps(e).anyZstd <==> e.Zstd()
  {
    hide IsZstdMediaType;
  }

  lemma OthersNeedNone(e: LayerPlan, bound: int)
    requires !Prefetchable(e)
    ensures |e.Chunks()| < 2 && InputsWithin(e, bound) && OutputsWithin(e, bound)
  {
    hide IsZstdMediaType;
  }

  // ----- Memory -----

  /**
   * In every state of every prefetched file of a pull, whatever was downloaded before, the buffers of both
   * pools, free or in use, stay within the memory the caller allowed.
   */
  lemma PullMemoryByOptions(req: Request, m: OCIManifest, cfg: SnapshotConfig, traces: seq<Trace>, n: nat,
      steps: seq<Prefetch.Step>, budget: int)
    requires Validates(m, cfg) && PlanOf(m, cfg).Some? && n < |PlanOf(m, cfg).value| == |traces|
    requires TarUpTo(req, cfg, PlanOf(m, cfg).value, traces, n).Going?
    requires PlanOf(m, cfg).value[n].Encoded() && FileWindow(PipeOf(req, PlanOf(m, cfg).value), PlanOf(m, cfg).value[n]) >= 2
    requires MeansPullBytes(req.opts.memoryBudgetMiB, budget)
    ensures
      var entries := PlanOf(m, cfg).value;
      var job := JobFor(req, PipeOf(req, entries), entries[n]);
      var end := Prefetch.Exec(job, Prefetch.Init(job, TarUpTo(req, cfg, entries, traces, n).pools), steps);
      end.Some? ==> Prefetch.PoolMemory(end.value) <= budget
  {
    hide Validates, PlanOf, TarUpTo, PipelineFor, FileWindow;
    var entries := PlanOf(m, cfg).value;
    OptionsAreMeant(req, budget, if req.opts.concurrency > 0 then req.opts.concurrency else 8);
    ValidatedPlansAreSane(m, cfg);
    TarKeepsPools(req, cfg, entries, traces, n);
    PullMemoryWithinBudget(req, entries, req.opts.Prefetch(), req.opts.Budget(), n, TarUpTo(req, cfg, entries, traces, n).pools, steps);
  }

  /** A memory option of so many MiB is that many MiB; none is 4096. */
  lemma OrdinaryPullMemory(mib: Int64)
    requires 0 <= mib < 0x800_0000_0000
    ensures MeansPullBytes(mib, if mib == 0 then 4096 * 1048576 else mib * 1048576)
  {
    PushBudget.OrdinaryOptions(mib, 4294967296);
  }
}
