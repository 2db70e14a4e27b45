/** What a pull writes: exact whenever it succeeds, successful whenever nothing fails, and sequential and prefetched forms agree. */
module PullProofs {
  import opened Sequences
  import opened Manifest
  import opened World
  import opened Plan
  import opened PullBudget
  import opened SizedReader
  import opened Pull
  import opened BufPools
  import Prefetch
  import PrefetchProofs

  // ----- Plans and jobs -----

  /** Sizes are not negative and no chunk list is empty; validation and planning see to it. */
  ghost predicate Sane(e: LayerPlan) {
    && e.layer.size >= 0
    && e.title == e.layer.Title()
    && (e.Encoded() ==> e.Chunks() != [])
    && forall c :: 0 <= c < |e.Chunks()| ==> e.Chunks()[c].size >= 0
  }

  ghost predicate AllSane(entries: seq<LayerPlan>) {
    forall t :: 0 <= t < |entries| ==> Sane(entries[t])
  }

  lemma ValidatedPlansAreSane(m: OCIManifest, cfg: SnapshotConfig)
    requires Validates(m, cfg) && PlanOf(m, cfg).Some?
    ensures AllSane(PlanOf(m, cfg).value)
  {
    hide IsSnapshotLayerMediaType, IsZstdMediaType, EncodedLayer;
    PlanShape(cfg, m.layers, |m.layers|);
    var entries, kept := PlanOf(m, cfg).value, Kept(cfg, m.layers, |m.layers|);
    forall t | 0 <= t < |entries|
      ensures Sane(entries[t])
    {
      assert Rebuilds(cfg, m.layers, kept[t], entries[t]);
      assert LayerReadable(m.layers[kept[t]], IsV2(m));
      forall c | 0 <= c < |entries[t].Chunks()|
        ensures entries[t].Chunks()[c].size >= 0
      {
        assert entries[t].Chunks()[c] in m.layers by {
          if entries[t].meta.chunks != [] {
            assert Carries(m.layers, entries[t].meta.chunks[c], entries[t].Chunks()[c]);
          }
        }
      }
    }
  }

  /** In the pipeline sized for a plan, every file it prefetches gets buffers its chunks fit into. */
  lemma JobIsOk(req: Request, entries: seq<LayerPlan>, prefetch: int, budget: int, t: nat)
    requires AllSane(entries) && t < |entries|
    requires entries[t].Encoded() && FileWindow(PipelineFor(entries, prefetch, budget), entries[t]) >= 2
    ensures JobFor(req, PipelineFor(entries, prefetch, budget), entries[t]).Ok()
    ensures JobFor(req, PipelineFor(entries, prefetch, budget), entries[t]).RawIsPlain()
  {
    hide IsZstdMediaType;
    var pipe, e := PipelineFor(entries, prefetch, budget), entries[t];
    CapsDominate(entries, |entries|);
    assert Sane(e) && Prefetchable(e);
    var job := JobFor(req, pipe, e);
    forall c | 0 <= c < |job.parts|
      ensures 0 <= job.parts[c].size <= if job.compressed then job.inCap else job.outCap
    {
      assert job.parts[c].size == e.Chunks()[c].size;
      assert e.Chunks()[c].size <= LargestStored(e.Chunks(), |e.Chunks()|);
    }
  }

  /** All buffers of a pipeline are back in its pools. */
  ghost predicate PoolsFull(pipe: Pipeline, pools: Prefetch.Pools) {
    && |pools.input| == (if pipe.caps.anyZstd then Max(pipe.window, 0) else 0)
    && |pools.output| == Max(pipe.window, 0) + 1
    && AllAtMost(pools.input, Max(pipe.caps.input, 0))
    && AllAtMost(pools.output, Max(pipe.caps.output, 0))
  }

  lemma EntryKeepsPools(req: Request, entries: seq<LayerPlan>, prefetch: int, budget: int, t: nat, pools: Prefetch.Pools, trace: Trace)
    requires AllSane(entries) && t < |entries| && PoolsFull(PipelineFor(entries, prefetch, budget), pools)
    ensures
      var pipe := PipelineFor(entries, prefetch, budget);
      var run := WriteEntry(req, pipe, pools, entries[t], trace);
      run.Wrote? ==> PoolsFull(pipe, run.pools)
  {
    hide IsZstdMediaType, PipelineFor, LayerHeader, CopyOut, SequentialBytes, FileWindow, Honest;
    var pipe, e := PipelineFor(entries, prefetch, budget), entries[t];
    if e.Encoded() && FileWindow(pipe, e) >= 2 && trace.Prefetched? {
      JobIsOk(req, entries, prefetch, budget, t);
      var job := JobFor(req, pipe, e);
      PrefetchProofs.RunKeepsInv(job, pools, trace.steps);
      var end := Prefetch.Exec(job, Prefetch.Init(job, pools), trace.steps);
      if end.Some? && end.value.consumer.Returned? {
        PrefetchProofs.ReturnLeavesNothingBehind(job, end.value);
      }
    }
  }

  /** Every file of a pull starts with full pools, whatever happened to the files before it. */
  lemma {:induction false} TarKeepsPools(req: Request, cfg: SnapshotConfig, entries: seq<LayerPlan>, traces: seq<Trace>, n: nat)
    requires AllSane(entries) && n <= |entries| && |traces| == |entries|
    ensures
      var run := TarUpTo(req, cfg, entries, traces, n);
      run.Going? ==> PoolsFull(PipelineFor(entries, req.opts.Prefetch(), req.opts.Budget()), run.pools)
  {
    hide WriteEntry, PipelineFor;
    if n > 0 {
      TarKeepsPools(req, cfg, entries, traces, n - 1);
      var before := TarUpTo(req, cfg, entries, traces, n - 1);
      if before.Going? {
        EntryKeepsPools(req, entries, req.opts.Prefetch(), req.opts.Budget(), n - 1, before.pools, traces[n - 1]);
      }
    }
  }

  // ----- What an entry stands for -----

  /** The decoded chunks of a file. */
  function Plains(req: Request, e: LayerPlan): (r: seq<Bytes>)
    ensures |r| == |e.Chunks()|
  {
    seq(|e.Chunks()|, c requires 0 <= c < |e.Chunks()| => PartOf(req, e, e.Chunks()[c]).plain.GetOr([]))
  }

  /** The registry holds the entry's blobs; a file's chunks decode, and to as many bytes as the config records. */
  ghost predicate Stands(req: Request, e: LayerPlan, data: Bytes) {
    if e.Encoded() then
      && e.Chunks() != []
      && e.meta.size == |data|
      && (forall c :: 0 <= c < |e.Chunks()| ==> PartOf(req, e, e.Chunks()[c]).plain.Some?)
      && Flatten(Plains(req, e)) == data
    else e.layer.digest in req.store && req.store[e.layer.digest] == data
  }

  /** Besides, every blob has its descriptor's size and a prefetched chunk decodes within the output buffers. */
  ghost predicate Fits(req: Request, pipe: Pipeline, e: LayerPlan, data: Bytes) {
    && Stands(req, e, data)
    && (!e.Encoded() ==> e.layer.size == |data|)
    && forall c :: 0 <= c < |e.Chunks()| ==> ChunkFits(req, pipe, e, e.Chunks()[c])
  }

  ghost predicate ChunkFits(req: Request, pipe: Pipeline, e: LayerPlan, desc: Descriptor) {
    var part := PartOf(req, e, desc);
    && part.blob.Some? && |part.blob.value| == part.size
    && part.plain.Some?
    && (FileWindow(pipe, e) >= 2 && e.Zstd() ==> |part.plain.value| <= pipe.caps.output)
  }

  /** The header an entry gets. */
  function EntryHeader(e: LayerPlan): Option<Header> {
    LayerHeader(e.title, if e.Encoded() then e.meta.size else e.layer.size, e.meta)
  }

  lemma PlainsOfJob(req: Request, pipe: Pipeline, e: LayerPlan)
    ensures JobFor(req, pipe, e).Plains() == Plains(req, e)
  {
    hide IsZstdMediaType, FileWindow;
    var job := JobFor(req, pipe, e);
    assert forall c :: 0 <= c < |job.parts| ==> job.Plains()[c] == Plains(req, e)[c];
  }

  // ----- A chunk read by a fetch -----

  /**
   * Reading a chunk through the checker, as a fetch does: over an honest body it succeeds only if the
   * chunk is readable, and then yields its blob; over a clean body it succeeds whenever it is readable.
   * The machine's read steps promise no more and no less.
   */
  lemma ReadDeliversTheBlob(req: Request, pipe: Pipeline, e: LayerPlan, c: nat, source: Option<Script>)
    requires c < |e.Chunks()| && e.Chunks()[c].size >= 0 && Honest(req.store, e.Chunks()[c], source)
    ensures
      var job, size := JobFor(req, pipe, e), e.Chunks()[c].size;
      && (source.Some? && Checked(source.value, size).ok ==>
           job.Readable(c) && Checked(source.value, size).bytes == job.parts[c].blob.value)
      && (Clean(req.store, e.Chunks()[c], source) && job.Readable(c) ==> Checked(source.value, size).ok)
  {
    hide IsZstdMediaType, FileWindow;
    if source.Some? {
      var size := e.Chunks()[c].size;
      CheckedIsExactUnlessProbeStalls(source.value, size);
      CheckedNeverPassesShort(source.value, size);
      var all := Content(source.value).bytes;
      assert all[..|all|] == all;
    }
  }

  // ----- A successful entry is exact -----

  lemma CopyIsExact(req: Request, e: LayerPlan, data: Bytes, source: Option<Script>, wrote: bool)
    requires Sane(e) && !e.Encoded() && Stands(req, e, data) && Honest(req.store, e.layer, source)
    ensures
      var out := CopyOut(e.layer, e.meta, source, wrote);
      out.Some? ==> out == Some(TarEntry(EntryHeader(e).value, data))
  {
    hide LayerHeader, IsZstdMediaType;
    if source.Some? {
      CheckedIsExactUnlessProbeStalls(source.value, e.layer.size);
      CheckedNeverPassesShort(source.value, e.layer.size);
      var all := Content(source.value).bytes;
      assert all[..|all|] == all;
    }
  }

  /** Reading the chunks one after the other, and decoding them as one stream, gives the file. */
  lemma SequentialIsExact(req: Request, e: LayerPlan, data: Bytes, sources: seq<Option<Script>>)
    requires req.w.DecodeConcatenates() && e.Encoded() && Stands(req, e, data) && |sources| == |e.Chunks()|
    requires forall c :: 0 <= c < |sources| ==> Honest(req.store, e.Chunks()[c], sources[c])
    ensures SequentialBytes(req, e, sources).Some? ==> SequentialBytes(req, e, sources) == Some(data)
  {
    hide IsZstdMediaType;
    var parts := Parts(e, sources);
    var blobs := seq(|sources|, c requires 0 <= c < |sources| => if sources[c].Some? then Content(sources[c].value).bytes else []);
    if Streamed(parts).ok {
      StreamedIsExact(parts, blobs);
      forall c | 0 <= c < |sources|
        ensures PartOf(req, e, e.Chunks()[c]).blob == Some(blobs[c])
      {
        assert parts[c].source == sources[c];
      }
      if e.Zstd() {
        DecodeOfFlatten(req.w, blobs, Plains(req, e));
      } else {
        assert blobs == Plains(req, e);
      }
    }
  }

  lemma PrefetchedIsExact(req: Request, pipe: Pipeline, e: LayerPlan, data: Bytes, pools: Prefetch.Pools, steps: seq<Prefetch.Step>)
    requires e.Encoded() && Stands(req, e, data) && PoolsFull(pipe, pools)
    requires JobFor(req, pipe, e).Ok() && JobFor(req, pipe, e).RawIsPlain()
    ensures
      var job := JobFor(req, pipe, e);
      var end := Prefetch.Exec(job, Prefetch.Init(job, pools), steps);
      end.Some? && PrefetchProofs.StreamFileOk(end.value, e.meta.size) ==> end.value.written == data
  {
    hide IsZstdMediaType, FileWindow, PartOf;
    var job := JobFor(req, pipe, e);
    PlainsOfJob(req, pipe, e);
    if Prefetch.Exec(job, Prefetch.Init(job, pools), steps).Some? {
      PrefetchProofs.OnlyCompleteFilesPass(job, pools, steps, e.meta.size);
    }
  }

  /** Whatever failed or was cancelled on the way: an entry that is written is its file. */
  lemma EntryIsExact(req: Request, entries: seq<LayerPlan>, prefetch: int, budget: int, t: nat,
      data: Bytes, pools: Prefetch.Pools, trace: Trace)
    requires req.w.DecodeConcatenates() && AllSane(entries) && t < |entries| && Stands(req, entries[t], data)
    requires PoolsFull(PipelineFor(entries, prefetch, budget), pools)
    ensures
      var run := WriteEntry(req, PipelineFor(entries, prefetch, budget), pools, entries[t], trace);
      run.Wrote? ==> EntryHeader(entries[t]).Some? && run.entry == TarEntry(EntryHeader(entries[t]).value, data)
  {
    hide IsZstdMediaType, PipelineFor, LayerHeader, CopyOut, SequentialBytes, FileWindow, Honest, Stands, JobFor;
    var pipe, e := PipelineFor(entries, prefetch, budget), entries[t];
    assert Sane(e);
    if !e.Encoded() {
      if trace.Copied? && Honest(req.store, e.layer, trace.source) {
        CopyIsExact(req, e, data, trace.source, trace.wrote);
        CopyNeedsHeader(e, trace.source, trace.wrote);
      }
    } else if FileWindow(pipe, e) >= 2 {
      if trace.Prefetched? {
        JobIsOk(req, entries, prefetch, budget, t);
        PrefetchedIsExact(req, pipe, e, data, pools, trace.steps);
        HeaderSize(e);
      }
    } else if trace.Sequential? && |trace.sources| == |e.Chunks()|
      && forall c :: 0 <= c < |e.Chunks()| ==> Honest(req.store, e.Chunks()[c], trace.sources[c]) {
      SequentialIsExact(req, e, data, trace.sources);
    }
  }

  lemma CopyNeedsHeader(e: LayerPlan, source: Option<Script>, wrote: bool)
    requires Sane(e) && !e.Encoded()
    ensures CopyOut(e.layer, e.meta, source, wrote).Some? ==> EntryHeader(e).Some?
  {
  }

  // ----- An entry without faults is written -----

  lemma CopySucceeds(req: Request, pipe: Pipeline, e: LayerPlan, data: Bytes, source: Option<Script>, wrote: bool)
    requires Sane(e) && !e.Encoded() && Fits(req, pipe, e, data)
    requires Honest(req.store, e.layer, source) && Clean(req.store, e.layer, source)
    ensures CopyOut(e.layer, e.meta, source, wrote).Some? <==> EntryHeader(e).Some? && wrote
  {
    hide LayerHeader, IsZstdMediaType;
    CheckedIsExactUnlessProbeStalls(source.value, e.layer.size);
  }

  lemma SequentialSucceeds(req: Request, pipe: Pipeline, e: LayerPlan, data: Bytes, sources: seq<Option<Script>>)
    requires req.w.DecodeConcatenates() && e.Encoded() && Fits(req, pipe, e, data) && |sources| == |e.Chunks()|
    requires forall c :: 0 <= c < |sources| ==>
      Honest(req.store, e.Chunks()[c], sources[c]) && Clean(req.store, e.Chunks()[c], sources[c])
    ensures SequentialBytes(req, e, sources) == Some(data)
  {
    hide IsZstdMediaType, FileWindow;
    var parts := Parts(e, sources);
    var blobs := seq(|sources|, c requires 0 <= c < |sources| => Content(sources[c].value).bytes);
    forall c | 0 <= c < |parts|
      ensures Serves(parts[c], blobs[c]) && PartOf(req, e, e.Chunks()[c]).blob == Some(blobs[c])
    {
      assert ChunkFits(req, pipe, e, e.Chunks()[c]);
    }
    StreamedConcatenates(parts, blobs);
    if e.Zstd() {
      DecodeOfFlatten(req.w, blobs, Plains(req, e));
    } else {
      assert blobs == Plains(req, e);
    }
  }

  lemma PrefetchedSucceeds(req: Request, pipe: Pipeline, e: LayerPlan, data: Bytes, pools: Prefetch.Pools, steps: seq<Prefetch.Step>)
    requires e.Encoded() && Fits(req, pipe, e, data) && PoolsFull(pipe, pools) && FileWindow(pipe, e) >= 2
    requires JobFor(req, pipe, e).Ok() && JobFor(req, pipe, e).RawIsPlain()
    requires forall i :: 0 <= i < |steps| ==> Prefetch.Faultless(steps[i])
    ensures
      var job := JobFor(req, pipe, e);
      var end := Prefetch.Exec(job, Prefetch.Init(job, pools), steps);
      end.Some? && end.value.consumer.Returned? ==> PrefetchProofs.StreamFileOk(end.value, e.meta.size)
  {
    hide IsZstdMediaType, FileWindow, PartOf;
    var job := JobFor(req, pipe, e);
    forall c | 0 <= c < |job.parts|
      ensures job.Readable(c) && job.Decodable(c)
    {
      assert ChunkFits(req, pipe, e, e.Chunks()[c]);
    }
    PlainsOfJob(req, pipe, e);
    if Prefetch.Exec(job, Prefetch.Init(job, pools), steps).Some? {
      PrefetchProofs.FaultlessRunSucceeds(job, pools, steps);
    }
  }

  /** Without faults an entry is written exactly when its header can be: a sparse map needs a positive sparse size. */
  lemma EntrySucceeds(req: Request, entries: seq<LayerPlan>, prefetch: int, budget: int, t: nat,
      data: Bytes, pools: Prefetch.Pools, trace: Trace)
    requires req.w.DecodeConcatenates() && AllSane(entries) && t < |entries|
    requires Fits(req, PipelineFor(entries, prefetch, budget), entries[t], data)
    requires PoolsFull(PipelineFor(entries, prefetch, budget), pools) && FaultlessTrace(req, entries[t], trace)
    ensures
      var run := WriteEntry(req, PipelineFor(entries, prefetch, budget), pools, entries[t], trace);
      !run.NoRun? ==> (run.Wrote? <==> EntryHeader(entries[t]).Some?)
  {
    hide IsZstdMediaType, PipelineFor, LayerHeader, CopyOut, SequentialBytes, FileWindow, Honest, Clean, JobFor, ChunkFits;
    var pipe, e := PipelineFor(entries, prefetch, budget), entries[t];
    assert Sane(e);
    if !e.Encoded() {
      if trace.Copied? && Honest(req.store, e.layer, trace.source) {
        CopySucceeds(req, pipe, e, data, trace.source, trace.wrote);
      }
    } else if FileWindow(pipe, e) >= 2 {
      if trace.Prefetched? {
        JobIsOk(req, entries, prefetch, budget, t);
        PrefetchedSucceeds(req, pipe, e, data, pools, trace.steps);
        HeaderSize(e);
      }
    } else if trace.Sequential? && |trace.sources| == |e.Chunks()|
      && forall c :: 0 <= c < |e.Chunks()| ==> Honest(req.store, e.Chunks()[c], trace.sources[c]) {
      SequentialSucceeds(req, pipe, e, data, trace.sources);
      HeaderSize(e);
    }
  }

  lemma HeaderSize(e: LayerPlan)
    requires e.Encoded()
    ensures EntryHeader(e).Some? ==> EntryHeader(e).value.size == e.meta.size
  {
  }

  // ----- The whole tar -----

  /** The tar that the entries stand for. */
  function Tar(req: Request, cfg: SnapshotConfig, entries: seq<LayerPlan>, datas: seq<Bytes>, n: nat): seq<TarEntry>
    requires n <= |entries| && |datas| == |entries|
  {
    if n == 0 then [Envelope(req, cfg)]
    else Tar(req, cfg, entries, datas, n - 1)
         + [TarEntry(EntryHeader(entries[n - 1]).GetOr(Header("", 0, 0, map[])), datas[n - 1])]
  }

  /** Whatever fails or is cancelled on the way, a pull that gets to its end has written exactly the files. */
  lemma {:induction false} TarIsExact(req: Request, cfg: SnapshotConfig, entries: seq<LayerPlan>,
      traces: seq<Trace>, datas: seq<Bytes>, n: nat)
    requires req.w.DecodeConcatenates() && AllSane(entries) && n <= |entries| && |traces| == |datas| == |entries|
    requires forall t :: 0 <= t < |entries| ==> Stands(req, entries[t], datas[t])
    ensures
      var run := TarUpTo(req, cfg, entries, traces, n);
      run.Going? ==>
        && run.tar == Tar(req, cfg, entries, datas, n)
        && forall t :: 0 <= t < n ==> EntryHeader(entries[t]).Some?
  {
    hide WriteEntry, PipelineFor, EntryHeader, Stands, Envelope;
    if n > 0 {
      TarIsExact(req, cfg, entries, traces, datas, n - 1);
      TarKeepsPools(req, cfg, entries, traces, n - 1);
      var before := TarUpTo(req, cfg, entries, traces, n - 1);
      if before.Going? {
        EntryIsExact(req, entries, req.opts.Prefetch(), req.opts.Budget(), n - 1, datas[n - 1], before.pools, traces[n - 1]);
      }
    }
  }

  /** Without faults a complete run reaches the end exactly when every header can be written. */
  lemma {:induction false} TarSucceeds(req: Request, cfg: SnapshotConfig, entries: seq<LayerPlan>,
      traces: seq<Trace>, datas: seq<Bytes>, n: nat)
    requires req.w.DecodeConcatenates() && AllSane(entries) && n <= |entries| && |traces| == |datas| == |entries|
    requires forall t :: 0 <= t < |entries| ==>
      Fits(req, PipelineFor(entries, req.opts.Prefetch(), req.opts.Budget()), entries[t], datas[t])
      && FaultlessTrace(req, entries[t], traces[t])
    ensures
      var run := TarUpTo(req, cfg, entries, traces, n);
      !run.NotARun? ==> (run.Going? <==> forall t :: 0 <= t < n ==> EntryHeader(entries[t]).Some?)
  {
    hide WriteEntry, PipelineFor, EntryHeader, Fits, Envelope, FaultlessTrace;
    if n > 0 {
      TarSucceeds(req, cfg, entries, traces, datas, n - 1);
      TarKeepsPools(req, cfg, entries, traces, n - 1);
      var before := TarUpTo(req, cfg, entries, traces, n - 1);
      if before.Going? {
        EntrySucceeds(req, entries, req.opts.Prefetch(), req.opts.Budget(), n - 1, datas[n - 1], before.pools, traces[n - 1]);
      }
    }
  }

  // ----- Prefetching refines streaming sequentially -----

  /**
   * A file whose decoded chunks total its recorded size: whatever the interleaving, the window and the
   * faults, a prefetched run that succeeds writes what any successful sequential run writes, and one
   * that fails has written a prefix of it.
   */
  lemma PrefetchRefinesSequential(req: Request, entries: seq<LayerPlan>, prefetch: int, budget: int, t: nat,
      data: Bytes, pools: Prefetch.Pools, steps: seq<Prefetch.Step>, sources: seq<Option<Script>>)
    requires req.w.DecodeConcatenates() && AllSane(entries) && t < |entries|
    requires var e := entries[t]; e.Encoded() && Stands(req, e, data) && |sources| == |e.Chunks()|
    requires forall c :: 0 <= c < |sources| ==> Honest(req.store, entries[t].Chunks()[c], sources[c])
    requires FileWindow(PipelineFor(entries, prefetch, budget), entries[t]) >= 2
    requires PoolsFull(PipelineFor(entries, prefetch, budget), pools)
    requires SequentialBytes(req, entries[t], sources).Some?
    ensures
      var job := JobFor(req, PipelineFor(entries, prefetch, budget), entries[t]);
      var end := Prefetch.Exec(job, Prefetch.Init(job, pools), steps);
      var sequential := SequentialBytes(req, entries[t], sources).value;
      end.Some? ==>
        && end.value.written <= sequential
        && (PrefetchProofs.StreamFileOk(end.value, entries[t].meta.size) ==> end.value.written == sequential)
  {
    hide IsZstdMediaType, PipelineFor, FileWindow, SequentialBytes, Honest, PartOf;
    var pipe, e := PipelineFor(entries, prefetch, budget), entries[t];
    var job := JobFor(req, pipe, e);
    JobIsOk(req, entries, prefetch, budget, t);
    SequentialIsExact(req, e, data, sources);
    PrefetchedIsExact(req, pipe, e, data, pools, steps);
    PrefetchProofs.RunKeepsInv(job, pools, steps);
    PlainsOfJob(req, pipe, e);
  }

  // ----- Memory -----

  /** While a file is prefetched, the buffers of both pools, free or in use, never exceed the budget. */
  lemma PullMemoryWithinBudget(req: Request, entries: seq<LayerPlan>, prefetch: int, budget: int, t: nat,
      pools: Prefetch.Pools, steps: seq<Prefetch.Step>)
    requires AllSane(entries) && t < |entries| && entries[t].Encoded()
    requires FileWindow(PipelineFor(entries, prefetch, budget), entries[t]) >= 2
    requires PoolsFull(PipelineFor(entries, prefetch, budget), pools)
    ensures
      var job := JobFor(req, PipelineFor(entries, prefetch, budget), entries[t]);
      var end := Prefetch.Exec(job, Prefetch.Init(job, pools), steps);
      end.Some? ==> Prefetch.PoolMemory(end.value) <= budget
  {
    hide IsZstdMediaType, PartOf;
    var pipe := PipelineFor(entries, prefetch, budget);
    var job := JobFor(req, pipe, entries[t]);
    JobIsOk(req, entries, prefetch, budget, t);
    PrefetchProofs.RunKeepsInv(job, pools, steps);
    var end := Prefetch.Exec(job, Prefetch.Init(job, pools), steps);
    if end.Some? {
      PrefetchProofs.MemoryIsBounded(job, end.value);
      WindowIsLargestFit(pipe.caps, prefetch, budget);
      PoolsAreWithinWindow(job, pipe);
    }
  }

  lemma PoolsAreWithinWindow(job: Prefetch.Job, pipe: Pipeline)
    requires pipe.window >= 0 && pipe.caps.input >= 0 && pipe.caps.output >= 0
    requires job.inCap == pipe.caps.input && job.outCap == pipe.caps.output
    requires job.inSize <= pipe.window && job.outSize == pipe.window + 1
    ensures job.inSize * job.inCap + job.outSize * job.outCap <= PullBytes(pipe.window, pipe.caps)
  {
    assert job.inSize * job.inCap <= pipe.window * job.inCap;
  }
}
