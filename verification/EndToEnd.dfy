/** The round trip happens: for an acceptable tar there is a push that publishes and a pull that restores it. */
module EndToEnd {
  import opened Sequences
  import opened Manifest
  import opened World
  import opened PushSpec
  import opened Plan
  import opened PullBudget
  import opened SizedReader
  import opened Artifact
  import opened PushPlan
  import opened Pull
  import opened PullProofs
  import opened RoundTrip
  import Prefetch
  import PrefetchProofs
  import PushMachine
  import PushInvariant
  import PushReader
  import PushLiveness

  /** A body that hands over its blob at once and ends cleanly. */
  function Whole(blob: Bytes): Script {
    [Reply(blob, Eof)]
  }

  lemma WholeIsHonest(store: Store, desc: Descriptor)
    requires desc.digest in store
    ensures Honest(store, desc, Some(Whole(store[desc.digest]))) && Clean(store, desc, Some(Whole(store[desc.digest])))
  {
  }

  /** What a cooperative registry answers for each chunk. */
  function WholeChunks(req: Request, e: LayerPlan): (r: seq<Option<Script>>)
    ensures |r| == |e.Chunks()|
  {
    seq(|e.Chunks()|, c requires 0 <= c < |e.Chunks()| =>
      if e.Chunks()[c].digest in req.store then Some(Whole(req.store[e.Chunks()[c].digest])) else None)
  }

  lemma ChunkIsStored(req: Request, pipe: Pipeline, e: LayerPlan, data: Bytes, c: nat)
    requires Fits(req, pipe, e, data) && c < |e.Chunks()|
    ensures e.Chunks()[c].digest in req.store
  {
    hide IsZstdMediaType, Stands;
    assert ChunkFits(req, pipe, e, e.Chunks()[c]);
  }

  lemma JobIsGood(req: Request, pipe: Pipeline, e: LayerPlan, data: Bytes)
    requires Fits(req, pipe, e, data) && FileWindow(pipe, e) >= 2
    ensures JobFor(req, pipe, e).AllGood()
  {
    hide IsZstdMediaType, FileWindow, PartOf, Stands;
    var job := JobFor(req, pipe, e);
    forall c | 0 <= c < |job.parts|
      ensures job.Readable(c) && job.Decodable(c)
    {
      assert ChunkFits(req, pipe, e, e.Chunks()[c]);
    }
  }

  lemma RawTraceExists(req: Request, pipe: Pipeline, e: LayerPlan, data: Bytes, pools: Prefetch.Pools) returns (trace: Trace)
    requires !e.Encoded() && Fits(req, pipe, e, data)
    ensures FaultlessTrace(req, e, trace) && !WriteEntry(req, pipe, pools, e, trace).NoRun?
  {
    hide CopyOut;
    trace := Copied(Some(Whole(data)), true);
    WholeIsHonest(req.store, e.layer);
  }

  lemma SequentialTraceExists(req: Request, pipe: Pipeline, e: LayerPlan, data: Bytes, pools: Prefetch.Pools) returns (trace: Trace)
    requires e.Encoded() && FileWindow(pipe, e) < 2 && Fits(req, pipe, e, data)
    ensures FaultlessTrace(req, e, trace) && !WriteEntry(req, pipe, pools, e, trace).NoRun?
  {
    hide SequentialBytes, LayerHeader, FileWindow, Fits, Honest, Clean, Whole;
    trace := Sequential(WholeChunks(req, e), true);
    forall c | 0 <= c < |e.Chunks()|
      ensures Honest(req.store, e.Chunks()[c], trace.sources[c]) && Clean(req.store, e.Chunks()[c], trace.sources[c])
    {
      ChunkIsStored(req, pipe, e, data, c);
      WholeIsHonest(req.store, e.Chunks()[c]);
    }
  }

  lemma PrefetchedTraceExists(req: Request, entries: seq<LayerPlan>, prefetch: int, budget: int, t: nat, data: Bytes, pools: Prefetch.Pools)
    returns (trace: Trace)
    requires AllSane(entries) && t < |entries| && entries[t].Encoded()
    requires FileWindow(PipelineFor(entries, prefetch, budget), entries[t]) >= 2
    requires Fits(req, PipelineFor(entries, prefetch, budget), entries[t], data) && PoolsFull(PipelineFor(entries, prefetch, budget), pools)
    ensures FaultlessTrace(req, entries[t], trace)
    ensures !WriteEntry(req, PipelineFor(entries, prefetch, budget), pools, entries[t], trace).NoRun?
  {
    hide LayerHeader, FileWindow, Fits, PipelineFor, SequentialBytes, PartOf;
    var pipe, e := PipelineFor(entries, prefetch, budget), entries[t];
    var job := JobFor(req, pipe, e);
    JobIsOk(req, entries, prefetch, budget, t);
    JobIsGood(req, pipe, e, data);
    var steps := PrefetchProofs.FaultlessRunCompletes(job, pools, []);
    trace := Prefetched(steps, true);
  }

  lemma TraceExists(req: Request, entries: seq<LayerPlan>, prefetch: int, budget: int, t: nat, data: Bytes, pools: Prefetch.Pools)
    returns (trace: Trace)
    requires AllSane(entries) && t < |entries|
    requires Fits(req, PipelineFor(entries, prefetch, budget), entries[t], data) && PoolsFull(PipelineFor(entries, prefetch, budget), pools)
    ensures FaultlessTrace(req, entries[t], trace)
    ensures !WriteEntry(req, PipelineFor(entries, prefetch, budget), pools, entries[t], trace).NoRun?
  {
    hide FileWindow, Fits, PipelineFor, FaultlessTrace, WriteEntry;
    var pipe, e := PipelineFor(entries, prefetch, budget), entries[t];
    if !e.Encoded() {
      trace := RawTraceExists(req, pipe, e, data, pools);
    } else if FileWindow(pipe, e) < 2 {
      trace := SequentialTraceExists(req, pipe, e, data, pools);
    } else {
      trace := PrefetchedTraceExists(req, entries, prefetch, budget, t, data, pools);
    }
  }

  /** The tar so far depends on the traces so far. */
  lemma {:induction false} TarIsLocal(req: Request, cfg: SnapshotConfig, entries: seq<LayerPlan>, a: seq<Trace>, b: seq<Trace>, n: nat)
    requires n <= |entries| == |a| == |b| && a[..n] == b[..n]
    ensures TarUpTo(req, cfg, entries, a, n) == TarUpTo(req, cfg, entries, b, n)
  {
    hide WriteEntry, PipelineFor, Envelope;
    if n > 0 {
      assert a[..n - 1] == a[..n][..n - 1] && b[..n - 1] == b[..n][..n - 1];
      assert a[n - 1] == a[..n][n - 1] && b[n - 1] == b[..n][n - 1];
      TarIsLocal(req, cfg, entries, a, b, n - 1);
    }
  }

  ghost predicate AllFit(req: Request, entries: seq<LayerPlan>, datas: seq<Bytes>) {
    && |datas| == |entries|
    && forall t :: 0 <= t < |entries| ==> Fits(req, PipelineFor(entries, req.opts.Prefetch(), req.opts.Budget()), entries[t], datas[t])
  }

  lemma {:induction false} TracesExist(req: Request, cfg: SnapshotConfig, entries: seq<LayerPlan>, datas: seq<Bytes>, n: nat)
    returns (traces: seq<Trace>)
    requires AllSane(entries) && AllFit(req, entries, datas) && n <= |entries|
    ensures |traces| == |entries| && forall t :: 0 <= t < n ==> FaultlessTrace(req, entries[t], traces[t])
    ensures !TarUpTo(req, cfg, entries, traces, n).NotARun?
  {
    hide WriteEntry, PipelineFor, FaultlessTrace, Fits, Envelope;
    if n == 0 {
      traces := seq(|entries|, _ => Copied(None, true));
    } else {
      var before := TracesExist(req, cfg, entries, datas, n - 1);
      var run := TarUpTo(req, cfg, entries, before, n - 1);
      var pipe := PipelineFor(entries, req.opts.Prefetch(), req.opts.Budget());
      var pools := InitPools(pipe);
      InitPoolsAreFull(pipe);
      if run.Going? {
        TarKeepsPools(req, cfg, entries, before, n - 1);
        pools := run.pools;
      }
      var trace := TraceExists(req, entries, req.opts.Prefetch(), req.opts.Budget(), n - 1, datas[n - 1], pools);
      traces := before[n - 1 := trace];
      TarIsLocal(req, cfg, entries, traces, before, n - 1);
    }
  }

  lemma InitPoolsAreFull(pipe: Pipeline)
    ensures PoolsFull(pipe, InitPools(pipe))
  {
  }

  /** What has to hold of a tar for it to come back. */
  ghost predicate Restorable(p: PushMachine.Push) {
    && DistinctNames(p.items) && NamesNonEmpty(p.items) && SparseRecordsOk(p.items)
    && |PublishedText(p)| <= MAX_SNAPSHOT_CONFIG_SIZE
  }

  /** From any published snapshot of such a tar a pull can run to its end, and it restores the tar. */
  lemma PullCompletes(p: PushMachine.Push, store: Store, steps: seq<PushMachine.Step>, req: Request)
    returns (config: Option<Script>, traces: seq<Trace>)
    requires Published(p, store, steps) && PullsFrom(p, EndOf(p, store, steps).store, req) && Restorable(p)
    ensures PullParsed(req, EndOf(p, store, steps).manifest.value, config, traces, true) == Done(RestoredTar(req, p.items, EngineOf(p)))
  {
    hide Validates, FinalConfig, FinalAssembly, TarUpTo, PlanOf, FetchConfig, SparseRecordsOk, Honest;
    hide PlanStands, ClassifyParsed, EntryOk, TarOk, RestoredTar, FaultlessTrace, AllFit;
    PublishedIsReadable(p, store, steps, req);
    var m, cfg := FinalManifest(p.su, p.items, EngineOf(p)), FinalConfig(p.su, p.items, EngineOf(p));
    PublishedManifestIsSnapshot(p.su, p.items, EngineOf(p));
    PublishedManifestValidates(p.su, p.items, EngineOf(p));
    PublishedPlanStands(p, req, EngineOf(p));
    ValidatedPlansAreSane(m, cfg);
    config := Some(Whole(PublishedText(p)));
    WholeIsHonest(req.store, m.config);
    ConfigComesBack(p, req, config);
    var plan := PlanOf(m, cfg).value;
    PlanFits(p, req, plan);
    traces := TracesExist(req, cfg, plan, Datas(p.items), |plan|);
    FaultlessPullCompletesIff(p, store, steps, req, config, traces, true);
    PullIsNeverWrong(p, store, steps, req, config, traces, true);
  }

  lemma PlanFits(p: PushMachine.Push, req: Request, entries: seq<LayerPlan>)
    requires req.w == p.su.w && p.su.w.DecodeInvertsEncode() && PlanStands(req, p.su, p.items, entries)
    ensures AllFit(req, entries, Datas(p.items))
  {
    hide EntryOk, PlannedFor, FileStored, Fits, PipelineFor;
    DatasMatch(req, p.su, p.items, entries);
    forall t | 0 <= t < |entries|
      ensures Fits(req, PipelineFor(entries, req.opts.Prefetch(), req.opts.Budget()), entries[t], Datas(p.items)[t])
    {
      PlannedFits(req, p.su, FilesOf(p.items, |p.items|)[t], entries, req.opts.Prefetch(), req.opts.Budget(), t);
    }
  }

  /** For an acceptable, restorable tar: some push publishes, and some pull from its registry restores the tar. */
  lemma RoundTripHappens(p: PushMachine.Push, store: Store, opts: Options)
    returns (steps: seq<PushMachine.Step>, config: Option<Script>, traces: seq<Trace>)
    requires p.Ok() && p.su.w.Lawful() && ContentAddressed(p.su.w, store)
    requires PushLiveness.Acceptable(p) && Restorable(p) && opts.name != ""
    ensures Published(p, store, steps)
    ensures
      var s := EndOf(p, store, steps);
      var req := Request(p.su.w, s.store, opts);
      PullParsed(req, s.manifest.value, config, traces, true) == Done(RestoredTar(req, p.items, EngineOf(p)))
  {
    hide PushMachine.Apply, PushMachine.Enabled, Restorable, PullParsed, RestoredTar, PushLiveness.AllUndisturbed, PushLiveness.Acceptable;
    assert PushMachine.Exec(p, PushMachine.Init(p, store), []) == Some(PushMachine.Init(p, store));
    NoStepsAreUndisturbed();
    steps := PushLiveness.UndisturbedPushCompletes(p, store, []);
    PushLiveness.UndisturbedPushEndsAsTheTarDecides(p, store, steps);
    PublishedHasManifest(p, store, steps);
    var s := EndOf(p, store, steps);
    config, traces := PullCompletes(p, store, steps, Request(p.su.w, s.store, opts));
  }

  lemma NoStepsAreUndisturbed()
    ensures PushLiveness.AllUndisturbed([])
  {
  }

  lemma PublishedHasManifest(p: PushMachine.Push, store: Store, steps: seq<PushMachine.Step>)
    requires p.Ok() && p.su.w.DigestInjective() && ContentAddressed(p.su.w, store)
    requires PushMachine.Exec(p, PushMachine.Init(p, store), steps).Some?
    ensures
      var s := PushMachine.Exec(p, PushMachine.Init(p, store), steps).value;
      s.reader.Published? ==> s.manifest.Some?
  {
    hide PushInvariant.Reading;
    PushReader.RunKeepsInv(p, store, steps);
  }
}
