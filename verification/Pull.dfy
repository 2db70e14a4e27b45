/**
 * Streaming a snapshot into an import tar. What the registry's bodies and the prefetching tasks did
 * during a pull is given as a trace, one per planned entry; the pull is a function of the traces.
 */
module Pull {
  import opened Integers
  import opened Sequences
  import opened Decimal
  import opened Manifest
  import opened World
  import opened Plan
  import opened PullBudget
  import opened SizedReader
  import PushBudget
  import PushSpec
  import Prefetch
  import BufPools

  const MAX_SNAPSHOT_CONFIG_SIZE := 64 * 0x10_0000
  const DEFAULT_PULL_PREFETCH_BUDGET := 4 * 0x4000_0000
  const DEFAULT_FILE_MODE := 416
  const ENVELOPE_MODE := 420

  datatype Options = Options(name: string, localName: string, concurrency: Int64, memoryBudgetMiB: Int64) {
    function Prefetch(): int {
      if concurrency <= 0 then PushBudget.DEFAULT_TRANSFER_CONCURRENCY else concurrency
    }
    function Budget(): int {
      var shifted := PushBudget.ShiftMiB(memoryBudgetMiB);
      if shifted <= 0 then DEFAULT_PULL_PREFETCH_BUDGET else shifted
    }
    function Local(): string {
      if localName == "" then name else localName
    }
  }

  /** One pull: the codecs, the registry's blobs, the options. */
  datatype Request = Request(w: World, store: Store, opts: Options)

  datatype Header = Header(name: string, size: int, mode: int, pax: map<string, string>)
  datatype TarEntry = TarEntry(header: Header, body: Bytes)

  // ----- What the registry answers -----

  /**
   * A body is digest-verified: if it ends cleanly it was the blob of that digest. And it does not stall
   * just where the size check probes it.
   */
  predicate Honest(store: Store, desc: Descriptor, source: Option<Script>) {
    source.Some? ==>
      && !StallsAt(source.value, Max(desc.size, 0))
      && (Content(source.value).end.Eof? ==> desc.digest in store && Content(source.value).bytes == store[desc.digest])
  }

  /** The download of a stored blob works. */
  ghost predicate Clean(store: Store, desc: Descriptor, source: Option<Script>) {
    source.Some? && (desc.digest in store ==> Content(source.value).end.Eof?)
  }

  /**
   * What happened while one entry was written. `wrote` says that its header and, outside the prefetching
   * machine, every write of its body went through; the machine has steps for its own writes.
   */
  datatype Trace =
    | Copied(source: Option<Script>, wrote: bool)
    | Sequential(sources: seq<Option<Script>>, wrote: bool)
    | Prefetched(steps: seq<Prefetch.Step>, wrote: bool)

  /** No download failed, nothing was cancelled, no write failed. */
  ghost predicate FaultlessTrace(req: Request, e: LayerPlan, trace: Trace) {
    && trace.wrote
    && match trace
       case Copied(source, _) => Clean(req.store, e.layer, source)
       case Sequential(sources, _) =>
         |sources| == |e.Chunks()| && forall c :: 0 <= c < |sources| ==> Clean(req.store, e.Chunks()[c], sources[c])
       case Prefetched(steps, _) => forall i :: 0 <= i < |steps| ==> Prefetch.Faultless(steps[i])
  }

  // ----- The config -----

  /** FetchSnapshotConfig: at most 64 MiB of JSON, whatever the descriptor claims. */
  function FetchConfig(req: Request, desc: Descriptor, source: Option<Script>): Option<SnapshotConfig> {
    if desc.mediaType != MEDIA_TYPE_SNAPSHOT_CONFIG || desc.size > MAX_SNAPSHOT_CONFIG_SIZE || source.None? then None
    else
      var data := Content(source.value);
      if data.end.Fault? || |data.bytes| > MAX_SNAPSHOT_CONFIG_SIZE then None else req.w.parseConfig(data.bytes)
  }

  // ----- One entry -----

  function LayerHeader(title: string, size: int, meta: SnapshotFile): Option<Header> {
    var mode := if meta.mode == 0 then DEFAULT_FILE_MODE else meta.mode;
    if meta.sparseMap == "" then Some(Header(title, size, mode, map[]))
    else if meta.sparseSize <= 0 then None
    else Some(Header(title, size, mode,
      map[PushSpec.SPARSE_PAX_MAP := meta.sparseMap, PushSpec.SPARSE_PAX_SIZE := Format(meta.sparseSize)]))
  }

  /** A raw layer: its blob, copied at exactly the layer's size. */
  function CopyOut(layer: Descriptor, meta: SnapshotFile, source: Option<Script>, wrote: bool): Option<TarEntry> {
    var header := LayerHeader(layer.Title(), layer.size, meta);
    if header.None? || source.None? || !wrote then None
    else
      var copied := Checked(source.value, Max(layer.size, 0));
      if copied.ok then Some(TarEntry(header.value, copied.bytes)) else None
  }

  method StreamLayerToTar(layer: Descriptor, meta: SnapshotFile, source: Option<Script>, wrote: bool, buffer: nat)
    returns (out: Option<TarEntry>)
    requires buffer > 0
    ensures out == CopyOut(layer, meta, source, wrote)
  {
    var header := LayerHeader(layer.Title(), layer.size, meta);
    if header.None? || source.None? {
      return None;
    }
    var body := new Body(source.value);
    var copied, ok := CopyBlobSized(body, layer.size, buffer);
    if !ok || !wrote {
      return None;
    }
    out := Some(TarEntry(header.value, copied));
  }

  function Parts(e: LayerPlan, sources: seq<Option<Script>>): (r: seq<SizedReader.Part>)
    requires |sources| == |e.Chunks()|
    ensures |r| == |sources|
  {
    seq(|sources|, c requires 0 <= c < |sources| => SizedReader.Part(e.Chunks()[c].size, sources[c]))
  }

  /** What the sequential form copies: the chunks one after the other, through one decoder if they are compressed. */
  function SequentialBytes(req: Request, e: LayerPlan, sources: seq<Option<Script>>): Option<Bytes>
    requires |sources| == |e.Chunks()|
  {
    var read := Streamed(Parts(e, sources));
    if !read.ok then None else if e.Zstd() then req.w.decode(read.bytes) else Some(read.bytes)
  }

  function Blob(req: Request, digest: string): Option<Bytes> {
    if digest in req.store then Some(req.store[digest]) else None
  }

  /** A chunk as the prefetching form sees it. */
  function PartOf(req: Request, e: LayerPlan, desc: Descriptor): Prefetch.Part {
    var blob := Blob(req, desc.digest);
    Prefetch.Part(desc.size, blob, if blob.Some? && e.Zstd() then req.w.decode(blob.value) else blob)
  }

  /** The prefetch job of a file in a pipeline. */
  function JobFor(req: Request, pipe: Pipeline, e: LayerPlan): Prefetch.Job {
    Prefetch.Job(seq(|e.Chunks()|, c requires 0 <= c < |e.Chunks()| => PartOf(req, e, e.Chunks()[c])),
      e.Zstd(), Max(FileWindow(pipe, e), 0), Max(pipe.caps.input, 0), Max(pipe.caps.output, 0),
      if pipe.caps.anyZstd then Max(pipe.window, 0) else 0, Max(pipe.window, 0) + 1)
  }

  /** The pools newChunkPipeline makes: an input pool only if something is compressed. */
  function InitPools(pipe: Pipeline): Prefetch.Pools {
    Prefetch.Pools(BufPools.FreshPool(if pipe.caps.anyZstd then Max(pipe.window, 0) else 0), BufPools.FreshPool(Max(pipe.window, 0) + 1))
  }

  /** Writing an entry: the trace is no complete run of it, or the entry fails, or it is written and the pools live on. */
  datatype EntryRun = NoRun | Failed | Wrote(entry: TarEntry, pools: Prefetch.Pools)

  /** streamFile's last check: as many bytes as the config records. */
  function Sized(header: Header, bytes: Bytes, pools: Prefetch.Pools): EntryRun {
    if |bytes| == header.size then Wrote(TarEntry(header, bytes), pools) else Failed
  }

  function FileRun(req: Request, pipe: Pipeline, pools: Prefetch.Pools, e: LayerPlan, trace: Trace): EntryRun {
    var header := LayerHeader(e.title, e.meta.size, e.meta);
    if header.None? || !trace.wrote then Failed
    else if FileWindow(pipe, e) >= 2 then
      if !trace.Prefetched? then NoRun
      else
        var job := JobFor(req, pipe, e);
        var end := Prefetch.Exec(job, Prefetch.Init(job, pools), trace.steps);
        if end.None? || !end.value.consumer.Returned? then NoRun
        else if end.value.consumer.result.Some? then Failed
        else Sized(header.value, end.value.written, end.value.pools)
    else if !trace.Sequential? || |trace.sources| != |e.Chunks()| then NoRun
    else if exists c :: 0 <= c < |e.Chunks()| && !Honest(req.store, e.Chunks()[c], trace.sources[c]) then NoRun
    else
      var bytes := SequentialBytes(req, e, trace.sources);
      if bytes.None? then Failed else Sized(header.value, bytes.value, pools)
  }

  method StreamFile(req: Request, pipe: Pipeline, pools: Prefetch.Pools, e: LayerPlan, trace: Trace, buffer: nat) returns (run: EntryRun)
    requires buffer > 0
    ensures run == FileRun(req, pipe, pools, e, trace)
  {
    var header := LayerHeader(e.title, e.meta.size, e.meta);
    if header.None? || !trace.wrote {
      return Failed;
    }
    var written, left := [], pools;
    if FileWindow(pipe, e) >= 2 {
      if !trace.Prefetched? {
        return NoRun;
      }
      var job := JobFor(req, pipe, e);
      var end := Prefetch.Exec(job, Prefetch.Init(job, pools), trace.steps);
      if end.None? || !end.value.consumer.Returned? {
        return NoRun;
      }
      if end.value.consumer.result.Some? {
        return Failed;
      }
      written, left := end.value.written, end.value.pools;
    } else {
      if !trace.Sequential? || |trace.sources| != |e.Chunks()|
         || exists c :: 0 <= c < |e.Chunks()| && !Honest(req.store, e.Chunks()[c], trace.sources[c]) {
        return NoRun;
      }
      var copied, ok, leftOpen := DrainStream(Parts(e, trace.sources), buffer);
      var decoded := if !ok then None else if e.Zstd() then req.w.decode(copied) else Some(copied);
      if decoded.None? {
        return Failed;
      }
      written := decoded.value;
    }
    if |written| != e.meta.size {
      return Failed;
    }
    run := Wrote(TarEntry(header.value, written), left);
  }

  function WriteEntry(req: Request, pipe: Pipeline, pools: Prefetch.Pools, e: LayerPlan, trace: Trace): EntryRun {
    if e.Encoded() then FileRun(req, pipe, pools, e, trace)
    else if !trace.Copied? || !Honest(req.store, e.layer, trace.source) then NoRun
    else
      var out := CopyOut(e.layer, e.meta, trace.source, trace.wrote);
      if out.None? then Failed else Wrote(out.value, pools)
  }

  // ----- The whole tar -----

  datatype TarRun = NotARun | Stopped | Going(tar: seq<TarEntry>, pools: Prefetch.Pools)

  function Envelope(req: Request, cfg: SnapshotConfig): TarEntry {
    var text := req.w.rename(cfg.engine, req.opts.Local());
    TarEntry(Header(PushSpec.SNAPSHOT_JSON, |text|, ENVELOPE_MODE, map[]), text)
  }

  /** The one pipeline of a pull, sized for its plan. */
  function PipeOf(req: Request, entries: seq<LayerPlan>): Pipeline {
    PipelineFor(entries, req.opts.Prefetch(), req.opts.Budget())
  }

  /** The import tar after the envelope and the first `n` entries. */
  function TarUpTo(req: Request, cfg: SnapshotConfig, entries: seq<LayerPlan>, traces: seq<Trace>, n: nat): TarRun
    requires n <= |entries| && |traces| == |entries|
  {
    var pipe := PipeOf(req, entries);
    if n == 0 then Going([Envelope(req, cfg)], InitPools(pipe))
    else
      var before := TarUpTo(req, cfg, entries, traces, n - 1);
      if !before.Going? then before
      else
        match WriteEntry(req, pipe, before.pools, entries[n - 1], traces[n - 1])
        case NoRun => NotARun
        case Failed => Stopped
        case Wrote(entry, pools) => Going(before.tar + [entry], pools)
  }

  /** The entry loop of writeImportTar: it stops at the first entry that fails. */
  method WriteImportTar(req: Request, cfg: SnapshotConfig, entries: seq<LayerPlan>, traces: seq<Trace>, buffer: nat) returns (run: TarRun)
    requires buffer > 0 && |traces| == |entries|
    requires forall i :: 0 <= i < |entries| ==> SizesFit(entries[i])
    ensures run == TarUpTo(req, cfg, entries, traces, |entries|)
  {
    hide FileRun, CopyOut, Honest, Envelope, InitPools, PipelineFor, SizesFit;
    var pipe := NewChunkPipeline(entries, req.opts.Prefetch(), req.opts.Budget());
    var tar, pools := [Envelope(req, cfg)], InitPools(pipe);
    for n := 0 to |entries|
      invariant TarUpTo(req, cfg, entries, traces, n) == Going(tar, pools)
    {
      var e := entries[n];
      var entry: EntryRun;
      if !e.Encoded() {
        if !traces[n].Copied? || !Honest(req.store, e.layer, traces[n].source) {
          entry := NoRun;
        } else {
          var out := StreamLayerToTar(e.layer, e.meta, traces[n].source, traces[n].wrote, buffer);
          entry := if out.None? then Failed else Wrote(out.value, pools);
        }
      } else {
        entry := StreamFile(req, pipe, pools, e, traces[n], buffer);
      }
      if !entry.Wrote? {
        run := if entry.NoRun? then NotARun else Stopped;
        TarStays(req, cfg, entries, traces, n + 1);
        return;
      }
      tar, pools := tar + [entry.entry], entry.pools;
    }
    run := Going(tar, pools);
  }

  lemma {:induction false} TarStays(req: Request, cfg: SnapshotConfig, entries: seq<LayerPlan>, traces: seq<Trace>, n: nat)
    requires n <= |entries| && |traces| == |entries| && !TarUpTo(req, cfg, entries, traces, n).Going?
    ensures TarUpTo(req, cfg, entries, traces, |entries|) == TarUpTo(req, cfg, entries, traces, n)
    decreases |entries| - n
  {
    if n < |entries| {
      TarStays(req, cfg, entries, traces, n + 1);
    }
  }

  /** How a pull ends: refused before the first byte, stopped inside the tar, or done. */
  datatype Pulled = Incomplete | Refused | Broken | Done(tar: seq<TarEntry>)

  function PlanOf(m: OCIManifest, cfg: SnapshotConfig): Option<seq<LayerPlan>> {
    var st := PlanUpTo(cfg, m.layers, |m.layers|);
    if st.None? then None else Some(st.value.entries)
  }

  /** `framed` says that writing the envelope and closing and flushing the tar went through. */
  function PullParsed(req: Request, m: OCIManifest, config: Option<Script>, traces: seq<Trace>, framed: bool): Pulled {
    if req.opts.name == "" || ClassifyParsed(m) != KindSnapshot then Refused
    else if !Honest(req.store, m.config, config) then Incomplete
    else
      var cfg := FetchConfig(req, m.config, config);
      if cfg.None? || !Validates(m, cfg.value) then Refused
      else
        var plan := PlanOf(m, cfg.value);
        if plan.None? then Refused
        else if |traces| != |plan.value| then Incomplete
        else
          match TarUpTo(req, cfg.value, plan.value, traces, |plan.value|)
          case NotARun => Incomplete
          case Stopped => Broken
          case Going(tar, _) => if framed then Done(tar) else Broken
  }
}
