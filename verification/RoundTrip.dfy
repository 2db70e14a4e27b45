/** Pushing and then pulling: over every run of both protocols, what comes back is what was exported. */
module RoundTrip {
  import opened Sequences
  import opened Decimal
  import opened Manifest
  import opened World
  import opened PushSpec
  import opened Plan
  import opened PullBudget
  import opened SizedReader
  import opened Artifact
  import opened PushPlan
  import opened Pull
  import opened PullProofs
  import PushMachine
  import PushInvariant
  import PushReader

  // ----- What comes back -----

  /** A sparse map can be restored when its size is positive; an empty map counts as none. */
  predicate SparseOk(e: Entry) {
    SPARSE_PAX_MAP in e.pax && e.pax[SPARSE_PAX_MAP] != "" ==>
      SparseFileMeta(e).Some? && SparseFileMeta(e).value.sparseSize > 0
  }

  /** Name, size and bytes as exported; mode 0 becomes 0640; the sparse record keeps its map and its number. */
  function Restored(e: Entry): TarEntry {
    var meta := SparseFileMeta(e).GetOr(NO_FILE);
    TarEntry(
      Header(e.name, e.size, if e.mode == 0 then DEFAULT_FILE_MODE else e.mode,
        if meta.sparseMap == "" then map[]
        else map[SPARSE_PAX_MAP := meta.sparseMap, SPARSE_PAX_SIZE := Format(meta.sparseSize)]),
      e.data)
  }

  function RestoredTar(req: Request, items: seq<Entry>, engine: Bytes): seq<TarEntry> {
    var text := req.w.rename(engine, req.opts.Local());
    var files := FilesOf(items, |items|);
    [TarEntry(Header(SNAPSHOT_JSON, |text|, ENVELOPE_MODE, map[]), text)]
    + seq(|files|, t requires 0 <= t < |files| => Restored(files[t]))
  }

  /** A second push would read the same sparse record from a restored entry as from the exported one. */
  lemma SparseRecordSurvives(e: Entry)
    requires SparseFileMeta(e).Some? && SparseOk(e)
    ensures
      var back := Restored(e);
      var again := SparseFileMeta(Entry(back.header.name, true, back.header.size, back.header.mode, back.header.pax, back.body));
      && again.Some?
      && again.value.mode == (if e.mode == 0 then DEFAULT_FILE_MODE else e.mode)
      && again.value.sparseMap == SparseFileMeta(e).value.sparseMap
      && (again.value.sparseMap != "" ==> again.value.sparseSize == SparseFileMeta(e).value.sparseSize)
  {
    assert SPARSE_PAX_MAP[|SPARSE_PAX_MAP| - 1] != SPARSE_PAX_SIZE[|SPARSE_PAX_SIZE| - 1];
    ParseOfFormat(SparseFileMeta(e).value.sparseSize);
  }

  // ----- One file -----

  ghost predicate FileStored(su: Setup, store: Store, e: Entry) {
    forall j :: 0 <= j < |Tasks(su, e)| ==> PushInvariant.Holds(su.w, store, Stored(su, Tasks(su, e)[j]))
  }

  /** Decoding what a task uploaded gives back its piece of the file. */
  lemma StoredDecodes(su: Setup, t: Task)
    requires su.w.DecodeInvertsEncode()
    ensures IsZstdMediaType(t.mediaType) ==> su.w.decode(Stored(su, t)) == Some(t.raw)
    ensures !IsZstdMediaType(t.mediaType) ==> Stored(su, t) == t.raw
  {
    hide IsZstdMediaType;
  }

  /** The type of an entry's first layer tells how all its chunks are stored. */
  lemma PlannedType(su: Setup, e: Entry, entry: LayerPlan, c: nat)
    requires PlannedFor(su, e, entry) && c < |Tasks(su, e)|
    ensures entry.Zstd() <==> IsZstdMediaType(Tasks(su, e)[c].mediaType)
    ensures entry.Zstd() <==> Compresses(su, e)
  {
    hide IsZstdMediaType, LayerType, Stored, Compresses, StoredEncoded;
    TasksShareType(su, e, 0);
    TasksShareType(su, e, c);
    LayerTypeTells(su, e);
    DescTitle(su, Tasks(su, e)[0]);
  }

  /** Chunk `c` of a planned file is the blob its task uploaded, and decodes to its piece. */
  lemma ChunkIsPiece(req: Request, su: Setup, e: Entry, entry: LayerPlan, c: nat)
    requires req.w == su.w && su.w.DecodeInvertsEncode()
    requires PlannedFor(su, e, entry) && entry.Encoded() && c < |Tasks(su, e)| && FileStored(su, req.store, e)
    ensures c < |entry.Chunks()|
    ensures
      var part := PartOf(req, entry, entry.Chunks()[c]);
      && part.blob == Some(Stored(su, Tasks(su, e)[c])) && |part.blob.value| == part.size
      && part.plain == Some(Tasks(su, e)[c].raw)
  {
    hide IsZstdMediaType, Stored, Tasks, FinalMeta, StoredEncoded;
    PlannedType(su, e, entry, c);
    StoredDecodes(su, Tasks(su, e)[c]);
    DescTitle(su, Tasks(su, e)[c]);
    assert PushInvariant.Holds(su.w, req.store, Stored(su, Tasks(su, e)[c]));
  }

  lemma RawLayerIsFile(req: Request, su: Setup, e: Entry, entry: LayerPlan)
    requires req.w == su.w && EntryOk(su, e) && IsFile(e) && |e.data| == e.size
    requires PlannedFor(su, e, entry) && !entry.Encoded() && FileStored(su, req.store, e)
    ensures Stands(req, entry, e.data) && entry.layer.size == |e.data|
  {
    hide IsZstdMediaType, FinalMeta, LayerType, SparseFileMeta, Tasks, Compresses;
    var tasks := Tasks(su, e);
    EveryFileHasTasks(su, e);
    PiecesAreTheFile(su, e);
    PlannedType(su, e, entry, 0);
    assert RawOf(tasks) == [tasks[0].raw];
    assert Flatten([tasks[0].raw]) == tasks[0].raw + Flatten<Byte>([]);
    DescTitle(su, tasks[0]);
    assert PushInvariant.Holds(su.w, req.store, Stored(su, tasks[0]));
  }

  /** The registry holds what a planned file stands for. */
  lemma PlannedStands(req: Request, su: Setup, e: Entry, entry: LayerPlan)
    requires req.w == su.w && su.w.DecodeInvertsEncode() && EntryOk(su, e) && IsFile(e) && |e.data| == e.size
    requires PlannedFor(su, e, entry) && FileStored(su, req.store, e)
    ensures Stands(req, entry, e.data)
  {
    hide IsZstdMediaType, Stored, Tasks, SparseFileMeta, PartOf, EntryOk, FileStored;
    if !entry.Encoded() {
      RawLayerIsFile(req, su, e, entry);
    } else {
      var tasks := Tasks(su, e);
      PiecesAreTheFile(su, e);
      forall c | 0 <= c < |tasks|
        ensures PartOf(req, entry, entry.Chunks()[c]).plain == Some(RawOf(tasks)[c])
      {
        ChunkIsPiece(req, su, e, entry, c);
      }
      assert Plains(req, entry) == RawOf(tasks);
    }
  }

  /** A piece of a chunked file decodes within the pipeline's output buffers. */
  lemma PieceFitsBuffers(su: Setup, e: Entry, entries: seq<LayerPlan>, prefetch: int, budget: int, t: nat, c: nat)
    requires EntryOk(su, e) && IsFile(e) && |e.data| == e.size
    requires t < |entries| && PlannedFor(su, e, entries[t]) && entries[t].Encoded() && entries[t].Zstd()
    requires |entries[t].Chunks()| >= 2 && c < |Tasks(su, e)|
    ensures |Tasks(su, e)[c].raw| <= PipelineFor(entries, prefetch, budget).caps.output
  {
    hide IsZstdMediaType, Stored, Tasks, SparseFileMeta, RawChunkStride;
    EveryFileHasTasks(su, e);
    PiecesAreTheFile(su, e);
    CapsDominate(entries, |entries|);
    var n := |Tasks(su, e)|;
    assert Prefetchable(entries[t]);
    StrideBoundsTheCut(e.size, su.chunkSize, n);
  }

  lemma PlannedFits(req: Request, su: Setup, e: Entry, entries: seq<LayerPlan>, prefetch: int, budget: int, t: nat)
    requires req.w == su.w && su.w.DecodeInvertsEncode() && EntryOk(su, e) && IsFile(e) && |e.data| == e.size
    requires t < |entries| && PlannedFor(su, e, entries[t]) && FileStored(su, req.store, e)
    ensures Fits(req, PipelineFor(entries, prefetch, budget), entries[t], e.data)
  {
    hide IsZstdMediaType, Stored, Tasks, SparseFileMeta, PartOf, EntryOk, FileStored, PipelineFor, Stands, FinalMeta;
    var entry, pipe := entries[t], PipelineFor(entries, prefetch, budget);
    PlannedStands(req, su, e, entry);
    if !entry.Encoded() {
      RawLayerIsFile(req, su, e, entry);
    } else {
      forall c | 0 <= c < |entry.Chunks()|
        ensures ChunkFits(req, pipe, entry, entry.Chunks()[c])
      {
        ChunkIsPiece(req, su, e, entry, c);
        if FileWindow(pipe, entry) >= 2 && entry.Zstd() {
          PieceFitsBuffers(su, e, entries, prefetch, budget, t, c);
        }
      }
    }
  }

  /** The header of a planned file is the restored one, and exists exactly when the sparse record is usable. */
  lemma PlannedHeader(su: Setup, e: Entry, entry: LayerPlan)
    requires EntryOk(su, e) && IsFile(e) && PlannedFor(su, e, entry)
    requires entry.Encoded() || entry.layer.size == e.size
    ensures EntryHeader(entry).Some? <==> SparseOk(e)
    ensures EntryHeader(entry).Some? ==> EntryHeader(entry).value == Restored(e).header
  {
    hide IsZstdMediaType, Stored, Tasks, Parse, Format;
  }

  // ----- The plan of a published manifest -----

  /** Entry by entry, the plan rebuilds the tar's files from blobs the registry holds. */
  ghost predicate PlanStands(req: Request, su: Setup, items: seq<Entry>, entries: seq<LayerPlan>) {
    var files := FilesOf(items, |items|);
    && |entries| == |files|
    && forall t :: 0 <= t < |files| ==>
         && IsFile(files[t]) && EntryOk(su, files[t]) && |files[t].data| == files[t].size
         && PlannedFor(su, files[t], entries[t])
         && FileStored(su, req.store, files[t])
  }

  lemma {:induction false} FilesAreRead(p: PushMachine.Push, store: Store, n: nat, t: nat)
    requires n <= |p.items| && TarRead(p.su, p.items) && PushInvariant.TasksStored(p, store)
    requires t < |FilesOf(p.items, n)|
    ensures
      var e := FilesOf(p.items, n)[t];
      && IsFile(e) && EntryOk(p.su, e) && |e.data| == e.size && FileStored(p.su, store, e)
      && exists i :: 0 <= i < n && p.items[i] == e
  {
    hide Tasks, EntryOk;
    if t < |FilesOf(p.items, n - 1)| {
      FilesAreRead(p, store, n - 1, t);
    } else {
      FileTasks(p.su, p.items, n - 1);
      FileSizeIsRead(p.su, p.items[n - 1]);
    }
  }

  lemma FileSizeIsRead(su: Setup, e: Entry)
    requires EntryOk(su, e) && IsFile(e)
    ensures e.size >= 0
  {
  }

  lemma PublishedPlanStands(p: PushMachine.Push, req: Request, engine: Bytes)
    requires p.Ok() && p.su.w.DigestInjective() && TarRead(p.su, p.items) && DistinctNames(p.items)
    requires PushInvariant.TasksStored(p, req.store)
    ensures
      var plan := PlanOf(FinalManifest(p.su, p.items, engine), FinalConfig(p.su, p.items, engine));
      plan.Some? && PlanStands(req, p.su, p.items, plan.value)
  {
    hide FinalConfig, FinalAssembly, PlannedFor, Tasks, IsFile, EntryOk, FileStored;
    var n := |p.items|;
    LayersAreTasks(p.su, p.items);
    PushPlans(p.su, p.items, engine, n);
    forall t | 0 <= t < |FilesOf(p.items, n)|
      ensures IsFile(FilesOf(p.items, n)[t]) && EntryOk(p.su, FilesOf(p.items, n)[t])
      ensures |FilesOf(p.items, n)[t].data| == FilesOf(p.items, n)[t].size
      ensures FileStored(p.su, req.store, FilesOf(p.items, n)[t])
    {
      FilesAreRead(p, req.store, n, t);
    }
  }

  // ----- The tar of a published manifest -----

  function Datas(items: seq<Entry>): (r: seq<Bytes>)
    ensures |r| == |FilesOf(items, |items|)|
  {
    var files := FilesOf(items, |items|);
    seq(|files|, t requires 0 <= t < |files| => files[t].data)
  }

  lemma {:induction false} TarIsRestored(req: Request, su: Setup, items: seq<Entry>, cfg: SnapshotConfig, entries: seq<LayerPlan>, n: nat)
    requires req.w == su.w && su.w.DecodeInvertsEncode() && PlanStands(req, su, items, entries) && n <= |entries|
    requires forall t :: 0 <= t < n ==> EntryHeader(entries[t]).Some?
    ensures Tar(req, cfg, entries, Datas(items), n) == RestoredTar(req, items, cfg.engine)[..n + 1]
  {
    hide EntryHeader, Restored, IsFile, EntryOk, FileStored, PlannedFor, LayerHeader;
    if n > 0 {
      TarIsRestored(req, su, items, cfg, entries, n - 1);
      EntryIsRestored(req, su, items, entries, n - 1);
      var all := RestoredTar(req, items, cfg.engine);
      assert all[..n + 1] == all[..n] + [all[n]];
    }
  }

  lemma EntryIsRestored(req: Request, su: Setup, items: seq<Entry>, entries: seq<LayerPlan>, t: nat)
    requires req.w == su.w && su.w.DecodeInvertsEncode() && PlanStands(req, su, items, entries) && t < |entries|
    ensures EntryHeader(entries[t]).Some? <==> SparseOk(FilesOf(items, |items|)[t])
    ensures EntryHeader(entries[t]).Some? ==>
      TarEntry(EntryHeader(entries[t]).value, Datas(items)[t]) == Restored(FilesOf(items, |items|)[t])
    ensures Stands(req, entries[t], Datas(items)[t])
  {
    hide SparseOk, EntryHeader, IsFile, EntryOk, FileStored, PlannedFor, Stands, SparseFileMeta, Format;
    var e := FilesOf(items, |items|)[t];
    PlannedStands(req, su, e, entries[t]);
    if !entries[t].Encoded() {
      RawLayerIsFile(req, su, e, entries[t]);
    }
    PlannedHeader(su, e, entries[t]);
  }

  predicate SparseRecordsOk(items: seq<Entry>) {
    forall i :: 0 <= i < |items| && IsFile(items[i]) ==> SparseOk(items[i])
  }

  /** Every entry of the plan has a header exactly when every sparse record of the tar is usable. */
  lemma HeadersExistIff(req: Request, su: Setup, items: seq<Entry>, entries: seq<LayerPlan>)
    requires req.w == su.w && su.w.DecodeInvertsEncode() && PlanStands(req, su, items, entries)
    ensures (forall t :: 0 <= t < |entries| ==> EntryHeader(entries[t]).Some?) <==> SparseRecordsOk(items)
  {
    hide EntryHeader, SparseOk, Restored, Stands, IsFile, EntryOk, PlannedFor, FileStored;
    var files := FilesOf(items, |items|);
    forall t | 0 <= t < |entries|
      ensures EntryHeader(entries[t]).Some? <==> SparseOk(files[t])
    {
      EntryIsRestored(req, su, items, entries, t);
    }
    forall t | 0 <= t < |files|
      ensures exists i :: 0 <= i < |items| && IsFile(items[i]) && items[i] == files[t]
    {
      var i := FileSource(items, |items|, t);
    }
    forall i | 0 <= i < |items| && IsFile(items[i])
      ensures exists t :: 0 <= t < |files| && files[t] == items[i]
    {
      var t := FileTarget(items, |items|, i);
    }
  }

  lemma {:induction false} FileSource(items: seq<Entry>, n: nat, t: nat) returns (i: nat)
    requires n <= |items| && t < |FilesOf(items, n)|
    ensures i < n && IsFile(items[i]) && items[i] == FilesOf(items, n)[t]
  {
    if t < |FilesOf(items, n - 1)| {
      i := FileSource(items, n - 1, t);
    } else {
      i := n - 1;
    }
  }

  lemma {:induction false} FileTarget(items: seq<Entry>, n: nat, i: nat) returns (t: nat)
    requires i < n <= |items| && IsFile(items[i])
    ensures t < |FilesOf(items, n)| && FilesOf(items, n)[t] == items[i]
  {
    if i == n - 1 {
      t := |FilesOf(items, n - 1)|;
    } else {
      t := FileTarget(items, n - 1, i);
    }
  }

  lemma EngineIsKept(su: Setup, items: seq<Entry>, engine: Bytes)
    ensures FinalConfig(su, items, engine).engine == engine
  {
    hide FinalAssembly, EncodedUpTo;
  }

  // ----- The theorem -----

  /** A push that got as far as publishing, at the end of an arbitrary run. */
  ghost predicate Published(p: PushMachine.Push, store: Store, steps: seq<PushMachine.Step>) {
    && p.Ok() && p.su.w.Lawful() && ContentAddressed(p.su.w, store)
    && var end := PushMachine.Exec(p, PushMachine.Init(p, store), steps);
    end.Some? && end.value.manifest.Some?
  }

  function EndOf(p: PushMachine.Push, store: Store, steps: seq<PushMachine.Step>): PushMachine.State
    requires PushMachine.Exec(p, PushMachine.Init(p, store), steps).Some?
  {
    PushMachine.Exec(p, PushMachine.Init(p, store), steps).value
  }

  /** The pull reads the registry the push left, or any later one that lost nothing, with the same codecs. */
  ghost predicate PullsFrom(p: PushMachine.Push, left: Store, req: Request) {
    req.w == p.su.w && Keeps(left, req.store) && req.opts.name != ""
  }

  function EngineOf(p: PushMachine.Push): Bytes {
    EnvelopeUpTo(p.su, p.items, |p.items|).GetOr([])
  }

  function PublishedText(p: PushMachine.Push): Bytes {
    p.su.w.configText(FinalConfig(p.su, p.items, EngineOf(p)))
  }

  /** Nothing failed and nothing was cancelled while the entries of this manifest were written. */
  ghost predicate FaultlessPull(req: Request, m: OCIManifest, cfg: SnapshotConfig, config: Option<Script>, traces: seq<Trace>, framed: bool) {
    && framed
    && Clean(req.store, m.config, config)
    && var plan := PlanOf(m, cfg);
    plan.Some? && |traces| == |plan.value| ==>
      forall t :: 0 <= t < |plan.value| ==> FaultlessTrace(req, plan.value[t], traces[t])
  }

  /** What a published manifest promises, at the reader's side. */
  lemma PublishedIsReadable(p: PushMachine.Push, store: Store, steps: seq<PushMachine.Step>, req: Request)
    requires Published(p, store, steps) && PullsFrom(p, EndOf(p, store, steps).store, req)
    ensures TarRead(p.su, p.items)
    ensures EndOf(p, store, steps).manifest == Some(FinalManifest(p.su, p.items, EngineOf(p)))
    ensures PushInvariant.Holds(req.w, req.store, PublishedText(p))
    ensures PushInvariant.TasksStored(p, req.store)
  {
    hide FinalManifest, FinalConfig, EntryOk;
    PushReader.RunKeepsInv(p, store, steps);
    var s := EndOf(p, store, steps);
    assert PushInvariant.PublishedSafely(p, s.store, s.manifest);
    PushInvariant.GrowthKeepsPublished(p, s.store, req.store, s.manifest);
  }

  /** An honest config body either fails or yields the pushed config; a clean one does, up to 64 MiB. */
  lemma ConfigComesBack(p: PushMachine.Push, req: Request, config: Option<Script>)
    requires req.w == p.su.w && req.w.ConfigTextParses() && PushInvariant.Holds(req.w, req.store, PublishedText(p))
    requires Honest(req.store, ConfigDescriptor(req.w, PublishedText(p)), config)
    ensures
      var got := FetchConfig(req, ConfigDescriptor(req.w, PublishedText(p)), config);
      && (got.Some? ==> |PublishedText(p)| <= MAX_SNAPSHOT_CONFIG_SIZE && got == Some(FinalConfig(p.su, p.items, EngineOf(p))))
      && (Clean(req.store, ConfigDescriptor(req.w, PublishedText(p)), config) ==> (got.Some? <==> |PublishedText(p)| <= MAX_SNAPSHOT_CONFIG_SIZE))
  {
    hide FinalConfig;
    if config.Some? {
      ContentEnds(config.value);
    }
  }

  /**
   * Any push, any pull: whatever the options, the order of workers and fetches, the failures and the
   * cancellations on either side, a pull that completes yields exactly the exported files.
   */
  lemma PullIsNeverWrong(p: PushMachine.Push, store: Store, steps: seq<PushMachine.Step>,
      req: Request, config: Option<Script>, traces: seq<Trace>, framed: bool)
    requires Published(p, store, steps) && PullsFrom(p, EndOf(p, store, steps).store, req) && DistinctNames(p.items)
    ensures
      var pulled := PullParsed(req, EndOf(p, store, steps).manifest.value, config, traces, framed);
      pulled.Done? ==>
        && pulled.tar == RestoredTar(req, p.items, EngineOf(p))
        && NamesNonEmpty(p.items) && |PublishedText(p)| <= MAX_SNAPSHOT_CONFIG_SIZE
        && SparseRecordsOk(p.items)
  {
    hide Validates, FinalConfig, FinalAssembly, TarUpTo, PlanOf, FetchConfig, SparseOk, Honest, PlanStands;
    hide ClassifyParsed, EntryHeader, Stands, EntryOk, TarOk, RestoredTar;
    PublishedIsReadable(p, store, steps, req);
    var m, cfg := FinalManifest(p.su, p.items, EngineOf(p)), FinalConfig(p.su, p.items, EngineOf(p));
    if PullParsed(req, m, config, traces, framed).Done? {
      ConfigComesBack(p, req, config);
      PublishedManifestValidates(p.su, p.items, EngineOf(p));
      PublishedPlanStands(p, req, EngineOf(p));
      ValidatedPlansAreSane(m, cfg);
      EngineIsKept(p.su, p.items, EngineOf(p));
      WrittenTarIsRestored(p, req, cfg, PlanOf(m, cfg).value, traces);
    }
  }

  lemma DatasMatch(req: Request, su: Setup, items: seq<Entry>, entries: seq<LayerPlan>)
    requires PlanStands(req, su, items, entries)
    ensures |Datas(items)| == |entries|
  {
  }

  lemma WholeTarIsRestored(req: Request, su: Setup, items: seq<Entry>, cfg: SnapshotConfig, entries: seq<LayerPlan>)
    requires req.w == su.w && su.w.DecodeInvertsEncode() && PlanStands(req, su, items, entries) && |Datas(items)| == |entries|
    requires forall t :: 0 <= t < |entries| ==> EntryHeader(entries[t]).Some?
    ensures Tar(req, cfg, entries, Datas(items), |entries|) == RestoredTar(req, items, cfg.engine)
  {
    hide EntryHeader, Restored, PlanStands, Tar;
    TarIsRestored(req, su, items, cfg, entries, |entries|);
    var all := RestoredTar(req, items, cfg.engine);
    assert all[..|entries| + 1] == all;
  }

  lemma EntriesStand(req: Request, su: Setup, items: seq<Entry>, entries: seq<LayerPlan>)
    requires req.w == su.w && su.w.DecodeInvertsEncode() && PlanStands(req, su, items, entries)
    ensures |Datas(items)| == |entries|
    ensures forall t :: 0 <= t < |entries| ==> Stands(req, entries[t], Datas(items)[t])
  {
    hide EntryHeader, Stands, PlanStands, Restored, SparseOk;
    DatasMatch(req, su, items, entries);
    forall t | 0 <= t < |entries|
      ensures Stands(req, entries[t], Datas(items)[t])
    {
      EntryIsRestored(req, su, items, entries, t);
    }
  }

  lemma WrittenTarIsRestored(p: PushMachine.Push, req: Request, cfg: SnapshotConfig, entries: seq<LayerPlan>, traces: seq<Trace>)
    requires req.w == p.su.w && req.w.DecodeInvertsEncode() && req.w.DecodeConcatenates()
    requires PlanStands(req, p.su, p.items, entries) && AllSane(entries)
    requires |traces| == |entries| && TarUpTo(req, cfg, entries, traces, |entries|).Going?
    ensures TarUpTo(req, cfg, entries, traces, |entries|).tar == RestoredTar(req, p.items, cfg.engine)
    ensures SparseRecordsOk(p.items)
  {
    hide TarUpTo, SparseRecordsOk, EntryHeader, Stands, PlanStands, RestoredTar, FilesOf, Tar, Datas, Sane, Restored, SparseOk;
    EntriesStand(req, p.su, p.items, entries);
    TarIsExact(req, cfg, entries, traces, Datas(p.items), |entries|);
    HeadersExistIff(req, p.su, p.items, entries);
    WholeTarIsRestored(req, p.su, p.items, cfg, entries);
  }

  /**
   * A pull in which no download or write fails and nothing is cancelled completes exactly when every
   * file has a name, every sparse map has a positive size and the config fits 64 MiB.
   */
  lemma FaultlessPullCompletesIff(p: PushMachine.Push, store: Store, steps: seq<PushMachine.Step>,
      req: Request, config: Option<Script>, traces: seq<Trace>, framed: bool)
    requires Published(p, store, steps) && PullsFrom(p, EndOf(p, store, steps).store, req) && DistinctNames(p.items)
    requires FaultlessPull(req, EndOf(p, store, steps).manifest.value, FinalConfig(p.su, p.items, EngineOf(p)), config, traces, framed)
    requires !PullParsed(req, EndOf(p, store, steps).manifest.value, config, traces, framed).Incomplete?
    ensures PullParsed(req, EndOf(p, store, steps).manifest.value, config, traces, framed).Done? <==>
      && NamesNonEmpty(p.items) && |PublishedText(p)| <= MAX_SNAPSHOT_CONFIG_SIZE
      && SparseRecordsOk(p.items)
  {
    hide Validates, FinalConfig, FinalAssembly, TarUpTo, PlanOf, FetchConfig, SparseOk, Honest, Clean, PlanStands;
    hide ClassifyParsed, EntryHeader, FaultlessTrace, EntryOk, TarOk;
    PublishedIsReadable(p, store, steps, req);
    var m, cfg := FinalManifest(p.su, p.items, EngineOf(p)), FinalConfig(p.su, p.items, EngineOf(p));
    PublishedManifestIsSnapshot(p.su, p.items, EngineOf(p));
    assert Honest(req.store, m.config, config);
    ConfigComesBack(p, req, config);
    PublishedManifestValidates(p.su, p.items, EngineOf(p));
    PublishedPlanStands(p, req, EngineOf(p));
    var plan := PlanOf(m, cfg).value;
    if Validates(m, cfg) && |traces| == |plan| {
      ValidatedPlansAreSane(m, cfg);
      FaultlessTarCompletesIff(p, req, cfg, plan, traces);
    }
  }

  lemma FaultlessTarCompletesIff(p: PushMachine.Push, req: Request, cfg: SnapshotConfig, entries: seq<LayerPlan>, traces: seq<Trace>)
    requires req.w == p.su.w && req.w.Lawful() && PlanStands(req, p.su, p.items, entries) && AllSane(entries)
    requires |traces| == |entries| && forall t :: 0 <= t < |entries| ==> FaultlessTrace(req, entries[t], traces[t])
    ensures
      var run := TarUpTo(req, cfg, entries, traces, |entries|);
      !run.NotARun? ==>
        (run.Going? <==> SparseRecordsOk(p.items))
  {
    hide TarUpTo, SparseRecordsOk, EntryHeader, EntryOk, PlannedFor, FileStored, Fits, FaultlessTrace, PipelineFor;
    DatasMatch(req, p.su, p.items, entries);
    HeadersExistIff(req, p.su, p.items, entries);
    forall t | 0 <= t < |entries|
      ensures Fits(req, PipelineFor(entries, req.opts.Prefetch(), req.opts.Budget()), entries[t], Datas(p.items)[t])
    {
      PlannedFits(req, p.su, FilesOf(p.items, |p.items|)[t], entries, req.opts.Prefetch(), req.opts.Budget(), t);
    }
    TarSucceeds(req, cfg, entries, traces, Datas(p.items), |entries|);
  }
}
