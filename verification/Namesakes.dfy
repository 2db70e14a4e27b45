/**
 * Tars in which several files share a name. The config keeps one record per name, so the last file's
 * mode and sparse record reach all of them. For snapshots with nothing encoded, which is what push
 * writes by default, this says exactly when a tar still comes back.
 */
module Namesakes {
  import opened Sequences
  import opened Manifest
  import opened World
  import opened PushSpec
  import opened Plan
  import opened PullBudget
  import opened SizedReader
  import opened Artifact
  import opened PushPlan
  import opened Pull
  import opened PullProofs
  import opened RoundTrip
  import opened EndToEnd
  import PushMachine
  import PushInvariant

  /** No file is compressed or chunked. */
  predicate NothingEncoded(su: Setup, items: seq<Entry>) {
    !EncodedUpTo(su, items, |items|)
  }

  /** Two files are restored with one mode and one sparse record. */
  predicate Agree(a: Entry, b: Entry) {
    Restored(a).header.mode == Restored(b).header.mode && Restored(a).header.pax == Restored(b).header.pax
  }

  predicate NamesakesAgree(items: seq<Entry>) {
    forall i, j :: 0 <= i < j < |items| && IsFile(items[i]) && IsFile(items[j]) && items[i].name == items[j].name ==>
      Agree(items[i], items[j])
  }

  lemma DistinctNamesAgree(items: seq<Entry>)
    requires DistinctNames(items)
    ensures NamesakesAgree(items)
  {
  }

  // ----- The artifact -----

  /** One layer per file. */
  lemma {:induction false} OneTaskPerFile(su: Setup, items: seq<Entry>, n: nat)
    requires n <= |items| && NothingEncoded(su, items)
    ensures |TasksUpTo(su, items, n)| == |FilesOf(items, n)|
    ensures forall t :: 0 <= t < |FilesOf(items, n)| ==> TasksUpTo(su, items, n)[t] == SpoolTask(su, FilesOf(items, n)[t])
  {
    hide SpoolTask, IsFile;
    if n > 0 {
      OneTaskPerFile(su, items, n - 1);
      if IsFile(items[n - 1]) {
        NotChunked(su, items, n - 1);
      }
    }
  }

  lemma NotChunked(su: Setup, items: seq<Entry>, i: nat)
    requires NothingEncoded(su, items) && i < |items| && IsFile(items[i])
    ensures Tasks(su, items[i]) == [SpoolTask(su, items[i])]
    ensures !Compresses(su, items[i]) && !Chunked(su, items[i])
  {
  }

  lemma {:induction false} GroupsLeaveFilesAlone(groups: seq<ChunkGroup>, files: map<string, SnapshotFile>, n: nat)
    requires n <= |groups| && forall g :: 0 <= g < |groups| ==> |groups[g].descs| < 2
    ensures Assemble(groups, files, n).files == files
  {
    if n > 0 {
      GroupsLeaveFilesAlone(groups, files, n - 1);
    }
  }

  lemma ConfigFilesAreRecorded(su: Setup, items: seq<Entry>, engine: Bytes)
    requires NothingEncoded(su, items)
    ensures FinalConfig(su, items, engine).files == FilesUpTo(items, |items|)
  {
    hide IsFile, NothingEncoded, EncodedUpTo, Tasks, SnapshotVersionMarkers;
    var groups := FinalGroups(su, items);
    forall g | 0 <= g < |groups|
      ensures |groups[g].descs| < 2
    {
      var i := GroupSizes(su, items, |items|, g);
      NotChunked(su, items, i);
    }
    GroupsLeaveFilesAlone(groups, FilesUpTo(items, |items|), |groups|);
  }

  /** The last file of a name. */
  lemma {:induction false} LastNamesake(items: seq<Entry>, i: nat) returns (j: nat)
    requires i < |items| && IsFile(items[i])
    ensures i <= j < |items| && IsFile(items[j]) && items[j].name == items[i].name
    ensures forall k :: j < k < |items| && IsFile(items[k]) ==> items[k].name != items[i].name
    decreases |items| - i
  {
    hide IsFile;
    if k :| i < k < |items| && IsFile(items[k]) && items[k].name == items[i].name {
      j := LastNamesake(items, k);
    } else {
      j := i;
    }
  }

  // ----- The plan and the tar -----

  /** The plan entry of a file whose name was last recorded for another: its own layer, the other's record. */
  ghost predicate PlannedLike(req: Request, e: Entry, last: Entry, entry: LayerPlan) {
    && entry.title == e.name && entry.layer.Title() == e.name
    && entry.meta == FileMeta(last)
    && entry.layer.size == |e.data| == e.size
    && !entry.Encoded()
    && entry.layer.digest in req.store && req.store[entry.layer.digest] == e.data
  }

  lemma PlannedLikeStands(req: Request, pipe: Pipeline, e: Entry, last: Entry, entry: LayerPlan)
    requires PlannedLike(req, e, last, entry) && SparseFileMeta(last).Some?
    ensures Fits(req, pipe, entry, e.data)
    ensures EntryHeader(entry).Some? <==> SparseOk(last)
    ensures EntryHeader(entry).Some? ==>
      EntryHeader(entry).value == Header(e.name, e.size, Restored(last).header.mode, Restored(last).header.pax)
  {
    hide IsZstdMediaType, FileWindow;
  }

  /** Layer `t` of a snapshot with nothing encoded is file `t` of the tar as it is. */
  lemma FileIsItsLayer(p: PushMachine.Push, req: Request, t: nat)
    requires NothingEncoded(p.su, p.items) && TarRead(p.su, p.items) && t < |FilesOf(p.items, |p.items|)|
    requires req.w == p.su.w && PushInvariant.TasksStored(p, req.store)
    ensures
      var layers, e := FinalAssembly(p.su, p.items).layers, FilesOf(p.items, |p.items|)[t];
      && t < |layers|
      && layers[t].Title() == e.name && layers[t].size == |e.data| == e.size
      && layers[t].digest in req.store && req.store[layers[t].digest] == e.data
  {
    hide IsZstdMediaType, NothingEncoded, IsFile, FinalAssembly, LayerType, EntryOk, Tasks;
    var e := FilesOf(p.items, |p.items|)[t];
    OneTaskPerFile(p.su, p.items, |p.items|);
    LayersAreTasks(p.su, p.items);
    FilesAreRead(p, req.store, |p.items|, t);
    var i := FileSource(p.items, |p.items|, t);
    NotChunked(p.su, p.items, i);
    var task := SpoolTask(p.su, e);
    DescTitle(p.su, task);
    SpooledAsItIs(p.su, e);
    assert PushInvariant.Holds(p.su.w, req.store, Stored(p.su, TasksUpTo(p.su, p.items, |p.items|)[t]));
  }

  lemma SpooledAsItIs(su: Setup, e: Entry)
    requires !Compresses(su, e)
    ensures Stored(su, SpoolTask(su, e)) == e.data
  {
    hide LayerType, IsZstdMediaType;
    LayerTypeTells(su, e);
  }

  /** The plan: one raw entry per file, in order, each with the record of the last file of its name. */
  ghost predicate PlannedByLast(req: Request, items: seq<Entry>, entries: seq<LayerPlan>) {
    var files := FilesOf(items, |items|);
    && |entries| == |files|
    && forall t :: 0 <= t < |files| ==>
         exists j :: 0 <= j < |items| && IsLastOf(items, j, files[t].name) && SparseFileMeta(items[j]).Some? && PlannedLike(req, files[t], items[j], entries[t])
  }

  ghost predicate IsLastOf(items: seq<Entry>, j: nat, name: string)
    requires j < |items|
  {
    && IsFile(items[j]) && items[j].name == name
    && forall k :: j < k < |items| && IsFile(items[k]) ==> items[k].name != name
  }

  lemma FileIsPlanned(p: PushMachine.Push, req: Request, engine: Bytes, t: nat) returns (j: nat)
    requires NothingEncoded(p.su, p.items) && TarRead(p.su, p.items) && t < |FilesOf(p.items, |p.items|)|
    requires req.w == p.su.w && PushInvariant.TasksStored(p, req.store)
    ensures t < |FinalAssembly(p.su, p.items).layers|
    ensures
      var cfg, layer, e := FinalConfig(p.su, p.items, engine), FinalAssembly(p.su, p.items).layers[t], FilesOf(p.items, |p.items|)[t];
      && j < |p.items| && IsLastOf(p.items, j, e.name) && SparseFileMeta(p.items[j]).Some?
      && PlannedLike(req, e, p.items[j], LayerPlan(layer.Title(), cfg.File(layer.Title()), layer, None))
  {
    hide IsZstdMediaType, NothingEncoded, FinalAssembly, FinalConfig, SparseFileMeta, FileMeta;
    FileIsItsLayer(p, req, t);
    ConfigFilesAreRecorded(p.su, p.items, engine);
    var i := FileSource(p.items, |p.items|, t);
    j := LastNamesake(p.items, i);
    LastOfNameIsRecorded(p.items, |p.items|, j);
    assert EntryOk(p.su, p.items[j]);
  }

  lemma UnencodedPlan(p: PushMachine.Push, req: Request, engine: Bytes)
    requires NothingEncoded(p.su, p.items) && TarRead(p.su, p.items) && NamesNonEmpty(p.items)
    requires req.w == p.su.w && PushInvariant.TasksStored(p, req.store)
    ensures
      var plan := PlanOf(FinalManifest(p.su, p.items, engine), FinalConfig(p.su, p.items, engine));
      plan.Some? && PlannedByLast(req, p.items, plan.value)
  {
    hide Validates, FinalAssembly, FinalConfig, IsV2, PlannedLike, IsLastOf, TarRead, NamesNonEmpty, EncodedUpTo;
    var m, cfg := FinalManifest(p.su, p.items, engine), FinalConfig(p.su, p.items, engine);
    PublishedManifestValidates(p.su, p.items, engine);
    MarkerIsV2(p.su, p.items, engine);
    V1PlansToItsLayers(m, cfg, |m.layers|);
    OneTaskPerFile(p.su, p.items, |p.items|);
    LayersAreTasks(p.su, p.items);
    var files := FilesOf(p.items, |p.items|);
    forall t | 0 <= t < |files|
      ensures exists j :: 0 <= j < |p.items| && IsLastOf(p.items, j, files[t].name) && SparseFileMeta(p.items[j]).Some?
                && PlannedLike(req, files[t], p.items[j], PlanOf(m, cfg).value[t])
    {
      var j := FileIsPlanned(p, req, engine, t);
    }
  }

  // ----- Comparing the tars -----

  function WrittenEntry(entries: seq<LayerPlan>, datas: seq<Bytes>, t: nat): TarEntry
    requires t < |entries| && t < |datas|
  {
    TarEntry(EntryHeader(entries[t]).GetOr(Header("", 0, 0, map[])), datas[t])
  }

  lemma {:induction false} TarByEntries(req: Request, cfg: SnapshotConfig, entries: seq<LayerPlan>, datas: seq<Bytes>, n: nat)
    requires n <= |entries| == |datas|
    ensures Tar(req, cfg, entries, datas, n)
         == [Envelope(req, cfg)] + seq(n, t requires 0 <= t < n => WrittenEntry(entries, datas, t))
  {
    hide EntryHeader, Envelope;
    if n > 0 {
      TarByEntries(req, cfg, entries, datas, n - 1);
    }
  }

  /** Every file agrees with the last of its name exactly when all files of a name agree. */
  lemma AgreeWithLast(items: seq<Entry>)
    ensures NamesakesAgree(items) <==>
      forall i, j :: 0 <= i < |items| && 0 <= j < |items| && IsFile(items[i]) && IsLastOf(items, j, items[i].name) ==> Agree(items[i], items[j])
  {
    hide Restored, IsFile;
    if forall i, j :: 0 <= i < |items| && 0 <= j < |items| && IsFile(items[i]) && IsLastOf(items, j, items[i].name) ==> Agree(items[i], items[j]) {
      forall i, j | 0 <= i < j < |items| && IsFile(items[i]) && IsFile(items[j]) && items[i].name == items[j].name
        ensures Agree(items[i], items[j])
      {
        var k := LastNamesake(items, j);
        assert IsLastOf(items, k, items[i].name) && IsLastOf(items, k, items[j].name);
      }
    }
  }

  lemma TarsAgreeIff(req: Request, items: seq<Entry>, cfg: SnapshotConfig, entries: seq<LayerPlan>)
    requires PlannedByLast(req, items, entries) && |Datas(items)| == |entries|
    requires forall t :: 0 <= t < |entries| ==> EntryHeader(entries[t]).Some?
    ensures Tar(req, cfg, entries, Datas(items), |entries|) == RestoredTar(req, items, cfg.engine) <==> NamesakesAgree(items)
  {
    hide EntryHeader, Restored, NamesakesAgree, Tar, IsFile, PlannedByLast, IsLastOf, AgreesWithItsLast;
    var files, datas, n := FilesOf(items, |items|), Datas(items), |entries|;
    TarByEntries(req, cfg, entries, datas, n);
    var written := seq(n, t requires 0 <= t < n => WrittenEntry(entries, datas, t));
    var exported := seq(n, t requires 0 <= t < n => Restored(files[t]));
    assert RestoredTar(req, items, cfg.engine) == [Envelope(req, cfg)] + exported;
    SameTail([Envelope(req, cfg)], written, exported);
    forall t | 0 <= t < n
      ensures written[t] == exported[t] <==> AgreesWithItsLast(items, files[t])
    {
      EntryComesBackIff(req, items, entries, t);
    }
    FilesAgreeIff(items);
    AgreeWithLast(items);
  }

  lemma SameTail(head: seq<TarEntry>, a: seq<TarEntry>, b: seq<TarEntry>)
    requires |a| == |b|
    ensures head + a == head + b <==> forall t :: 0 <= t < |a| ==> a[t] == b[t]
  {
    assert (head + a)[|head|..] == a && (head + b)[|head|..] == b;
  }

  ghost predicate AgreesWithItsLast(items: seq<Entry>, e: Entry) {
    forall j :: 0 <= j < |items| && IsLastOf(items, j, e.name) ==> Agree(e, items[j])
  }

  lemma FilesAgreeIff(items: seq<Entry>)
    ensures (forall t :: 0 <= t < |FilesOf(items, |items|)| ==> AgreesWithItsLast(items, FilesOf(items, |items|)[t]))
       <==> (forall i, j :: 0 <= i < |items| && 0 <= j < |items| && IsFile(items[i]) && IsLastOf(items, j, items[i].name) ==> Agree(items[i], items[j]))
  {
    hide IsFile, IsLastOf, Agree;
    var files := FilesOf(items, |items|);
    forall t | 0 <= t < |files|
      ensures exists i :: 0 <= i < |items| && IsFile(items[i]) && items[i] == files[t]
    {
      var i := FileSource(items, |items|, t);
    }
    forall i | 0 <= i < |items| && IsFile(items[i])
      ensures exists t :: 0 <= t < |files| && files[t] == items[i]
    {
      var t := FileTarget(items, |items|, i);
    }
  }

  lemma EntryComesBackIff(req: Request, items: seq<Entry>, entries: seq<LayerPlan>, t: nat)
    requires PlannedByLast(req, items, entries) && t < |entries| && EntryHeader(entries[t]).Some?
    ensures TarEntry(EntryHeader(entries[t]).value, FilesOf(items, |items|)[t].data) == Restored(FilesOf(items, |items|)[t])
       <==> AgreesWithItsLast(items, FilesOf(items, |items|)[t])
  {
    hide EntryHeader, IsFile, PlannedLike, SparseFileMeta;
    var e := FilesOf(items, |items|)[t];
    var j :| 0 <= j < |items| && IsLastOf(items, j, e.name) && SparseFileMeta(items[j]).Some? && PlannedLike(req, e, items[j], entries[t]);
    PlannedLikeStands(req, Pipeline(0, Caps(0, 0, false)), e, items[j], entries[t]);
    forall k | 0 <= k < |items| && IsLastOf(items, k, e.name)
      ensures k == j
    {
    }
  }

  // ----- The theorem -----

  /**
   * Any push with nothing encoded, any pull, names shared or not: a pull that completes yields exactly
   * the exported files if and only if the files of each name agree on mode and sparse record.
   */
  lemma UnencodedPullIsExactIff(p: PushMachine.Push, store: Store, steps: seq<PushMachine.Step>,
      req: Request, config: Option<Script>, traces: seq<Trace>, framed: bool)
    requires Published(p, store, steps) && PullsFrom(p, EndOf(p, store, steps).store, req) && NothingEncoded(p.su, p.items)
    ensures
      var pulled := PullParsed(req, EndOf(p, store, steps).manifest.value, config, traces, framed);
      pulled.Done? ==> (pulled.tar == RestoredTar(req, p.items, EngineOf(p)) <==> NamesakesAgree(p.items))
  {
    hide Validates, FinalConfig, FinalAssembly, TarUpTo, PlanOf, FetchConfig, Honest, PlannedByLast, ClassifyParsed;
    hide NamesakesAgree, EntryOk, TarOk, RestoredTar, NothingEncoded;
    PublishedIsReadable(p, store, steps, req);
    var m, cfg := FinalManifest(p.su, p.items, EngineOf(p)), FinalConfig(p.su, p.items, EngineOf(p));
    if PullParsed(req, m, config, traces, framed).Done? {
      ConfigComesBack(p, req, config);
      PublishedManifestValidates(p.su, p.items, EngineOf(p));
      UnencodedPlan(p, req, EngineOf(p));
      ValidatedPlansAreSane(m, cfg);
      EngineIsKept(p.su, p.items, EngineOf(p));
      WrittenTarComesBackIff(p, req, cfg, PlanOf(m, cfg).value, traces);
    }
  }

  lemma EntriesFit(req: Request, items: seq<Entry>, entries: seq<LayerPlan>)
    requires PlannedByLast(req, items, entries)
    ensures AllFit(req, entries, Datas(items))
    ensures (forall j :: 0 <= j < |items| && IsFile(items[j]) ==> SparseOk(items[j])) ==>
      forall t :: 0 <= t < |entries| ==> EntryHeader(entries[t]).Some?
  {
    hide EntryHeader, PlannedLike, Fits, PipelineFor, SparseOk, SparseFileMeta, IsFile;
    var files, pipe := FilesOf(items, |items|), PipelineFor(entries, req.opts.Prefetch(), req.opts.Budget());
    forall t | 0 <= t < |entries|
      ensures Fits(req, pipe, entries[t], Datas(items)[t])
      ensures exists j :: 0 <= j < |items| && IsFile(items[j]) && (EntryHeader(entries[t]).Some? <==> SparseOk(items[j]))
    {
      var j :| 0 <= j < |items| && IsLastOf(items, j, files[t].name) && SparseFileMeta(items[j]).Some? && PlannedLike(req, files[t], items[j], entries[t]);
      PlannedLikeStands(req, pipe, files[t], items[j], entries[t]);
    }
  }

  lemma WrittenTarComesBackIff(p: PushMachine.Push, req: Request, cfg: SnapshotConfig, entries: seq<LayerPlan>, traces: seq<Trace>)
    requires req.w.DecodeConcatenates() && PlannedByLast(req, p.items, entries) && AllSane(entries)
    requires |traces| == |entries| && TarUpTo(req, cfg, entries, traces, |entries|).Going?
    ensures TarUpTo(req, cfg, entries, traces, |entries|).tar == RestoredTar(req, p.items, cfg.engine) <==> NamesakesAgree(p.items)
  {
    hide TarUpTo, EntryHeader, Stands, PlannedByLast, RestoredTar, FilesOf, Tar, Datas, Sane, NamesakesAgree, PipelineFor;
    EntriesFit(req, p.items, entries);
    TarIsExact(req, cfg, entries, traces, Datas(p.items), |entries|);
    TarsAgreeIff(req, p.items, cfg, entries);
  }

  /** And such a pull does complete: without agreement some pull succeeds and yields another tar. */
  lemma DisagreeingNamesakesCollide(p: PushMachine.Push, store: Store, steps: seq<PushMachine.Step>, req: Request)
    returns (config: Option<Script>, traces: seq<Trace>)
    requires Published(p, store, steps) && PullsFrom(p, EndOf(p, store, steps).store, req) && NothingEncoded(p.su, p.items)
    requires NamesNonEmpty(p.items) && SparseRecordsOk(p.items) && |PublishedText(p)| <= MAX_SNAPSHOT_CONFIG_SIZE
    requires !NamesakesAgree(p.items)
    ensures
      var pulled := PullParsed(req, EndOf(p, store, steps).manifest.value, config, traces, true);
      pulled.Done? && pulled.tar != RestoredTar(req, p.items, EngineOf(p))
  {
    hide Validates, FinalConfig, FinalAssembly, TarUpTo, PlanOf, FetchConfig, Honest, PlannedByLast, ClassifyParsed, FaultlessTrace;
    hide NamesakesAgree, EntryOk, TarOk, RestoredTar, NothingEncoded, SparseOk, EntryHeader, AllFit;
    PublishedIsReadable(p, store, steps, req);
    var m, cfg := FinalManifest(p.su, p.items, EngineOf(p)), FinalConfig(p.su, p.items, EngineOf(p));
    PublishedManifestIsSnapshot(p.su, p.items, EngineOf(p));
    PublishedManifestValidates(p.su, p.items, EngineOf(p));
    UnencodedPlan(p, req, EngineOf(p));
    ValidatedPlansAreSane(m, cfg);
    config := Some(Whole(PublishedText(p)));
    WholeIsHonest(req.store, m.config);
    ConfigComesBack(p, req, config);
    var plan := PlanOf(m, cfg).value;
    EntriesFit(req, p.items, plan);
    traces := TracesExist(req, cfg, plan, Datas(p.items), |plan|);
    FitTarCompletes(req, cfg, plan, traces, Datas(p.items));
    UnencodedPullIsExactIff(p, store, steps, req, config, traces, true);
  }

  lemma FitTarCompletes(req: Request, cfg: SnapshotConfig, entries: seq<LayerPlan>, traces: seq<Trace>, datas: seq<Bytes>)
    requires req.w.DecodeConcatenates() && AllSane(entries) && AllFit(req, entries, datas) && |traces| == |entries|
    requires forall t :: 0 <= t < |entries| ==> FaultlessTrace(req, entries[t], traces[t])
    requires forall t :: 0 <= t < |entries| ==> EntryHeader(entries[t]).Some?
    requires !TarUpTo(req, cfg, entries, traces, |entries|).NotARun?
    ensures TarUpTo(req, cfg, entries, traces, |entries|).Going?
  {
    hide TarUpTo, EntryHeader, FaultlessTrace, Fits, PipelineFor;
    TarSucceeds(req, cfg, entries, traces, datas, |entries|);
  }
}
