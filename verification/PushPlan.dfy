/** Planning what a push published: one entry per file, in tar order, with the file's own pieces as chunks. */
module PushPlan {
  import opened Sequences
  import opened Manifest
  import opened World
  import opened PushSpec
  import opened Plan
  import opened Artifact

  function FilesOf(items: seq<Entry>, n: nat): seq<Entry>
    requires n <= |items|
  {
    if n == 0 then [] else FilesOf(items, n - 1) + if IsFile(items[n - 1]) then [items[n - 1]] else []
  }

  /** Whether a file is stored in a form the reader has to undo. */
  predicate StoredEncoded(su: Setup, e: Entry) {
    |Tasks(su, e)| >= 2 || Compresses(su, e)
  }

  /** The plan entry that rebuilds a file of the tar from the blobs its own tasks uploaded. */
  ghost predicate PlannedFor(su: Setup, e: Entry, entry: LayerPlan) {
    var tasks := Tasks(su, e);
    && tasks != []
    && entry.title == e.name
    && entry.meta == FinalMeta(su, e)
    && entry.layer == Desc(su, tasks[0])
    && (entry.Encoded() <==> StoredEncoded(su, e))
    && (entry.Encoded() ==>
         && |entry.Chunks()| == |tasks|
         && forall c :: 0 <= c < |tasks| ==>
              entry.Chunks()[c].digest == Desc(su, tasks[c]).digest && entry.Chunks()[c].size == |Stored(su, tasks[c])|)
  }

  /** Layers with equal digests have equal sizes, whatever file they were written for. */
  lemma EqualDigestEqualSize(su: Setup, items: seq<Entry>, d: Descriptor, t: Task)
    requires su.w.DigestInjective()
    requires d in FinalAssembly(su, items).layers && d.digest == Desc(su, t).digest
    ensures d.size == |Stored(su, t)|
  {
    hide Stored, FinalAssembly;
    LayersAreTasks(su, items);
    var all := TasksUpTo(su, items, |items|);
    var j :| 0 <= j < |all| && d == Desc(su, all[j]);
    DescTitle(su, all[j]);
    assert su.w.digest(Stored(su, all[j])) == su.w.digest(Stored(su, t));
  }

  /** What the config says about a file's name. */
  lemma ConfigSays(su: Setup, items: seq<Entry>, engine: Bytes, i: nat)
    requires DistinctNames(items) && i < |items| && IsFile(items[i])
    ensures FinalConfig(su, items, engine).File(items[i].name) == FinalMeta(su, items[i])
  {
    hide FinalAssembly, FinalMeta, EncodedUpTo, IsFile, SnapshotVersionMarkers;
    ConfigRecordsFile(su, items, i);
  }

  /** Layer `j` of file `i`: the descriptor of its task. */
  lemma LayerOfTask(su: Setup, items: seq<Entry>, i: nat, j: nat)
    requires i < |items| && IsFile(items[i]) && j < |Tasks(su, items[i])|
    ensures
      var layers, l := FinalAssembly(su, items).layers, |TasksUpTo(su, items, i)| + j;
      && l < |layers|
      && layers[l] == Desc(su, Tasks(su, items[i])[j])
  {
    hide Tasks, FinalAssembly, IsFile, Desc;
    LayersAreTasks(su, items);
    FileTasks(su, items, i);
  }

  /** The type and title of a task's layer are its file's. */
  lemma TaskLayerTells(su: Setup, e: Entry, j: nat)
    requires j < |Tasks(su, e)|
    ensures Desc(su, Tasks(su, e)[j]).Title() == e.name
    ensures IsZstdMediaType(Desc(su, Tasks(su, e)[j]).mediaType) <==> Compresses(su, e)
  {
    hide IsZstdMediaType, Tasks, LayerType, Stored, Compresses;
    TasksShareType(su, e, j);
    LayerTypeTells(su, e);
    DescTitle(su, Tasks(su, e)[j]);
  }

  /** Layer `j` of file `i`, and what the config says about its title. */
  lemma FileLayer(su: Setup, items: seq<Entry>, engine: Bytes, i: nat, j: nat)
    requires TarRead(su, items) && DistinctNames(items)
    requires i < |items| && IsFile(items[i]) && j < |Tasks(su, items[i])|
    ensures
      var layers, cfg, e := FinalAssembly(su, items).layers, FinalConfig(su, items, engine), items[i];
      var l := |TasksUpTo(su, items, i)| + j;
      && l < |layers|
      && layers[l] == Desc(su, Tasks(su, e)[j])
      && layers[l].Title() == e.name
      && cfg.File(e.name) == FinalMeta(su, e)
      && (EncodedLayer(cfg, layers[l]) <==> StoredEncoded(su, e))
      && (IsZstdMediaType(layers[l].mediaType) <==> Compresses(su, e))
  {
    hide IsZstdMediaType, Tasks, FinalAssembly, FinalConfig, Desc, Compresses, IsFile, TarRead, DistinctNames, FileMeta;
    LayerOfTask(su, items, i, j);
    ConfigSays(su, items, engine, i);
    TaskLayerTells(su, items[i], j);
  }

  /** The reader finds every piece of a file it has to rebuild. */
  lemma FileResolves(su: Setup, items: seq<Entry>, engine: Bytes, i: nat)
    requires TarRead(su, items) && DistinctNames(items) && su.w.DigestInjective()
    requires i < |items| && IsFile(items[i]) && StoredEncoded(su, items[i])
    ensures
      var layers, e := FinalAssembly(su, items).layers, items[i];
      && Tasks(su, e) != []
      && var descs := Resolve(Desc(su, Tasks(su, e)[0]), FinalMeta(su, e), ByDigest(layers, |layers|));
      && descs.Some?
      && PlannedFor(su, e, LayerPlan(e.name, FinalMeta(su, e), Desc(su, Tasks(su, e)[0]), descs))
  {
    hide IsZstdMediaType, Tasks, FinalAssembly, LayerType, Stored, SparseFileMeta, ByDigest;
    var layers, e := FinalAssembly(su, items).layers, items[i];
    var tasks, meta := Tasks(su, e), FinalMeta(su, e);
    var byDigest := ByDigest(layers, |layers|);
    EveryFileHasTasks(su, e);
    assert meta.size > 0;
    if |tasks| < 2 {
      DescTitle(su, tasks[0]);
    } else {
      forall c | 0 <= c < |tasks|
        ensures meta.chunks[c] == Desc(su, tasks[c]).digest
        ensures meta.chunks[c] in byDigest && byDigest[meta.chunks[c]].digest == meta.chunks[c]
        ensures byDigest[meta.chunks[c]].size == |Stored(su, tasks[c])|
      {
        FileLayer(su, items, engine, i, c);
        ByDigestIndexesLayers(layers, |layers|, meta.chunks[c]);
        EqualDigestEqualSize(su, items, byDigest[meta.chunks[c]], tasks[c]);
      }
    }
  }

  /** The further layers of a chunked file add nothing to the plan. */
  lemma {:induction false} LaterChunksAreSkipped(su: Setup, items: seq<Entry>, engine: Bytes, i: nat, j: nat, st: PlanState)
    requires TarRead(su, items) && DistinctNames(items)
    requires i < |items| && IsFile(items[i]) && StoredEncoded(su, items[i]) && 1 <= j <= |Tasks(su, items[i])|
    requires |TasksUpTo(su, items, i)| + j <= |FinalAssembly(su, items).layers|
    requires PlanUpTo(FinalConfig(su, items, engine), FinalAssembly(su, items).layers, |TasksUpTo(su, items, i)| + 1) == Some(st)
    requires items[i].name in st.emitted
    ensures PlanUpTo(FinalConfig(su, items, engine), FinalAssembly(su, items).layers, |TasksUpTo(su, items, i)| + j) == Some(st)
  {
    hide EncodedLayer, Tasks, FinalAssembly, FinalConfig, TasksUpTo, StoredEncoded;
    if j > 1 {
      LaterChunksAreSkipped(su, items, engine, i, j - 1, st);
      FileLayer(su, items, engine, i, j - 1);
    }
  }

  /** The first layer of a file that is stored as it is plans to that layer. */
  lemma RawFilePlans(su: Setup, items: seq<Entry>, engine: Bytes, i: nat, st: PlanState) returns (entry: LayerPlan)
    requires TarRead(su, items) && DistinctNames(items)
    requires i < |items| && IsFile(items[i]) && !StoredEncoded(su, items[i])
    ensures |Tasks(su, items[i])| == 1 && |TasksUpTo(su, items, i)| < |FinalAssembly(su, items).layers|
    ensures PlannedFor(su, items[i], entry)
    ensures
      var layers := FinalAssembly(su, items).layers;
      PlanStep(FinalConfig(su, items, engine), layers, st, layers[|TasksUpTo(su, items, i)|]) == Some(PlanState(st.entries + [entry], st.emitted))
  {
    hide EncodedLayer, Tasks, FinalAssembly, FinalConfig, Resolve, FinalMeta, Compresses, TasksUpTo, SparseFileMeta;
    EveryFileHasTasks(su, items[i]);
    FileLayer(su, items, engine, i, 0);
    entry := LayerPlan(items[i].name, FinalMeta(su, items[i]), FinalAssembly(su, items).layers[|TasksUpTo(su, items, i)|], None);
  }

  /** The first layer of an encoded file plans to the file's pieces. */
  lemma EncodedFilePlans(su: Setup, items: seq<Entry>, engine: Bytes, i: nat, st: PlanState) returns (entry: LayerPlan)
    requires TarRead(su, items) && DistinctNames(items) && su.w.DigestInjective()
    requires i < |items| && IsFile(items[i]) && StoredEncoded(su, items[i]) && items[i].name !in st.emitted
    ensures |TasksUpTo(su, items, i)| < |FinalAssembly(su, items).layers|
    ensures PlannedFor(su, items[i], entry)
    ensures
      var layers := FinalAssembly(su, items).layers;
      PlanStep(FinalConfig(su, items, engine), layers, st, layers[|TasksUpTo(su, items, i)|]) == Some(PlanState(st.entries + [entry], st.emitted + {items[i].name}))
  {
    hide EncodedLayer, Tasks, FinalAssembly, FinalConfig, Resolve, FinalMeta, Compresses, TasksUpTo, StoredEncoded;
    hide PlannedFor, SparseFileMeta, ByDigest;
    var e, layers := items[i], FinalAssembly(su, items).layers;
    var base := |TasksUpTo(su, items, i)|;
    EveryFileHasTasks(su, e);
    FileLayer(su, items, engine, i, 0);
    FileResolves(su, items, engine, i);
    entry := LayerPlan(e.name, FinalMeta(su, e), layers[base], Resolve(layers[base], FinalMeta(su, e), ByDigest(layers, |layers|)));
  }

  /** Planning the layers of one file appends the entry that rebuilds it. */
  lemma FilePlans(su: Setup, items: seq<Entry>, engine: Bytes, i: nat, st: PlanState) returns (entry: LayerPlan)
    requires TarRead(su, items) && DistinctNames(items) && su.w.DigestInjective()
    requires i < |items| && IsFile(items[i])
    requires |TasksUpTo(su, items, i + 1)| <= |FinalAssembly(su, items).layers|
    requires |TasksUpTo(su, items, i)| <= |FinalAssembly(su, items).layers|
    requires PlanUpTo(FinalConfig(su, items, engine), FinalAssembly(su, items).layers, |TasksUpTo(su, items, i)|) == Some(st)
    requires items[i].name !in st.emitted
    ensures PlannedFor(su, items[i], entry)
    ensures
      var next := PlanUpTo(FinalConfig(su, items, engine), FinalAssembly(su, items).layers, |TasksUpTo(su, items, i + 1)|);
      && next.Some?
      && next.value.entries == st.entries + [entry]
      && next.value.emitted <= st.emitted + {items[i].name}
  {
    hide PlanStep, Tasks, FinalAssembly, FinalConfig, PlannedFor, StoredEncoded, TasksUpTo, IsFile, TarRead, DistinctNames;
    var base := |TasksUpTo(su, items, i)|;
    FileTasks(su, items, i);
    if StoredEncoded(su, items[i]) {
      entry := EncodedFilePlans(su, items, engine, i, st);
      var next := PlanState(st.entries + [entry], st.emitted + {items[i].name});
      assert PlanUpTo(FinalConfig(su, items, engine), FinalAssembly(su, items).layers, base + 1) == Some(next);
      FileHasTasks(su, items, i);
      LaterChunksAreSkipped(su, items, engine, i, |Tasks(su, items[i])|, next);
    } else {
      entry := RawFilePlans(su, items, engine, i, st);
    }
  }

  lemma FileHasTasks(su: Setup, items: seq<Entry>, i: nat)
    requires TarRead(su, items) && i < |items| && IsFile(items[i])
    ensures |Tasks(su, items[i])| >= 1
  {
    EveryFileHasTasks(su, items[i]);
  }

  /** The plan of a published manifest: the files of the tar, in order, each rebuilt from its own blobs. */
  lemma {:induction false} PushPlans(su: Setup, items: seq<Entry>, engine: Bytes, n: nat)
    requires TarRead(su, items) && DistinctNames(items) && su.w.DigestInjective() && n <= |items|
    ensures |TasksUpTo(su, items, n)| <= |FinalAssembly(su, items).layers|
    ensures
      var st := PlanUpTo(FinalConfig(su, items, engine), FinalAssembly(su, items).layers, |TasksUpTo(su, items, n)|);
      var files := FilesOf(items, n);
      && st.Some?
      && |st.value.entries| == |files|
      && (forall t :: 0 <= t < |files| ==> PlannedFor(su, files[t], st.value.entries[t]))
      && (forall title :: title in st.value.emitted ==> exists i :: 0 <= i < n && IsFile(items[i]) && items[i].name == title)
  {
    hide FinalConfig, FinalAssembly, PlannedFor, Tasks, IsFile, TarRead, PlanStep, DescRange;
    LayersAreTasks(su, items);
    UpToIsPrefix(su, items, n, |items|);
    if n > 0 {
      PushPlans(su, items, engine, n - 1);
      var st := PlanUpTo(FinalConfig(su, items, engine), FinalAssembly(su, items).layers, |TasksUpTo(su, items, n - 1)|).value;
      if IsFile(items[n - 1]) {
        var entry := FilePlans(su, items, engine, n - 1, st);
      } else {
        assert TasksUpTo(su, items, n) == TasksUpTo(su, items, n - 1) + [];
      }
    }
  }
}
