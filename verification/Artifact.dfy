/** Properties of the artifact a push publishes: its layers, chunk lists and version marker, and that a reader accepts it. */
module Artifact {
  import opened Sequences
  import opened Manifest
  import opened World
  import opened PushSpec
  import opened Plan
  import Chunking

  // ----- Layers -----

  lemma {:induction false} UpToIsPrefix(su: Setup, items: seq<Entry>, n: nat, m: nat)
    requires n <= m <= |items|
    ensures TasksUpTo(su, items, n) <= TasksUpTo(su, items, m)
    ensures GroupsUpTo(su, items, n) <= GroupsUpTo(su, items, m)
  {
    if n < m {
      UpToIsPrefix(su, items, n, m - 1);
    }
  }

  lemma FileTasks(su: Setup, items: seq<Entry>, n: nat)
    requires n < |items| && IsFile(items[n])
    ensures
      var first := |TasksUpTo(su, items, n)|;
      var all := TasksUpTo(su, items, |items|);
      && first + |Tasks(su, items[n])| == |TasksUpTo(su, items, n + 1)| <= |all|
      && forall i :: 0 <= i < |Tasks(su, items[n])| ==> all[first + i] == Tasks(su, items[n])[i]
  {
    UpToIsPrefix(su, items, n + 1, |items|);
    assert TasksUpTo(su, items, n + 1) == TasksUpTo(su, items, n) + Tasks(su, items[n]);
  }

  lemma {:induction false} AssembledLayers(su: Setup, items: seq<Entry>, n: nat)
    requires n <= |items|
    ensures |GroupsUpTo(su, items, n)| <= |FinalGroups(su, items)|
    ensures |TasksUpTo(su, items, n)| <= |TasksUpTo(su, items, |items|)|
    ensures
      var all := TasksUpTo(su, items, |items|);
      Assemble(FinalGroups(su, items), FilesUpTo(items, |items|), |GroupsUpTo(su, items, n)|).layers
      == DescRange(su, all, 0, |TasksUpTo(su, items, n)|)
  {
    hide Tasks, IsFile, Desc;
    var all := TasksUpTo(su, items, |items|);
    UpToIsPrefix(su, items, n, |items|);
    GroupsCoverTasks(su, items, |items|);
    if n > 0 {
      AssembledLayers(su, items, n - 1);
      if IsFile(items[n - 1]) {
        var g := |GroupsUpTo(su, items, n - 1)|;
        var group := GroupsUpTo(su, items, n)[g];
        assert GroupsUpTo(su, items, |items|)[g] == group;
        assert FinalGroups(su, items)[g].descs == DescRange(su, all, group.first, group.count);
        assert DescRange(su, all, 0, group.first + group.count)
            == DescRange(su, all, 0, group.first) + DescRange(su, all, group.first, group.count);
      }
    }
  }

  /** The manifest lists one layer per blob, in tar order and chunk order. */
  lemma LayersAreTasks(su: Setup, items: seq<Entry>)
    ensures
      var all := TasksUpTo(su, items, |items|);
      FinalAssembly(su, items).layers == DescRange(su, all, 0, |all|)
  {
    AssembledLayers(su, items, |items|);
    assert |FinalGroups(su, items)| == |GroupsUpTo(su, items, |items|)|;
  }

  // ----- Chunk lists -----

  /** The final record of a file: its metadata, and the digests of its pieces when there are several. */
  function FinalMeta(su: Setup, e: Entry): SnapshotFile {
    var tasks := Tasks(su, e);
    FileMeta(e).(chunks := if |tasks| < 2 then [] else Digests(DescRange(su, tasks, 0, |tasks|)))
  }

  /** File names are unique; `files` is keyed by name. */
  predicate DistinctNames(items: seq<Entry>) {
    forall i, j :: 0 <= i < j < |items| && IsFile(items[i]) && IsFile(items[j]) ==> items[i].name != items[j].name
  }

  /** Of several entries with one name the last is recorded, for all of them. */
  lemma {:induction false} LastOfNameIsRecorded(items: seq<Entry>, n: nat, i: nat)
    requires i < n <= |items| && IsFile(items[i])
    requires forall j :: i < j < n && IsFile(items[j]) ==> items[j].name != items[i].name
    ensures items[i].name in FilesUpTo(items, n) && FilesUpTo(items, n)[items[i].name] == FileMeta(items[i])
  {
    if i < n - 1 {
      LastOfNameIsRecorded(items, n - 1, i);
    }
  }

  lemma {:induction false} FilesAreEntries(items: seq<Entry>, n: nat, name: string)
    requires n <= |items|
    ensures name in FilesUpTo(items, n) <==> exists i :: 0 <= i < n && IsFile(items[i]) && items[i].name == name
    ensures name in FilesUpTo(items, n) ==> FilesUpTo(items, n)[name].chunks == []
  {
    if n > 0 {
      FilesAreEntries(items, n - 1, name);
    }
  }

  /** A group's record changes when the group is reached, and never again while names are distinct. */
  lemma {:induction false} AssembledFile(groups: seq<ChunkGroup>, files: map<string, SnapshotFile>, n: nat, g: nat)
    requires n <= |groups| && g < |groups|
    requires forall a, b :: 0 <= a < b < |groups| ==> groups[a].name != groups[b].name
    ensures
      var before, now := FileOf(files, groups[g].name), FileOf(Assemble(groups, files, n).files, groups[g].name);
      now == if n <= g || |groups[g].descs| < 2 then before else before.(chunks := Digests(groups[g].descs))
  {
    if n > 0 {
      AssembledFile(groups, files, n - 1, g);
    }
  }

  /** Every group belongs to a file of the tar. */
  lemma {:induction false} GroupSizes(su: Setup, items: seq<Entry>, n: nat, g: nat) returns (i: nat)
    requires n <= |items| && g < |GroupsUpTo(su, items, n)|
    ensures i < n && IsFile(items[i]) && GroupsUpTo(su, items, n)[g].count == |Tasks(su, items[i])|
    ensures GroupsUpTo(su, items, n)[g].name == items[i].name
  {
    hide Tasks, IsFile;
    if IsFile(items[n - 1]) && g == |GroupsUpTo(su, items, n)| - 1 {
      i := n - 1;
    } else {
      i := GroupSizes(su, items, n - 1, g);
    }
  }

  lemma {:induction false} GroupNamesDiffer(su: Setup, items: seq<Entry>, n: nat, a: nat, b: nat)
    requires n <= |items| && DistinctNames(items) && a < b < |GroupsUpTo(su, items, n)|
    ensures GroupsUpTo(su, items, n)[a].name != GroupsUpTo(su, items, n)[b].name
  {
    if b < |GroupsUpTo(su, items, n - 1)| {
      GroupNamesDiffer(su, items, n - 1, a, b);
    } else {
      var i := GroupSizes(su, items, n - 1, a);
    }
  }

  lemma GroupOfFile(su: Setup, items: seq<Entry>, i: nat)
    requires i < |items| && IsFile(items[i])
    ensures
      var g := |GroupsUpTo(su, items, i)|;
      var final := FinalGroups(su, items);
      g < |final| && final[g] == ChunkGroup(items[i].name, DescRange(su, Tasks(su, items[i]), 0, |Tasks(su, items[i])|))
  {
    UpToIsPrefix(su, items, i + 1, |items|);
    FileTasks(su, items, i);
    GroupsCoverTasks(su, items, |items|);
    var g := |GroupsUpTo(su, items, i)|;
    assert GroupsUpTo(su, items, |items|)[g] == GroupsUpTo(su, items, i + 1)[g];
    assert FinalGroups(su, items)[g].descs == DescRange(su, Tasks(su, items[i]), 0, |Tasks(su, items[i])|);
  }

  /** The config records every file under its name, with the digests of its pieces in order. */
  lemma ConfigRecordsFile(su: Setup, items: seq<Entry>, i: nat)
    requires i < |items| && IsFile(items[i]) && DistinctNames(items)
    ensures FileOf(FinalAssembly(su, items).files, items[i].name) == FinalMeta(su, items[i])
  {
    var groups := FinalGroups(su, items);
    forall a, b | 0 <= a < b < |groups|
      ensures groups[a].name != groups[b].name
    {
      GroupNamesDiffer(su, items, |items|, a, b);
    }
    GroupOfFile(su, items, i);
    LastOfNameIsRecorded(items, |items|, i);
    AssembledFile(groups, FilesUpTo(items, |items|), |groups|, |GroupsUpTo(su, items, i)|);
  }

  /** A file's pieces: together the file, each but the last of exactly the chunk size, as many as the count says. */
  lemma PiecesAreTheFile(su: Setup, e: Entry)
    requires EntryOk(su, e) && IsFile(e) && |e.data| == e.size
    ensures
      var tasks := Tasks(su, e);
      && Flatten(RawOf(tasks)) == e.data
      && (Chunked(su, e) ==>
           && |tasks| == Chunking.ChunkCount(e.size, su.chunkSize)
           && (forall i :: 0 <= i < |tasks| ==> 0 < |tasks[i].raw| <= su.chunkSize)
           && (forall i :: 0 <= i < |tasks| - 1 ==> |tasks[i].raw| == su.chunkSize))
      && (!Chunked(su, e) ==> |tasks| == 1)
  {
    var tasks := Tasks(su, e);
    if Chunked(su, e) {
      AcceptedCountIsExact(su, e);
      var raws := Chunking.Cut(e.data, su.chunkSize);
      Chunking.CutLosesNothing(e.data, su.chunkSize);
      Chunking.CutCount(e.data, su.chunkSize);
      forall i | 0 <= i < |tasks|
        ensures 0 < |tasks[i].raw| <= su.chunkSize
        ensures i < |tasks| - 1 ==> |tasks[i].raw| == su.chunkSize
      {
        Chunking.CutIsUniform(e.data, su.chunkSize, i);
      }
      assert RawOf(tasks) == raws;
    } else {
      assert RawOf(tasks) == [e.data];
      assert Flatten([e.data]) == e.data + Flatten<Byte>([]);
    }
  }

  function RawOf(tasks: seq<Task>): (r: seq<Bytes>)
    ensures |r| == |tasks|
  {
    seq(|tasks|, i requires 0 <= i < |tasks| => tasks[i].raw)
  }

  lemma EveryFileHasTasks(su: Setup, e: Entry)
    requires EntryOk(su, e) && IsFile(e) && |e.data| == e.size
    ensures |Tasks(su, e)| >= 1
    ensures |Tasks(su, e)| >= 2 <==> su.chunkSize > 0 && e.size > su.chunkSize
  {
    hide IsZstdMediaType, SparseFileMeta;
    PiecesAreTheFile(su, e);
    if Chunked(su, e) {
      Chunking.QuotientReaches(e.size + su.chunkSize - 1, su.chunkSize, 1);
      Chunking.QuotientReaches(e.size + su.chunkSize - 1, su.chunkSize, 2);
    }
  }

  // ----- Version marker -----

  lemma LayerTypeTells(su: Setup, e: Entry)
    ensures IsZstdMediaType(LayerType(su, e)) <==> Compresses(su, e)
    ensures IsSnapshotLayerMediaType(LayerType(su, e))
  {
    hide MediaTypeForCocoonFile, IsZstdMediaType, IsSnapshotLayerMediaType, ZstdMediaType;
    WrittenTypesAreAccepted(e.name);
  }

  lemma TasksShareType(su: Setup, e: Entry, i: nat)
    requires i < |Tasks(su, e)|
    ensures Tasks(su, e)[i].mediaType == LayerType(su, e) && Tasks(su, e)[i].title == e.name
    ensures Tasks(su, e)[i].inline <==> !Chunked(su, e)
  {
  }

  /** Every task belongs to a file of the tar. */
  lemma {:induction false} TaskOfFile(su: Setup, items: seq<Entry>, n: nat, j: nat) returns (i: nat)
    requires n <= |items| && j < |TasksUpTo(su, items, n)|
    ensures i < n && IsFile(items[i])
    ensures TasksUpTo(su, items, n)[j].title == items[i].name
    ensures TasksUpTo(su, items, n)[j].mediaType == LayerType(su, items[i])
    ensures TasksUpTo(su, items, n)[j] in Tasks(su, items[i])
  {
    hide LayerType;
    var before := |TasksUpTo(su, items, n - 1)|;
    if j < before {
      i := TaskOfFile(su, items, n - 1, j);
    } else {
      i := n - 1;
      TasksShareType(su, items[i], j - before);
      assert TasksUpTo(su, items, n)[j] == Tasks(su, items[i])[j - before];
    }
  }

  predicate HasChunkList(files: map<string, SnapshotFile>) {
    exists name :: name in files && files[name].chunks != []
  }

  /** A chunk list in the assembled config comes from a group of several descriptors, and such a group leaves one. */
  lemma {:induction false} ChunkListsComeFromGroups(groups: seq<ChunkGroup>, files: map<string, SnapshotFile>, n: nat)
    requires n <= |groups|
    requires forall name :: name in files ==> files[name].chunks == []
    ensures
      var now := Assemble(groups, files, n).files;
      HasChunkList(now) <==> exists g :: 0 <= g < n && |groups[g].descs| >= 2
  {
    if n > 0 {
      ChunkListsComeFromGroups(groups, files, n - 1);
      var g := groups[n - 1];
      var before, now := Assemble(groups, files, n - 1).files, Assemble(groups, files, n).files;
      if |g.descs| >= 2 {
        assert g.name in now && |now[g.name].chunks| >= 2;
        assert HasChunkList(now);
        assert |groups[n - 1].descs| >= 2;
      } else {
        assert now == before;
      }
    }
  }

  predicate TarRead(su: Setup, items: seq<Entry>) {
    TarOk(items) && forall i :: 0 <= i < |items| ==> EntryOk(su, items[i])
  }

  /** Some file is chunked exactly when the config holds a chunk list. */
  lemma ChunkedFilesHaveLists(su: Setup, items: seq<Entry>)
    ensures
      HasChunkList(FinalAssembly(su, items).files) <==>
      exists i :: 0 <= i < |items| && IsFile(items[i]) && |Tasks(su, items[i])| >= 2
  {
    hide IsFile, Tasks;
    var groups := FinalGroups(su, items);
    var recorded := FilesUpTo(items, |items|);
    forall name | name in recorded
      ensures recorded[name].chunks == []
    {
      FilesAreEntries(items, |items|, name);
    }
    ChunkListsComeFromGroups(groups, recorded, |groups|);
    if g :| 0 <= g < |groups| && |groups[g].descs| >= 2 {
      var i := GroupSizes(su, items, |items|, g);
      assert |groups[g].descs| == GroupsUpTo(su, items, |items|)[g].count;
    }
    if i :| 0 <= i < |items| && IsFile(items[i]) && |Tasks(su, items[i])| >= 2 {
      GroupOfFile(su, items, i);
      assert |groups[|GroupsUpTo(su, items, i)|].descs| >= 2;
    }
  }

  /** The v2 marker is set exactly when some layer is zstd or some file is chunked. */
  lemma MarkerAgrees(su: Setup, items: seq<Entry>)
    requires TarRead(su, items)
    ensures
      var a := FinalAssembly(su, items);
      EncodedUpTo(su, items, |items|) <==>
        || (exists l :: 0 <= l < |a.layers| && IsZstdMediaType(a.layers[l].mediaType))
        || HasChunkList(a.files)
  {
    hide IsZstdMediaType, SparseFileMeta, TasksUpTo, FinalAssembly, LayerType;
    var all := TasksUpTo(su, items, |items|);
    var a := FinalAssembly(su, items);
    LayersAreTasks(su, items);
    ChunkedFilesHaveLists(su, items);
    if i :| 0 <= i < |items| && IsFile(items[i]) && (Compresses(su, items[i]) || Chunked(su, items[i])) {
      EncodedFileShows(su, items, i);
    }
    if l :| 0 <= l < |a.layers| && IsZstdMediaType(a.layers[l].mediaType) {
      var i := TaskOfFile(su, items, |items|, l);
      assert a.layers[l].mediaType == all[l].mediaType;
      LayerTypeTells(su, items[i]);
      assert Compresses(su, items[i]);
    }
    if i :| 0 <= i < |items| && IsFile(items[i]) && |Tasks(su, items[i])| >= 2 {
      EveryFileHasTasks(su, items[i]);
      assert Chunked(su, items[i]);
    }
  }

  /** An encoded file shows in the artifact: by a zstd layer, or by having several pieces. */
  lemma EncodedFileShows(su: Setup, items: seq<Entry>, i: nat)
    requires TarRead(su, items) && i < |items| && IsFile(items[i]) && (Compresses(su, items[i]) || Chunked(su, items[i]))
    ensures
      var layers := FinalAssembly(su, items).layers;
      |Tasks(su, items[i])| >= 2 || exists l :: 0 <= l < |layers| && IsZstdMediaType(layers[l].mediaType)
  {
    hide IsZstdMediaType, SparseFileMeta, FinalAssembly, LayerType;
    EveryFileHasTasks(su, items[i]);
    if Compresses(su, items[i]) {
      LayersAreTasks(su, items);
      FileTasks(su, items, i);
      var l := |TasksUpTo(su, items, i)|;
      var all := TasksUpTo(su, items, |items|);
      assert all[l] == all[l + 0] == Tasks(su, items[i])[0];
      TasksShareType(su, items[i], 0);
      LayerTypeTells(su, items[i]);
      assert FinalAssembly(su, items).layers[l].mediaType == all[l].mediaType;
    }
  }

  // ----- Acceptance by the reader -----

  predicate NamesNonEmpty(items: seq<Entry>) {
    forall i :: 0 <= i < |items| && IsFile(items[i]) ==> items[i].name != ""
  }

  lemma DescTitle(su: Setup, t: Task)
    ensures Desc(su, t).Title() == t.title && Desc(su, t).size == |Stored(su, t)| && Desc(su, t).mediaType == t.mediaType
  {
    assert ANNOTATION_CHUNK_INDEX[0] != ANNOTATION_TITLE[0];
    assert ANNOTATION_CHUNK_COUNT[0] != ANNOTATION_TITLE[0];
  }

  /** Every published manifest classifies as a snapshot. */
  lemma PublishedManifestIsSnapshot(su: Setup, items: seq<Entry>, engine: Bytes)
    ensures ClassifyParsed(FinalManifest(su, items, engine)) == KindSnapshot
  {
    hide FinalAssembly, FinalConfig, EncodedUpTo, ConfigDescriptor;
    assert ARTIFACT_TYPE_SNAPSHOT[28] != ARTIFACT_TYPE_OS_IMAGE[28] && ARTIFACT_TYPE_SNAPSHOT[28] != ARTIFACT_TYPE_WINDOWS_IMAGE[28];
    assert ARTIFACT_TYPE_SNAPSHOT_V2[28] != ARTIFACT_TYPE_OS_IMAGE[28] && ARTIFACT_TYPE_SNAPSHOT_V2[28] != ARTIFACT_TYPE_WINDOWS_IMAGE[28];
  }

  lemma MarkerIsV2(su: Setup, items: seq<Entry>, engine: Bytes)
    ensures IsV2(FinalManifest(su, items, engine)) <==> EncodedUpTo(su, items, |items|)
  {
    hide FinalAssembly, FinalConfig, EncodedUpTo, ConfigDescriptor;
    assert ARTIFACT_TYPE_SNAPSHOT[38] != ARTIFACT_TYPE_SNAPSHOT_V2[38];
  }

  /** A published layer is readable exactly when its file has a name. */
  lemma LayerIsReadable(su: Setup, items: seq<Entry>, engine: Bytes, l: nat)
    requires TarRead(su, items) && l < |FinalAssembly(su, items).layers|
    ensures
      var m := FinalManifest(su, items, engine);
      l < |m.layers| && (LayerReadable(m.layers[l], IsV2(m)) <==> m.layers[l].Title() != "")
  {
    hide IsZstdMediaType, IsSnapshotLayerMediaType, FinalAssembly, FinalConfig, IsV2, LayerType, EncodedUpTo, ConfigDescriptor;
    var layers := FinalAssembly(su, items).layers;
    var all := TasksUpTo(su, items, |items|);
    LayersAreTasks(su, items);
    MarkerAgrees(su, items);
    MarkerIsV2(su, items, engine);
    var i := TaskOfFile(su, items, |items|, l);
    LayerTypeTells(su, items[i]);
    DescTitle(su, all[l]);
    assert layers[l] == Desc(su, all[l]);
  }

  /** The reader's validation accepts a published manifest exactly when every file has a name. */
  lemma PublishedManifestValidates(su: Setup, items: seq<Entry>, engine: Bytes)
    requires TarRead(su, items)
    ensures Validates(FinalManifest(su, items, engine), FinalConfig(su, items, engine)) <==> NamesNonEmpty(items)
  {
    hide IsZstdMediaType, LayerReadable, FinalAssembly, IsV2, LayerType, EncodedUpTo, Tasks, SparseFileMeta;
    var m, cfg := FinalManifest(su, items, engine), FinalConfig(su, items, engine);
    var all := TasksUpTo(su, items, |items|);
    LayersAreTasks(su, items);
    MarkerAgrees(su, items);
    MarkerIsV2(su, items, engine);
    assert m.layers == FinalAssembly(su, items).layers && cfg.files == FinalAssembly(su, items).files;
    forall l | 0 <= l < |m.layers|
      ensures LayerReadable(m.layers[l], IsV2(m)) <==> m.layers[l].Title() != ""
      ensures exists i :: 0 <= i < |items| && IsFile(items[i]) && m.layers[l].Title() == items[i].name
    {
      LayerIsReadable(su, items, engine, l);
      var i := TaskOfFile(su, items, |items|, l);
      DescTitle(su, all[l]);
      assert m.layers[l] == Desc(su, all[l]);
    }
    forall i | 0 <= i < |items| && IsFile(items[i])
      ensures exists l :: 0 <= l < |m.layers| && m.layers[l].Title() == items[i].name
    {
      var l := FirstLayerOf(su, items, i);
      DescTitle(su, all[l]);
      assert m.layers[l] == Desc(su, all[l]);
    }
  }

  lemma FirstLayerOf(su: Setup, items: seq<Entry>, i: nat) returns (l: nat)
    requires TarRead(su, items) && i < |items| && IsFile(items[i])
    ensures l < |TasksUpTo(su, items, |items|)| && TasksUpTo(su, items, |items|)[l].title == items[i].name
  {
    EveryFileHasTasks(su, items[i]);
    FileTasks(su, items, i);
    l := |TasksUpTo(su, items, i)|;
    assert TasksUpTo(su, items, |items|)[l + 0] == Tasks(su, items[i])[0];
    TasksShareType(su, items[i], 0);
  }
}
