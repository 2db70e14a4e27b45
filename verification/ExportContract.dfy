/**
 * What a push makes of an export, and what a pull gives back, in terms of the export's own entries: their
 * header fields, PAX records and bytes. None of the model's accumulating functions appears in these
 * statements, so they say what those functions have to compute.
 */
module ExportContract {
  import opened Integers
  import opened Sequences
  import opened Decimal
  import opened Manifest
  import opened World
  import opened PushSpec
  import opened SizedReader
  import opened Artifact
  import opened PushPlan
  import opened Pull
  import opened RoundTrip
  import Chunking
  import PushMachine
  import PushInvariant
  import PushReader
  import PushLiveness
  import PushTheorems

  const ENVELOPE := "snapshot.json"
  const SPARSE_MAP := "COCOON.sparse.map"
  const SPARSE_SIZE := "COCOON.sparse.size"
  const TITLE := "org.opencontainers.image.title"
  const CHUNK_INDEX := "cocoonstack.chunk.index"
  const CHUNK_COUNT := "cocoonstack.chunk.count"

  // ----- An entry of the export -----

  /** The entries that become files of the snapshot. */
  predicate IsExported(e: Entry) {
    e.regular && e.name != ENVELOPE
  }

  /** The text of the sparse size record denotes this int64 number. */
  ghost predicate SparseSizeIs(e: Entry, n: int) {
    && SPARSE_SIZE in e.pax
    && -9223372036854775808 <= n <= 9223372036854775807
    && Denotes(e.pax[SPARSE_SIZE], n)
  }

  /** Files of at least 1 MiB are compressed when a level is set. */
  predicate Packs(su: Setup, e: Entry) {
    su.level > 0 && e.size >= 1048576
  }

  /** Files are split when chunking is on and they are compressed or larger than a chunk. */
  predicate Splits(su: Setup, e: Entry) {
    su.chunkSize > 0 && (Packs(su, e) || e.size > su.chunkSize)
  }

  /** What push demands of an entry. */
  ghost predicate WellFormed(su: Setup, e: Entry) {
    if e.name == ENVELOPE then su.w.envelope(e.data).Some?
    else e.regular ==>
      && e.size >= 0
      && (SPARSE_MAP in e.pax ==> exists n :: SparseSizeIs(e, n))
      && (Splits(su, e) ==> e.size + su.chunkSize - 1 <= 9223372036854775807 && e.size <= 1048576 * su.chunkSize)
  }

  /** The last of the export's envelopes. */
  ghost predicate IsEnvelopeOf(items: seq<Entry>, k: nat) {
    && k < |items| && items[k].name == ENVELOPE
    && forall j :: k < j < |items| ==> items[j].name != ENVELOPE
  }

  /** A file's record in the config, its chunk list aside. */
  ghost predicate Records(e: Entry, file: SnapshotFile) {
    && file.mode == e.mode && file.size == e.size
    && if SPARSE_MAP in e.pax then file.sparseMap == e.pax[SPARSE_MAP] && SparseSizeIs(e, file.sparseSize)
       else file.sparseMap == "" && file.sparseSize == 0
  }

  /** An entry of the import tar that gives an exported file back. */
  ghost predicate GivesBack(e: Entry, back: TarEntry) {
    && back.header.name == e.name && back.header.size == e.size && back.body == e.data
    && back.header.mode == (if e.mode == 0 then 416 else e.mode)
    && if SPARSE_MAP in e.pax && e.pax[SPARSE_MAP] != "" then
         exists n :: n > 0 && SparseSizeIs(e, n)
                     && back.header.pax == map[SPARSE_MAP := e.pax[SPARSE_MAP], SPARSE_SIZE := Format(n)]
       else back.header.pax == map[]
  }

  // ----- The model's functions in these terms -----

  lemma ExportedIsFile(e: Entry)
    ensures IsExported(e) <==> IsFile(e)
    ensures e.name == ENVELOPE <==> IsEnvelope(e)
  {
  }

  lemma SparseMetaReads(e: Entry)
    ensures SparseFileMeta(e).Some? <==> (SPARSE_MAP in e.pax ==> exists n :: SparseSizeIs(e, n))
    ensures SparseFileMeta(e).Some? ==> Records(e, FileMeta(e)) && FileMeta(e).chunks == []
  {
    hide Parse, Denotes;
    if SPARSE_SIZE in e.pax {
      forall n: int
        ensures Parse(e.pax[SPARSE_SIZE]) == Some(n) <==> SparseSizeIs(e, n)
      {
        ParseAcceptsExactly(e.pax[SPARSE_SIZE], n);
      }
    }
  }

  lemma CountIsWithinCap(su: Setup, e: Entry)
    requires e.size >= 0 && su.chunkSize > 0
    ensures 0 <= Chunking.CountInt64(e.size, su.chunkSize) <= Chunking.MAX_CHUNKS
       <==> e.size + su.chunkSize - 1 <= 9223372036854775807 && e.size <= 1048576 * su.chunkSize
  {
    hide Chunking.CountInt64;
    Chunking.CountIsExactUnlessItWraps(e.size, su.chunkSize);
    Chunking.QuotientReaches(e.size + su.chunkSize - 1, su.chunkSize, 1048577);
    Chunking.QuotientReaches(e.size + su.chunkSize - 1, su.chunkSize, 0);
    assert 1048577 * su.chunkSize == 1048576 * su.chunkSize + su.chunkSize;
  }

  lemma WellFormedIsAccepted(su: Setup, e: Entry)
    ensures WellFormed(su, e) <==> EntryOk(su, e)
    ensures Packs(su, e) <==> Compresses(su, e)
    ensures Splits(su, e) <==> Chunked(su, e)
  {
    hide SparseSizeIs, SparseFileMeta, Chunking.CountInt64;
    ExportedIsFile(e);
    SparseMetaReads(e);
    if e.size >= 0 && su.chunkSize > 0 {
      CountIsWithinCap(su, e);
    }
  }

  lemma {:induction false} EnvelopeIsTheLast(su: Setup, items: seq<Entry>, n: nat) returns (k: nat)
    requires n <= |items|
    ensures (exists j :: 0 <= j < n && items[j].name == ENVELOPE) <==> k < n
    ensures k < n ==> IsEnvelopeOf(items[..n], k) && EnvelopeUpTo(su, items, n) == su.w.envelope(items[k].data)
    ensures k >= n ==> EnvelopeUpTo(su, items, n).None?
  {
    if n == 0 {
      k := 0;
    } else if items[n - 1].name == ENVELOPE {
      k := n - 1;
    } else {
      k := EnvelopeIsTheLast(su, items, n - 1);
      if k >= n - 1 {
        k := n;
      } else {
        assert forall j :: k < j < n - 1 ==> items[..n - 1][j] == items[j];
      }
    }
  }

  /** Where the files are in the export. */
  function FileIndices(items: seq<Entry>, n: nat): (source: seq<nat>)
    requires n <= |items|
    ensures forall t :: 0 <= t < |source| ==> source[t] < n
  {
    if n == 0 then [] else FileIndices(items, n - 1) + if IsExported(items[n - 1]) then [n - 1] else []
  }

  lemma {:induction false} IndicesIncrease(items: seq<Entry>, n: nat)
    requires n <= |items|
    ensures forall s, t :: 0 <= s < t < |FileIndices(items, n)| ==> FileIndices(items, n)[s] < FileIndices(items, n)[t]
  {
    hide IsExported;
    if n > 0 {
      IndicesIncrease(items, n - 1);
    }
  }

  lemma {:induction false} IndicesAreTheExported(items: seq<Entry>, n: nat, i: nat)
    requires n <= |items|
    ensures i in FileIndices(items, n) <==> i < n && IsExported(items[i])
  {
    hide IsExported;
    if n > 0 {
      IndicesAreTheExported(items, n - 1, i);
    }
  }

  lemma {:induction false} IndicesListTheFiles(items: seq<Entry>, n: nat)
    requires n <= |items|
    ensures |FileIndices(items, n)| == |FilesOf(items, n)|
    ensures forall t :: 0 <= t < |FileIndices(items, n)| ==> FilesOf(items, n)[t] == items[FileIndices(items, n)[t]]
  {
    hide IsExported, IsFile;
    if n > 0 {
      IndicesListTheFiles(items, n - 1);
      ExportedIsFile(items[n - 1]);
    }
  }

  lemma RestoredGivesBack(e: Entry)
    requires SparseFileMeta(e).Some? && SparseOk(e)
    ensures GivesBack(e, Restored(e))
  {
    hide SparseSizeIs, Format, Parse;
    SparseMetaReads(e);
  }

  // ----- What is published -----

  /** In every run: only an export whose entries are all well-formed, with an envelope among them, is published. */
  lemma OnlyWellFormedExportsArePublished(p: PushMachine.Push, store: Store, steps: seq<PushMachine.Step>)
    requires Published(p, store, steps)
    ensures forall i :: 0 <= i < |p.items| ==> WellFormed(p.su, p.items[i])
    ensures exists k :: IsEnvelopeOf(p.items, k)
  {
    hide WellFormed, EntryOk, PushMachine.Apply, PushMachine.Enabled, FinalManifest, FinalConfig, PushInvariant.Reading;
    PushReader.RunKeepsInv(p, store, steps);
    var s := EndOf(p, store, steps);
    assert PushInvariant.PublishedSafely(p, s.store, s.manifest);
    forall i | 0 <= i < |p.items|
      ensures WellFormed(p.su, p.items[i])
    {
      WellFormedIsAccepted(p.su, p.items[i]);
    }
    var k := EnvelopeIsTheLast(p.su, p.items, |p.items|);
    assert p.items[..|p.items|] == p.items;
  }

  /** And a push that meets no failure publishes every such export, and nothing else. */
  lemma ExactlyWellFormedExportsArePublished(p: PushMachine.Push, store: Store, steps: seq<PushMachine.Step>)
    requires p.Ok() && p.su.w.DigestInjective() && ContentAddressed(p.su.w, store)
    requires PushMachine.Exec(p, PushMachine.Init(p, store), steps).Some? && PushLiveness.AllUndisturbed(steps)
    requires PushTheorems.Terminal(PushMachine.Exec(p, PushMachine.Init(p, store), steps).value)
    ensures PushMachine.Exec(p, PushMachine.Init(p, store), steps).value.reader.Published? <==>
      && (forall i :: 0 <= i < |p.items| ==> WellFormed(p.su, p.items[i]))
      && exists k :: 0 <= k < |p.items| && p.items[k].name == ENVELOPE
  {
    hide WellFormed, EntryOk, PushMachine.Apply, PushMachine.Enabled, PushLiveness.AllUndisturbed;
    PushLiveness.UndisturbedPushEndsAsTheTarDecides(p, store, steps);
    forall i | 0 <= i < |p.items|
      ensures WellFormed(p.su, p.items[i]) <==> EntryOk(p.su, p.items[i])
    {
      WellFormedIsAccepted(p.su, p.items[i]);
    }
    var k := EnvelopeIsTheLast(p.su, p.items, |p.items|);
    if k < |p.items| && EntryOk(p.su, p.items[k]) {
      EnvelopeParses(p.su, p.items[k]);
    }
  }

  lemma EnvelopeParses(su: Setup, e: Entry)
    requires EntryOk(su, e) && e.name == ENVELOPE
    ensures su.w.envelope(e.data).Some?
  {
  }

  /** A file with a sparse map but no readable sparse size is never published, whatever the run. */
  lemma UnreadableSparseSizeIsRefused(p: PushMachine.Push, store: Store, steps: seq<PushMachine.Step>, i: nat)
    requires p.Ok() && p.su.w.Lawful() && ContentAddressed(p.su.w, store)
    requires PushMachine.Exec(p, PushMachine.Init(p, store), steps).Some?
    requires i < |p.items| && IsExported(p.items[i]) && SPARSE_MAP in p.items[i].pax && forall n :: !SparseSizeIs(p.items[i], n)
    ensures PushMachine.Exec(p, PushMachine.Init(p, store), steps).value.manifest.None?
  {
    hide PushMachine.Exec, SparseSizeIs;
    if Published(p, store, steps) {
      OnlyWellFormedExportsArePublished(p, store, steps);
    }
  }

  // ----- The published manifest and config -----

  /** Some file is stored in a form a v1 reader does not know. */
  ghost predicate NeedsV2(su: Setup, items: seq<Entry>) {
    exists i :: 0 <= i < |items| && IsExported(items[i]) && (Packs(su, items[i]) || Splits(su, items[i]))
  }

  lemma NeedsV2IfEncoded(su: Setup, items: seq<Entry>)
    ensures NeedsV2(su, items) <==> EncodedUpTo(su, items, |items|)
  {
    hide IsExported, Packs, Splits, IsFile, Compresses, Chunked;
    forall i | 0 <= i < |items|
      ensures IsExported(items[i]) <==> IsFile(items[i])
      ensures Packs(su, items[i]) <==> Compresses(su, items[i])
      ensures Splits(su, items[i]) <==> Chunked(su, items[i])
    {
      ExportedIsFile(items[i]);
      WellFormedIsAccepted(su, items[i]);
    }
  }

  /** The config of an export: the exported config object, a record for every file name and none else, and the version. */
  ghost predicate ConfigOfExport(p: PushMachine.Push, k: nat, cfg: SnapshotConfig)
    requires k < |p.items|
  {
    && p.su.w.envelope(p.items[k].data) == Some(cfg.engine)
    && cfg.schemaVersion == (if NeedsV2(p.su, p.items) then "v2" else "v1")
    && (forall name: string :: name in cfg.files <==> exists i :: 0 <= i < |p.items| && IsExported(p.items[i]) && p.items[i].name == name)
  }

  /** In every run: the kinds of the published manifest and what its config blob says. */
  lemma PublishedManifestInFull(p: PushMachine.Push, store: Store, steps: seq<PushMachine.Step>) returns (k: nat, cfg: SnapshotConfig)
    requires Published(p, store, steps)
    ensures
      var m := EndOf(p, store, steps).manifest.value;
      && m.mediaType == "application/vnd.oci.image.manifest.v1+json"
      && m.artifactType == (if NeedsV2(p.su, p.items) then "application/vnd.cocoonstack.snapshot.v2+json"
                            else "application/vnd.cocoonstack.snapshot.v1+json")
      && m.config.mediaType == "application/vnd.cocoonstack.snapshot.config.v1+json"
      && m.config.digest in EndOf(p, store, steps).store
      && EndOf(p, store, steps).store[m.config.digest] == p.su.w.configText(cfg)
    ensures IsEnvelopeOf(p.items, k) && ConfigOfExport(p, k, cfg)
    ensures cfg == FinalConfig(p.su, p.items, EngineOf(p))
  {
    hide EntryOk, PushMachine.Apply, PushMachine.Enabled, PushInvariant.Reading, FinalAssembly, NeedsV2, IsExported, IsFile, EncodedUpTo;
    PushReader.RunKeepsInv(p, store, steps);
    var s := EndOf(p, store, steps);
    assert PushInvariant.PublishedSafely(p, s.store, s.manifest);
    k := EnvelopeIsTheLast(p.su, p.items, |p.items|);
    assert p.items[..|p.items|] == p.items;
    cfg := FinalConfig(p.su, p.items, EngineOf(p));
    NeedsV2IfEncoded(p.su, p.items);
    forall name: string
      ensures name in cfg.files <==> exists i :: 0 <= i < |p.items| && IsExported(p.items[i]) && p.items[i].name == name
    {
      ConfigNames(p.su, p.items, name);
    }
  }

  lemma {:induction false} AssemblyKeepsNames(groups: seq<ChunkGroup>, files: map<string, SnapshotFile>, n: nat, name: string)
    requires n <= |groups| && forall g :: 0 <= g < |groups| ==> groups[g].name in files
    ensures name in Assemble(groups, files, n).files <==> name in files
  {
    if n > 0 {
      AssemblyKeepsNames(groups, files, n - 1, name);
    }
  }

  lemma ConfigNames(su: Setup, items: seq<Entry>, name: string)
    ensures name in FinalAssembly(su, items).files <==> exists i :: 0 <= i < |items| && IsExported(items[i]) && items[i].name == name
  {
    hide IsFile, IsExported, Tasks;
    var groups, files := FinalGroups(su, items), FilesUpTo(items, |items|);
    forall i | 0 <= i < |items|
      ensures IsExported(items[i]) <==> IsFile(items[i])
    {
      ExportedIsFile(items[i]);
    }
    forall g | 0 <= g < |groups|
      ensures groups[g].name in files
    {
      var i := GroupSizes(su, items, |items|, g);
      FilesAreEntries(items, |items|, groups[g].name);
    }
    AssemblyKeepsNames(groups, files, |groups|, name);
    FilesAreEntries(items, |items|, name);
  }

  /** A group changes nothing of a record but its chunk list. */
  lemma {:induction false} AssemblyKeepsRecords(groups: seq<ChunkGroup>, files: map<string, SnapshotFile>, n: nat, name: string)
    requires n <= |groups| && forall g :: 0 <= g < |groups| ==> groups[g].name in files
    ensures name in files ==>
      && name in Assemble(groups, files, n).files
      && Assemble(groups, files, n).files[name].(chunks := []) == files[name].(chunks := [])
  {
    if n > 0 {
      AssemblyKeepsRecords(groups, files, n - 1, name);
      AssemblyKeepsNames(groups, files, n - 1, groups[n - 1].name);
    }
  }

  /** The record of a name is its last file's: mode, size and sparse record as exported. */
  lemma ConfigRecordsTheExport(p: PushMachine.Push, store: Store, steps: seq<PushMachine.Step>, i: nat)
    requires Published(p, store, steps) && i < |p.items| && IsExported(p.items[i])
    requires forall j :: i < j < |p.items| && IsExported(p.items[j]) ==> p.items[j].name != p.items[i].name
    ensures
      var files := FinalConfig(p.su, p.items, EngineOf(p)).files;
      p.items[i].name in files && Records(p.items[i], files[p.items[i].name])
  {
    hide EntryOk, PushMachine.Apply, PushMachine.Enabled, PushInvariant.Reading, IsFile, Records, SparseFileMeta, FileMeta, FinalManifest;
    PushReader.RunKeepsInv(p, store, steps);
    assert PushInvariant.PublishedSafely(p, EndOf(p, store, steps).store, EndOf(p, store, steps).manifest);
    forall j | 0 <= j < |p.items|
      ensures IsExported(p.items[j]) <==> IsFile(p.items[j])
    {
      ExportedIsFile(p.items[j]);
    }
    var groups, files := FinalGroups(p.su, p.items), FilesUpTo(p.items, |p.items|);
    forall g | 0 <= g < |groups|
      ensures groups[g].name in files
    {
      var j := GroupSizes(p.su, p.items, |p.items|, g);
      FilesAreEntries(p.items, |p.items|, groups[g].name);
    }
    LastOfNameIsRecorded(p.items, |p.items|, i);
    AssemblyKeepsRecords(groups, files, |groups|, p.items[i].name);
    AcceptedHasRecord(p.su, p.items[i]);
    RecordsButChunks(p.items[i], FileMeta(p.items[i]), FinalAssembly(p.su, p.items).files[p.items[i].name]);
  }

  lemma AcceptedHasRecord(su: Setup, e: Entry)
    requires EntryOk(su, e) && IsExported(e)
    ensures Records(e, FileMeta(e))
  {
    hide Records;
    SparseMetaReads(e);
  }

  lemma RecordsButChunks(e: Entry, a: SnapshotFile, b: SnapshotFile)
    requires Records(e, a) && a.(chunks := []) == b.(chunks := [])
    ensures Records(e, b)
  {
    hide SparseSizeIs;
    assert b.sparseSize == a.(chunks := []).sparseSize && b.sparseMap == a.(chunks := []).sparseMap;
    assert b.mode == a.(chunks := []).mode && b.size == a.(chunks := []).size;
  }

  // ----- The published layers -----

  /** How many layers a file gets. */
  function PieceCount(su: Setup, e: Entry): nat {
    if Splits(su, e) && e.size >= 0 then (e.size + su.chunkSize - 1) / su.chunkSize else 1
  }

  function LayersBefore(su: Setup, items: seq<Entry>, n: nat): nat
    requires n <= |items|
  {
    if n == 0 then 0 else LayersBefore(su, items, n - 1) + if IsExported(items[n - 1]) then PieceCount(su, items[n - 1]) else 0
  }

  /** Layer of piece `j`: its bytes stored as they are or compressed, and what is noted on it. */
  ghost predicate IsLayerOf(su: Setup, e: Entry, j: nat, piece: Bytes, d: Descriptor) {
    var stored :=
      if !Packs(su, e) then piece
      else if Splits(su, e) then su.w.encodeAll(su.level, piece)
      else su.w.encodeStream(su.level, piece);
    && d.mediaType == MediaTypeForCocoonFile(e.name) + (if Packs(su, e) then "+zstd" else "")
    && d.digest == su.w.digest(stored) && d.size == |stored|
    && d.annotations ==
         if PieceCount(su, e) > 1 then map[TITLE := e.name, CHUNK_INDEX := Format(j), CHUNK_COUNT := Format(PieceCount(su, e))]
         else map[TITLE := e.name]
  }

  lemma PiecesAreCounted(su: Setup, e: Entry)
    requires EntryOk(su, e) && IsFile(e) && |e.data| == e.size
    ensures |Tasks(su, e)| == PieceCount(su, e)
  {
    hide SparseFileMeta, EntryOk;
    WellFormedIsAccepted(su, e);
    PiecesAreTheFile(su, e);
  }

  lemma {:induction false} TasksAreCounted(p: PushMachine.Push, n: nat)
    requires TarRead(p.su, p.items) && n <= |p.items|
    ensures |TasksUpTo(p.su, p.items, n)| == LayersBefore(p.su, p.items, n)
  {
    hide EntryOk, PieceCount, IsFile, IsExported, Tasks;
    if n > 0 {
      TasksAreCounted(p, n - 1);
      ExportedIsFile(p.items[n - 1]);
      if IsFile(p.items[n - 1]) {
        AcceptedIsSized(p.su, p.items[n - 1]);
        PiecesAreCounted(p.su, p.items[n - 1]);
      }
    }
  }

  lemma AcceptedIsSized(su: Setup, e: Entry)
    requires EntryOk(su, e) && IsFile(e)
    ensures e.size >= 0
  {
  }

  lemma TaskOfPiece(su: Setup, e: Entry, j: nat)
    requires EntryOk(su, e) && IsFile(e) && |e.data| == e.size && j < |Tasks(su, e)|
    ensures Splits(su, e) ==> 0 <= j * su.chunkSize <= |e.data|
    ensures
      var piece := if Splits(su, e) then e.data[j * su.chunkSize..Min((j + 1) * su.chunkSize, |e.data|)] else e.data;
      IsLayerOf(su, e, j, piece, Desc(su, Tasks(su, e)[j]))
  {
    hide SparseFileMeta, EntryOk, MediaTypeForCocoonFile, IsZstdMediaType, ZstdMediaType, Format;
    WellFormedIsAccepted(su, e);
    PiecesAreCounted(su, e);
    TasksShareType(su, e, j);
    LayerTypeTells(su, e);
    ZstdTypes(MediaTypeForCocoonFile(e.name));
    if Splits(su, e) {
      Chunking.CutAt(e.data, su.chunkSize, j);
    }
  }

  /** In every run the published layers are, file by file and piece by piece, the export's bytes in their stored form. */
  lemma PublishedLayerInFull(p: PushMachine.Push, store: Store, steps: seq<PushMachine.Step>, i: nat, j: nat)
    requires Published(p, store, steps) && i < |p.items| && IsExported(p.items[i]) && j < PieceCount(p.su, p.items[i])
    ensures
      var e, layers := p.items[i], EndOf(p, store, steps).manifest.value.layers;
      && |layers| == LayersBefore(p.su, p.items, |p.items|)
      && LayersBefore(p.su, p.items, i) + j < |layers|
      && (Splits(p.su, e) ==> 0 <= j * p.su.chunkSize <= |e.data|)
      && var piece := if Splits(p.su, e) then e.data[j * p.su.chunkSize..Min((j + 1) * p.su.chunkSize, |e.data|)] else e.data;
      IsLayerOf(p.su, e, j, piece, layers[LayersBefore(p.su, p.items, i) + j])
  {
    hide EntryOk, PushMachine.Apply, PushMachine.Enabled, PushInvariant.Reading, IsLayerOf, PieceCount, Tasks, FinalConfig, FinalAssembly, Desc;
    PushReader.RunKeepsInv(p, store, steps);
    assert PushInvariant.PublishedSafely(p, EndOf(p, store, steps).store, EndOf(p, store, steps).manifest);
    var e := p.items[i];
    ExportedIsFile(e);
    AcceptedIsSized(p.su, e);
    PiecesAreCounted(p.su, e);
    TasksAreCounted(p, |p.items|);
    TasksAreCounted(p, i);
    FileTasks(p.su, p.items, i);
    LayersAreTasks(p.su, p.items);
    TaskOfPiece(p.su, e, j);
  }

  // ----- What a pull gives back -----

  /**
   * Any push, any pull: a completed pull has written the exported config object under the local name, and
   * then every exported file, in the export's order and nothing else.
   */
  lemma PulledTarInFull(p: PushMachine.Push, store: Store, steps: seq<PushMachine.Step>,
      req: Request, config: Option<Script>, traces: seq<Trace>, framed: bool)
    returns (k: nat, source: seq<nat>)
    requires Published(p, store, steps) && PullsFrom(p, EndOf(p, store, steps).store, req) && DistinctNames(p.items)
    requires PullParsed(req, EndOf(p, store, steps).manifest.value, config, traces, framed).Done?
    ensures IsEnvelopeOf(p.items, k) && req.w.envelope(p.items[k].data).Some?
    ensures forall s, t :: 0 <= s < t < |source| ==> source[s] < source[t]
    ensures forall i :: i in source <==> 0 <= i < |p.items| && IsExported(p.items[i])
    ensures
      var tar := PullParsed(req, EndOf(p, store, steps).manifest.value, config, traces, framed).tar;
      var local := if req.opts.localName == "" then req.opts.name else req.opts.localName;
      && |tar| == |source| + 1
      && tar[0].body == req.w.rename(req.w.envelope(p.items[k].data).value, local)
      && tar[0].header == Header("snapshot.json", |tar[0].body|, 420, map[])
      && forall t :: 0 <= t < |source| ==> 0 <= source[t] < |p.items| && GivesBack(p.items[source[t]], tar[t + 1])
  {
    hide EntryOk, PullParsed, FinalManifest, FinalConfig, SparseOk, GivesBack, IsExported, RestoredTar, PushMachine.Exec, Published;
    PullIsNeverWrong(p, store, steps, req, config, traces, framed);
    PublishedIsReadable(p, store, steps, req);
    k := PublishedEnvelope(p, store, steps);
    source := FileIndices(p.items, |p.items|);
    IndicesIncrease(p.items, |p.items|);
    forall i: nat
      ensures i in source <==> i < |p.items| && IsExported(p.items[i])
    {
      IndicesAreTheExported(p.items, |p.items|, i);
    }
    RestoredTarGivesBack(p.su, req, p.items, EngineOf(p));
  }

  /** The restored tar, entry by entry. */
  lemma RestoredTarGivesBack(su: Setup, req: Request, items: seq<Entry>, engine: Bytes)
    requires TarRead(su, items) && SparseRecordsOk(items)
    ensures
      var tar, source := RestoredTar(req, items, engine), FileIndices(items, |items|);
      && |tar| == |source| + 1
      && tar[0].body == req.w.rename(engine, req.opts.Local())
      && tar[0].header == Header("snapshot.json", |tar[0].body|, 420, map[])
      && forall t :: 0 <= t < |source| ==> GivesBack(items[source[t]], tar[t + 1])
  {
    hide GivesBack, Restored, IsExported, EntryOk, SparseOk, IsFile;
    var source := FileIndices(items, |items|);
    IndicesListTheFiles(items, |items|);
    forall t | 0 <= t < |source|
      ensures GivesBack(items[source[t]], Restored(items[source[t]]))
    {
      var e := items[source[t]];
      IndicesAreTheExported(items, |items|, source[t]);
      ExportedIsFile(e);
      AcceptedHasMeta(su, e);
      RestoredGivesBack(e);
    }
  }

  lemma AcceptedHasMeta(su: Setup, e: Entry)
    requires EntryOk(su, e) && IsFile(e)
    ensures SparseFileMeta(e).Some?
  {
  }

  /** The exported config object of a published export is its last envelope's. */
  lemma PublishedEnvelope(p: PushMachine.Push, store: Store, steps: seq<PushMachine.Step>) returns (k: nat)
    requires Published(p, store, steps)
    ensures IsEnvelopeOf(p.items, k) && p.su.w.envelope(p.items[k].data) == Some(EngineOf(p))
  {
    hide EntryOk, PushMachine.Apply, PushMachine.Enabled, PushInvariant.Reading, FinalManifest, FinalConfig;
    PushReader.RunKeepsInv(p, store, steps);
    assert PushInvariant.PublishedSafely(p, EndOf(p, store, steps).store, EndOf(p, store, steps).manifest);
    k := EnvelopeIsTheLast(p.su, p.items, |p.items|);
    assert p.items[..|p.items|] == p.items;
  }

  /** The sparse records of a file come back unchanged when its size was written in plain decimal. */
  lemma PlainSparseRecordsComeBack(e: Entry, back: TarEntry, n: int)
    requires GivesBack(e, back) && SPARSE_MAP in e.pax && e.pax[SPARSE_MAP] != ""
    requires MIN_INT64 <= n <= MAX_INT64 && SPARSE_SIZE in e.pax && e.pax[SPARSE_SIZE] == Format(n)
    ensures n > 0
    ensures back.header.pax == map[SPARSE_MAP := e.pax[SPARSE_MAP], SPARSE_SIZE := e.pax[SPARSE_SIZE]]
  {
    hide Denotes, Parse, Format;
    var m: int :| m > 0 && SparseSizeIs(e, m) && back.header.pax == map[SPARSE_MAP := e.pax[SPARSE_MAP], SPARSE_SIZE := Format(m)];
    ParseAcceptsExactly(e.pax[SPARSE_SIZE], m);
    ParseOfFormat(n);
  }
}
