/** What a push has put in the registry once it publishes, over every run with failures at any call. */
module Publication {
  import opened Sequences
  import opened Manifest
  import opened World
  import opened PushSpec
  import opened Artifact
  import opened PushMachine
  import opened PushInvariant
  import opened PushReader
  import opened PushTheorems
  import Chunking

  /** The registry has a blob with this descriptor's digest and size. */
  ghost predicate Present(w: World, store: Store, d: Descriptor) {
    d.digest in store && w.digest(store[d.digest]) == d.digest && |store[d.digest]| == d.size
  }

  /** A manifest is never published before its config and every layer it names are in the registry. */
  lemma PublishedBlobsArePresent(p: Push, store: Store, steps: seq<Step>)
    requires p.Ok() && p.su.w.DigestInjective() && ContentAddressed(p.su.w, store)
    requires Exec(p, Init(p, store), steps).Some? && Exec(p, Init(p, store), steps).value.manifest.Some?
    ensures
      var s := Exec(p, Init(p, store), steps).value;
      var m := s.manifest.value;
      && Present(p.su.w, s.store, m.config)
      && forall l :: 0 <= l < |m.layers| ==> Present(p.su.w, s.store, m.layers[l])
  {
    hide FinalConfig, FinalAssembly, Reading, Stored;
    RunKeepsInv(p, store, steps);
    var s := Exec(p, Init(p, store), steps).value;
    LayersAreTasks(p.su, p.items);
    var tasks := TasksUpTo(p.su, p.items, |p.items|);
    forall l | 0 <= l < |s.manifest.value.layers|
      ensures Present(p.su.w, s.store, s.manifest.value.layers[l])
    {
      DescTitle(p.su, tasks[l]);
      assert Holds(p.su.w, s.store, Stored(p.su, tasks[l]));
    }
  }

  /** The pieces a chunk size cuts a file into: all of that size but the last, which may be shorter, and none empty. */
  ghost predicate CutsInto(data: Bytes, chunkSize: nat, pieces: seq<Bytes>) {
    && Flatten(pieces) == data
    && (forall c :: 0 <= c < |pieces| ==> 0 < |pieces[c]| <= chunkSize)
    && (forall c :: 0 <= c < |pieces| - 1 ==> |pieces[c]| == chunkSize)
  }

  /** How a piece of a file is stored. */
  function StoredPiece(su: Setup, e: Entry, piece: Bytes): Bytes {
    if Compresses(su, e) then su.w.encodeAll(su.level, piece) else piece
  }

  /**
   * After a successful wait, whatever order the uploads completed in: the chunk list of a file of several
   * pieces lists, in order, the stored forms of consecutive pieces of the file, and the registry has them.
   */
  lemma ChunkListIsTheFile(p: Push, store: Store, steps: seq<Step>, i: nat) returns (pieces: seq<Bytes>)
    requires p.Ok() && p.su.w.DigestInjective() && ContentAddressed(p.su.w, store) && DistinctNames(p.items)
    requires Exec(p, Init(p, store), steps).Some?
    requires PastWait(Exec(p, Init(p, store), steps).value) || Exec(p, Init(p, store), steps).value.manifest.Some?
    requires i < |p.items| && IsFile(p.items[i]) && |Tasks(p.su, p.items[i])| >= 2
    ensures
      var s := Exec(p, Init(p, store), steps).value;
      PastWait(s) ==> s.assembly == FinalAssembly(p.su, p.items)
    ensures CutsInto(p.items[i].data, p.su.chunkSize, pieces)
    ensures
      var chunks := FileOf(FinalAssembly(p.su, p.items).files, p.items[i].name).chunks;
      && |chunks| == |pieces| == Chunking.ChunkCount(|p.items[i].data|, p.su.chunkSize)
      && forall c :: 0 <= c < |chunks| ==>
           && chunks[c] == p.su.w.digest(StoredPiece(p.su, p.items[i], pieces[c]))
           && Holds(p.su.w, Exec(p, Init(p, store), steps).value.store, StoredPiece(p.su, p.items[i], pieces[c]))
  {
    hide FinalAssembly, Reading, Stored, Tasks, SparseFileMeta, Staged, Budgeted, FinalManifest, FinalConfig, Apply, Enabled;
    EverythingIsStored(p, store, steps);
    var s := Exec(p, Init(p, store), steps).value;
    var e := p.items[i];
    var tasks := Tasks(p.su, e);
    assert EntryOk(p.su, e);
    ConfigRecordsFile(p.su, p.items, i);
    PiecesOfFile(p.su, e);
    FileTasks(p.su, p.items, i);
    pieces := RawOf(tasks);
    var first := |TasksUpTo(p.su, p.items, i)|;
    forall c | 0 <= c < |tasks|
      ensures Desc(p.su, tasks[c]).digest == p.su.w.digest(StoredPiece(p.su, e, tasks[c].raw))
      ensures Holds(p.su.w, s.store, StoredPiece(p.su, e, tasks[c].raw))
    {
      StoredIsPiece(p.su, e, c);
      assert TasksUpTo(p.su, p.items, |p.items|)[first + c] == tasks[c];
    }
  }

  lemma AssembledAfterWait(p: Push, s: State)
    requires Inv(p, s) && PastWait(s)
    ensures s.assembly == FinalAssembly(p.su, p.items)
  {
    hide FinalAssembly, AtTop, AllDone, Staged, Budgeted, Accounted, PublishedSafely;
  }

  lemma StoredOncePublished(p: Push, s: State)
    requires Inv(p, s) && s.manifest.Some?
    ensures EntriesOk(p, |p.items|) && TasksStored(p, s.store)
  {
    hide Located, Staged, Budgeted, Accounted, FinalManifest, FinalConfig, EntryOk, TasksStored;
  }

  lemma StoredAfterWait(p: Push, store: Store, steps: seq<Step>)
    requires p.Ok() && p.su.w.DigestInjective() && ContentAddressed(p.su.w, store)
    requires Exec(p, Init(p, store), steps).Some? && PastWait(Exec(p, Init(p, store), steps).value)
    ensures EntriesOk(p, |p.items|) && TasksStored(p, Exec(p, Init(p, store), steps).value.store)
  {
    hide Exec, Stored, EntryOk;
    NothingTruncated(p, store, steps);
  }

  /** After the wait, and whenever a manifest is published, the whole tar is in the registry. */
  lemma EverythingIsStored(p: Push, store: Store, steps: seq<Step>)
    requires p.Ok() && p.su.w.DigestInjective() && ContentAddressed(p.su.w, store)
    requires Exec(p, Init(p, store), steps).Some?
    requires PastWait(Exec(p, Init(p, store), steps).value) || Exec(p, Init(p, store), steps).value.manifest.Some?
    ensures
      var s := Exec(p, Init(p, store), steps).value;
      EntriesOk(p, |p.items|) && TasksStored(p, s.store) && (PastWait(s) ==> s.assembly == FinalAssembly(p.su, p.items))
  {
    hide Inv, Exec, EntriesOk, TasksStored, PastWait, FinalAssembly;
    RunKeepsInv(p, store, steps);
    var s := Exec(p, Init(p, store), steps).value;
    if PastWait(s) {
      StoredAfterWait(p, store, steps);
      AssembledAfterWait(p, s);
    } else {
      StoredOncePublished(p, s);
    }
  }

  lemma PiecesOfFile(su: Setup, e: Entry)
    requires EntryOk(su, e) && IsFile(e) && (e.size >= 0 ==> |e.data| == e.size) && |Tasks(su, e)| >= 2
    ensures CutsInto(e.data, su.chunkSize, RawOf(Tasks(su, e)))
    ensures su.chunkSize > 0 && |Tasks(su, e)| == Chunking.ChunkCount(|e.data|, su.chunkSize)
    ensures Chunked(su, e) && |FinalMeta(su, e).chunks| == |Tasks(su, e)|
    ensures forall c :: 0 <= c < |Tasks(su, e)| ==> FinalMeta(su, e).chunks[c] == Desc(su, Tasks(su, e)[c]).digest
  {
    hide SparseFileMeta, Tasks;
    PiecesAreTheFile(su, e);
  }

  lemma StoredIsPiece(su: Setup, e: Entry, c: nat)
    requires Chunked(su, e) && c < |Tasks(su, e)|
    ensures Stored(su, Tasks(su, e)[c]) == StoredPiece(su, e, Tasks(su, e)[c].raw)
    ensures Desc(su, Tasks(su, e)[c]).digest == su.w.digest(Stored(su, Tasks(su, e)[c]))
  {
    hide IsZstdMediaType, LayerType, Tasks;
    TasksShareType(su, e, c);
    LayerTypeTells(su, e);
  }
}
