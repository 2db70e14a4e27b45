/** What a push makes of an export tar: which blobs a file becomes, and how they are listed in the manifest. */
module PushSpec {
  import opened Integers
  import opened Sequences
  import opened Decimal
  import opened Manifest
  import opened World
  import Chunking

  const SNAPSHOT_JSON := "snapshot.json"
  const SPARSE_PAX_MAP := "COCOON.sparse.map"
  const SPARSE_PAX_SIZE := "COCOON.sparse.size"
  const COMPRESS_MIN_BYTES := 0x10_0000

  /** A tar entry: its header fields and the bytes the stream holds for it. */
  datatype Entry = Entry(name: string, regular: bool, size: Int64, mode: int, pax: map<string, string>, data: Bytes)

  /** The codec and the two option values that decide how files are stored; chunk size 0 turns chunking off. */
  datatype Setup = Setup(w: World, level: int, chunkSize: Chunking.ChunkSize)

  /** One blob to upload. Inline tasks are spooled by the reader itself, the others go to the worker pool. */
  datatype Task = Task(title: string, mediaType: string, raw: Bytes, index: nat, count: nat, inline: bool)

  /** A file's blobs: `count` consecutive tasks starting at `first`. */
  datatype Group = Group(name: string, first: nat, count: nat)

  datatype ChunkGroup = ChunkGroup(name: string, descs: seq<Descriptor>)

  /** A tar reader delivers as many bytes as the header announces. */
  predicate TarOk(items: seq<Entry>) {
    forall i :: 0 <= i < |items| ==> items[i].size >= 0 ==> |items[i].data| == items[i].size
  }

  predicate IsEnvelope(e: Entry) {
    e.name == SNAPSHOT_JSON
  }

  predicate IsFile(e: Entry) {
    !IsEnvelope(e) && e.regular
  }

  predicate Compresses(su: Setup, e: Entry) {
    su.level > 0 && e.size >= COMPRESS_MIN_BYTES
  }

  predicate Chunked(su: Setup, e: Entry) {
    su.chunkSize > 0 && (Compresses(su, e) || e.size > su.chunkSize)
  }

  function SparseFileMeta(e: Entry): Option<SnapshotFile> {
    if SPARSE_PAX_MAP !in e.pax then Some(SnapshotFile(e.mode, "", 0, 0, []))
    else if SPARSE_PAX_SIZE !in e.pax then None
    else
      var n := Parse(e.pax[SPARSE_PAX_SIZE]);
      if n.None? then None else Some(SnapshotFile(e.mode, e.pax[SPARSE_PAX_MAP], n.value, 0, []))
  }

  /** The reader accepts the entry: an object as envelope config, and for a file a sane header. */
  predicate EntryOk(su: Setup, e: Entry) {
    if IsEnvelope(e) then su.w.envelope(e.data).Some?
    else IsFile(e) ==>
      && e.size >= 0
      && SparseFileMeta(e).Some?
      && (Chunked(su, e) ==> 0 <= Chunking.CountInt64(e.size, su.chunkSize) <= Chunking.MAX_CHUNKS)
  }

  /** A sane header whose chunk count wraps: allocating that many slots panics. */
  predicate Crashes(su: Setup, e: Entry) {
    && IsFile(e) && e.size >= 0 && SparseFileMeta(e).Some?
    && Chunked(su, e) && Chunking.CountInt64(e.size, su.chunkSize) < 0
  }

  /** A header crashes the push exactly when its size is within a chunk of the int64 limit, and never when it is accepted. */
  lemma CrashesIff(su: Setup, e: Entry)
    ensures Crashes(su, e) <==>
      IsFile(e) && SparseFileMeta(e).Some? && su.chunkSize > 0 && Chunking.CountWraps(e.size, su.chunkSize)
    ensures Crashes(su, e) ==> !EntryOk(su, e)
  {
    hide SparseFileMeta, IsEnvelope, Chunking.CountInt64;
    if su.chunkSize > 0 && e.size >= 0 {
      Chunking.CountIsExactUnlessItWraps(e.size, su.chunkSize);
    }
  }

  /** An accepted file is cut into as many chunks as its size needs. */
  lemma AcceptedCountIsExact(su: Setup, e: Entry)
    requires EntryOk(su, e) && IsFile(e) && Chunked(su, e)
    ensures e.size >= 0
    ensures Chunking.CountInt64(e.size, su.chunkSize) == Chunking.ChunkCount(e.size, su.chunkSize) <= Chunking.MAX_CHUNKS
  {
    hide SparseFileMeta, IsEnvelope, Chunking.CountInt64;
    Chunking.CountIsExactUnlessItWraps(e.size, su.chunkSize);
  }

  function FileMeta(e: Entry): SnapshotFile {
    SparseFileMeta(e).GetOr(NO_FILE).(size := e.size)
  }

  function LayerType(su: Setup, e: Entry): string {
    var mt := MediaTypeForCocoonFile(e.name);
    if Compresses(su, e) then ZstdMediaType(mt) else mt
  }

  function ChunkTask(su: Setup, e: Entry, raw: Bytes, index: nat, count: nat): Task {
    Task(e.name, LayerType(su, e), raw, index, count, false)
  }

  function SpoolTask(su: Setup, e: Entry): Task {
    Task(e.name, LayerType(su, e), e.data, 0, 1, true)
  }

  function ChunkTasks(su: Setup, e: Entry): seq<Task>
    requires su.chunkSize > 0
  {
    var raws := Chunking.Cut(e.data, su.chunkSize);
    seq(|raws|, i requires 0 <= i < |raws| => ChunkTask(su, e, raws[i], i, |raws|))
  }

  /** The tasks of one file. */
  function Tasks(su: Setup, e: Entry): seq<Task> {
    if Chunked(su, e) then ChunkTasks(su, e) else [SpoolTask(su, e)]
  }

  /** The bytes a task uploads. */
  function Stored(su: Setup, t: Task): Bytes {
    if !IsZstdMediaType(t.mediaType) then t.raw
    else if t.inline then su.w.encodeStream(su.level, t.raw)
    else su.w.encodeAll(su.level, t.raw)
  }

  function DescriptorOf(su: Setup, t: Task, stored: Bytes): Descriptor {
    var title := map[ANNOTATION_TITLE := t.title];
    Descriptor(t.mediaType, su.w.digest(stored), |stored|,
      if t.count > 1 then title[ANNOTATION_CHUNK_INDEX := Format(t.index)][ANNOTATION_CHUNK_COUNT := Format(t.count)] else title)
  }

  function Desc(su: Setup, t: Task): Descriptor {
    DescriptorOf(su, t, Stored(su, t))
  }

  // ----- What the reader has accumulated after `n` entries -----

  function TasksUpTo(su: Setup, items: seq<Entry>, n: nat): seq<Task>
    requires n <= |items|
  {
    if n == 0 then []
    else TasksUpTo(su, items, n - 1) + if IsFile(items[n - 1]) then Tasks(su, items[n - 1]) else []
  }

  function FilesUpTo(items: seq<Entry>, n: nat): map<string, SnapshotFile>
    requires n <= |items|
  {
    if n == 0 then map[]
    else if IsFile(items[n - 1]) then FilesUpTo(items, n - 1)[items[n - 1].name := FileMeta(items[n - 1])]
    else FilesUpTo(items, n - 1)
  }

  function GroupsUpTo(su: Setup, items: seq<Entry>, n: nat): seq<Group>
    requires n <= |items|
  {
    if n == 0 then []
    else if IsFile(items[n - 1]) then
      GroupsUpTo(su, items, n - 1)
      + [Group(items[n - 1].name, |TasksUpTo(su, items, n - 1)|, |Tasks(su, items[n - 1])|)]
    else GroupsUpTo(su, items, n - 1)
  }

  predicate EncodedUpTo(su: Setup, items: seq<Entry>, n: nat)
    requires n <= |items|
  {
    exists i :: 0 <= i < n && IsFile(items[i]) && (Compresses(su, items[i]) || Chunked(su, items[i]))
  }

  function EnvelopeUpTo(su: Setup, items: seq<Entry>, n: nat): Option<Bytes>
    requires n <= |items|
  {
    if n == 0 then None
    else if IsEnvelope(items[n - 1]) then su.w.envelope(items[n - 1].data)
    else EnvelopeUpTo(su, items, n - 1)
  }

  // ----- Assembly of the layer list and the chunk lists -----

  datatype Assembly = Assembly(layers: seq<Descriptor>, files: map<string, SnapshotFile>)

  function Digests(descs: seq<Descriptor>): (r: seq<string>)
    ensures |r| == |descs|
  {
    seq(|descs|, i requires 0 <= i < |descs| => descs[i].digest)
  }

  function FileOf(files: map<string, SnapshotFile>, name: string): SnapshotFile {
    if name in files then files[name] else NO_FILE
  }

  function Assemble(groups: seq<ChunkGroup>, files: map<string, SnapshotFile>, n: nat): Assembly
    requires n <= |groups|
  {
    if n == 0 then Assembly([], files)
    else
      var before := Assemble(groups, files, n - 1);
      var g := groups[n - 1];
      Assembly(before.layers + g.descs,
        if |g.descs| < 2 then before.files
        else before.files[g.name := FileOf(before.files, g.name).(chunks := Digests(g.descs))])
  }

  method AssembleGroups(groups: seq<ChunkGroup>, files: map<string, SnapshotFile>) returns (r: Assembly)
    ensures r == Assemble(groups, files, |groups|)
  {
    var layers: seq<Descriptor> := [];
    var out := files;
    for n := 0 to |groups|
      invariant Assembly(layers, out) == Assemble(groups, files, n)
    {
      var group := groups[n];
      layers := layers + group.descs;
      if |group.descs| >= 2 {
        var fm := if group.name in out then out[group.name] else NO_FILE;
        var chunks: seq<string> := [];
        for i := 0 to |group.descs|
          invariant chunks == Digests(group.descs)[..i]
        {
          chunks := chunks + [group.descs[i].digest];
        }
        assert chunks == Digests(group.descs);
        out := out[group.name := fm.(chunks := chunks)];
      }
    }
    r := Assembly(layers, out);
  }

  // ----- The published artifact -----

  datatype Markers = Markers(schemaVersion: string, artifactType: string)

  function SnapshotVersionMarkers(encoded: bool): Markers {
    if encoded then Markers("v2", ARTIFACT_TYPE_SNAPSHOT_V2) else Markers("v1", ARTIFACT_TYPE_SNAPSHOT)
  }

  function ConfigOf(engine: Bytes, files: map<string, SnapshotFile>, encoded: bool): SnapshotConfig {
    SnapshotConfig(SnapshotVersionMarkers(encoded).schemaVersion, engine, files)
  }

  function ConfigDescriptor(w: World, text: Bytes): Descriptor {
    Descriptor(MEDIA_TYPE_SNAPSHOT_CONFIG, w.digest(text), |text|, map[])
  }

  function BuildManifest(config: Descriptor, layers: seq<Descriptor>, encoded: bool): OCIManifest {
    OCIManifest(MEDIA_TYPE_OCI_MANIFEST, SnapshotVersionMarkers(encoded).artifactType, config, layers)
  }

  /** Every group lies within the first `total` tasks. */
  predicate Covered(groups: seq<Group>, total: nat) {
    forall g :: 0 <= g < |groups| ==> groups[g].first + groups[g].count <= total
  }

  /** The groups with every task's descriptor in place. */
  function GroupDescs(su: Setup, tasks: seq<Task>, groups: seq<Group>): seq<ChunkGroup>
    requires Covered(groups, |tasks|)
  {
    seq(|groups|, g requires 0 <= g < |groups| =>
      ChunkGroup(groups[g].name, DescRange(su, tasks, groups[g].first, groups[g].count)))
  }

  function DescRange(su: Setup, tasks: seq<Task>, first: nat, count: nat): (r: seq<Descriptor>)
    requires first + count <= |tasks|
    ensures |r| == count
  {
    seq(count, i requires 0 <= i < count => Desc(su, tasks[first + i]))
  }

  lemma {:induction false} GroupsCoverTasks(su: Setup, items: seq<Entry>, n: nat)
    requires n <= |items|
    ensures Covered(GroupsUpTo(su, items, n), |TasksUpTo(su, items, n)|)
  {
    if n > 0 {
      GroupsCoverTasks(su, items, n - 1);
      var more := if IsFile(items[n - 1]) then Tasks(su, items[n - 1]) else [];
      assert |TasksUpTo(su, items, n)| == |TasksUpTo(su, items, n - 1)| + |more|;
    }
  }

  function FinalGroups(su: Setup, items: seq<Entry>): seq<ChunkGroup> {
    GroupsCoverTasks(su, items, |items|);
    GroupDescs(su, TasksUpTo(su, items, |items|), GroupsUpTo(su, items, |items|))
  }

  function FinalAssembly(su: Setup, items: seq<Entry>): Assembly {
    var groups := FinalGroups(su, items);
    Assemble(groups, FilesUpTo(items, |items|), |groups|)
  }

  function FinalConfig(su: Setup, items: seq<Entry>, engine: Bytes): SnapshotConfig {
    ConfigOf(engine, FinalAssembly(su, items).files, EncodedUpTo(su, items, |items|))
  }

  /** The manifest a push of this tar publishes, computed without workers, pools or a registry. */
  function FinalManifest(su: Setup, items: seq<Entry>, engine: Bytes): OCIManifest {
    BuildManifest(ConfigDescriptor(su.w, su.w.configText(FinalConfig(su, items, engine))),
      FinalAssembly(su, items).layers, EncodedUpTo(su, items, |items|))
  }
}
