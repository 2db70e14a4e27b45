/**
 * A push as a step machine: the reader of the export tar, the bounded pool of encode/upload workers
 * with its two buffer pools, the registry, and the publication of config and manifest. Any registry
 * call may fail, the caller may cancel, and other clients may upload blobs, at any time.
 */
module PushMachine {
  import opened Sequences
  import opened Manifest
  import opened World
  import opened PushSpec
  import opened BufPools
  import Chunking

  datatype Err =
    | TarErr | EntryErr | ReadErr | SpoolErr | UploadErr | Canceled
    | WorkerErr | ExportErr | MissingEnvelope | ConfigErr | PublishErr

  /** The fixed part of a push: worker count from the budget, entries of the tar. */
  datatype Push = Push(su: Setup, workers: nat, items: seq<Entry>) {
    predicate Ok() {
      workers >= 1 && TarOk(items)
    }
  }

  /** The buffer a task occupies: none when the reader spools it, else one of either pool. */
  datatype Hold = Nothing | RawBuf(buf: nat) | OutBuf(buf: nat)

  datatype Stage =
    | WantOut(raw: nat)
    | Encoding(raw: nat, out: nat)
    | Checking(hold: Hold, stored: Bytes)
    | Putting(hold: Hold, stored: Bytes)
    | Done(desc: Descriptor)
    | Failed(inline: bool)

  datatype Reader =
    | Top
    | NextEntry
    | ChunkTop
    | TakingRaw
    | ReadingChunk(buf: nat)
    | HandingOver(buf: nat, raw: Bytes)
    | Spooling
    | Inline
    | Waiting
    | Exported
    | CheckConfig
    | PutConfig
    | Publishing
    | Published
    | Aborted(err: Err)
    | Crashed

  /** What the reader has accumulated. */
  datatype Progress = Progress(
    pos: nat,
    files: map<string, SnapshotFile>,
    groups: seq<Group>,
    encoded: bool,
    envelope: Option<Bytes>)

  datatype State = State(
    reader: Reader,
    tar: Progress,
    cut: nat,
    rest: Bytes,
    tasks: seq<Task>,
    stages: seq<Stage>,
    readErr: Option<Err>,
    groupErr: Option<Err>,
    parentCancelled: bool,
    rawFree: seq<nat>,
    outFree: seq<nat>,
    assembly: Assembly,
    store: Store,
    manifest: Option<OCIManifest>)
  {
    /** The error group's context: cancelled with the caller's, or by the first worker that fails. */
    predicate Cancelled() {
      groupErr.Some? || parentCancelled
    }
  }

  /** The slot a worker fills when it succeeds; a zero descriptor until then. */
  function DescAt(stages: seq<Stage>, j: nat): Descriptor {
    if j < |stages| && stages[j].Done? then stages[j].desc else Descriptor("", "", 0, map[])
  }

  function Slots(stages: seq<Stage>, first: nat, count: nat): (r: seq<Descriptor>)
    ensures |r| == count
  {
    seq(count, i requires 0 <= i < count => DescAt(stages, first + i))
  }

  function Collected(groups: seq<Group>, stages: seq<Stage>): (r: seq<ChunkGroup>)
    ensures |r| == |groups|
  {
    seq(|groups|, g requires 0 <= g < |groups| => ChunkGroup(groups[g].name, Slots(stages, groups[g].first, groups[g].count)))
  }

  datatype Step =
    | SeeCancel
    | Proceed
    | EndOfTar
    | TarFault
    | ReadEntry
    | ChunkCancelled
    | ChunkProceed
    | TakeRaw
    | ReadChunk
    | ChunkFault
    | HandOver
    | GroupDone
    | SpoolDone
    | SpoolFault(err: Err)
    | InlineDone
    | InlineFailed(err: Err)
    | Join
    | ExportEnds(ok: bool)
    | ConfigExists
    | ConfigMissing
    | ConfigCheckFault
    | ConfigStored
    | ConfigPutFault(applied: bool)
    | Publish
    | PublishFault(applied: bool)
    | TakeOut(j: nat)
    | Encode(j: nat, grown: nat)
    | BlobExists(j: nat)
    | BlobMissing(j: nat)
    | CheckFault(j: nat)
    | BlobStored(j: nat)
    | PutFault(j: nat, applied: bool)
    | ParentCancel
    | OtherUpload(blob: Bytes)

  predicate WorkerStep(step: Step) {
    || step.TakeOut? || step.Encode? || step.BlobExists? || step.BlobMissing?
    || step.CheckFault? || step.BlobStored? || step.PutFault?
  }

  /** Steps that change where the reader stands, or its error, and nothing else. */
  predicate MovingStep(step: Step) {
    || step.SeeCancel? || step.Proceed? || step.EndOfTar? || step.TarFault? || step.ChunkCancelled? || step.ChunkProceed?
    || step.SpoolFault? || step.InlineFailed? || step.ExportEnds? || step.ConfigExists? || step.ConfigMissing?
    || step.ConfigCheckFault?
  }

  predicate EnvironmentStep(step: Step) {
    step.ParentCancel? || step.OtherUpload?
  }

  function Init(p: Push, store: Store): State {
    State(Top, Progress(0, map[], [], false, None), 0, [], [], [], None, None, false,
      FreshPool(p.workers + 1), FreshPool(p.workers + 1), Assembly([], map[]), store, None)
  }

  /** A task the error group counts against its limit. */
  function Active(st: Stage): nat {
    match st
    case WantOut(_) => 1
    case Encoding(_, _) => 1
    case Checking(hold, _) => if hold.Nothing? then 0 else 1
    case Putting(hold, _) => if hold.Nothing? then 0 else 1
    case Done(_) => 0
    case Failed(_) => 0
  }

  function RawHeld(st: Stage): nat {
    match st
    case WantOut(_) => 1
    case Encoding(_, _) => 1
    case Checking(hold, _) => if hold.RawBuf? then 1 else 0
    case Putting(hold, _) => if hold.RawBuf? then 1 else 0
    case Done(_) => 0
    case Failed(_) => 0
  }

  function OutHeld(st: Stage): nat {
    match st
    case WantOut(_) => 0
    case Encoding(_, _) => 1
    case Checking(hold, _) => if hold.OutBuf? then 1 else 0
    case Putting(hold, _) => if hold.OutBuf? then 1 else 0
    case Done(_) => 0
    case Failed(_) => 0
  }

  function ReaderRaw(r: Reader): nat {
    if r.ReadingChunk? || r.HandingOver? then 1 else 0
  }

  /** readAndUploadEntries' verdict after the wait: the read error, unless a worker's failure is what cancelled the read. */
  function FinalError(readErr: Option<Err>, waitErr: Option<Err>, parentCancelled: bool): Option<Err> {
    var err := if readErr.None? || (waitErr.Some? && readErr == Some(Canceled)) then waitErr else readErr;
    if err.None? && parentCancelled then Some(Canceled) else err
  }

  function ConfigText(p: Push, tar: Progress, assembly: Assembly): Bytes {
    p.su.w.configText(ConfigOf(tar.envelope.GetOr([]), assembly.files, tar.encoded))
  }

  function ManifestOf(p: Push, tar: Progress, assembly: Assembly): OCIManifest {
    BuildManifest(ConfigDescriptor(p.su.w, ConfigText(p, tar, assembly)), assembly.layers, tar.encoded)
  }

  predicate WorkerEnabled(p: Push, s: State, step: Step)
    requires WorkerStep(step)
  {
    && step.j < |s.stages| && step.j < |s.tasks|
    && match step
       case TakeOut(j) => s.stages[j].WantOut? && s.outFree != []
       case Encode(j, grown) => s.stages[j].Encoding? && s.stages[j].out <= grown
       case BlobExists(j) => s.stages[j].Checking? && p.su.w.digest(s.stages[j].stored) in s.store
       case BlobMissing(j) => s.stages[j].Checking? && p.su.w.digest(s.stages[j].stored) !in s.store
       case CheckFault(j) => s.stages[j].Checking?
       case BlobStored(j) => s.stages[j].Putting?
       case PutFault(j, _) => s.stages[j].Putting?
  }

  /** The loop bound enqueueChunks computes for an entry; a negative one never gets as far as the loop. */
  function ChunkTotal(p: Push, pos: nat): nat
    requires pos < |p.items|
  {
    if p.su.chunkSize > 0 && p.items[pos].size >= 0 then
      Max(Chunking.CountInt64(p.items[pos].size, p.su.chunkSize), 0)
    else 0
  }

  predicate MovingEnabled(p: Push, s: State, step: Step)
    requires MovingStep(step)
  {
    match step
    case SeeCancel => s.reader.Top? && s.Cancelled()
    case Proceed => s.reader.Top? && !s.Cancelled()
    case EndOfTar => s.reader.NextEntry? && s.tar.pos == |p.items|
    case TarFault => s.reader.NextEntry?
    case ChunkCancelled => s.reader.ChunkTop? && s.tar.pos < |p.items| && s.cut < ChunkTotal(p, s.tar.pos) && s.Cancelled()
    case ChunkProceed => s.reader.ChunkTop? && s.tar.pos < |p.items| && s.cut < ChunkTotal(p, s.tar.pos) && !s.Cancelled()
    case SpoolFault(_) => s.reader.Spooling?
    case InlineFailed(_) => s.reader.Inline? && s.stages != [] && s.stages[|s.stages| - 1].Failed?
    case ExportEnds(_) => s.reader.Exported?
    case ConfigExists => s.reader.CheckConfig? && p.su.w.digest(ConfigText(p, s.tar, s.assembly)) in s.store
    case ConfigMissing => s.reader.CheckConfig? && p.su.w.digest(ConfigText(p, s.tar, s.assembly)) !in s.store
    case ConfigCheckFault => s.reader.CheckConfig?
  }

  predicate Enabled(p: Push, s: State, step: Step) {
    if WorkerStep(step) then WorkerEnabled(p, s, step)
    else if MovingStep(step) then MovingEnabled(p, s, step)
    else
      match step
      case ReadEntry => s.reader.NextEntry? && s.tar.pos < |p.items|
      case TakeRaw => s.reader.TakingRaw? && s.rawFree != []
      case ReadChunk => s.reader.ReadingChunk?
      case ChunkFault => s.reader.ReadingChunk?
      case HandOver => s.reader.HandingOver? && s.tar.pos < |p.items| && Total(s.stages, Active) < p.workers
      case GroupDone => s.reader.ChunkTop? && s.tar.pos < |p.items| && s.cut == ChunkTotal(p, s.tar.pos) && s.cut <= |s.tasks|
      case SpoolDone => s.reader.Spooling? && s.tar.pos < |p.items|
      case InlineDone => s.reader.Inline? && s.tar.pos < |p.items| && s.stages != [] && s.stages[|s.stages| - 1].Done? && s.tasks != []
      case Join => s.reader.Waiting? && Total(s.stages, Active) == 0
      case ConfigStored => s.reader.PutConfig?
      case ConfigPutFault(_) => s.reader.PutConfig?
      case Publish => s.reader.Publishing?
      case PublishFault(_) => s.reader.Publishing?
      case ParentCancel => !s.parentCancelled
      case OtherUpload(_) => true
      case _ => false
  }

  function WithBlob(p: Push, store: Store, blob: Bytes): Store {
    store[p.su.w.digest(blob) := blob]
  }

  /** What a worker step changes: its task's stage, the free buffers, the registry and the group's error. */
  datatype Effect = Effect(stage: Stage, rawFree: seq<nat>, outFree: seq<nat>, store: Store, groupErr: Option<Err>)

  /** A task that ends gives its buffer back. */
  function Ending(s: State, hold: Hold, stage: Stage, store: Store, groupErr: Option<Err>): Effect {
    match hold
    case Nothing => Effect(stage, s.rawFree, s.outFree, store, groupErr)
    case RawBuf(buf) => Effect(stage, PutBuf(s.rawFree, buf), s.outFree, store, groupErr)
    case OutBuf(buf) => Effect(stage, s.rawFree, PutBuf(s.outFree, buf), store, groupErr)
  }

  /** A failed task: unless the reader runs it itself, the error group remembers the first failure. */
  function Failing(s: State, hold: Hold, store: Store): Effect {
    Ending(s, hold, Failed(hold.Nothing?), store, if hold.Nothing? || s.groupErr.Some? then s.groupErr else Some(WorkerErr))
  }

  function WorkerEffect(p: Push, s: State, step: Step): Effect
    requires WorkerStep(step) && WorkerEnabled(p, s, step)
  {
    var stage, task := s.stages[step.j], s.tasks[step.j];
    match step
    case TakeOut(_) => Effect(Encoding(stage.raw, TakeBuf(s.outFree, |task.raw|)), s.rawFree, s.outFree[1..], s.store, s.groupErr)
    case Encode(_, grown) =>
      Effect(Checking(OutBuf(grown), p.su.w.encodeAll(p.su.level, task.raw)), PutBuf(s.rawFree, stage.raw), s.outFree, s.store, s.groupErr)
    case BlobExists(_) => Ending(s, stage.hold, Done(DescriptorOf(p.su, task, stage.stored)), s.store, s.groupErr)
    case BlobMissing(_) => Effect(Putting(stage.hold, stage.stored), s.rawFree, s.outFree, s.store, s.groupErr)
    case CheckFault(_) => Failing(s, stage.hold, s.store)
    case BlobStored(_) =>
      Ending(s, stage.hold, Done(DescriptorOf(p.su, task, stage.stored)), WithBlob(p, s.store, stage.stored), s.groupErr)
    case PutFault(_, applied) => Failing(s, stage.hold, if applied then WithBlob(p, s.store, stage.stored) else s.store)
  }

  function ApplyWorker(p: Push, s: State, step: Step): State
    requires WorkerStep(step) && WorkerEnabled(p, s, step)
  {
    var e := WorkerEffect(p, s, step);
    s.(stages := s.stages[step.j := e.stage], rawFree := e.rawFree, outFree := e.outFree, store := e.store, groupErr := e.groupErr)
  }

  /** Where a moving step leaves the reader, and its error. */
  function Moved(p: Push, s: State, step: Step): (Reader, Option<Err>)
    requires MovingStep(step) && MovingEnabled(p, s, step)
  {
    match step
    case SeeCancel => (Waiting, s.readErr)
    case Proceed => (NextEntry, s.readErr)
    case EndOfTar => (Waiting, s.readErr)
    case TarFault => (Waiting, Some(TarErr))
    case ChunkCancelled => (Waiting, Some(Canceled))
    case ChunkProceed => (TakingRaw, s.readErr)
    case SpoolFault(err) => (Waiting, Some(err))
    case InlineFailed(err) => (Waiting, Some(err))
    case ExportEnds(ok) =>
      (if !ok then Aborted(ExportErr) else if s.tar.envelope.None? then Aborted(MissingEnvelope) else CheckConfig, s.readErr)
    case ConfigExists => (Publishing, s.readErr)
    case ConfigMissing => (PutConfig, s.readErr)
    case ConfigCheckFault => (Aborted(ConfigErr), s.readErr)
  }

  /** What reading an entry header does to the reader, its error and what it has accumulated. */
  function EntryRead(p: Push, tar: Progress): (Reader, Option<Err>, Progress)
    requires tar.pos < |p.items|
  {
    var e := p.items[tar.pos];
    if IsEnvelope(e) then
      var envelope := p.su.w.envelope(e.data);
      if envelope.None? then (Waiting, Some(EntryErr), tar.(envelope := None))
      else (Top, None, tar.(pos := tar.pos + 1, envelope := envelope))
    else if !e.regular then (Top, None, tar.(pos := tar.pos + 1))
    else if e.size < 0 || SparseFileMeta(e).None? then (Waiting, Some(EntryErr), tar)
    else
      var files := tar.files[e.name := SparseFileMeta(e).value.(size := e.size)];
      var compress := p.su.level > 0 && e.size >= COMPRESS_MIN_BYTES;
      if p.su.chunkSize > 0 && (compress || e.size > p.su.chunkSize) then
        var count := Chunking.CountInt64(e.size, p.su.chunkSize);
        if count > Chunking.MAX_CHUNKS then (Waiting, Some(EntryErr), tar.(files := files, encoded := true))
        else if count < 0 then (Crashed, None, tar.(files := files, encoded := true))
        else (ChunkTop, None, tar.(files := files, encoded := true))
      else (Spooling, None, tar.(files := files, encoded := tar.encoded || compress))
  }

  function Apply(p: Push, s: State, step: Step): State
    requires Enabled(p, s, step)
  {
    if WorkerStep(step) then ApplyWorker(p, s, step)
    else if MovingStep(step) then
      var (reader, readErr) := Moved(p, s, step);
      s.(reader := reader, readErr := readErr)
    else
      match step
      case ReadEntry =>
        var (reader, readErr, tar) := EntryRead(p, s.tar);
        s.(reader := reader, readErr := if readErr.Some? then readErr else s.readErr, tar := tar, cut := 0, rest := p.items[s.tar.pos].data)
      case TakeRaw => s.(reader := ReadingChunk(TakeBuf(s.rawFree, p.su.chunkSize)), rawFree := s.rawFree[1..])
      case ReadChunk =>
        var want := Min(p.su.chunkSize, |s.rest|);
        s.(reader := HandingOver(s.reader.buf, s.rest[..want]), rest := s.rest[want..])
      case ChunkFault => s.(reader := Waiting, readErr := Some(ReadErr), rawFree := PutBuf(s.rawFree, s.reader.buf))
      case HandOver =>
        var task := ChunkTask(p.su, p.items[s.tar.pos], s.reader.raw, s.cut, ChunkTotal(p, s.tar.pos));
        s.(reader := ChunkTop, cut := s.cut + 1, tasks := s.tasks + [task], stages := s.stages + [FirstStage(task, s.reader.buf)])
      case GroupDone => s.(reader := Top, tar := WithGroup(p, s.tar, |s.tasks| - s.cut, s.cut))
      case SpoolDone =>
        var task := SpoolTask(p.su, p.items[s.tar.pos]);
        s.(reader := Inline, tasks := s.tasks + [task], stages := s.stages + [Checking(Nothing, Stored(p.su, task))])
      case InlineDone => s.(reader := Top, tar := WithGroup(p, s.tar, |s.tasks| - 1, 1))
      case Join =>
        var err := FinalError(s.readErr, s.groupErr, s.parentCancelled);
        if err.Some? then s.(reader := Aborted(err.value))
        else
          var groups := Collected(s.tar.groups, s.stages);
          s.(reader := Exported, assembly := Assemble(groups, s.tar.files, |groups|))
      case ConfigStored => s.(reader := Publishing, store := WithBlob(p, s.store, ConfigText(p, s.tar, s.assembly)))
      case ConfigPutFault(applied) =>
        s.(reader := Aborted(ConfigErr), store := if applied then WithBlob(p, s.store, ConfigText(p, s.tar, s.assembly)) else s.store)
      case Publish => s.(reader := Published, manifest := Some(ManifestOf(p, s.tar, s.assembly)))
      case PublishFault(applied) =>
        s.(reader := Aborted(PublishErr), manifest := if applied then Some(ManifestOf(p, s.tar, s.assembly)) else s.manifest)
      case ParentCancel => s.(parentCancelled := true)
      case OtherUpload(blob) => s.(store := WithBlob(p, s.store, blob))
  }

  /** A chunk that will be compressed first waits for an output buffer; a raw one goes straight to the registry. */
  function FirstStage(task: Task, buf: nat): Stage {
    if IsZstdMediaType(task.mediaType) then WantOut(buf) else Checking(RawBuf(buf), task.raw)
  }

  function WithGroup(p: Push, tar: Progress, first: nat, count: nat): Progress
    requires tar.pos < |p.items|
  {
    tar.(pos := tar.pos + 1, groups := tar.groups + [Group(p.items[tar.pos].name, first, count)])
  }

  function Exec(p: Push, s: State, steps: seq<Step>): Option<State> {
    if steps == [] then Some(s)
    else
      var before := Exec(p, s, steps[..|steps| - 1]);
      var step := steps[|steps| - 1];
      if before.None? || !Enabled(p, before.value, step) then None else Some(Apply(p, before.value, step))
  }
}
