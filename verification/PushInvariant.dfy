/** The invariant of the push machine, and its preservation by every step. */
module PushInvariant {
  import opened Sequences
  import opened Manifest
  import opened World
  import opened PushSpec
  import opened BufPools
  import opened PushMachine
  import Chunking

  // ----- The registry -----

  ghost predicate Holds(w: World, store: Store, blob: Bytes) {
    w.digest(blob) in store && store[w.digest(blob)] == blob
  }

  lemma WithBlobKeeps(p: Push, store: Store, blob: Bytes)
    requires p.su.w.DigestInjective() && ContentAddressed(p.su.w, store)
    ensures ContentAddressed(p.su.w, WithBlob(p, store, blob))
    ensures Keeps(store, WithBlob(p, store, blob))
    ensures Holds(p.su.w, WithBlob(p, store, blob), blob)
  {
    var d := p.su.w.digest(blob);
    if d in store {
      assert p.su.w.digest(store[d]) == p.su.w.digest(blob);
    }
  }

  lemma PresentMeansHolds(w: World, store: Store, blob: Bytes)
    requires w.DigestInjective() && ContentAddressed(w, store) && w.digest(blob) in store
    ensures Holds(w, store, blob)
  {
    assert w.digest(store[w.digest(blob)]) == w.digest(blob);
  }

  // ----- Where the reader is -----

  ghost predicate EntriesOk(p: Push, n: nat)
    requires n <= |p.items|
  {
    forall i :: 0 <= i < n ==> EntryOk(p.su, p.items[i])
  }

  /** Between entries: everything accumulated is what the first `pos` entries say. */
  ghost predicate AtTop(p: Push, tar: Progress, tasks: seq<Task>) {
    && tar.pos <= |p.items|
    && EntriesOk(p, tar.pos)
    && tasks == TasksUpTo(p.su, p.items, tar.pos)
    && tar.files == FilesUpTo(p.items, tar.pos)
    && tar.groups == GroupsUpTo(p.su, p.items, tar.pos)
    && tar.encoded == EncodedUpTo(p.su, p.items, tar.pos)
    && tar.envelope == EnvelopeUpTo(p.su, p.items, tar.pos)
  }

  /** Inside a file entry: its metadata is recorded, its group is not. */
  ghost predicate InFile(p: Push, tar: Progress) {
    && tar.pos < |p.items|
    && EntriesOk(p, tar.pos + 1)
    && IsFile(p.items[tar.pos])
    && tar.files == FilesUpTo(p.items, tar.pos + 1)
    && tar.groups == GroupsUpTo(p.su, p.items, tar.pos)
    && tar.encoded == EncodedUpTo(p.su, p.items, tar.pos + 1)
    && tar.envelope == EnvelopeUpTo(p.su, p.items, tar.pos)
  }

  /** Inside the chunk loop: the first `cut` chunks are handed over, `left` are the pieces still to come. */
  ghost predicate InChunks(p: Push, tar: Progress, tasks: seq<Task>, cut: nat, left: seq<Bytes>) {
    && InFile(p, tar)
    && Chunked(p.su, p.items[tar.pos])
    && var e := p.items[tar.pos];
    && cut <= |ChunkTasks(p.su, e)|
    && tasks == TasksUpTo(p.su, p.items, tar.pos) + ChunkTasks(p.su, e)[..cut]
    && Chunking.Cut(e.data, p.su.chunkSize)[cut..] == left
  }

  /** The pieces of the rest of the entry; without chunking there are none. */
  function Left(p: Push, rest: Bytes): seq<Bytes> {
    if p.su.chunkSize > 0 then Chunking.Cut(rest, p.su.chunkSize) else []
  }

  ghost predicate InSpool(p: Push, tar: Progress, tasks: seq<Task>, spooled: bool) {
    && InFile(p, tar)
    && !Chunked(p.su, p.items[tar.pos])
    && tasks == TasksUpTo(p.su, p.items, if spooled then tar.pos + 1 else tar.pos)
  }

  ghost predicate AllDone(stages: seq<Stage>) {
    forall j :: 0 <= j < |stages| ==> stages[j].Done?
  }

  /** After a successful wait: the whole tar was read, every task is done, and the assembly is the specified one. */
  ghost predicate Complete(p: Push, tar: Progress, tasks: seq<Task>, stages: seq<Stage>, assembly: Assembly) {
    && AtTop(p, tar, tasks) && tar.pos == |p.items|
    && AllDone(stages)
    && assembly == FinalAssembly(p.su, p.items)
  }

  ghost predicate Reading(p: Push, s: State) {
    match s.reader
    case Top => AtTop(p, s.tar, s.tasks)
    case NextEntry => AtTop(p, s.tar, s.tasks)
    case ChunkTop => InChunks(p, s.tar, s.tasks, s.cut, Left(p, s.rest))
    case TakingRaw => InChunks(p, s.tar, s.tasks, s.cut, Left(p, s.rest)) && s.rest != []
    case ReadingChunk(_) => InChunks(p, s.tar, s.tasks, s.cut, Left(p, s.rest)) && s.rest != []
    case HandingOver(_, raw) => InChunks(p, s.tar, s.tasks, s.cut, [raw] + Left(p, s.rest))
    case Spooling => InSpool(p, s.tar, s.tasks, false)
    case Inline => InSpool(p, s.tar, s.tasks, true)
    case Waiting => s.readErr.None? ==> AtTop(p, s.tar, s.tasks) && (s.tar.pos == |p.items| || s.Cancelled())
    case Aborted(_) => true
    case Crashed => s.tar.pos < |p.items| && EntriesOk(p, s.tar.pos) && Crashes(p.su, p.items[s.tar.pos])
    case _ => Complete(p, s.tar, s.tasks, s.stages, s.assembly)
  }

  ghost predicate Located(p: Push, s: State) {
    && Reading(p, s)
    && (s.readErr.Some? ==> s.reader.Waiting? || s.reader.Aborted?)
    && (s.reader.CheckConfig? || s.reader.PutConfig? || s.reader.Publishing? ==> s.tar.envelope.Some?)
    && (s.reader.Publishing? ==> p.su.w.digest(ConfigText(p, s.tar, s.assembly)) in s.store)
    && (s.reader.Published? ==> s.manifest.Some?)
  }

  // ----- Where the tasks are -----

  ghost predicate StageOk(p: Push, store: Store, t: Task, st: Stage) {
    match st
    case WantOut(_) => IsZstdMediaType(t.mediaType) && !t.inline
    case Encoding(_, _) => IsZstdMediaType(t.mediaType) && !t.inline
    case Checking(hold, stored) => stored == Stored(p.su, t)
    case Putting(hold, stored) => stored == Stored(p.su, t)
    case Done(desc) => desc == Desc(p.su, t) && Holds(p.su.w, store, Stored(p.su, t))
    case Failed(_) => true
  }

  ghost predicate Staged(p: Push, store: Store, tasks: seq<Task>, stages: seq<Stage>) {
    && |stages| == |tasks|
    && forall j :: 0 <= j < |stages| ==> StageOk(p, store, tasks[j], stages[j])
  }

  predicate RunByReader(st: Stage) {
    (st.Checking? || st.Putting?) && st.hold.Nothing?
  }

  /** Whether the reader may be running, or may have just run, task `j` itself. */
  predicate ReaderRuns(reader: Reader, stages: seq<Stage>, j: nat) {
    reader.Inline? && j == |stages| - 1
  }

  /** The reader runs at most one task itself, and it is the last; failures are remembered. */
  ghost predicate Accounted(reader: Reader, readErr: Option<Err>, groupErr: Option<Err>, stages: seq<Stage>) {
    && (reader.Inline? ==>
         stages != [] && (var st := stages[|stages| - 1]; RunByReader(st) || st.Done? || st == Failed(true)))
    && (forall j :: 0 <= j < |stages| ==>
         && (RunByReader(stages[j]) ==> ReaderRuns(reader, stages, j))
         && (stages[j] == Failed(true) ==> readErr.Some? || reader.Aborted? || ReaderRuns(reader, stages, j))
         && (stages[j] == Failed(false) ==> groupErr.Some?))
  }

  /** Buffers are conserved and the group's limit is kept. */
  ghost predicate Budgeted(p: Push, held: nat, stages: seq<Stage>, rawFree: seq<nat>, outFree: seq<nat>) {
    && Total(stages, RawHeld) + held + |rawFree| == p.workers + 1
    && Total(stages, OutHeld) + |outFree| == p.workers + 1
    && Total(stages, Active) <= p.workers
  }

  /** What publication promises: the specified manifest, with everything it names in the registry. */
  ghost predicate PublishedSafely(p: Push, store: Store, manifest: Option<OCIManifest>) {
    manifest.Some? ==>
      && EntriesOk(p, |p.items|)
      && EnvelopeUpTo(p.su, p.items, |p.items|).Some?
      && var engine := EnvelopeUpTo(p.su, p.items, |p.items|).value;
      && manifest.value == FinalManifest(p.su, p.items, engine)
      && Holds(p.su.w, store, p.su.w.configText(FinalConfig(p.su, p.items, engine)))
      && TasksStored(p, store)
  }

  ghost predicate TasksStored(p: Push, store: Store) {
    var tasks := TasksUpTo(p.su, p.items, |p.items|);
    forall j :: 0 <= j < |tasks| ==> Holds(p.su.w, store, Stored(p.su, tasks[j]))
  }

  ghost predicate Inv(p: Push, s: State) {
    && ContentAddressed(p.su.w, s.store)
    && Located(p, s)
    && Staged(p, s.store, s.tasks, s.stages)
    && Accounted(s.reader, s.readErr, s.groupErr, s.stages)
    && Budgeted(p, ReaderRaw(s.reader), s.stages, s.rawFree, s.outFree)
    && PublishedSafely(p, s.store, s.manifest)
  }

  lemma InitInv(p: Push, store: Store)
    requires ContentAddressed(p.su.w, store)
    ensures Inv(p, Init(p, store))
  {
  }

  // ----- Steps of the workers -----

  lemma GrowthKeepsStaged(p: Push, before: Store, after: Store, tasks: seq<Task>, stages: seq<Stage>)
    requires Staged(p, before, tasks, stages) && Keeps(before, after)
    ensures Staged(p, after, tasks, stages)
  {
  }

  lemma GrowthKeepsPublished(p: Push, before: Store, after: Store, manifest: Option<OCIManifest>)
    requires PublishedSafely(p, before, manifest) && Keeps(before, after)
    ensures PublishedSafely(p, after, manifest)
  {
  }

  lemma WorkerUploads(p: Push, s: State, step: Step)
    requires WorkerStep(step) && WorkerEnabled(p, s, step)
    ensures
      var store := WorkerEffect(p, s, step).store;
      || store == s.store
      || (s.stages[step.j].Putting? && store == WithBlob(p, s.store, s.stages[step.j].stored))
  {
  }

  lemma WorkerKeepsStore(p: Push, s: State, step: Step)
    requires p.su.w.DigestInjective() && ContentAddressed(p.su.w, s.store) && WorkerStep(step) && WorkerEnabled(p, s, step)
    ensures ContentAddressed(p.su.w, ApplyWorker(p, s, step).store)
    ensures Keeps(s.store, ApplyWorker(p, s, step).store)
  {
    WorkerUploads(p, s, step);
    var store := WorkerEffect(p, s, step).store;
    assert ApplyWorker(p, s, step).store == store;
    if store != s.store {
      WithBlobKeeps(p, s.store, s.stages[step.j].stored);
    }
  }

  lemma WorkerStageOk(p: Push, s: State, step: Step)
    requires p.su.w.DigestInjective() && ContentAddressed(p.su.w, s.store)
    requires WorkerStep(step) && WorkerEnabled(p, s, step)
    requires StageOk(p, s.store, s.tasks[step.j], s.stages[step.j])
    ensures
      var effect := WorkerEffect(p, s, step);
      StageOk(p, effect.store, s.tasks[step.j], effect.stage)
  {
    if step.BlobStored? {
      WithBlobKeeps(p, s.store, s.stages[step.j].stored);
    } else if step.BlobExists? {
      PresentMeansHolds(p.su.w, s.store, s.stages[step.j].stored);
    }
  }

  lemma WorkerKeepsStaged(p: Push, s: State, step: Step)
    requires p.su.w.DigestInjective() && ContentAddressed(p.su.w, s.store) && Staged(p, s.store, s.tasks, s.stages)
    requires WorkerStep(step) && WorkerEnabled(p, s, step)
    ensures
      var effect := WorkerEffect(p, s, step);
      Staged(p, effect.store, s.tasks, s.stages[step.j := effect.stage])
  {
    WorkerKeepsStore(p, s, step);
    WorkerStageOk(p, s, step);
    GrowthKeepsStaged(p, s.store, WorkerEffect(p, s, step).store, s.tasks, s.stages);
  }

  lemma WorkerKeepsAccounted(p: Push, s: State, step: Step)
    requires Accounted(s.reader, s.readErr, s.groupErr, s.stages) && WorkerStep(step) && WorkerEnabled(p, s, step)
    ensures
      var effect := WorkerEffect(p, s, step);
      Accounted(s.reader, s.readErr, effect.groupErr, s.stages[step.j := effect.stage])
  {
    var effect := WorkerEffect(p, s, step);
    var was := s.stages[step.j];
    assert s.groupErr.Some? ==> effect.groupErr.Some?;
    assert RunByReader(effect.stage) ==> RunByReader(was);
    assert effect.stage == Failed(true) ==> RunByReader(was);
    assert effect.stage == Failed(false) ==> effect.groupErr.Some?;
    assert RunByReader(was) ==> RunByReader(effect.stage) || effect.stage.Done? || effect.stage == Failed(true);
    assert !was.Done? && !was.Failed?;
  }

  lemma WorkerBalances(p: Push, s: State, step: Step)
    requires WorkerStep(step) && WorkerEnabled(p, s, step)
    ensures
      var effect, was := WorkerEffect(p, s, step), s.stages[step.j];
      && RawHeld(effect.stage) + |effect.rawFree| == RawHeld(was) + |s.rawFree|
      && OutHeld(effect.stage) + |effect.outFree| == OutHeld(was) + |s.outFree|
      && Active(effect.stage) <= Active(was)
  {
  }

  lemma WorkerKeepsBudgeted(p: Push, s: State, step: Step, held: nat)
    requires Budgeted(p, held, s.stages, s.rawFree, s.outFree) && WorkerStep(step) && WorkerEnabled(p, s, step)
    ensures
      var effect := WorkerEffect(p, s, step);
      Budgeted(p, held, s.stages[step.j := effect.stage], effect.rawFree, effect.outFree)
  {
    var effect := WorkerEffect(p, s, step);
    WorkerBalances(p, s, step);
    TotalUpdate(s.stages, RawHeld, step.j, effect.stage);
    TotalUpdate(s.stages, OutHeld, step.j, effect.stage);
    TotalUpdate(s.stages, Active, step.j, effect.stage);
  }

  lemma WorkerKeepsLocated(p: Push, s: State, step: Step)
    requires p.su.w.DigestInjective() && ContentAddressed(p.su.w, s.store) && Located(p, s)
    requires WorkerStep(step) && WorkerEnabled(p, s, step)
    ensures Located(p, ApplyWorker(p, s, step))
  {
    hide AtTop, InFile, InChunks, InSpool, ConfigText, WorkerEffect, EntriesOk, Crashes;
    WorkerKeepsStore(p, s, step);
    WorkersRemember(p, s, step);
  }

  lemma WorkersRemember(p: Push, s: State, step: Step)
    requires WorkerStep(step) && WorkerEnabled(p, s, step)
    ensures !s.stages[step.j].Done?
    ensures s.groupErr.Some? ==> WorkerEffect(p, s, step).groupErr == s.groupErr
    ensures WorkerEffect(p, s, step).groupErr.Some? ==> s.groupErr.Some? || WorkerEffect(p, s, step).groupErr == Some(WorkerErr)
  {
  }

  lemma WorkerKeepsInv(p: Push, s: State, step: Step)
    requires p.su.w.DigestInjective() && Inv(p, s) && WorkerStep(step) && WorkerEnabled(p, s, step)
    ensures Inv(p, ApplyWorker(p, s, step))
  {
    WorkerKeepsStore(p, s, step);
    WorkerKeepsLocated(p, s, step);
    WorkerKeepsStaged(p, s, step);
    WorkerKeepsAccounted(p, s, step);
    WorkerKeepsBudgeted(p, s, step, ReaderRaw(s.reader));
    GrowthKeepsPublished(p, s.store, WorkerEffect(p, s, step).store, s.manifest);
  }
}
