/** The reader's steps keep the push invariant; with the workers' steps, every run does. */
module PushReader {
  import opened Sequences
  import opened Manifest
  import opened World
  import opened PushSpec
  import opened BufPools
  import opened PushMachine
  import opened PushInvariant
  import Chunking

  /** The chunk count the loop uses is the number of pieces of the file. */
  lemma ChunkTotalIsPieces(p: Push, tar: Progress)
    requires p.Ok() && InFile(p, tar) && Chunked(p.su, p.items[tar.pos])
    ensures ChunkTotal(p, tar.pos) == |ChunkTasks(p.su, p.items[tar.pos])|
    ensures ChunkTotal(p, tar.pos) == |Chunking.Cut(p.items[tar.pos].data, p.su.chunkSize)|
  {
    var e := p.items[tar.pos];
    assert EntryOk(p.su, e);
    AcceptedCountIsExact(p.su, e);
    Chunking.CutCount(e.data, p.su.chunkSize);
  }

  // ----- Steps that only move the reader -----

  lemma MovingKeepsReading(p: Push, s: State, step: Step)
    requires p.Ok() && Reading(p, s) && MovingStep(step) && MovingEnabled(p, s, step)
    ensures
      var (reader, readErr) := Moved(p, s, step);
      Reading(p, s.(reader := reader, readErr := readErr))
  {
    if step.ChunkProceed? {
      ChunkTotalIsPieces(p, s.tar);
      assert Left(p, s.rest) != [];
    }
  }

  lemma MovingKeepsAccounted(p: Push, s: State, step: Step)
    requires Accounted(s.reader, s.readErr, s.groupErr, s.stages) && MovingStep(step) && MovingEnabled(p, s, step)
    ensures
      var (reader, readErr) := Moved(p, s, step);
      Accounted(reader, readErr, s.groupErr, s.stages)
  {
    var (reader, readErr) := Moved(p, s, step);
    assert !reader.Inline?;
    assert s.readErr.Some? ==> readErr.Some?;
    if step.InlineFailed? {
      assert readErr.Some?;
      assert s.stages[|s.stages| - 1].Failed?;
    } else {
      assert !s.reader.Inline? && !s.reader.Aborted?;
    }
  }

  lemma MovingKeepsInv(p: Push, s: State, step: Step)
    requires p.Ok() && Inv(p, s) && MovingStep(step) && Enabled(p, s, step)
    ensures Inv(p, Apply(p, s, step))
  {
    hide Staged, Budgeted, PublishedSafely, Reading, Accounted;
    MovingKeepsReading(p, s, step);
    MovingKeepsAccounted(p, s, step);
    var (reader, readErr) := Moved(p, s, step);
    assert ReaderRaw(reader) == ReaderRaw(s.reader) == 0;
    assert s.readErr.Some? ==> s.reader.Waiting? || s.reader.Aborted?;
    assert readErr.Some? ==> reader.Waiting?;
  }

  // ----- Reading an entry header -----

  /** A file's header: refused, or recorded and then read in chunks or spooled. */
  lemma FileHeaderIsRight(p: Push, tar: Progress, tasks: seq<Task>)
    requires p.Ok() && AtTop(p, tar, tasks) && tar.pos < |p.items| && IsFile(p.items[tar.pos])
    ensures
      var (reader, readErr, next) := EntryRead(p, tar);
      && (readErr.Some? <==> reader.Waiting?)
      && (reader.ChunkTop? || reader.Spooling? || reader.Waiting? || reader.Crashed?)
      && (reader.Crashed? ==> Crashes(p.su, p.items[tar.pos]) && next.pos == tar.pos)
      && (reader.ChunkTop? || reader.Spooling? ==> InFile(p, next) && next.pos == tar.pos)
      && (reader.ChunkTop? || reader.Spooling? ==> (reader.ChunkTop? <==> Chunked(p.su, p.items[tar.pos])))
  {
    hide TasksUpTo, GroupsUpTo, MediaTypeForCocoonFile, IsEnvelope;
  }

  lemma OtherHeaderIsRight(p: Push, tar: Progress, tasks: seq<Task>)
    requires p.Ok() && AtTop(p, tar, tasks) && tar.pos < |p.items| && !IsFile(p.items[tar.pos])
    ensures
      var (reader, readErr, next) := EntryRead(p, tar);
      && (readErr.Some? <==> reader.Waiting?)
      && (reader.Top? || reader.Waiting?)
      && (reader.Top? ==> AtTop(p, next, tasks))
  {
    hide SparseFileMeta;
    assert TasksUpTo(p.su, p.items, tar.pos) + [] == TasksUpTo(p.su, p.items, tar.pos);
  }

  lemma StartOfChunks(p: Push, tar: Progress, tasks: seq<Task>)
    requires InFile(p, tar) && Chunked(p.su, p.items[tar.pos]) && tasks == TasksUpTo(p.su, p.items, tar.pos)
    ensures InChunks(p, tar, tasks, 0, Left(p, p.items[tar.pos].data))
  {
    var e := p.items[tar.pos];
    assert Chunking.Cut(e.data, p.su.chunkSize)[0..] == Chunking.Cut(e.data, p.su.chunkSize);
    assert tasks + ChunkTasks(p.su, e)[..0] == tasks;
  }

  lemma ReadEntryKeepsReading(p: Push, s: State)
    requires p.Ok() && Reading(p, s) && Enabled(p, s, ReadEntry)
    ensures
      var (reader, readErr, tar) := EntryRead(p, s.tar);
      && Reading(p, Apply(p, s, ReadEntry))
      && (readErr.Some? <==> reader.Waiting?)
      && (reader.Top? || reader.ChunkTop? || reader.Spooling? || reader.Waiting? || reader.Crashed?)
  {
    hide EntryRead, EntriesOk, TasksUpTo, FilesUpTo, GroupsUpTo, EnvelopeUpTo, EncodedUpTo, IsEnvelope, Chunked;
    var (reader, readErr, tar) := EntryRead(p, s.tar);
    if IsFile(p.items[s.tar.pos]) {
      FileHeaderIsRight(p, s.tar, s.tasks);
      if reader.ChunkTop? {
        StartOfChunks(p, tar, s.tasks);
      }
    } else {
      OtherHeaderIsRight(p, s.tar, s.tasks);
    }
  }

  lemma ReadEntryKeepsInv(p: Push, s: State)
    requires p.Ok() && Inv(p, s) && Enabled(p, s, ReadEntry)
    ensures Inv(p, Apply(p, s, ReadEntry))
  {
    hide Reading, Staged, Budgeted, PublishedSafely, ConfigText, EntryRead;
    ReadEntryKeepsReading(p, s);
  }

  // ----- The chunk loop -----

  lemma TakeRawKeepsInv(p: Push, s: State)
    requires Inv(p, s) && Enabled(p, s, TakeRaw)
    ensures Inv(p, Apply(p, s, TakeRaw))
  {
    hide Staged, PublishedSafely, InFile, ConfigText;
    assert Reading(p, Apply(p, s, TakeRaw));
  }

  lemma ReadChunkKeepsInv(p: Push, s: State)
    requires Inv(p, s) && Enabled(p, s, ReadChunk)
    ensures Inv(p, Apply(p, s, ReadChunk))
  {
    hide Staged, PublishedSafely, InFile, ConfigText;
    assert Reading(p, Apply(p, s, ReadChunk));
  }

  lemma ChunkFaultKeepsInv(p: Push, s: State)
    requires Inv(p, s) && Enabled(p, s, ChunkFault)
    ensures Inv(p, Apply(p, s, ChunkFault))
  {
    hide Staged, PublishedSafely, InFile, ConfigText;
  }

  lemma HandOverAdvances(p: Push, s: State)
    requires p.Ok() && Reading(p, s) && Enabled(p, s, HandOver)
    ensures
      var task := ChunkTask(p.su, p.items[s.tar.pos], s.reader.raw, s.cut, ChunkTotal(p, s.tar.pos));
      InChunks(p, s.tar, s.tasks + [task], s.cut + 1, Left(p, s.rest))
  {
    var e := p.items[s.tar.pos];
    var raws := Chunking.Cut(e.data, p.su.chunkSize);
    ChunkTotalIsPieces(p, s.tar);
    var left := [s.reader.raw] + Left(p, s.rest);
    assert raws[s.cut..] == left;
    assert raws[s.cut] == left[0] && raws[s.cut + 1..] == left[1..];
    var tasks := ChunkTasks(p.su, e);
    assert tasks[..s.cut + 1] == tasks[..s.cut] + [tasks[s.cut]];
  }

  lemma AppendKeepsBudgeted(p: Push, held: nat, stages: seq<Stage>, rawFree: seq<nat>, outFree: seq<nat>, stage: Stage)
    requires Budgeted(p, held + RawHeld(stage), stages, rawFree, outFree)
    requires OutHeld(stage) == 0 && Total(stages, Active) + Active(stage) <= p.workers
    ensures Budgeted(p, held, stages + [stage], rawFree, outFree)
  {
    TotalSnoc(stages, RawHeld, stage);
    TotalSnoc(stages, OutHeld, stage);
    TotalSnoc(stages, Active, stage);
  }

  lemma AppendKeepsAccounted(reader: Reader, next: Reader, groupErr: Option<Err>, stages: seq<Stage>, stage: Stage)
    requires Accounted(reader, None, groupErr, stages) && !reader.Inline? && !reader.Aborted?
    requires if next.Inline? then RunByReader(stage) else !RunByReader(stage)
    requires !stage.Failed?
    ensures Accounted(next, None, groupErr, stages + [stage])
  {
  }

  lemma AppendKeepsStaged(p: Push, store: Store, tasks: seq<Task>, stages: seq<Stage>, task: Task, stage: Stage)
    requires Staged(p, store, tasks, stages) && StageOk(p, store, task, stage)
    ensures Staged(p, store, tasks + [task], stages + [stage])
  {
  }

  /** A new task joins the others; the buffer the reader held is now the task's. */
  lemma AppendKeepsInv(p: Push, s: State, next: Reader, cut: nat, task: Task, stage: Stage)
    requires Inv(p, s) && ((s.reader.HandingOver? && next.ChunkTop?) || (s.reader.Spooling? && next.Inline?))
    requires StageOk(p, s.store, task, stage) && !stage.Failed?
    requires if next.Inline? then RunByReader(stage) else !RunByReader(stage)
    requires OutHeld(stage) == 0 && RawHeld(stage) == ReaderRaw(s.reader)
    requires Total(s.stages, Active) + Active(stage) <= p.workers
    requires Reading(p, s.(reader := next, cut := cut, tasks := s.tasks + [task], stages := s.stages + [stage]))
    ensures Inv(p, s.(reader := next, cut := cut, tasks := s.tasks + [task], stages := s.stages + [stage]))
  {
    AppendKeepsStaged(p, s.store, s.tasks, s.stages, task, stage);
    AppendKeepsBudgeted(p, 0, s.stages, s.rawFree, s.outFree, stage);
    AppendKeepsAccounted(s.reader, next, s.groupErr, s.stages, stage);
  }

  lemma FirstStageFits(p: Push, store: Store, task: Task, buf: nat)
    requires !task.inline
    ensures
      var stage := FirstStage(task, buf);
      && StageOk(p, store, task, stage)
      && !stage.Failed? && !RunByReader(stage)
      && OutHeld(stage) == 0 && RawHeld(stage) == 1 && Active(stage) == 1
  {
  }

  lemma HandOverKeepsInv(p: Push, s: State)
    requires p.Ok() && Inv(p, s) && Enabled(p, s, HandOver)
    ensures Inv(p, Apply(p, s, HandOver))
  {
    hide Inv, InChunks, StageOk, FirstStage;
    assert Reading(p, s) by {
      InvReading(p, s);
    }
    HandOverAdvances(p, s);
    var task := ChunkTask(p.su, p.items[s.tar.pos], s.reader.raw, s.cut, ChunkTotal(p, s.tar.pos));
    FirstStageFits(p, s.store, task, s.reader.buf);
    AppendKeepsInv(p, s, ChunkTop, s.cut + 1, task, FirstStage(task, s.reader.buf));
  }

  lemma InvReading(p: Push, s: State)
    requires Inv(p, s)
    ensures Reading(p, s)
  {
  }

  lemma GroupDoneAdvances(p: Push, s: State)
    requires p.Ok() && Reading(p, s) && Enabled(p, s, GroupDone)
    ensures AtTop(p, WithGroup(p, s.tar, |s.tasks| - s.cut, s.cut), s.tasks)
  {
    hide WorkerEnabled, MovingEnabled, ChunkTask, EntryOk, FileMeta, ChunkTotal;
    var e := p.items[s.tar.pos];
    ChunkTotalIsPieces(p, s.tar);
    assert ChunkTasks(p.su, e)[..s.cut] == ChunkTasks(p.su, e) == Tasks(p.su, e);
  }

  /** A file's group is complete: the reader is back between entries. */
  lemma BackAtTop(p: Push, s: State, tar: Progress)
    requires Inv(p, s) && AtTop(p, tar, s.tasks)
    requires s.reader.ChunkTop? || (s.reader.Inline? && s.stages != [] && s.stages[|s.stages| - 1].Done?)
    ensures Inv(p, s.(reader := Top, tar := tar))
  {
    assert Accounted(Top, s.readErr, s.groupErr, s.stages);
    assert s.readErr.None?;
  }

  lemma GroupDoneKeepsInv(p: Push, s: State)
    requires p.Ok() && Inv(p, s) && Enabled(p, s, GroupDone)
    ensures Inv(p, Apply(p, s, GroupDone))
  {
    GroupDoneAdvances(p, s);
    BackAtTop(p, s, WithGroup(p, s.tar, |s.tasks| - s.cut, s.cut));
  }

  // ----- Files the reader uploads itself -----

  lemma SpoolDoneAdvances(p: Push, s: State)
    requires Reading(p, s) && Enabled(p, s, SpoolDone)
    ensures InSpool(p, s.tar, s.tasks + [SpoolTask(p.su, p.items[s.tar.pos])], true)
  {
    assert Tasks(p.su, p.items[s.tar.pos]) == [SpoolTask(p.su, p.items[s.tar.pos])];
  }

  lemma SpoolDoneKeepsInv(p: Push, s: State)
    requires p.Ok() && Inv(p, s) && Enabled(p, s, SpoolDone)
    ensures Inv(p, Apply(p, s, SpoolDone))
  {
    hide Staged, PublishedSafely, Accounted, ConfigText, InFile;
    SpoolDoneAdvances(p, s);
    var task := SpoolTask(p.su, p.items[s.tar.pos]);
    AppendKeepsInv(p, s, Inline, s.cut, task, Checking(Nothing, Stored(p.su, task)));
  }

  lemma InlineDoneAdvances(p: Push, s: State)
    requires Reading(p, s) && Enabled(p, s, InlineDone)
    ensures AtTop(p, WithGroup(p, s.tar, |s.tasks| - 1, 1), s.tasks)
  {
    assert |Tasks(p.su, p.items[s.tar.pos])| == 1;
  }

  lemma InlineDoneKeepsInv(p: Push, s: State)
    requires p.Ok() && Inv(p, s) && Enabled(p, s, InlineDone)
    ensures Inv(p, Apply(p, s, InlineDone))
  {
    InlineDoneAdvances(p, s);
    BackAtTop(p, s, WithGroup(p, s.tar, |s.tasks| - 1, 1));
  }

  // ----- The wait and what follows it -----

  /** A wait that ends without any error ends with the whole tar read and every task done. */
  lemma SuccessfulWaitIsComplete(p: Push, s: State)
    requires Inv(p, s) && Enabled(p, s, Join)
    requires FinalError(s.readErr, s.groupErr, s.parentCancelled).None?
    ensures AtTop(p, s.tar, s.tasks) && s.tar.pos == |p.items| && s.readErr.None? && AllDone(s.stages)
  {
    hide AtTop, WorkerEnabled, MovingEnabled, PublishedSafely, StageOk;
    forall j | 0 <= j < |s.stages|
      ensures s.stages[j].Done?
    {
      TotalAtLeast(s.stages, Active, j);
    }
  }

  lemma SlotsAreDescs(p: Push, store: Store, tasks: seq<Task>, stages: seq<Stage>, first: nat, count: nat)
    requires Staged(p, store, tasks, stages) && AllDone(stages) && first + count <= |tasks|
    ensures Slots(stages, first, count) == DescRange(p.su, tasks, first, count)
  {
    forall i | 0 <= i < count
      ensures Slots(stages, first, count)[i] == DescRange(p.su, tasks, first, count)[i]
    {
      var j := first + i;
      assert StageOk(p, store, tasks[j], stages[j]) && stages[j].Done?;
      assert DescAt(stages, j) == Desc(p.su, tasks[j]);
    }
  }

  /** The filled slots, group by group, are the specified descriptors, in whatever order the workers finished. */
  lemma CollectedIsFinal(p: Push, s: State)
    requires AtTop(p, s.tar, s.tasks) && s.tar.pos == |p.items| && AllDone(s.stages) && Staged(p, s.store, s.tasks, s.stages)
    ensures Collected(s.tar.groups, s.stages) == FinalGroups(p.su, p.items)
  {
    GroupsCoverTasks(p.su, p.items, |p.items|);
    var collected, final := Collected(s.tar.groups, s.stages), FinalGroups(p.su, p.items);
    forall g | 0 <= g < |s.tar.groups|
      ensures collected[g] == final[g]
    {
      SlotsAreDescs(p, s.store, s.tasks, s.stages, s.tar.groups[g].first, s.tar.groups[g].count);
    }
  }

  lemma WaitAssembles(p: Push, s: State)
    requires AtTop(p, s.tar, s.tasks) && s.tar.pos == |p.items| && AllDone(s.stages) && Staged(p, s.store, s.tasks, s.stages)
    ensures
      var groups := Collected(s.tar.groups, s.stages);
      Assemble(groups, s.tar.files, |groups|) == FinalAssembly(p.su, p.items)
  {
    hide Collected, FinalGroups, Staged;
    CollectedIsFinal(p, s);
  }

  lemma JoinKeepsInv(p: Push, s: State)
    requires p.Ok() && Inv(p, s) && Enabled(p, s, Join)
    ensures Inv(p, Apply(p, s, Join))
  {
    hide Staged, Budgeted, PublishedSafely, AtTop, ConfigText, Collected, Assemble, FinalAssembly, Accounted, ContentAddressed;
    if FinalError(s.readErr, s.groupErr, s.parentCancelled).None? {
      SuccessfulWaitIsComplete(p, s);
      WaitAssembles(p, s);
    }
    JoinKeepsAccounted(p, s);
    assert Reading(p, Apply(p, s, Join));
  }

  lemma JoinKeepsAccounted(p: Push, s: State)
    requires Accounted(s.reader, s.readErr, s.groupErr, s.stages) && Enabled(p, s, Join)
    ensures
      var r := Apply(p, s, Join);
      Accounted(r.reader, r.readErr, r.groupErr, r.stages)
  {
    hide Collected, Assemble;
  }

  lemma PublishIsSafe(p: Push, s: State)
    requires p.su.w.DigestInjective() && Inv(p, s) && s.reader.Publishing?
    ensures PublishedSafely(p, s.store, Some(ManifestOf(p, s.tar, s.assembly)))
  {
    hide Accounted, Budgeted, EntryOk, ConfigOf;
    PresentMeansHolds(p.su.w, s.store, ConfigText(p, s.tar, s.assembly));
    forall j | 0 <= j < |s.tasks|
      ensures Holds(p.su.w, s.store, Stored(p.su, s.tasks[j]))
    {
      assert StageOk(p, s.store, s.tasks[j], s.stages[j]);
    }
  }

  lemma PublishKeepsInv(p: Push, s: State, step: Step)
    requires p.Ok() && p.su.w.DigestInjective() && Inv(p, s) && (step.Publish? || step.PublishFault?) && Enabled(p, s, step)
    ensures Inv(p, Apply(p, s, step))
  {
    hide Staged, Budgeted, PublishedSafely, AtTop, ConfigText, ManifestOf, Complete;
    PublishIsSafe(p, s);
    assert Reading(p, Apply(p, s, step));
  }

  // ----- Steps that add a blob to the registry, and the caller's cancellation -----

  /** One more blob in the registry disturbs nothing. */
  lemma BlobKeepsInv(p: Push, s: State, blob: Bytes)
    requires p.su.w.DigestInjective() && Inv(p, s)
    ensures Inv(p, s.(store := WithBlob(p, s.store, blob)))
    ensures Holds(p.su.w, WithBlob(p, s.store, blob), blob)
  {
    hide AtTop, InFile, InChunks, InSpool, Complete, Staged, PublishedSafely, ConfigText;
    var store := WithBlob(p, s.store, blob);
    WithBlobKeeps(p, s.store, blob);
    GrowthKeepsStaged(p, s.store, store, s.tasks, s.stages);
    GrowthKeepsPublished(p, s.store, store, s.manifest);
    assert Reading(p, s.(store := store));
  }

  lemma ReaderStops(p: Push, s: State, reader: Reader)
    requires Inv(p, s) && s.reader.PutConfig?
    requires reader.Aborted? || (reader.Publishing? && p.su.w.digest(ConfigText(p, s.tar, s.assembly)) in s.store)
    ensures Inv(p, s.(reader := reader))
  {
    hide AtTop, Complete, Staged, PublishedSafely, ConfigText;
    assert Reading(p, s.(reader := reader));
  }

  lemma ConfigStoredKeepsInv(p: Push, s: State)
    requires p.su.w.DigestInjective() && Inv(p, s) && Enabled(p, s, ConfigStored)
    ensures Inv(p, Apply(p, s, ConfigStored))
  {
    hide Inv, ConfigText;
    var text := ConfigText(p, s.tar, s.assembly);
    BlobKeepsInv(p, s, text);
    ReaderStops(p, s.(store := WithBlob(p, s.store, text)), Publishing);
  }

  lemma ConfigPutFaultKeepsInv(p: Push, s: State, applied: bool)
    requires p.su.w.DigestInjective() && Inv(p, s) && Enabled(p, s, ConfigPutFault(applied))
    ensures Inv(p, Apply(p, s, ConfigPutFault(applied)))
  {
    hide Inv, ConfigText;
    var text := ConfigText(p, s.tar, s.assembly);
    BlobKeepsInv(p, s, text);
    ReaderStops(p, if applied then s.(store := WithBlob(p, s.store, text)) else s, Aborted(ConfigErr));
  }

  lemma OtherUploadKeepsInv(p: Push, s: State, blob: Bytes)
    requires p.su.w.DigestInjective() && Inv(p, s)
    ensures Inv(p, Apply(p, s, OtherUpload(blob)))
  {
    hide Inv;
    BlobKeepsInv(p, s, blob);
  }

  lemma CancelKeepsInv(p: Push, s: State)
    requires Inv(p, s) && Enabled(p, s, ParentCancel)
    ensures Inv(p, Apply(p, s, ParentCancel))
  {
    hide Staged, Budgeted, PublishedSafely, AtTop, InFile, InChunks, InSpool, Complete, ConfigText;
    assert Reading(p, Apply(p, s, ParentCancel));
  }

  lemma WorkerStepKeepsInv(p: Push, s: State, step: Step)
    requires p.su.w.DigestInjective() && Inv(p, s) && WorkerStep(step) && Enabled(p, s, step)
    ensures Inv(p, Apply(p, s, step))
  {
    hide Inv, ApplyWorker;
    WorkerKeepsInv(p, s, step);
  }

  /** Every step of the push keeps the invariant. */
  lemma StepKeepsInv(p: Push, s: State, step: Step)
    requires p.Ok() && p.su.w.DigestInjective() && Inv(p, s) && Enabled(p, s, step)
    ensures Inv(p, Apply(p, s, step))
  {
    hide Inv, Enabled, Apply;
    if WorkerStep(step) {
      WorkerStepKeepsInv(p, s, step);
    } else if MovingStep(step) {
      MovingKeepsInv(p, s, step);
    } else {
      match step
      case ReadEntry => ReadEntryKeepsInv(p, s);
      case TakeRaw => TakeRawKeepsInv(p, s);
      case ReadChunk => ReadChunkKeepsInv(p, s);
      case ChunkFault => ChunkFaultKeepsInv(p, s);
      case HandOver => HandOverKeepsInv(p, s);
      case GroupDone => GroupDoneKeepsInv(p, s);
      case SpoolDone => SpoolDoneKeepsInv(p, s);
      case InlineDone => InlineDoneKeepsInv(p, s);
      case Join => JoinKeepsInv(p, s);
      case ConfigStored => ConfigStoredKeepsInv(p, s);
      case ConfigPutFault(applied) => ConfigPutFaultKeepsInv(p, s, applied);
      case Publish => PublishKeepsInv(p, s, step);
      case PublishFault(_) => PublishKeepsInv(p, s, step);
      case ParentCancel => CancelKeepsInv(p, s);
      case OtherUpload(blob) => OtherUploadKeepsInv(p, s, blob);
    }
  }

  /** Every state of every run satisfies the invariant. */
  lemma {:induction false} RunKeepsInv(p: Push, store: Store, steps: seq<Step>)
    requires p.Ok() && p.su.w.DigestInjective() && ContentAddressed(p.su.w, store)
    ensures Exec(p, Init(p, store), steps).Some? ==> Inv(p, Exec(p, Init(p, store), steps).value)
  {
    hide Inv, Enabled, Apply;
    if steps == [] {
      InitInv(p, store);
    } else {
      var init := steps[..|steps| - 1];
      RunKeepsInv(p, store, init);
      if Exec(p, Init(p, store), steps).Some? {
        StepKeepsInv(p, Exec(p, Init(p, store), init).value, steps[|steps| - 1]);
      }
    }
  }
}
