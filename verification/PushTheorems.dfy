/** What the push invariant means: no blocked take, every buffer back, progress, termination, and no truncated publication. */
module PushTheorems {
  import opened Sequences
  import opened Manifest
  import opened World
  import opened PushSpec
  import opened BufPools
  import opened PushMachine
  import opened PushInvariant
  import opened PushReader
  import Chunking

  // ----- Buffers -----

  lemma HeldWithinLimit(p: Push, s: State)
    requires Inv(p, s)
    ensures Total(s.stages, RawHeld) <= Total(s.stages, Active) <= p.workers
    ensures Total(s.stages, OutHeld) <= Total(s.stages, Active)
    ensures Total(s.stages, RawHeld) + ReaderRaw(s.reader) <= p.workers + 1
  {
    TotalScaled(s.stages, RawHeld, Active, 1);
    TotalScaled(s.stages, OutHeld, Active, 1);
  }

  /** The reader never waits for a raw buffer, and no worker ever waits for an output buffer. */
  lemma NoTakeBlocks(p: Push, s: State, j: nat)
    requires Inv(p, s)
    ensures s.reader.TakingRaw? ==> s.rawFree != []
    ensures j < |s.stages| && s.stages[j].WantOut? ==> s.outFree != []
  {
    HeldWithinLimit(p, s);
  }

  /** When the wait ends, both pools are full again, whichever uploads failed. */
  lemma WaitReturnsEveryBuffer(p: Push, s: State)
    requires Inv(p, s) && Enabled(p, s, Join)
    ensures |s.rawFree| == p.workers + 1 && |s.outFree| == p.workers + 1
  {
    HeldWithinLimit(p, s);
  }

  // ----- Progress -----

  /** A task the group still runs exists whenever its count is positive. */
  lemma {:induction false} SomeActive(stages: seq<Stage>) returns (j: nat)
    requires Total(stages, Active) > 0
    ensures j < |stages| && Active(stages[j]) == 1
  {
    var last := |stages| - 1;
    if Active(stages[last]) == 1 {
      j := last;
    } else {
      j := SomeActive(stages[..last]);
    }
  }

  /** Neither a failure nor a cancellation. */
  predicate Healthy(step: Step) {
    && !EnvironmentStep(step)
    && !step.TarFault? && !step.ChunkFault? && !step.SpoolFault? && !step.CheckFault? && !step.PutFault?
    && !step.ConfigCheckFault? && !step.ConfigPutFault? && !step.PublishFault? && step != ExportEnds(false)
  }

  predicate Terminal(s: State) {
    s.reader.Published? || s.reader.Aborted? || s.reader.Crashed?
  }

  lemma TaskStep(p: Push, s: State, j: nat) returns (step: Step)
    requires Inv(p, s) && j < |s.stages| && !s.stages[j].Done? && !s.stages[j].Failed?
    ensures Enabled(p, s, step) && Healthy(step)
  {
    hide Located, Accounted, PublishedSafely, StageOk;
    NoTakeBlocks(p, s, j);
    match s.stages[j]
    case WantOut(_) => step := TakeOut(j);
    case Encoding(_, out) => step := Encode(j, out);
    case Checking(_, stored) => step := if p.su.w.digest(stored) in s.store then BlobExists(j) else BlobMissing(j);
    case Putting(_, _) => step := BlobStored(j);
  }

  lemma ActiveTaskStep(p: Push, s: State) returns (step: Step)
    requires p.Ok() && Inv(p, s) && Total(s.stages, Active) > 0
    ensures Enabled(p, s, step) && Healthy(step)
  {
    hide Inv, Enabled, Healthy;
    var j := SomeActive(s.stages);
    step := TaskStep(p, s, j);
  }

  lemma ReaderPosition(p: Push, s: State)
    requires Reading(p, s)
    ensures s.reader.NextEntry? ==> s.tar.pos <= |p.items|
    ensures s.reader.Spooling? || s.reader.HandingOver? || s.reader.Inline? ==> s.tar.pos < |p.items|
  {
    hide EntriesOk, TasksUpTo, Complete;
  }

  lemma TarStep(p: Push, s: State) returns (step: Step)
    requires Inv(p, s)
    requires s.reader.Top? || s.reader.NextEntry? || s.reader.TakingRaw? || s.reader.ReadingChunk? || s.reader.Spooling?
    ensures Enabled(p, s, step) && Healthy(step)
  {
    hide Inv, Reading, WorkerEnabled;
    InvReading(p, s);
    ReaderPosition(p, s);
    NoTakeBlocks(p, s, 0);
    if s.reader.TakingRaw? {
      step := TakeRaw;
    } else if s.reader.ReadingChunk? {
      step := ReadChunk;
    } else if s.reader.Spooling? {
      step := SpoolDone;
    } else if s.reader.NextEntry? {
      step := if s.tar.pos == |p.items| then EndOfTar else ReadEntry;
    } else {
      step := if s.Cancelled() then SeeCancel else Proceed;
    }
  }

  lemma PublishingStep(p: Push, s: State) returns (step: Step)
    requires s.reader.Exported? || s.reader.CheckConfig? || s.reader.PutConfig? || s.reader.Publishing?
    ensures Enabled(p, s, step) && Healthy(step)
  {
    hide ConfigText;
    if s.reader.Exported? {
      step := ExportEnds(true);
    } else if s.reader.CheckConfig? {
      step := if p.su.w.digest(ConfigText(p, s.tar, s.assembly)) in s.store then ConfigExists else ConfigMissing;
    } else if s.reader.PutConfig? {
      step := ConfigStored;
    } else {
      step := Publish;
    }
  }

  lemma ChunkTopStep(p: Push, s: State) returns (step: Step)
    requires p.Ok() && Reading(p, s) && s.reader.ChunkTop?
    ensures Enabled(p, s, step) && Healthy(step)
  {
    ChunkTotalIsPieces(p, s.tar);
    step := if s.cut == ChunkTotal(p, s.tar.pos) then GroupDone else if s.Cancelled() then ChunkCancelled else ChunkProceed;
  }

  /** While the reader runs a task itself, it is the last one. */
  lemma InlineFacts(p: Push, s: State)
    requires Inv(p, s) && s.reader.Inline?
    ensures s.stages != [] && |s.tasks| == |s.stages| && s.tar.pos < |p.items|
  {
    hide PublishedSafely, Budgeted, StageOk, InFile, TasksUpTo;
    ReaderPosition(p, s);
  }

  lemma LastTaskEnds(p: Push, s: State)
    requires s.reader.Inline? && s.stages != [] && |s.tasks| == |s.stages| && s.tar.pos < |p.items|
    ensures s.stages[|s.stages| - 1].Done? ==> Enabled(p, s, InlineDone)
    ensures s.stages[|s.stages| - 1].Failed? ==> Enabled(p, s, InlineFailed(UploadErr))
  {
    hide WorkerEnabled;
  }

  lemma InlineStep(p: Push, s: State) returns (step: Step)
    requires p.Ok() && Inv(p, s) && s.reader.Inline?
    ensures Enabled(p, s, step) && Healthy(step)
  {
    hide Inv, Enabled;
    InlineFacts(p, s);
    LastTaskEnds(p, s);
    var j := |s.stages| - 1;
    if s.stages[j].Done? {
      step := InlineDone;
    } else if s.stages[j].Failed? {
      step := InlineFailed(UploadErr);
    } else {
      step := TaskStep(p, s, j);
    }
  }

  /** The push never gets stuck: until it has published or aborted, some step is enabled that is neither a fault nor a cancellation. */
  lemma SomeStepIsEnabled(p: Push, s: State) returns (step: Step)
    requires p.Ok() && Inv(p, s) && !Terminal(s)
    ensures Enabled(p, s, step) && Healthy(step)
  {
    hide Inv, Reading, WorkerEnabled, MovingEnabled;
    InvReading(p, s);
    ReaderPosition(p, s);
    if s.reader.ChunkTop? {
      step := ChunkTopStep(p, s);
    } else if s.reader.Inline? {
      step := InlineStep(p, s);
    } else if s.reader.HandingOver? && Total(s.stages, Active) < p.workers {
      step := HandOver;
    } else if s.reader.Waiting? && Total(s.stages, Active) == 0 {
      step := Join;
    } else if s.reader.HandingOver? || s.reader.Waiting? {
      step := ActiveTaskStep(p, s);
    } else if s.reader.Exported? || s.reader.CheckConfig? || s.reader.PutConfig? || s.reader.Publishing? {
      step := PublishingStep(p, s);
    } else {
      step := TarStep(p, s);
    }
  }

  // ----- Termination -----

  function StageRank(st: Stage): nat {
    match st
    case WantOut(_) => 5
    case Encoding(_, _) => 4
    case Checking(_, _) => 3
    case Putting(_, _) => 2
    case Done(_) => 0
    case Failed(_) => 0
  }

  function EntryWork(p: Push, i: nat): nat
    requires i < |p.items|
  {
    12 * ChunkTotal(p, i) + 12
  }

  function WorkFrom(p: Push, i: nat): nat
    decreases |p.items| - i
  {
    if i >= |p.items| then 0 else EntryWork(p, i) + WorkFrom(p, i + 1)
  }

  function ChunksLeft(p: Push, pos: nat, cut: nat): int {
    if pos < |p.items| then ChunkTotal(p, pos) - cut else 0
  }

  function ReaderWork(p: Push, reader: Reader, pos: nat, cut: nat): int {
    match reader
    case Top => WorkFrom(p, pos) + 9
    case NextEntry => WorkFrom(p, pos) + 8
    case ChunkTop => WorkFrom(p, pos + 1) + 12 * ChunksLeft(p, pos, cut) + 10
    case TakingRaw => WorkFrom(p, pos + 1) + 12 * ChunksLeft(p, pos, cut) + 9
    case ReadingChunk(_) => WorkFrom(p, pos + 1) + 12 * ChunksLeft(p, pos, cut) + 8
    case HandingOver(_, _) => WorkFrom(p, pos + 1) + 12 * ChunksLeft(p, pos, cut) + 7
    case Spooling => WorkFrom(p, pos + 1) + 16
    case Inline => WorkFrom(p, pos + 1) + 10
    case Waiting => 7
    case Exported => 6
    case CheckConfig => 5
    case PutConfig => 4
    case Publishing => 3
    case Published => 0
    case Aborted(_) => 0
    case Crashed => 0
  }

  function Measure(p: Push, s: State): int {
    (if s.parentCancelled then 0 else 1) + ReaderWork(p, s.reader, s.tar.pos, s.cut) + Total(s.stages, StageRank)
  }

  predicate InLoop(reader: Reader) {
    reader.ChunkTop? || reader.TakingRaw? || reader.ReadingChunk? || reader.HandingOver?
  }

  lemma ChunksLeftIsNatural(p: Push, s: State)
    requires p.Ok() && Reading(p, s) && InLoop(s.reader)
    ensures ChunksLeft(p, s.tar.pos, s.cut) >= 0
  {
    ChunkTotalIsPieces(p, s.tar);
  }

  lemma WorkerLowersRank(p: Push, s: State, step: Step)
    requires WorkerStep(step) && WorkerEnabled(p, s, step)
    ensures StageRank(WorkerEffect(p, s, step).stage) < StageRank(s.stages[step.j])
  {
  }

  lemma WorkerDecreases(p: Push, s: State, step: Step)
    requires WorkerStep(step) && Enabled(p, s, step)
    ensures Measure(p, Apply(p, s, step)) < Measure(p, s)
  {
    hide WorkerEffect, ReaderWork;
    WorkerLowersRank(p, s, step);
    TotalUpdate(s.stages, StageRank, step.j, WorkerEffect(p, s, step).stage);
  }

  lemma MovedLowersWork(p: Push, s: State, step: Step)
    requires MovingStep(step) && MovingEnabled(p, s, step)
    requires InLoop(s.reader) ==> ChunksLeft(p, s.tar.pos, s.cut) >= 0
    ensures ReaderWork(p, Moved(p, s, step).0, s.tar.pos, s.cut) < ReaderWork(p, s.reader, s.tar.pos, s.cut)
  {
    hide ConfigText, ChunkTotal;
  }

  lemma MovingDecreases(p: Push, s: State, step: Step)
    requires MovingStep(step) && Enabled(p, s, step)
    requires InLoop(s.reader) ==> ChunksLeft(p, s.tar.pos, s.cut) >= 0
    ensures Measure(p, Apply(p, s, step)) < Measure(p, s)
  {
    hide Moved, MovingEnabled, ReaderWork;
    MovedLowersWork(p, s, step);
  }

  lemma HeaderLowersWork(p: Push, tar: Progress)
    requires p.Ok() && tar.pos < |p.items|
    ensures
      var (reader, _, next) := EntryRead(p, tar);
      ReaderWork(p, reader, next.pos, 0) < WorkFrom(p, tar.pos) + 8
  {
    hide SparseFileMeta, IsEnvelope;
    assert WorkFrom(p, tar.pos) == EntryWork(p, tar.pos) + WorkFrom(p, tar.pos + 1);
  }

  lemma ReadEntryDecreases(p: Push, s: State)
    requires p.Ok() && Enabled(p, s, ReadEntry)
    ensures Measure(p, Apply(p, s, ReadEntry)) < Measure(p, s)
  {
    hide EntryRead, WorkFrom;
    HeaderLowersWork(p, s.tar);
  }

  lemma HandOverDecreases(p: Push, s: State)
    requires Enabled(p, s, HandOver)
    ensures Measure(p, Apply(p, s, HandOver)) < Measure(p, s)
  {
    hide WorkFrom, ChunkTask;
    var task := ChunkTask(p.su, p.items[s.tar.pos], s.reader.raw, s.cut, ChunkTotal(p, s.tar.pos));
    TotalSnoc(s.stages, StageRank, FirstStage(task, s.reader.buf));
  }

  lemma SpoolDoneDecreases(p: Push, s: State)
    requires Enabled(p, s, SpoolDone)
    ensures Measure(p, Apply(p, s, SpoolDone)) < Measure(p, s)
  {
    hide WorkFrom, ChunksLeft, SpoolTask, Stored, WorkerEnabled, MovingEnabled;
    TotalSnoc(s.stages, StageRank, Checking(Nothing, Stored(p.su, SpoolTask(p.su, p.items[s.tar.pos]))));
  }

  lemma LoopStepsDecrease(p: Push, s: State, step: Step)
    requires Enabled(p, s, step) && (step.TakeRaw? || step.ReadChunk? || step.ChunkFault?)
    requires ChunksLeft(p, s.tar.pos, s.cut) >= 0
    ensures Measure(p, Apply(p, s, step)) < Measure(p, s)
  {
    hide WorkFrom, ChunksLeft, WorkerEnabled, MovingEnabled;
  }

  lemma GroupDoneDecreases(p: Push, s: State)
    requires Enabled(p, s, GroupDone)
    ensures Measure(p, Apply(p, s, GroupDone)) < Measure(p, s)
  {
    hide WorkFrom, WorkerEnabled, MovingEnabled, ChunkTotal;
  }

  lemma InlineDoneDecreases(p: Push, s: State)
    requires Enabled(p, s, InlineDone)
    ensures Measure(p, Apply(p, s, InlineDone)) < Measure(p, s)
  {
    hide WorkFrom, WorkerEnabled, MovingEnabled, ChunksLeft;
  }

  lemma JoinDecreases(p: Push, s: State)
    requires Enabled(p, s, Join)
    ensures Measure(p, Apply(p, s, Join)) < Measure(p, s)
  {
    hide WorkFrom, Collected, Assemble, FinalError, WorkerEnabled, MovingEnabled, ChunksLeft;
  }

  lemma ConfigStepsDecrease(p: Push, s: State, step: Step)
    requires Enabled(p, s, step) && (step.ConfigStored? || step.ConfigPutFault?)
    ensures Measure(p, Apply(p, s, step)) < Measure(p, s)
  {
    hide WorkFrom, ChunksLeft, ConfigText, ManifestOf, WorkerEnabled, MovingEnabled, WithBlob;
  }

  lemma PublishStepsDecrease(p: Push, s: State, step: Step)
    requires Enabled(p, s, step) && (step.Publish? || step.PublishFault?)
    ensures Measure(p, Apply(p, s, step)) < Measure(p, s)
  {
    hide WorkFrom, ChunksLeft, ConfigText, ManifestOf, WorkerEnabled, MovingEnabled, WithBlob;
  }

  lemma CancelDecreases(p: Push, s: State)
    requires Enabled(p, s, ParentCancel)
    ensures Measure(p, Apply(p, s, ParentCancel)) < Measure(p, s)
  {
    hide ReaderWork;
  }

  lemma OtherUploadKeepsMeasure(p: Push, s: State, blob: Bytes)
    ensures Measure(p, Apply(p, s, OtherUpload(blob))) == Measure(p, s)
  {
  }

  lemma EnabledInLoop(p: Push, s: State, step: Step)
    requires Enabled(p, s, step)
    ensures step.TakeRaw? || step.ReadChunk? || step.ChunkFault? ==> InLoop(s.reader)
  {
    hide WorkerEnabled, MovingEnabled;
  }

  /** Every step but another client's upload lowers the measure. */
  lemma StepDecreases(p: Push, s: State, step: Step)
    requires p.Ok() && Inv(p, s) && Enabled(p, s, step)
    ensures step.OtherUpload? ==> Measure(p, Apply(p, s, step)) == Measure(p, s)
    ensures !step.OtherUpload? ==> Measure(p, Apply(p, s, step)) < Measure(p, s)
  {
    hide Inv, Enabled, Apply, Reading, Measure;
    InvReading(p, s);
    if InLoop(s.reader) {
      ChunksLeftIsNatural(p, s);
    }
    EnabledInLoop(p, s, step);
    if WorkerStep(step) {
      WorkerDecreases(p, s, step);
    } else if MovingStep(step) {
      MovingDecreases(p, s, step);
    } else {
      match step
      case ReadEntry => ReadEntryDecreases(p, s);
      case HandOver => HandOverDecreases(p, s);
      case SpoolDone => SpoolDoneDecreases(p, s);
      case OtherUpload(blob) => OtherUploadKeepsMeasure(p, s, blob);
      case TakeRaw => LoopStepsDecrease(p, s, step);
      case ReadChunk => LoopStepsDecrease(p, s, step);
      case ChunkFault => LoopStepsDecrease(p, s, step);
      case GroupDone => GroupDoneDecreases(p, s);
      case InlineDone => InlineDoneDecreases(p, s);
      case Join => JoinDecreases(p, s);
      case ParentCancel => CancelDecreases(p, s);
      case ConfigStored => ConfigStepsDecrease(p, s, step);
      case ConfigPutFault(_) => ConfigStepsDecrease(p, s, step);
      case Publish => PublishStepsDecrease(p, s, step);
      case PublishFault(_) => PublishStepsDecrease(p, s, step);
    }
  }

  /** The steps of a run that are not other clients' uploads. */
  function OwnSteps(steps: seq<Step>): nat {
    if steps == [] then 0
    else OwnSteps(steps[..|steps| - 1]) + if steps[|steps| - 1].OtherUpload? then 0 else 1
  }

  lemma MeasureIsNatural(p: Push, s: State)
    requires p.Ok() && Reading(p, s)
    ensures Measure(p, s) >= 0
  {
    hide Reading, WorkFrom;
    if InLoop(s.reader) {
      ChunksLeftIsNatural(p, s);
    }
  }

  /** A push ends: its own steps are bounded by the tar, whatever fails, in whatever order. */
  lemma {:induction false} RunsEnd(p: Push, store: Store, steps: seq<Step>)
    requires p.Ok() && p.su.w.DigestInjective() && ContentAddressed(p.su.w, store)
    requires Exec(p, Init(p, store), steps).Some?
    ensures OwnSteps(steps) + Measure(p, Exec(p, Init(p, store), steps).value) <= WorkFrom(p, 0) + 10
    ensures OwnSteps(steps) <= WorkFrom(p, 0) + 10
  {
    hide Apply, Enabled, Inv, Reading;
    RunKeepsInv(p, store, steps);
    InvReading(p, Exec(p, Init(p, store), steps).value);
    MeasureIsNatural(p, Exec(p, Init(p, store), steps).value);
    if steps != [] {
      var init := steps[..|steps| - 1];
      RunsEnd(p, store, init);
      RunKeepsInv(p, store, init);
      StepDecreases(p, Exec(p, Init(p, store), init).value, steps[|steps| - 1]);
    }
  }

  // ----- What a push publishes -----

  predicate PastWait(s: State) {
    s.reader.Exported? || s.reader.CheckConfig? || s.reader.PutConfig? || s.reader.Publishing? || s.reader.Published?
  }

  /** readAndUploadEntries succeeds only after the whole tar was read and every queued task is in the registry. */
  lemma NothingTruncated(p: Push, store: Store, steps: seq<Step>)
    requires p.Ok() && p.su.w.DigestInjective() && ContentAddressed(p.su.w, store)
    requires Exec(p, Init(p, store), steps).Some? && PastWait(Exec(p, Init(p, store), steps).value)
    ensures
      var s := Exec(p, Init(p, store), steps).value;
      && s.tar.pos == |p.items| && EntriesOk(p, |p.items|)
      && s.tasks == TasksUpTo(p.su, p.items, |p.items|) && |s.stages| == |s.tasks|
      && forall j :: 0 <= j < |s.tasks| ==>
           s.stages[j] == Done(Desc(p.su, s.tasks[j])) && Holds(p.su.w, s.store, Stored(p.su, s.tasks[j]))
  {
    hide PublishedSafely, Accounted, Budgeted, Apply, Enabled, EntryOk;
    RunKeepsInv(p, store, steps);
    var s := Exec(p, Init(p, store), steps).value;
    forall j | 0 <= j < |s.tasks|
      ensures s.stages[j] == Done(Desc(p.su, s.tasks[j])) && Holds(p.su.w, s.store, Stored(p.su, s.tasks[j]))
    {
      assert StageOk(p, s.store, s.tasks[j], s.stages[j]);
    }
  }

  /** The verdict after the wait is success exactly when neither the read, nor a worker, nor the caller's context failed. */
  lemma FinalErrorIsExact(readErr: Option<Err>, waitErr: Option<Err>, parentCancelled: bool)
    ensures FinalError(readErr, waitErr, parentCancelled).None? <==> readErr.None? && waitErr.None? && !parentCancelled
    ensures waitErr.Some? && (readErr.None? || readErr == Some(Canceled)) ==> FinalError(readErr, waitErr, parentCancelled) == waitErr
  {
  }

  /** A push crashes only at an acceptable-looking entry whose size is within a chunk of the int64 limit, and it has published nothing. */
  lemma CrashMeansOversized(p: Push, store: Store, steps: seq<Step>)
    requires p.Ok() && p.su.w.DigestInjective() && ContentAddressed(p.su.w, store)
    requires Exec(p, Init(p, store), steps).Some? && Exec(p, Init(p, store), steps).value.reader.Crashed?
    ensures
      var s := Exec(p, Init(p, store), steps).value;
      && s.tar.pos < |p.items| && EntriesOk(p, s.tar.pos) && Chunking.CountWraps(p.items[s.tar.pos].size, p.su.chunkSize)
      && s.manifest.None?
  {
    hide Apply, Enabled, FinalManifest, FinalConfig, EntryOk, Crashes;
    RunKeepsInv(p, store, steps);
    var s := Exec(p, Init(p, store), steps).value;
    CrashesIff(p.su, p.items[s.tar.pos]);
  }

  /** And it does crash there: a first entry of such a size is enough. */
  lemma OversizedFirstEntryCrashes(p: Push, store: Store)
    requires p.items != [] && Crashes(p.su, p.items[0])
    ensures
      var end := Exec(p, Init(p, store), [Proceed, ReadEntry]);
      end.Some? && end.value.reader.Crashed?
  {
    hide SparseFileMeta, Chunking.CountInt64;
    var steps := [Proceed, ReadEntry];
    assert steps[..1] == [Proceed] && [Proceed][..0] == [];
    assert Exec(p, Init(p, store), [Proceed]).Some?;
  }

  /** Whatever the number of workers, their order and the failures on the way: all pushes of one tar publish one manifest. */
  lemma PublicationIsDeterministic(p: Push, q: Push, pStore: Store, qStore: Store, pSteps: seq<Step>, qSteps: seq<Step>)
    requires p.Ok() && q.Ok() && p.su == q.su && p.items == q.items && p.su.w.DigestInjective()
    requires ContentAddressed(p.su.w, pStore) && ContentAddressed(q.su.w, qStore)
    requires Exec(p, Init(p, pStore), pSteps).Some? && Exec(q, Init(q, qStore), qSteps).Some?
    ensures
      var s, t := Exec(p, Init(p, pStore), pSteps).value, Exec(q, Init(q, qStore), qSteps).value;
      s.manifest.Some? && t.manifest.Some? ==> s.manifest == t.manifest
  {
    hide Reading, Staged, Accounted, Budgeted, Apply, Enabled, FinalManifest;
    RunKeepsInv(p, pStore, pSteps);
    RunKeepsInv(q, qStore, qSteps);
  }
}
