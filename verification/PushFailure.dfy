/** A push that failed or was cancelled publishes nothing, starts nothing more, and uploads nothing twice. */
module PushFailure {
  import opened Sequences
  import opened Manifest
  import opened World
  import opened PushSpec
  import opened PushMachine
  import opened PushInvariant
  import opened PushReader
  import opened PushTheorems
  import opened PushVerdict

  // ----- No publication after a failure -----

  /** Any failure but that of the manifest upload itself. */
  predicate Fails(step: Step) {
    || step.TarFault? || step.ChunkFault? || step.SpoolFault? || step.InlineFailed? || step == ExportEnds(false)
    || step.CheckFault? || step.PutFault? || step.ConfigCheckFault? || step.ConfigPutFault?
  }

  ghost predicate SomeFailed(stages: seq<Stage>) {
    exists j :: 0 <= j < |stages| && stages[j].Failed?
  }

  /** Nothing is published, and nothing will be. */
  ghost predicate Doomed(s: State) {
    && s.manifest.None?
    && (s.readErr.Some? || s.reader.Aborted? || SomeFailed(s.stages) || (s.parentCancelled && !PastWait(s)))
  }

  lemma DoomedIsNotPastWait(p: Push, s: State)
    requires Inv(p, s) && Doomed(s)
    ensures !PastWait(s)
  {
    hide AtTop, EntriesOk;
  }

  lemma WorkerKeepsDoomed(p: Push, s: State, step: Step)
    requires Doomed(s) && WorkerStep(step) && WorkerEnabled(p, s, step)
    ensures Doomed(ApplyWorker(p, s, step))
  {
    hide WorkerEffect;
    WorkerMovesOn(p, s, step);
    if SomeFailed(s.stages) {
      var j :| 0 <= j < |s.stages| && s.stages[j].Failed?;
      assert ApplyWorker(p, s, step).stages[j].Failed?;
    }
  }

  lemma WorkerMovesOn(p: Push, s: State, step: Step)
    requires WorkerStep(step) && WorkerEnabled(p, s, step)
    ensures !s.stages[step.j].Failed?
    ensures step.CheckFault? || step.PutFault? ==> WorkerEffect(p, s, step).stage.Failed?
  {
  }

  lemma MovingKeepsDoomed(p: Push, s: State, step: Step)
    requires Doomed(s) && !PastWait(s) && MovingStep(step) && Enabled(p, s, step)
    ensures Doomed(Apply(p, s, step))
  {
    hide ConfigText, ChunkTotal, WorkerEnabled;
  }

  lemma JoinKeepsDoomed(p: Push, s: State)
    requires Inv(p, s) && Doomed(s) && Enabled(p, s, Join)
    ensures Doomed(Apply(p, s, Join))
  {
    hide Collected, Assemble, Staged, Budgeted, PublishedSafely, WorkerEnabled, MovingEnabled, Located;
  }

  lemma ReadingKeepsDoomed(p: Push, s: State, step: Step)
    requires Inv(p, s) && Doomed(s) && Enabled(p, s, step) && (step.ReadEntry? || step.HandOver? || step.SpoolDone?)
    ensures Doomed(Apply(p, s, step))
  {
    hide EntryRead, ChunkTask, SpoolTask, Stored, ChunkTotal, WorkerEnabled, MovingEnabled, Inv;
    if SomeFailed(s.stages) {
      var j :| 0 <= j < |s.stages| && s.stages[j].Failed?;
      assert Apply(p, s, step).stages[j] == s.stages[j];
    }
    if step.ReadEntry? {
      EntryReadIsBeforeWait(p, s.tar);
    }
  }

  lemma EntryReadIsBeforeWait(p: Push, tar: Progress)
    requires tar.pos < |p.items|
    ensures
      var reader := EntryRead(p, tar).0;
      reader.Top? || reader.Waiting? || reader.ChunkTop? || reader.Spooling? || reader.Crashed?
  {
    hide SparseFileMeta;
  }

  lemma OtherStepsKeepDoomed(p: Push, s: State, step: Step)
    requires Doomed(s) && !PastWait(s) && Enabled(p, s, step) && !WorkerStep(step) && !MovingStep(step)
    requires !step.Join? && !step.ReadEntry? && !step.HandOver? && !step.SpoolDone?
    ensures Doomed(Apply(p, s, step))
  {
    hide ConfigText, ManifestOf, ChunkTotal, WithBlob, WorkerEnabled, MovingEnabled;
  }

  lemma StepKeepsDoomed(p: Push, s: State, step: Step)
    requires Inv(p, s) && Doomed(s) && Enabled(p, s, step)
    ensures Doomed(Apply(p, s, step))
  {
    hide Inv, Doomed, Reading, WorkerEffect, EntryRead, Moved, MovingEnabled;
    DoomedIsNotPastWait(p, s);
    if WorkerStep(step) {
      WorkerKeepsDoomed(p, s, step);
    } else if MovingStep(step) {
      MovingKeepsDoomed(p, s, step);
    } else if step.Join? {
      JoinKeepsDoomed(p, s);
    } else if step.ReadEntry? || step.HandOver? || step.SpoolDone? {
      ReadingKeepsDoomed(p, s, step);
    } else {
      OtherStepsKeepDoomed(p, s, step);
    }
  }

  lemma FailingWorkerDooms(p: Push, s: State, step: Step)
    requires s.manifest.None? && WorkerStep(step) && WorkerEnabled(p, s, step) && Fails(step)
    ensures Doomed(ApplyWorker(p, s, step))
  {
    hide WorkerEffect;
    WorkerMovesOn(p, s, step);
    assert ApplyWorker(p, s, step).stages[step.j].Failed?;
  }

  lemma FailingMoveDooms(p: Push, s: State, step: Step)
    requires MovingStep(step) && MovingEnabled(p, s, step) && Fails(step)
    ensures Moved(p, s, step).1.Some? || Moved(p, s, step).0.Aborted?
  {
    hide ConfigText, ChunkTotal;
  }

  lemma FailingDooms(p: Push, s: State, step: Step)
    requires s.manifest.None? && Enabled(p, s, step)
    requires Fails(step) || (step.ParentCancel? && !PastWait(s))
    ensures Doomed(Apply(p, s, step))
  {
    hide ConfigText, ChunkTotal, ManifestOf, WithBlob, WorkerEffect, EntryRead, Collected, Assemble, Moved, MovingEnabled;
    if WorkerStep(step) {
      FailingWorkerDooms(p, s, step);
    } else if MovingStep(step) {
      FailingMoveDooms(p, s, step);
    }
  }

  lemma {:induction false} UnpublishedBeforePublishing(p: Push, store: Store, steps: seq<Step>)
    requires Exec(p, Init(p, store), steps).Some?
    ensures
      var s := Exec(p, Init(p, store), steps).value;
      s.manifest.Some? ==> s.reader.Published? || s.reader.Aborted?
    ensures
      var s := Exec(p, Init(p, store), steps).value;
      s.reader.Aborted? ==> s.reader.err != PublishErr ==> s.manifest.None?
  {
    hide Apply, Enabled;
    if steps != [] {
      var init := steps[..|steps| - 1];
      UnpublishedBeforePublishing(p, store, init);
      StepPublishesLast(p, Exec(p, Init(p, store), init).value, steps[|steps| - 1]);
    }
  }

  lemma StepPublishesLast(p: Push, s: State, step: Step)
    requires Enabled(p, s, step)
    requires s.manifest.Some? ==> s.reader.Published? || s.reader.Aborted?
    requires s.reader.Aborted? ==> s.reader.err != PublishErr ==> s.manifest.None?
    ensures Apply(p, s, step).manifest.Some? ==> Apply(p, s, step).reader.Published? || Apply(p, s, step).reader.Aborted?
    ensures Apply(p, s, step).reader.Aborted? ==> Apply(p, s, step).reader.err != PublishErr ==> Apply(p, s, step).manifest.None?
  {
    hide ConfigText, ManifestOf, ChunkTotal, EntryRead, WorkerEffect, Collected, Assemble, WithBlob, Moved, MovingEnabled, WorkerEnabled;
    if step.ReadEntry? {
      EntryReadIsBeforeWait(p, s.tar);
    } else if MovingStep(step) {
      MovingHappensBefore(p, s, step);
    }
  }

  /** No moving step is one of a finished push, and none ends in a manifest failure. */
  lemma MovingHappensBefore(p: Push, s: State, step: Step)
    requires MovingStep(step) && MovingEnabled(p, s, step)
    ensures !s.reader.Published? && !s.reader.Aborted?
  {
    hide ConfigText, ChunkTotal;
  }

  /** While a failure can still happen nothing is published: the reader is not done, and no task is. */
  lemma FailuresComeBeforePublication(p: Push, s: State, step: Step)
    requires Inv(p, s) && Verdict(s) && Enabled(p, s, step) && (Fails(step) || (step.ParentCancel? && !PastWait(s) && !s.reader.Aborted?))
    ensures !s.reader.Published? && !s.reader.Aborted?
  {
    hide Inv, Reading, Verdict, ConfigText, ChunkTotal, WorkerEffect;
    if WorkerStep(step) {
      if Total(s.stages, Active) == 0 {
        InvAccounted(p, s);
        WorkersAreDone(p, s, step);
      } else {
        ActiveMeansRunning(s);
      }
    }
  }

  lemma InvAccounted(p: Push, s: State)
    requires Inv(p, s)
    ensures Accounted(s.reader, s.readErr, s.groupErr, s.stages)
  {
  }

  lemma ActiveMeansRunning(s: State)
    requires Verdict(s) && Total(s.stages, Active) > 0
    ensures !s.reader.Published? && !s.reader.Aborted?
  {
  }

  /**
   * In every run: once anything has failed, be it a read, an upload, a registry check, the export or the
   * config, no manifest is published.
   */
  lemma {:induction false} FailedPushPublishesNothing(p: Push, store: Store, steps: seq<Step>, i: nat)
    requires p.Ok() && p.su.w.DigestInjective() && ContentAddressed(p.su.w, store)
    requires Exec(p, Init(p, store), steps).Some? && i < |steps| && Fails(steps[i])
    ensures Doomed(Exec(p, Init(p, store), steps).value)
    ensures Exec(p, Init(p, store), steps).value.manifest.None?
  {
    hide Apply, Enabled, Inv, Fails, Doomed, Verdict;
    var last := |steps| - 1;
    var init := steps[..last];
    var s := Exec(p, Init(p, store), init).value;
    RunKeepsInv(p, store, init);
    if i < last {
      FailedPushPublishesNothing(p, store, init, i);
      StepKeepsDoomed(p, s, steps[last]);
    } else {
      RunKeepsVerdict(p, store, init);
      FailuresComeBeforePublication(p, s, steps[last]);
      UnpublishedBeforePublishing(p, store, init);
      FailingDooms(p, s, steps[last]);
    }
    DoomedHasNoManifest(Exec(p, Init(p, store), steps).value);
  }

  lemma DoomedHasNoManifest(s: State)
    requires Doomed(s)
    ensures s.manifest.None?
  {
  }

  /** A push whose caller cancelled before the wait was over publishes nothing either, however it goes on. */
  lemma {:induction false} CancelledPushPublishesNothing(p: Push, store: Store, steps: seq<Step>, n: nat)
    requires p.Ok() && p.su.w.DigestInjective() && ContentAddressed(p.su.w, store)
    requires Exec(p, Init(p, store), steps).Some? && n <= |steps| && Exec(p, Init(p, store), steps[..n]).Some?
    requires
      var s := Exec(p, Init(p, store), steps[..n]).value;
      s.parentCancelled && !PastWait(s) && !s.reader.Aborted?
    ensures Doomed(Exec(p, Init(p, store), steps).value)
    ensures Exec(p, Init(p, store), steps).value.manifest.None?
    decreases |steps|
  {
    hide Apply, Enabled, Inv;
    if n == |steps| {
      assert steps[..n] == steps;
      UnpublishedBeforePublishing(p, store, steps);
    } else {
      var last := |steps| - 1;
      assert steps[..last][..n] == steps[..n];
      CancelledPushPublishesNothing(p, store, steps[..last], n);
      RunKeepsInv(p, store, steps[..last]);
      StepKeepsDoomed(p, Exec(p, Init(p, store), steps[..last]).value, steps[last]);
    }
  }

  // ----- Nothing more is started -----

  /** Whether the reader may still start a task for what it is in the middle of. */
  function Allowance(r: Reader): nat {
    if r.NextEntry? || r.TakingRaw? || r.ReadingChunk? || r.HandingOver? || r.Spooling? then 1 else 0
  }

  lemma CancelledMovesAllowNothing(p: Push, s: State, step: Step)
    requires s.Cancelled() && MovingStep(step) && MovingEnabled(p, s, step)
    ensures Allowance(Moved(p, s, step).0) <= Allowance(s.reader)
  {
    hide ConfigText, ChunkTotal;
  }

  lemma CancelledStepStartsNothing(p: Push, s: State, step: Step)
    requires s.Cancelled() && Enabled(p, s, step)
    ensures Apply(p, s, step).Cancelled()
    ensures |Apply(p, s, step).tasks| + Allowance(Apply(p, s, step).reader) <= |s.tasks| + Allowance(s.reader)
  {
    hide ConfigText, ManifestOf, ChunkTotal, EntryRead, WorkerEffect, Collected, Assemble, WithBlob, Moved, MovingEnabled, WorkerEnabled;
    if WorkerStep(step) {
      WorkersRemember(p, s, step);
    } else if MovingStep(step) {
      CancelledMovesAllowNothing(p, s, step);
    }
  }

  /** Once a worker has failed or the caller has cancelled, the reader starts at most one more task, however long the run. */
  lemma {:induction false} CancelledPushStartsNothingMore(p: Push, s: State, steps: seq<Step>)
    requires s.Cancelled() && Exec(p, s, steps).Some?
    ensures
      var end := Exec(p, s, steps).value;
      && end.Cancelled()
      && |end.tasks| + Allowance(end.reader) <= |s.tasks| + Allowance(s.reader)
      && |end.tasks| <= |s.tasks| + 1
  {
    hide Apply, Enabled;
    if steps != [] {
      var init := steps[..|steps| - 1];
      CancelledPushStartsNothingMore(p, s, init);
      CancelledStepStartsNothing(p, Exec(p, s, init).value, steps[|steps| - 1]);
    }
  }

  // ----- Nothing is uploaded twice -----

  /** What is being uploaded was not there when the push began, nor when it was checked. */
  ghost predicate PutsOnlyMissing(p: Push, before: Store, s: State) {
    && (forall d: string :: d in before ==> d in s.store)
    && (forall j :: 0 <= j < |s.stages| && s.stages[j].Putting? ==> p.su.w.digest(s.stages[j].stored) !in before)
    && (s.reader.PutConfig? ==> p.su.w.digest(ConfigText(p, s.tar, s.assembly)) !in before)
  }

  lemma WorkerPutsTheMissing(p: Push, before: Store, s: State, step: Step)
    requires forall d: string :: d in before ==> d in s.store
    requires WorkerStep(step) && WorkerEnabled(p, s, step)
    ensures
      var e := WorkerEffect(p, s, step);
      && (e.stage.Putting? ==> p.su.w.digest(e.stage.stored) !in before)
      && forall d: string :: d in before ==> d in e.store
  {
    hide WorkerEffect, WorkerEnabled;
    PutsAreMissing(p, s, step);
    WorkerUploads(p, s, step);
  }

  /** A worker goes on to upload exactly when it has found the blob missing. */
  lemma PutsAreMissing(p: Push, s: State, step: Step)
    requires WorkerStep(step) && WorkerEnabled(p, s, step)
    ensures WorkerEffect(p, s, step).stage.Putting? ==> p.su.w.digest(WorkerEffect(p, s, step).stage.stored) !in s.store
  {
  }

  lemma WorkerPutsOnlyMissing(p: Push, before: Store, s: State, step: Step)
    requires PutsOnlyMissing(p, before, s) && WorkerStep(step) && WorkerEnabled(p, s, step)
    ensures PutsOnlyMissing(p, before, ApplyWorker(p, s, step))
  {
    hide ConfigText, WorkerEffect;
    WorkerPutsTheMissing(p, before, s, step);
  }

  lemma MovingPutsOnlyMissing(p: Push, before: Store, s: State, step: Step)
    requires PutsOnlyMissing(p, before, s) && MovingStep(step) && Enabled(p, s, step)
    ensures PutsOnlyMissing(p, before, Apply(p, s, step))
  {
    hide ConfigText, Moved, MovingEnabled, WorkerEnabled;
    MovedPutsTheMissing(p, s, step);
  }

  lemma MovedPutsTheMissing(p: Push, s: State, step: Step)
    requires MovingStep(step) && MovingEnabled(p, s, step)
    ensures Moved(p, s, step).0.PutConfig? ==> p.su.w.digest(ConfigText(p, s.tar, s.assembly)) !in s.store
  {
    hide ConfigText, ChunkTotal;
  }

  lemma OthersPutOnlyMissing(p: Push, before: Store, s: State, step: Step)
    requires PutsOnlyMissing(p, before, s) && Enabled(p, s, step) && !WorkerStep(step) && !MovingStep(step)
    ensures PutsOnlyMissing(p, before, Apply(p, s, step))
  {
    hide ConfigText, ManifestOf, ChunkTotal, EntryRead, Collected, Assemble, Stored, ChunkTask, SpoolTask, WorkerEnabled, MovingEnabled;
    if step.ReadEntry? {
      EntryReadIsBeforeWait(p, s.tar);
    }
  }

  /** In every run: a blob that was in the registry before the push is never uploaded again. */
  lemma {:induction false} NothingIsUploadedAgain(p: Push, store: Store, steps: seq<Step>)
    requires Exec(p, Init(p, store), steps).Some?
    ensures PutsOnlyMissing(p, store, Exec(p, Init(p, store), steps).value)
  {
    hide Apply, Enabled, PutsOnlyMissing;
    if steps == [] {
      NothingPutAtFirst(p, store);
    } else {
      var init, step := steps[..|steps| - 1], steps[|steps| - 1];
      NothingIsUploadedAgain(p, store, init);
      var s := Exec(p, Init(p, store), init).value;
      if WorkerStep(step) {
        StepIsWorkers(p, s, step);
        WorkerPutsOnlyMissing(p, store, s, step);
      } else if MovingStep(step) {
        MovingPutsOnlyMissing(p, store, s, step);
      } else {
        OthersPutOnlyMissing(p, store, s, step);
      }
    }
  }

  lemma NothingPutAtFirst(p: Push, store: Store)
    ensures PutsOnlyMissing(p, store, Init(p, store))
  {
  }

  lemma StepIsWorkers(p: Push, s: State, step: Step)
    requires WorkerStep(step) && Enabled(p, s, step)
    ensures WorkerEnabled(p, s, step) && Apply(p, s, step) == ApplyWorker(p, s, step)
  {
  }
}
