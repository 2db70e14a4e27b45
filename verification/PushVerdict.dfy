/** Which error a push reports, over every run: a worker's failure is not masked by the cancellation it causes. */
module PushVerdict {
  import opened Sequences
  import opened Manifest
  import opened World
  import opened PushSpec
  import opened PushMachine
  import opened PushInvariant
  import opened PushReader
  import opened PushTheorems

  /** The reader saw nothing worse than a cancelled context. */
  predicate OnlyCancelled(readErr: Option<Err>) {
    readErr.None? || readErr == Some(Canceled)
  }

  /** The error a push aborts with once a worker has failed. */
  function Reported(readErr: Option<Err>): Err {
    if OnlyCancelled(readErr) then WorkerErr else readErr.value
  }

  /** After the wait nothing runs any more, and the error group's failure has been accounted for. */
  ghost predicate Verdict(s: State) {
    && (s.groupErr.Some? ==> s.groupErr == Some(WorkerErr))
    && (PastWait(s) || s.reader.Aborted? ==> Total(s.stages, Active) == 0)
    && (PastWait(s) ==> s.groupErr.None? && !s.reader.Inline?)
    && (s.reader.Aborted? && s.groupErr.Some? ==> s.reader.err == Reported(s.readErr))
  }

  /** No worker has anything left to do after the wait. */
  lemma WorkersAreDone(p: Push, s: State, step: Step)
    requires Accounted(s.reader, s.readErr, s.groupErr, s.stages) && WorkerStep(step) && WorkerEnabled(p, s, step)
    requires Total(s.stages, Active) == 0
    ensures s.reader.Inline?
  {
    TotalAtLeast(s.stages, Active, step.j);
    assert RunByReader(s.stages[step.j]);
  }

  lemma WorkerKeepsVerdict(p: Push, s: State, step: Step)
    requires Accounted(s.reader, s.readErr, s.groupErr, s.stages) && Verdict(s)
    requires WorkerStep(step) && WorkerEnabled(p, s, step)
    ensures Verdict(ApplyWorker(p, s, step))
  {
    hide WorkerEffect, WorkerEnabled, Accounted;
    WorkersRemember(p, s, step);
    if Total(s.stages, Active) == 0 {
      WorkersAreDone(p, s, step);
    }
  }

  lemma MovedEndsAfterTheWait(p: Push, s: State, step: Step)
    requires MovingStep(step) && MovingEnabled(p, s, step)
    ensures
      var reader := Moved(p, s, step).0;
      && !reader.Inline?
      && (reader.Aborted? || reader.CheckConfig? || reader.PutConfig? || reader.Publishing? ==> PastWait(s))
      && !reader.Exported? && !reader.Published?
  {
    hide ConfigText, ChunkTotal;
  }

  lemma MovingKeepsVerdict(p: Push, s: State, step: Step)
    requires Verdict(s) && MovingStep(step) && Enabled(p, s, step)
    ensures Verdict(Apply(p, s, step))
  {
    hide Moved, MovingEnabled, WorkerEnabled;
    MovedEndsAfterTheWait(p, s, step);
  }

  lemma JoinKeepsVerdict(p: Push, s: State)
    requires Verdict(s) && Enabled(p, s, Join)
    ensures Verdict(Apply(p, s, Join))
  {
    hide Collected, Assemble, WorkerEnabled, MovingEnabled;
  }

  lemma EntryKeepsVerdict(p: Push, s: State)
    requires Verdict(s) && Enabled(p, s, ReadEntry)
    ensures Verdict(Apply(p, s, ReadEntry))
  {
    hide SparseFileMeta, IsEnvelope, WorkerEnabled, MovingEnabled;
  }

  lemma OtherStepsKeepVerdict(p: Push, s: State, step: Step)
    requires Verdict(s) && Enabled(p, s, step) && !WorkerStep(step) && !MovingStep(step) && !step.Join? && !step.ReadEntry?
    ensures Verdict(Apply(p, s, step))
  {
    hide ConfigText, ManifestOf, ChunkTotal, WithBlob, Stored, ChunkTask, SpoolTask, WorkerEnabled, MovingEnabled;
  }

  lemma StepKeepsVerdict(p: Push, s: State, step: Step)
    requires Inv(p, s) && Verdict(s) && Enabled(p, s, step)
    ensures Verdict(Apply(p, s, step))
  {
    hide Verdict, Reading, WorkerEffect, EntryRead, Moved, MovingEnabled;
    if WorkerStep(step) {
      WorkerKeepsVerdict(p, s, step);
    } else if MovingStep(step) {
      MovingKeepsVerdict(p, s, step);
    } else if step.Join? {
      JoinKeepsVerdict(p, s);
    } else if step.ReadEntry? {
      EntryKeepsVerdict(p, s);
    } else {
      OtherStepsKeepVerdict(p, s, step);
    }
  }

  lemma VerdictAtFirst(p: Push, store: Store)
    ensures Verdict(Init(p, store))
  {
  }

  /** Over every run: the read phase succeeds only without a worker's failure, and an abort after one reports what it should. */
  lemma {:induction false} RunKeepsVerdict(p: Push, store: Store, steps: seq<Step>)
    requires p.Ok() && p.su.w.DigestInjective() && ContentAddressed(p.su.w, store)
    requires Exec(p, Init(p, store), steps).Some?
    ensures Verdict(Exec(p, Init(p, store), steps).value)
  {
    hide Apply, Enabled, Inv, Verdict;
    if steps == [] {
      VerdictAtFirst(p, store);
    } else {
      var init := steps[..|steps| - 1];
      RunKeepsVerdict(p, store, init);
      RunKeepsInv(p, store, init);
      StepKeepsVerdict(p, Exec(p, Init(p, store), init).value, steps[|steps| - 1]);
    }
  }

  /** The reader meets a failure of its own; being cancelled is none. */
  predicate ReaderFault(step: Step) {
    || step.TarFault? || step.ChunkFault?
    || (step.SpoolFault? && step.err != Canceled)
    || (step.InlineFailed? && step.err != Canceled)
  }

  lemma MovingKeepsOnlyCancelled(p: Push, s: State, step: Step)
    requires OnlyCancelled(s.readErr) && MovingStep(step) && MovingEnabled(p, s, step) && !ReaderFault(step)
    ensures OnlyCancelled(Moved(p, s, step).1)
  {
    hide ConfigText, ChunkTotal;
  }

  lemma AcceptedEntryReads(p: Push, tar: Progress)
    requires tar.pos < |p.items| && EntryOk(p.su, p.items[tar.pos])
    ensures EntryRead(p, tar).1.None?
  {
    hide SparseFileMeta;
  }

  lemma StepKeepsOnlyCancelled(p: Push, s: State, step: Step)
    requires EntriesOk(p, |p.items|) && OnlyCancelled(s.readErr) && Enabled(p, s, step) && !ReaderFault(step)
    ensures OnlyCancelled(Apply(p, s, step).readErr)
  {
    hide EntryOk, EntryRead, Moved, WorkerEffect, Collected, Assemble, ConfigText, ManifestOf, ChunkTotal;
    if MovingStep(step) {
      MovingKeepsOnlyCancelled(p, s, step);
    } else if step.ReadEntry? {
      AcceptedEntryReads(p, s.tar);
    }
  }

  lemma {:induction false} RunKeepsOnlyCancelled(p: Push, store: Store, steps: seq<Step>)
    requires EntriesOk(p, |p.items|) && Exec(p, Init(p, store), steps).Some?
    requires forall i :: 0 <= i < |steps| ==> !ReaderFault(steps[i])
    ensures OnlyCancelled(Exec(p, Init(p, store), steps).value.readErr)
  {
    hide Apply, Enabled, EntriesOk, ReaderFault;
    if steps != [] {
      var init := steps[..|steps| - 1];
      RunKeepsOnlyCancelled(p, store, init);
      StepKeepsOnlyCancelled(p, Exec(p, Init(p, store), init).value, steps[|steps| - 1]);
    }
  }

  /**
   * A finished push in which a worker failed and the reader met no failure of its own reports the
   * worker's failure, even though that failure cancelled the reader, and even if the caller cancelled too.
   */
  lemma WorkerFailureIsReported(p: Push, store: Store, steps: seq<Step>)
    requires p.Ok() && p.su.w.DigestInjective() && ContentAddressed(p.su.w, store) && EntriesOk(p, |p.items|)
    requires Exec(p, Init(p, store), steps).Some?
    requires forall i :: 0 <= i < |steps| ==> !ReaderFault(steps[i])
    requires Terminal(Exec(p, Init(p, store), steps).value) && Exec(p, Init(p, store), steps).value.groupErr.Some?
    ensures Exec(p, Init(p, store), steps).value.reader == Aborted(WorkerErr)
  {
    hide Apply, Enabled, EntryOk, ReaderFault, Crashes;
    RunKeepsVerdict(p, store, steps);
    RunKeepsOnlyCancelled(p, store, steps);
    NothingAcceptedCrashes(p, store, steps);
  }

  lemma NothingAcceptedCrashes(p: Push, store: Store, steps: seq<Step>)
    requires p.Ok() && p.su.w.DigestInjective() && ContentAddressed(p.su.w, store) && EntriesOk(p, |p.items|)
    requires Exec(p, Init(p, store), steps).Some?
    ensures !Exec(p, Init(p, store), steps).value.reader.Crashed?
  {
    hide Apply, Enabled, EntryOk, Crashes;
    RunKeepsInv(p, store, steps);
    var s := Exec(p, Init(p, store), steps).value;
    if s.reader.Crashed? {
      CrashesIff(p.su, p.items[s.tar.pos]);
    }
  }
}
