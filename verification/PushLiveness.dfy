/** A push that meets no failure: it can always be completed, and it publishes exactly when the tar is acceptable. */
module PushLiveness {
  import opened Sequences
  import opened Manifest
  import opened World
  import opened PushSpec
  import opened PushMachine
  import opened PushInvariant
  import opened PushReader
  import opened PushTheorems

  /** No failure and no cancellation; other clients may still upload. */
  predicate Undisturbed(step: Step) {
    Healthy(step) || step.OtherUpload?
  }

  predicate AllUndisturbed(steps: seq<Step>) {
    forall i :: 0 <= i < |steps| ==> Undisturbed(steps[i])
  }

  /** The reader accepts every entry, and one of them is the envelope. */
  ghost predicate Acceptable(p: Push) {
    EntriesOk(p, |p.items|) && EnvelopeUpTo(p.su, p.items, |p.items|).Some?
  }

  /** The first entry the reader does not accept. */
  ghost predicate FirstBad(p: Push, i: nat) {
    i < |p.items| && EntriesOk(p, i) && !EntryOk(p.su, p.items[i])
  }

  /** The tar makes the push fail: at a refused entry, or for want of an envelope. */
  ghost predicate Refused(p: Push) {
    || (exists i: nat :: FirstBad(p, i) && !Crashes(p.su, p.items[i]))
    || (EntriesOk(p, |p.items|) && EnvelopeUpTo(p.su, p.items, |p.items|).None?)
  }

  /** The tar makes the push panic. */
  ghost predicate Fatal(p: Push) {
    exists i: nat :: FirstBad(p, i) && Crashes(p.su, p.items[i])
  }

  /** A tar is acceptable, refused or fatal, and only one of them. */
  lemma OneOfThree(p: Push)
    ensures Acceptable(p) || Refused(p) || Fatal(p)
    ensures !(Acceptable(p) && Refused(p)) && !(Acceptable(p) && Fatal(p)) && !(Refused(p) && Fatal(p))
  {
    hide EntryOk, Crashes;
    if !EntriesOk(p, |p.items|) {
      var i := BadEntry(p, |p.items|);
    }
    forall i: nat, j: nat | FirstBad(p, i) && FirstBad(p, j)
      ensures i == j
    {
    }
  }

  lemma {:induction false} BadEntry(p: Push, n: nat) returns (i: nat)
    requires n <= |p.items| && !EntriesOk(p, n)
    ensures FirstBad(p, i)
  {
    hide EntryOk;
    if EntriesOk(p, n - 1) {
      i := n - 1;
    } else {
      i := BadEntry(p, n - 1);
    }
  }

  /** Nothing has failed but what the tar itself is to blame for. */
  ghost predicate Calm(p: Push, s: State) {
    && s.groupErr.None? && !s.parentCancelled
    && (forall j :: 0 <= j < |s.stages| ==> !s.stages[j].Failed?)
    && (s.readErr.Some? || s.reader.Aborted? ==> Refused(p))
  }

  lemma WorkerKeepsCalm(p: Push, s: State, step: Step)
    requires Calm(p, s) && WorkerStep(step) && WorkerEnabled(p, s, step) && Undisturbed(step)
    ensures Calm(p, ApplyWorker(p, s, step))
  {
    hide Refused;
    assert !WorkerEffect(p, s, step).stage.Failed?;
  }

  lemma ExportKeepsCalm(p: Push, s: State, step: Step)
    requires Calm(p, s) && Reading(p, s) && step.ExportEnds? && MovingEnabled(p, s, step) && Undisturbed(step)
    ensures Moved(p, s, step).0.Aborted? ==> Refused(p)
    ensures Moved(p, s, step).1 == s.readErr
  {
  }

  lemma MovingKeepsCalm(p: Push, s: State, step: Step)
    requires Calm(p, s) && Reading(p, s) && MovingStep(step) && Enabled(p, s, step) && Undisturbed(step)
    ensures Calm(p, Apply(p, s, step))
  {
    hide Refused, Reading, ConfigText, ChunkTotal;
    if step.ExportEnds? {
      ExportKeepsCalm(p, s, step);
    }
  }

  /** Reading an entry fails only when the entry is refused. */
  lemma ReadErrorBlamesEntry(p: Push, tar: Progress)
    requires tar.pos < |p.items|
    ensures EntryRead(p, tar).1.Some? ==> !EntryOk(p.su, p.items[tar.pos]) && !Crashes(p.su, p.items[tar.pos])
    ensures !EntryRead(p, tar).0.Aborted?
  {
    hide SparseFileMeta;
  }

  lemma ReadEntryKeepsCalm(p: Push, s: State)
    requires Calm(p, s) && Reading(p, s) && Enabled(p, s, ReadEntry)
    ensures Calm(p, Apply(p, s, ReadEntry))
  {
    hide EntryRead, EntryOk, Crashes;
    ReadErrorBlamesEntry(p, s.tar);
    assert EntryRead(p, s.tar).1.Some? ==> FirstBad(p, s.tar.pos);
  }

  lemma JoinKeepsCalm(p: Push, s: State)
    requires Calm(p, s) && Enabled(p, s, Join)
    ensures Calm(p, Apply(p, s, Join))
  {
    hide Refused, Collected, Assemble;
  }

  lemma AppendKeepsCalm(p: Push, s: State, step: Step)
    requires Calm(p, s) && Enabled(p, s, step) && (step.HandOver? || step.SpoolDone?)
    ensures Calm(p, Apply(p, s, step))
  {
    hide Refused, ChunkTask, SpoolTask, Stored, ChunkTotal;
  }

  lemma OtherStepsKeepCalm(p: Push, s: State, step: Step)
    requires Calm(p, s) && Enabled(p, s, step) && Undisturbed(step)
    requires !WorkerStep(step) && !MovingStep(step)
    requires !step.ReadEntry? && !step.Join? && !step.HandOver? && !step.SpoolDone?
    ensures Calm(p, Apply(p, s, step))
  {
    hide Refused, ConfigText, ManifestOf, WithBlob, ChunkTotal;
  }

  lemma StepKeepsCalm(p: Push, s: State, step: Step)
    requires Inv(p, s) && Calm(p, s) && Enabled(p, s, step) && Undisturbed(step)
    ensures Calm(p, Apply(p, s, step))
  {
    hide Inv, Calm, Enabled, Undisturbed, Reading, Refused, EntryRead, WorkerEffect;
    InvReading(p, s);
    if WorkerStep(step) {
      WorkerIsEnabled(p, s, step);
      WorkerKeepsCalm(p, s, step);
    } else if MovingStep(step) {
      MovingKeepsCalm(p, s, step);
    } else if step.ReadEntry? {
      ReadEntryKeepsCalm(p, s);
    } else if step.Join? {
      JoinKeepsCalm(p, s);
    } else if step.HandOver? || step.SpoolDone? {
      AppendKeepsCalm(p, s, step);
    } else {
      OtherStepsKeepCalm(p, s, step);
    }
  }

  lemma WorkerIsEnabled(p: Push, s: State, step: Step)
    requires Enabled(p, s, step) && WorkerStep(step)
    ensures WorkerEnabled(p, s, step)
  {
  }

  lemma {:induction false} UndisturbedRunIsCalm(p: Push, store: Store, steps: seq<Step>)
    requires p.Ok() && p.su.w.DigestInjective() && ContentAddressed(p.su.w, store)
    requires Exec(p, Init(p, store), steps).Some? && AllUndisturbed(steps)
    ensures Calm(p, Exec(p, Init(p, store), steps).value)
  {
    hide Apply, Enabled, Inv, Undisturbed, Refused;
    if steps != [] {
      var init := steps[..|steps| - 1];
      UndisturbedRunIsCalm(p, store, init);
      RunKeepsInv(p, store, init);
      StepKeepsCalm(p, Exec(p, Init(p, store), init).value, steps[|steps| - 1]);
    }
  }

  /** A push that meets no failure ends as the tar decides: published if acceptable, aborted if refused, in a panic if fatal. */
  lemma UndisturbedPushEndsAsTheTarDecides(p: Push, store: Store, steps: seq<Step>)
    requires p.Ok() && p.su.w.DigestInjective() && ContentAddressed(p.su.w, store)
    requires Exec(p, Init(p, store), steps).Some? && AllUndisturbed(steps)
    requires Terminal(Exec(p, Init(p, store), steps).value)
    ensures
      var s := Exec(p, Init(p, store), steps).value;
      && (s.reader.Published? <==> Acceptable(p))
      && (s.reader.Aborted? <==> Refused(p))
      && (s.reader.Crashed? <==> Fatal(p))
  {
    hide Apply, Enabled, EntryOk, Crashes, FinalManifest, Refused, Staged, Accounted, Budgeted, AllUndisturbed;
    var s := Exec(p, Init(p, store), steps).value;
    UndisturbedRunIsCalm(p, store, steps);
    RunKeepsInv(p, store, steps);
    OneOfThree(p);
    if s.reader.Crashed? {
      CrashesIff(p.su, p.items[s.tar.pos]);
      assert FirstBad(p, s.tar.pos);
    }
  }

  lemma PushRunExtends(p: Push, s: State, steps: seq<Step>, step: Step)
    requires Exec(p, s, steps).Some? && Enabled(p, Exec(p, s, steps).value, step)
    ensures Exec(p, s, steps + [step]) == Some(Apply(p, Exec(p, s, steps).value, step))
  {
    hide Enabled, Apply;
    assert (steps + [step])[..|steps|] == steps;
  }

  lemma HealthyIsUndisturbed(steps: seq<Step>, step: Step)
    requires AllUndisturbed(steps) && Healthy(step)
    ensures AllUndisturbed(steps + [step]) && !step.OtherUpload?
  {
  }

  /** And it can always be completed, whatever has happened so far. */
  lemma {:induction false} UndisturbedPushCompletes(p: Push, store: Store, steps: seq<Step>) returns (all: seq<Step>)
    requires p.Ok() && p.su.w.DigestInjective() && ContentAddressed(p.su.w, store)
    requires Exec(p, Init(p, store), steps).Some? && AllUndisturbed(steps)
    ensures steps <= all && AllUndisturbed(all)
    ensures Exec(p, Init(p, store), all).Some? && Terminal(Exec(p, Init(p, store), all).value)
    decreases Measure(p, Exec(p, Init(p, store), steps).value)
  {
    hide Enabled, Apply, Measure, Inv, Reading, Healthy, AllUndisturbed, Terminal;
    var s := Exec(p, Init(p, store), steps).value;
    RunKeepsInv(p, store, steps);
    if Terminal(s) {
      all := steps;
    } else {
      var step := SomeStepIsEnabled(p, s);
      PushRunExtends(p, Init(p, store), steps, step);
      HealthyIsUndisturbed(steps, step);
      StepDecreases(p, s, step);
      RunKeepsInv(p, store, steps + [step]);
      InvReading(p, Apply(p, s, step));
      MeasureIsNatural(p, Apply(p, s, step));
      all := UndisturbedPushCompletes(p, store, steps + [step]);
    }
  }
}
