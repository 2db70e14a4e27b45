/** How much memory a push's two buffer pools stand for, over every run, against the budget pipelineParams solved. */
module PushMemory {
  import opened Sequences
  import opened Manifest
  import opened World
  import opened PushSpec
  import opened BufPools
  import opened PushMachine
  import opened PushInvariant
  import opened PushReader
  import opened PushTheorems
  import PushBudget

  // ----- Buffers of the tasks and the reader -----

  function RawBytes(st: Stage): nat {
    match st
    case WantOut(raw) => raw
    case Encoding(raw, _) => raw
    case Checking(hold, _) => if hold.RawBuf? then hold.buf else 0
    case Putting(hold, _) => if hold.RawBuf? then hold.buf else 0
    case Done(_) => 0
    case Failed(_) => 0
  }

  function OutBytes(st: Stage): nat {
    match st
    case WantOut(_) => 0
    case Encoding(_, out) => out
    case Checking(hold, _) => if hold.OutBuf? then hold.buf else 0
    case Putting(hold, _) => if hold.OutBuf? then hold.buf else 0
    case Done(_) => 0
    case Failed(_) => 0
  }

  function ReaderBytes(r: Reader): nat {
    if r.ReadingChunk? || r.HandingOver? then r.buf else 0
  }

  /** Memory of the raw pool: free buffers, the tasks' and the reader's. */
  function RawMemory(s: State): nat {
    Total(s.rawFree, Same) + Total(s.stages, RawBytes) + ReaderBytes(s.reader)
  }

  function OutMemory(s: State): nat {
    Total(s.outFree, Same) + Total(s.stages, OutBytes)
  }

  // ----- No raw buffer is larger than a chunk -----

  ghost predicate RawSized(p: Push, s: State) {
    && AllAtMost(s.rawFree, p.su.chunkSize)
    && ReaderBytes(s.reader) <= p.su.chunkSize
    && forall j :: 0 <= j < |s.stages| ==> RawBytes(s.stages[j]) <= p.su.chunkSize
  }

  /** And while no encoding has outgrown its buffer, neither is an output buffer. */
  ghost predicate OutSized(p: Push, s: State) {
    && AllAtMost(s.outFree, p.su.chunkSize)
    && |s.tasks| == |s.stages|
    && (s.reader.HandingOver? ==> |s.reader.raw| <= p.su.chunkSize)
    && forall j :: 0 <= j < |s.stages| ==> StageSized(p, s.tasks[j], s.stages[j])
  }

  ghost predicate StageSized(p: Push, t: Task, st: Stage) {
    OutBytes(st) <= p.su.chunkSize && (st.WantOut? ==> |t.raw| <= p.su.chunkSize)
  }

  /** EncodeAll returned a slice no larger than a chunk. */
  predicate Snug(p: Push, step: Step) {
    step.Encode? ==> step.grown <= p.su.chunkSize
  }

  lemma WorkerKeepsRawSized(p: Push, s: State, step: Step)
    requires RawSized(p, s) && WorkerStep(step) && WorkerEnabled(p, s, step)
    ensures RawSized(p, ApplyWorker(p, s, step))
  {
    var e, chunk := WorkerEffect(p, s, step), p.su.chunkSize;
    assert RawBytes(s.stages[step.j]) <= chunk;
    assert RawBytes(e.stage) <= chunk && AllAtMost(e.rawFree, chunk);
  }

  lemma WorkerKeepsOutSized(p: Push, s: State, step: Step)
    requires OutSized(p, s) && WorkerStep(step) && WorkerEnabled(p, s, step) && Snug(p, step)
    ensures OutSized(p, ApplyWorker(p, s, step))
  {
    var e, chunk := WorkerEffect(p, s, step), p.su.chunkSize;
    assert StageSized(p, s.tasks[step.j], s.stages[step.j]);
    assert StageSized(p, s.tasks[step.j], e.stage) && AllAtMost(e.outFree, chunk);
  }

  lemma HandOverKeepsSized(p: Push, s: State)
    requires RawSized(p, s) && Enabled(p, s, HandOver)
    ensures RawSized(p, Apply(p, s, HandOver))
    ensures OutSized(p, s) ==> OutSized(p, Apply(p, s, HandOver))
  {
    hide ChunkTotal, LayerType;
  }

  lemma SpoolDoneKeepsSized(p: Push, s: State)
    requires RawSized(p, s) && Enabled(p, s, SpoolDone)
    ensures RawSized(p, Apply(p, s, SpoolDone))
    ensures OutSized(p, s) ==> OutSized(p, Apply(p, s, SpoolDone))
  {
    hide Stored, SpoolTask;
  }

  lemma ReadEntryKeepsSized(p: Push, s: State)
    requires RawSized(p, s) && Enabled(p, s, ReadEntry)
    ensures RawSized(p, Apply(p, s, ReadEntry))
    ensures OutSized(p, s) ==> OutSized(p, Apply(p, s, ReadEntry))
  {
    hide SparseFileMeta;
  }

  lemma MovedHoldsNothing(p: Push, s: State, step: Step)
    requires MovingStep(step) && MovingEnabled(p, s, step)
    ensures ReaderBytes(Moved(p, s, step).0) == 0 && !Moved(p, s, step).0.HandingOver?
  {
    hide ConfigText, ChunkTotal;
  }

  lemma MovingKeepsSized(p: Push, s: State, step: Step)
    requires RawSized(p, s) && MovingStep(step) && Enabled(p, s, step)
    ensures RawSized(p, Apply(p, s, step))
    ensures OutSized(p, s) ==> OutSized(p, Apply(p, s, step))
  {
    hide Moved, MovingEnabled, WorkerEnabled;
    MovedHoldsNothing(p, s, step);
  }

  lemma OtherStepsKeepSized(p: Push, s: State, step: Step)
    requires RawSized(p, s) && Enabled(p, s, step) && !WorkerStep(step) && !MovingStep(step)
    requires !step.HandOver? && !step.SpoolDone? && !step.ReadEntry?
    ensures RawSized(p, Apply(p, s, step))
    ensures OutSized(p, s) ==> OutSized(p, Apply(p, s, step))
  {
    hide ConfigText, ManifestOf, ChunkTotal, Collected, Assemble, WithBlob, WorkerEnabled, MovingEnabled;
  }

  lemma StepKeepsSized(p: Push, s: State, step: Step)
    requires RawSized(p, s) && Enabled(p, s, step)
    ensures RawSized(p, Apply(p, s, step))
    ensures OutSized(p, s) && Snug(p, step) ==> OutSized(p, Apply(p, s, step))
  {
    hide RawSized, OutSized, Snug, WorkerEffect, EntryRead, Moved, MovingEnabled;
    if WorkerStep(step) {
      WorkerKeepsRawSized(p, s, step);
      if OutSized(p, s) && Snug(p, step) {
        WorkerKeepsOutSized(p, s, step);
      }
    } else if MovingStep(step) {
      MovingKeepsSized(p, s, step);
    } else {
      match step
      case HandOver => HandOverKeepsSized(p, s);
      case SpoolDone => SpoolDoneKeepsSized(p, s);
      case ReadEntry => ReadEntryKeepsSized(p, s);
      case _ => OtherStepsKeepSized(p, s, step);
    }
  }

  lemma {:induction false} RunKeepsSized(p: Push, store: Store, steps: seq<Step>)
    requires Exec(p, Init(p, store), steps).Some?
    ensures RawSized(p, Exec(p, Init(p, store), steps).value)
    ensures (forall i :: 0 <= i < |steps| ==> Snug(p, steps[i])) ==> OutSized(p, Exec(p, Init(p, store), steps).value)
  {
    hide Apply, Enabled, Snug;
    if steps != [] {
      var init := steps[..|steps| - 1];
      RunKeepsSized(p, store, init);
      StepKeepsSized(p, Exec(p, Init(p, store), init).value, steps[|steps| - 1]);
    }
  }

  // ----- The pools against the budget -----

  lemma RawMemoryFits(p: Push, s: State)
    requires Inv(p, s) && RawSized(p, s)
    ensures RawMemory(s) <= (p.workers + 1) * p.su.chunkSize
  {
    hide Located, Staged, Accounted, PublishedSafely;
    var c := p.su.chunkSize;
    FreeBytes(s.rawFree, c);
    forall j | 0 <= j < |s.stages|
      ensures RawBytes(s.stages[j]) <= c * RawHeld(s.stages[j])
    {
      HeldWithin(RawBytes(s.stages[j]), RawHeld(s.stages[j]), c);
    }
    TotalScaled(s.stages, RawBytes, RawHeld, c);
    HeldWithin(ReaderBytes(s.reader), ReaderRaw(s.reader), c);
    Distribute(c, |s.rawFree|, Total(s.stages, RawHeld), ReaderRaw(s.reader));
  }

  lemma OutMemoryFits(p: Push, s: State)
    requires Inv(p, s) && OutSized(p, s)
    ensures OutMemory(s) <= (p.workers + 1) * p.su.chunkSize
  {
    hide Located, Staged, Accounted, PublishedSafely;
    var c := p.su.chunkSize;
    FreeBytes(s.outFree, c);
    forall j | 0 <= j < |s.stages|
      ensures OutBytes(s.stages[j]) <= c * OutHeld(s.stages[j])
    {
      assert StageSized(p, s.tasks[j], s.stages[j]);
      HeldWithin(OutBytes(s.stages[j]), OutHeld(s.stages[j]), c);
    }
    TotalScaled(s.stages, OutBytes, OutHeld, c);
    Distribute(c, |s.outFree|, Total(s.stages, OutHeld), 0);
  }

  lemma HeldWithin(bytes: nat, held: nat, c: nat)
    requires bytes <= c && held <= 1 && (held == 0 ==> bytes == 0)
    ensures bytes <= c * held
  {
  }

  /**
   * A push with solved parameters: in every state of every run the raw buffers take at most half the
   * budget, and unless an encoding outgrew its buffer both pools together stay within it.
   */
  lemma PushMemoryWithinBudget(opts: PushBudget.PushOptions, p: Push, store: Store, steps: seq<Step>)
    requires PushBudget.Solves(opts, PushBudget.Params(p.workers, p.su.chunkSize)) && p.su.chunkSize > 0
    requires p.Ok() && p.su.w.DigestInjective() && ContentAddressed(p.su.w, store)
    requires Exec(p, Init(p, store), steps).Some?
    ensures
      var s := Exec(p, Init(p, store), steps).value;
      && 2 * RawMemory(s) <= PushBudget.Budget(opts)
      && ((forall i :: 0 <= i < |steps| ==> Snug(p, steps[i])) ==> RawMemory(s) + OutMemory(s) <= PushBudget.Budget(opts))
  {
    hide Inv, RawSized, OutSized, Snug, RawMemory, OutMemory, Apply, Enabled;
    var s := Exec(p, Init(p, store), steps).value;
    RunKeepsInv(p, store, steps);
    RunKeepsSized(p, store, steps);
    RawMemoryFits(p, s);
    if OutSized(p, s) {
      OutMemoryFits(p, s);
    }
    assert PushBudget.PoolBytes(p.workers, p.su.chunkSize) == 2 * ((p.workers + 1) * p.su.chunkSize);
  }

  /** The same in terms of the caller's options: the MiB asked for, or 9216 when none were. */
  lemma PushMemoryByOptions(opts: PushBudget.PushOptions, p: Push, store: Store, steps: seq<Step>, budget: int)
    requires PushBudget.Solves(opts, PushBudget.Params(p.workers, p.su.chunkSize)) && opts.chunkSizeMiB > 0
    requires PushBudget.MeansBytes(opts.memoryBudgetMiB, 9663676416, budget)
    requires p.Ok() && p.su.w.DigestInjective() && ContentAddressed(p.su.w, store)
    requires Exec(p, Init(p, store), steps).Some?
    ensures
      var s := Exec(p, Init(p, store), steps).value;
      && 2 * RawMemory(s) <= budget
      && ((forall i :: 0 <= i < |steps| ==> Snug(p, steps[i])) ==> RawMemory(s) + OutMemory(s) <= budget)
  {
    hide RawMemory, OutMemory, Snug, Exec;
    PushBudget.ShiftIsMeant(opts.memoryBudgetMiB, 9663676416, budget);
    PushMemoryWithinBudget(opts, p, store, steps);
  }
}
