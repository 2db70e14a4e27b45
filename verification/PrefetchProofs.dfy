/** Invariance, progress, termination, conservation and output of the prefetch protocol, over every run. */
module PrefetchProofs {
  import opened Sequences
  import opened BufPools
  import opened Prefetch

  ghost predicate FullPools(job: Job, pools: Pools) {
    && |pools.input| == job.inSize && |pools.output| == job.outSize
    && AllAtMost(pools.input, job.inCap) && AllAtMost(pools.output, job.outCap)
  }

  lemma InitInv(job: Job, pools: Pools)
    requires job.Ok() && FullPools(job, pools)
    ensures Inv(job, Init(job, pools))
  {
    var s := Init(job, pools);
    TotalWithin(s.fetches, InHeld, 0, 0);
    TotalWithin(s.fetches, OutHeld, 0, 0);
    assert job.Plains()[..0] == [];
  }

  predicate ProducerStep(step: Step) {
    step.Cancel? || step.Send? || step.Spawn? || step.StopEarly? || step.Finish?
  }

  predicate ConsumerStep(step: Step) {
    step.Pop? || step.Write? || step.WriteFails? || step.SeeFailure? || step.DrainOne? || step.Return?
  }

  lemma ProducerKeepsShape(job: Job, s: State, step: Step)
    requires job.Ok() && Shape(job, s) && Enabled(job, s, step) && ProducerStep(step)
    ensures Shape(job, Apply(job, s, step))
  {
  }

  /** A fetch may move between its in-flight and delivered states without disturbing any position. */
  lemma FetchMoveKeepsShape(job: Job, s: State, k: nat, f: Fetch, pools: Pools)
    requires Shape(job, s) && k < |s.fetches|
    requires !s.fetches[k].Idle? && !s.fetches[k].Taken? && !f.Idle? && !f.Taken? && FetchShape(job, f)
    ensures Shape(job, s.(fetches := s.fetches[k := f], pools := pools))
  {
  }

  lemma FetchKeepsShape(job: Job, s: State, step: Step)
    requires job.Ok() && Shape(job, s) && Conserved(job, s) && Enabled(job, s, step)
    requires !ProducerStep(step) && !ConsumerStep(step)
    ensures Shape(job, Apply(job, s, step))
  {
    var r := Apply(job, s, step);
    FetchMoveKeepsShape(job, s, step.k, r.fetches[step.k], r.pools);
  }

  /** The consumer finishes with the future it is waiting for. */
  lemma TakingKeepsShape(job: Job, s: State, k: nat, r: State)
    requires Shape(job, s) && k < |s.fetches| && k == Finished(s) && k == s.received - 1
    requires !s.fetches[k].Idle?
    requires r.fetches == s.fetches[k := Taken]
    requires r.producer == s.producer && r.sent == s.sent && r.received == s.received && r.queue == s.queue
    requires r.consumer.Ranging? || r.consumer.Draining?
    ensures Shape(job, r)
  {
  }

  lemma ConsumerKeepsShape(job: Job, s: State, step: Step)
    requires job.Ok() && Shape(job, s) && Enabled(job, s, step) && ConsumerStep(step)
    ensures Shape(job, Apply(job, s, step))
  {
    var r := Apply(job, s, step);
    if !step.Pop? && !step.Return? {
      TakingKeepsShape(job, s, s.consumer.k, r);
    }
  }

  lemma StepKeepsShape(job: Job, s: State, step: Step)
    requires job.Ok() && Shape(job, s) && Conserved(job, s) && Enabled(job, s, step)
    ensures Shape(job, Apply(job, s, step))
  {
    if ProducerStep(step) {
      ProducerKeepsShape(job, s, step);
    } else if ConsumerStep(step) {
      ConsumerKeepsShape(job, s, step);
    } else {
      FetchKeepsShape(job, s, step);
    }
  }

  lemma StepKeepsEndings(job: Job, s: State, step: Step)
    requires job.Ok() && Shape(job, s) && Endings(job, s) && Enabled(job, s, step)
    ensures Endings(job, Apply(job, s, step))
  {
  }

  /** What one step does to the fetches: it changes at most one of them. */
  function Touched(s: State, step: Step): nat {
    if step.Spawn? then if s.sent > 0 then s.sent - 1 else 0
    else if step.TakeIn? || step.ReadIn? || step.TakeOut? || step.Decode? || step.TakeRaw? || step.ReadRaw? then step.k
    else if s.consumer.Awaiting? || s.consumer.DrainAwaiting? then s.consumer.k
    else 0
  }

  lemma StepTouchesOne(job: Job, s: State, step: Step)
    requires Shape(job, s) && Enabled(job, s, step)
    ensures
      var r := Apply(job, s, step);
      var k := Touched(s, step);
      r.fetches == s.fetches || (k < |s.fetches| && r.fetches == s.fetches[k := r.fetches[k]])
  {
  }

  /** A step that takes a buffer from a pool makes its fetch hold one more, and giving back undoes that. */
  lemma StepBalances(job: Job, s: State, step: Step)
    requires Shape(job, s) && Enabled(job, s, step) && Touched(s, step) < |s.fetches|
    ensures
      var r, k := Apply(job, s, step), Touched(s, step);
      && |r.pools.input| + InHeld(r.fetches[k]) == |s.pools.input| + InHeld(s.fetches[k])
      && |r.pools.output| + OutHeld(r.fetches[k]) == |s.pools.output| + OutHeld(s.fetches[k])
  {
  }

  lemma StepKeepsCapacities(job: Job, s: State, step: Step)
    requires Shape(job, s) && Enabled(job, s, step)
    requires AllAtMost(s.pools.input, job.inCap) && AllAtMost(s.pools.output, job.outCap)
    ensures AllAtMost(Apply(job, s, step).pools.input, job.inCap)
    ensures AllAtMost(Apply(job, s, step).pools.output, job.outCap)
  {
  }

  lemma StepKeepsConserved(job: Job, s: State, step: Step)
    requires Shape(job, s) && Conserved(job, s) && Enabled(job, s, step)
    ensures Conserved(job, Apply(job, s, step))
  {
    StepKeepsCapacities(job, s, step);
    StepTouchesOne(job, s, step);
    var r, k := Apply(job, s, step), Touched(s, step);
    if k < |s.fetches| {
      StepBalances(job, s, step);
      assert r.fetches == s.fetches[k := r.fetches[k]];
      TotalUpdate(s.fetches, InHeld, k, r.fetches[k]);
      TotalUpdate(s.fetches, OutHeld, k, r.fetches[k]);
    }
  }

  lemma WriteKeepsBytewise(job: Job, s: State, step: Step)
    requires job.Ok() && Shape(job, s) && Bytewise(job, s) && Enabled(job, s, step) && (step.Write? || step.WriteFails?)
    requires Shape(job, Apply(job, s, step))
    ensures Bytewise(job, Apply(job, s, step))
  {
    var k, data := s.consumer.k, s.fetches[s.consumer.k].data;
    FlattenSnoc(job.Plains(), k);
    FlattenPrefix(job.Plains(), k + 1);
    assert FetchData(job, k, s.fetches[k]);
    assert data == job.Plains()[k];
    if step.WriteFails? {
      assert data[..step.n] <= data;
    }
  }

  /** What the one fetch a step moves carries afterwards is still that chunk's data. */
  lemma TouchedKeepsData(job: Job, s: State, step: Step)
    requires job.RawIsPlain() && Shape(job, s) && Enabled(job, s, step) && Touched(s, step) < |s.fetches|
    requires FetchData(job, Touched(s, step), s.fetches[Touched(s, step)])
    ensures FetchData(job, Touched(s, step), Apply(job, s, step).fetches[Touched(s, step)])
  {
  }

  lemma FetchDataKept(job: Job, s: State, step: Step)
    requires job.RawIsPlain() && Shape(job, s) && Bytewise(job, s) && Enabled(job, s, step)
    ensures forall i :: 0 <= i < |s.fetches| ==> FetchData(job, i, Apply(job, s, step).fetches[i])
  {
    hide FetchData;
    StepTouchesOne(job, s, step);
    var k := Touched(s, step);
    if k < |s.fetches| {
      assert FetchData(job, k, s.fetches[k]);
      TouchedKeepsData(job, s, step);
    }
  }

  /** Only the consumer's writes change what has been written. */
  lemma OtherStepsKeepBytewise(job: Job, s: State, step: Step)
    requires job.RawIsPlain() && Shape(job, s) && Bytewise(job, s) && Enabled(job, s, step)
    requires !step.Write? && !step.WriteFails? && Shape(job, Apply(job, s, step))
    ensures Bytewise(job, Apply(job, s, step))
  {
    hide FetchData, FetchShape;
    FetchDataKept(job, s, step);
  }

  lemma StepKeepsBytewise(job: Job, s: State, step: Step)
    requires job.Ok() && job.RawIsPlain() && Shape(job, s) && Bytewise(job, s) && Enabled(job, s, step)
    requires Shape(job, Apply(job, s, step))
    ensures Bytewise(job, Apply(job, s, step))
  {
    hide Bytewise, Apply, Enabled;
    if step.Write? || step.WriteFails? {
      WriteKeepsBytewise(job, s, step);
    } else {
      OtherStepsKeepBytewise(job, s, step);
    }
  }

  lemma StepKeepsInv(job: Job, s: State, step: Step)
    requires job.Ok() && job.RawIsPlain() && Inv(job, s) && Enabled(job, s, step)
    ensures Inv(job, Apply(job, s, step))
  {
    StepKeepsShape(job, s, step);
    StepKeepsEndings(job, s, step);
    StepKeepsConserved(job, s, step);
    StepKeepsBytewise(job, s, step);
  }

  /** Every state of every run satisfies the invariant. */
  lemma {:induction false} RunKeepsInv(job: Job, pools: Pools, steps: seq<Step>)
    requires job.Ok() && job.RawIsPlain() && FullPools(job, pools)
    ensures Exec(job, Init(job, pools), steps).Some? ==> Inv(job, Exec(job, Init(job, pools), steps).value)
  {
    if steps == [] {
      InitInv(job, pools);
    } else {
      var init := steps[..|steps| - 1];
      RunKeepsInv(job, pools, init);
      if Exec(job, Init(job, pools), steps).Some? {
        StepKeepsInv(job, Exec(job, Init(job, pools), init).value, steps[|steps| - 1]);
      }
    }
  }

  // ----- Bounds -----

  /** At most `window` futures are sent and not finished with. */
  lemma OutstandingWithinWindow(job: Job, pools: Pools, steps: seq<Step>)
    requires job.Ok() && job.RawIsPlain() && FullPools(job, pools) && Exec(job, Init(job, pools), steps).Some?
    ensures
      var s := Exec(job, Init(job, pools), steps).value;
      s.sent - Finished(s) <= job.window
  {
    RunKeepsInv(job, pools, steps);
  }

  /** A fetch that wants a buffer always finds one: no take ever blocks. */
  lemma NoTakeBlocks(job: Job, s: State, k: nat)
    requires job.Ok() && Inv(job, s) && k < |s.fetches|
    ensures s.fetches[k].WantIn? ==> s.pools.input != []
    ensures s.fetches[k].WantOut? || s.fetches[k].WantRaw? ==> s.pools.output != []
  {
    if s.fetches[k].WantIn? {
      TotalUpdate(s.fetches, InHeld, k, ReadingIn(0));
      TotalWithin(s.fetches[k := ReadingIn(0)], InHeld, Finished(s), s.sent);
    } else if s.fetches[k].WantOut? || s.fetches[k].WantRaw? {
      TotalUpdate(s.fetches, OutHeld, k, ReadingRaw(0));
      TotalWithin(s.fetches[k := ReadingRaw(0)], OutHeld, Finished(s), s.sent);
    }
  }

  /** Giving a buffer back never blocks either: whoever holds one leaves room in the pool. */
  lemma NoPutBlocks(job: Job, s: State, k: nat)
    requires Inv(job, s) && k < |s.fetches|
    ensures InHeld(s.fetches[k]) == 1 ==> |s.pools.input| < job.inSize
    ensures OutHeld(s.fetches[k]) == 1 ==> |s.pools.output| < job.outSize
  {
    TotalAtLeast(s.fetches, InHeld, k);
    TotalAtLeast(s.fetches, OutHeld, k);
  }

  /** The slices the code takes are in bounds: a chunk's stored size fits the buffer it is read into. */
  lemma ReadsStayInBounds(job: Job, pools: Pools, steps: seq<Step>, k: nat)
    requires job.Ok() && job.RawIsPlain() && FullPools(job, pools) && Exec(job, Init(job, pools), steps).Some?
    requires k < |job.parts|
    ensures
      var s := Exec(job, Init(job, pools), steps).value;
      && (s.fetches[k].ReadingIn? ==> 0 <= job.parts[k].size <= s.fetches[k].comp)
      && (s.fetches[k].ReadingRaw? ==> 0 <= job.parts[k].size <= s.fetches[k].buf)
  {
    RunKeepsInv(job, pools, steps);
    assert FetchShape(job, Exec(job, Init(job, pools), steps).value.fetches[k]);
  }

  /** The pools never stand for more memory than their buffers at full capacity. */
  lemma MemoryIsBounded(job: Job, s: State)
    requires Inv(job, s)
    ensures PoolMemory(s) <= job.inSize * job.inCap + job.outSize * job.outCap
  {
    hide Endings, Bytewise;
    FreeBytes(s.pools.input, job.inCap);
    FreeBytes(s.pools.output, job.outCap);
    HeldBytes(job, s);
    Distribute(job.inCap, |s.pools.input|, Total(s.fetches, InHeld), 0);
    Distribute(job.outCap, |s.pools.output|, Total(s.fetches, OutHeld), 0);
  }

  lemma HeldBytes(job: Job, s: State)
    requires Shape(job, s)
    ensures Total(s.fetches, InBytes) <= job.inCap * Total(s.fetches, InHeld)
    ensures Total(s.fetches, OutBytes) <= job.outCap * Total(s.fetches, OutHeld)
  {
    forall i | 0 <= i < |s.fetches|
      ensures InBytes(s.fetches[i]) <= job.inCap * InHeld(s.fetches[i])
      ensures OutBytes(s.fetches[i]) <= job.outCap * OutHeld(s.fetches[i])
    {
      assert FetchShape(job, s.fetches[i]);
    }
    TotalScaled(s.fetches, InBytes, InHeld, job.inCap);
    TotalScaled(s.fetches, OutBytes, OutHeld, job.outCap);
  }

  // ----- Progress and termination -----

  /** Until WriteTo has returned some step is enabled, and no fault or cancellation is needed when all chunks are good. */
  lemma SomeStepIsEnabled(job: Job, s: State) returns (step: Step)
    requires job.Ok() && Inv(job, s) && !s.consumer.Returned?
    ensures Enabled(job, s, step) && !step.Cancel?
    ensures job.AllGood() ==> Faultless(step)
  {
    if s.producer.Spawning? {
      step := Spawn;
    } else if s.consumer.Awaiting? || s.consumer.DrainAwaiting? {
      step := FetchStep(job, s, s.consumer.k);
    } else if s.queue != [] {
      step := Pop;
    } else if s.producer.Stopped? {
      step := Return;
    } else if s.sent < |job.parts| {
      step := Send;
    } else {
      step := Finish;
    }
  }

  lemma FetchStep(job: Job, s: State, k: nat) returns (step: Step)
    requires job.Ok() && Inv(job, s) && !s.producer.Spawning?
    requires (s.consumer.Awaiting? || s.consumer.DrainAwaiting?) && s.consumer.k == k
    ensures Enabled(job, s, step) && !step.Cancel?
    ensures job.AllGood() ==> Faultless(step)
  {
    assert k < |s.fetches| && !s.fetches[k].Taken? && !s.fetches[k].Idle?;
    NoTakeBlocks(job, s, k);
    match s.fetches[k]
    case WantIn => step := TakeIn(k);
    case ReadingIn(_) => step := ReadIn(k, job.Readable(k));
    case WantOut(_, _) => step := TakeOut(k);
    case Decoding(_, _, _) => step := Decode(k);
    case WantRaw => step := TakeRaw(k);
    case ReadingRaw(_) => step := ReadRaw(k, job.Readable(k));
    case Ready(_, _) => step := if s.consumer.Awaiting? then Write else DrainOne;
    case Failed(_) => step := if s.consumer.Awaiting? then SeeFailure else DrainOne;
  }

  function Rank(f: Fetch): nat {
    match f
    case Idle => 6
    case WantIn => 5
    case ReadingIn(_) => 4
    case WantOut(_, _) => 3
    case Decoding(_, _, _) => 2
    case WantRaw => 3
    case ReadingRaw(_) => 2
    case Ready(_, _) => 1
    case Failed(_) => 1
    case Taken => 0
  }

  function ProducerRank(p: Producer): nat {
    match p case Stopped => 0 case Sending => 1 case Spawning => 2
  }

  function ConsumerRank(c: Consumer): nat {
    match c case Returned(_) => 0 case Draining(_) => 1 case Ranging => 2 case DrainAwaiting(_, _) => 3 case Awaiting(_) => 4
  }

  /** Work left apart from the fetches. */
  function Remaining(job: Job, s: State): int {
    (if s.cancelled then 0 else 1) + 3 * (|job.parts| - s.sent) + ProducerRank(s.producer)
    + 3 * (|job.parts| - s.received) + ConsumerRank(s.consumer)
  }

  function Measure(job: Job, s: State): int {
    Remaining(job, s) + Total(s.fetches, Rank)
  }

  lemma StepLowersRanks(job: Job, s: State, step: Step)
    requires Shape(job, s) && Enabled(job, s, step) && Touched(s, step) < |s.fetches|
    ensures
      var r, k := Apply(job, s, step), Touched(s, step);
      Remaining(job, r) + Rank(r.fetches[k]) < Remaining(job, s) + Rank(s.fetches[k])
  {
  }

  /** Every step, a cancellation included, lowers the measure. */
  lemma StepDecreases(job: Job, s: State, step: Step)
    requires Shape(job, s) && Enabled(job, s, step)
    ensures Measure(job, Apply(job, s, step)) < Measure(job, s)
  {
    StepTouchesOne(job, s, step);
    var r, k := Apply(job, s, step), Touched(s, step);
    if k < |s.fetches| {
      StepLowersRanks(job, s, step);
      assert r.fetches == s.fetches[k := r.fetches[k]];
      TotalUpdate(s.fetches, Rank, k, r.fetches[k]);
    }
  }

  lemma {:induction false} RanksOfIdle(n: nat)
    ensures Total(seq(n, _ => Idle), Rank) == 6 * n
  {
    if n > 0 {
      assert seq(n, _ => Idle)[..n - 1] == seq(n - 1, _ => Idle);
      RanksOfIdle(n - 1);
    }
  }

  /** No run is longer than twelve steps per chunk and four. */
  lemma {:induction false} RunsEnd(job: Job, pools: Pools, steps: seq<Step>)
    requires job.Ok() && job.RawIsPlain() && FullPools(job, pools)
    requires Exec(job, Init(job, pools), steps).Some?
    ensures |steps| + Measure(job, Exec(job, Init(job, pools), steps).value) <= 12 * |job.parts| + 4
    ensures |steps| <= 12 * |job.parts| + 4
  {
    RunKeepsInv(job, pools, steps);
    if steps == [] {
      RanksOfIdle(|job.parts|);
      assert Init(job, pools).fetches == seq(|job.parts|, _ => Idle);
    } else {
      var init := steps[..|steps| - 1];
      RunsEnd(job, pools, init);
      RunKeepsInv(job, pools, init);
      StepDecreases(job, Exec(job, Init(job, pools), init).value, steps[|steps| - 1]);
    }
  }

  // ----- What holds when WriteTo returns -----

  /** When WriteTo returns, for whatever reason, no fetch is in flight, every buffer is back and nothing more can happen. */
  lemma ReturnLeavesNothingBehind(job: Job, s: State)
    requires Inv(job, s) && s.consumer.Returned?
    ensures forall k :: 0 <= k < |s.fetches| ==> !InFlight(s.fetches[k])
    ensures FullPools(job, s.pools)
    ensures forall step :: !Enabled(job, s, step)
  {
    TotalWithin(s.fetches, InHeld, 0, 0);
    TotalWithin(s.fetches, OutHeld, 0, 0);
  }

  /** A nil result means that the chunks sent were written whole and in order. */
  lemma NilMeansAllThatWasSent(job: Job, pools: Pools, steps: seq<Step>)
    requires job.Ok() && job.RawIsPlain() && FullPools(job, pools) && Exec(job, Init(job, pools), steps).Some?
    ensures
      var s := Exec(job, Init(job, pools), steps).value;
      s.consumer == Returned(None) ==> s.sent <= |job.parts| && s.written == Flatten(job.Plains()[..s.sent])
  {
    RunKeepsInv(job, pools, steps);
  }

  predicate NeverCancelled(steps: seq<Step>) {
    forall i :: 0 <= i < |steps| ==> !steps[i].Cancel?
  }

  /** The producer saw the cancellation before it had sent every chunk. */
  predicate StoppedEarly(steps: seq<Step>) {
    exists i :: 0 <= i < |steps| && steps[i].StopEarly?
  }

  /** While the consumer writes nobody but the caller cancels, so a nil return comes after the last chunk. */
  ghost predicate Uncancelled(job: Job, s: State) {
    && (s.consumer.Ranging? || s.consumer.Awaiting? ==> !s.cancelled)
    && (s.consumer == Returned(None) ==> s.sent == |job.parts|)
  }

  lemma StepKeepsUncancelled(job: Job, s: State, step: Step)
    requires Shape(job, s) && Endings(job, s) && Uncancelled(job, s) && Enabled(job, s, step) && !step.Cancel?
    ensures Uncancelled(job, Apply(job, s, step))
  {
    hide FetchShape;
  }

  /**
   * Unless the caller cancels, a nil result means that the file is complete, whatever reads, decodings
   * and writes failed in the run.
   */
  lemma {:induction false} NilIsCompleteUnlessCancelled(job: Job, pools: Pools, steps: seq<Step>)
    requires job.Ok() && job.RawIsPlain() && FullPools(job, pools) && Exec(job, Init(job, pools), steps).Some?
    requires NeverCancelled(steps)
    ensures
      var s := Exec(job, Init(job, pools), steps).value;
      && Uncancelled(job, s)
      && (s.consumer == Returned(None) ==> s.written == Flatten(job.Plains()))
  {
    hide Apply, Enabled, Uncancelled;
    if steps == [] {
      UncancelledAtFirst(job, pools);
    } else {
      var init := steps[..|steps| - 1];
      NilIsCompleteUnlessCancelled(job, pools, init);
      RunKeepsInv(job, pools, init);
      StepKeepsUncancelled(job, Exec(job, Init(job, pools), init).value, steps[|steps| - 1]);
    }
    NilOfAllSent(job, pools, steps);
  }

  lemma UncancelledAtFirst(job: Job, pools: Pools)
    ensures Uncancelled(job, Init(job, pools))
  {
  }

  lemma NilOfAllSent(job: Job, pools: Pools, steps: seq<Step>)
    requires job.Ok() && job.RawIsPlain() && FullPools(job, pools) && Exec(job, Init(job, pools), steps).Some?
    ensures
      var s := Exec(job, Init(job, pools), steps).value;
      && (s.consumer == Returned(None) && s.sent == |job.parts| ==> s.written == Flatten(job.Plains()))
      && (s.consumer == Returned(None) && Uncancelled(job, s) ==> s.sent == |job.parts|)
  {
    hide Apply, Enabled;
    NilMeansAllThatWasSent(job, pools, steps);
    assert job.Plains()[..|job.parts|] == job.Plains();
  }

  /** The producer stops short of the last chunk exactly in a run with an early stop. */
  ghost predicate StopShows(job: Job, s: State, early: bool) {
    if s.producer.Stopped? then early <==> s.sent < |job.parts| else !early
  }

  lemma StepKeepsStopShows(job: Job, s: State, step: Step, early: bool)
    requires Shape(job, s) && StopShows(job, s, early) && Enabled(job, s, step)
    ensures StopShows(job, Apply(job, s, step), early || step.StopEarly?)
  {
    hide FetchShape;
  }

  /** With or without cancellation, a nil result has sent every chunk if and only if the producer never stopped early. */
  lemma {:induction false} NilIsCompleteIff(job: Job, pools: Pools, steps: seq<Step>)
    requires job.Ok() && job.RawIsPlain() && FullPools(job, pools) && Exec(job, Init(job, pools), steps).Some?
    ensures
      var s := Exec(job, Init(job, pools), steps).value;
      && StopShows(job, s, StoppedEarly(steps))
      && (s.consumer == Returned(None) ==>
           && (s.sent == |job.parts| <==> !StoppedEarly(steps))
           && (!StoppedEarly(steps) ==> s.written == Flatten(job.Plains())))
  {
    hide Apply, Enabled, StopShows;
    if steps == [] {
      StopShowsAtFirst(job, pools);
    } else {
      var last := |steps| - 1;
      var init := steps[..last];
      NilIsCompleteIff(job, pools, init);
      RunKeepsInv(job, pools, init);
      StepKeepsStopShows(job, Exec(job, Init(job, pools), init).value, steps[last], StoppedEarly(init));
      EarlyStopOfLonger(steps);
    }
    NilOfAllSent(job, pools, steps);
    NilIsStopped(job, pools, steps);
  }

  lemma EarlyStopOfLonger(steps: seq<Step>)
    requires steps != []
    ensures StoppedEarly(steps) <==> StoppedEarly(steps[..|steps| - 1]) || steps[|steps| - 1].StopEarly?
  {
    var init := steps[..|steps| - 1];
    if i :| 0 <= i < |steps| && steps[i].StopEarly? {
      assert i < |init| ==> init[i].StopEarly?;
    }
    if i :| 0 <= i < |init| && init[i].StopEarly? {
      assert steps[i].StopEarly?;
    }
  }

  lemma StopShowsAtFirst(job: Job, pools: Pools)
    ensures StopShows(job, Init(job, pools), false)
  {
  }

  lemma NilIsStopped(job: Job, pools: Pools, steps: seq<Step>)
    requires job.Ok() && job.RawIsPlain() && FullPools(job, pools) && Exec(job, Init(job, pools), steps).Some?
    ensures
      var s := Exec(job, Init(job, pools), steps).value;
      s.consumer.Returned? ==>
        && s.sent <= |job.parts|
        && forall early :: StopShows(job, s, early) ==> (early <==> s.sent < |job.parts|)
  {
    hide Apply, Enabled;
    RunKeepsInv(job, pools, steps);
  }

  /** streamFile's verdict: WriteTo returned nil and wrote files[].size bytes. */
  predicate StreamFileOk(s: State, fileSize: int) {
    s.consumer == Returned(None) && |s.written| == fileSize
  }

  /** When the decoded chunks total the recorded size, only a complete file passes; a failure has written a prefix. */
  lemma OnlyCompleteFilesPass(job: Job, pools: Pools, steps: seq<Step>, fileSize: int)
    requires job.Ok() && job.RawIsPlain() && FullPools(job, pools) && Exec(job, Init(job, pools), steps).Some?
    requires |Flatten(job.Plains())| == fileSize
    ensures
      var s := Exec(job, Init(job, pools), steps).value;
      && s.written <= Flatten(job.Plains())
      && (StreamFileOk(s, fileSize) ==> s.written == Flatten(job.Plains()))
  {
    RunKeepsInv(job, pools, steps);
  }

  /** The size check is needed: cancelling before the first send makes WriteTo return nil with nothing written. */
  lemma CancelledWriteToReturnsNil(job: Job, pools: Pools)
    requires job.parts != []
    ensures
      var end := Exec(job, Init(job, pools), [Cancel, StopEarly, Return]);
      end.Some? && end.value.consumer == Returned(None) && end.value.written == []
  {
    var steps := [Cancel, StopEarly, Return];
    assert steps[..2] == [Cancel, StopEarly] && steps[..2][..1] == [Cancel] && [Cancel][..0] == [];
    assert Exec(job, Init(job, pools), [Cancel]).Some?;
    assert Exec(job, Init(job, pools), [Cancel, StopEarly]).Some?;
  }

  // ----- Runs without faults -----

  ghost predicate Unharmed(job: Job, s: State) {
    && (s.consumer.Ranging? || s.consumer.Awaiting? || s.consumer == Returned(None))
    && (!s.consumer.Returned? ==> !s.cancelled)
    && (s.producer.Stopped? ==> s.sent == |job.parts|)
    && forall k :: 0 <= k < |s.fetches| ==> !s.fetches[k].Failed?
  }

  lemma StepKeepsUnharmed(job: Job, s: State, step: Step)
    requires job.AllGood() && Inv(job, s) && Unharmed(job, s) && Enabled(job, s, step) && Faultless(step)
    ensures Unharmed(job, Apply(job, s, step))
  {
  }

  /** A run without faults never fails: once WriteTo has returned, it returned nil and wrote every chunk. */
  lemma {:induction false} FaultlessRunSucceeds(job: Job, pools: Pools, steps: seq<Step>)
    requires job.Ok() && job.RawIsPlain() && job.AllGood() && FullPools(job, pools)
    requires Exec(job, Init(job, pools), steps).Some?
    requires forall i :: 0 <= i < |steps| ==> Faultless(steps[i])
    ensures
      var s := Exec(job, Init(job, pools), steps).value;
      && Unharmed(job, s)
      && (s.consumer.Returned? ==> s.consumer == Returned(None) && s.written == Flatten(job.Plains()))
  {
    RunKeepsInv(job, pools, steps);
    var s := Exec(job, Init(job, pools), steps).value;
    if steps != [] {
      var init := steps[..|steps| - 1];
      FaultlessRunSucceeds(job, pools, init);
      RunKeepsInv(job, pools, init);
      StepKeepsUnharmed(job, Exec(job, Init(job, pools), init).value, steps[|steps| - 1]);
    }
    assert job.Plains()[..|job.parts|] == job.Plains();
  }

  lemma MeasureIsNatural(job: Job, s: State)
    requires Shape(job, s)
    ensures Measure(job, s) >= 0
  {
  }

  lemma ExecSnoc(job: Job, s: State, steps: seq<Step>, step: Step)
    requires |s.fetches| == |job.parts| && Exec(job, s, steps).Some? && Enabled(job, Exec(job, s, steps).value, step)
    ensures Exec(job, s, steps + [step]) == Some(Apply(job, Exec(job, s, steps).value, step))
  {
    assert (steps + [step])[..|steps|] == steps;
  }

  /** Every run without faults can be completed without faults, so the protocol does deliver the file. */
  lemma {:induction false} FaultlessRunCompletes(job: Job, pools: Pools, steps: seq<Step>) returns (all: seq<Step>)
    requires job.Ok() && job.RawIsPlain() && job.AllGood() && FullPools(job, pools)
    requires Exec(job, Init(job, pools), steps).Some?
    requires forall i :: 0 <= i < |steps| ==> Faultless(steps[i])
    ensures steps <= all
    ensures forall i :: 0 <= i < |all| ==> Faultless(all[i])
    ensures Exec(job, Init(job, pools), all).Some? && Exec(job, Init(job, pools), all).value.consumer.Returned?
    decreases Measure(job, Exec(job, Init(job, pools), steps).value)
  {
    hide Enabled, Apply, Measure;
    var s := Exec(job, Init(job, pools), steps).value;
    RunKeepsInv(job, pools, steps);
    if s.consumer.Returned? {
      all := steps;
    } else {
      var step := SomeStepIsEnabled(job, s);
      ExecSnoc(job, Init(job, pools), steps, step);
      StepKeepsInv(job, s, step);
      StepDecreases(job, s, step);
      MeasureIsNatural(job, Apply(job, s, step));
      all := FaultlessRunCompletes(job, pools, steps + [step]);
    }
  }

  // ----- What is checked before it is written -----

  predicate Delivered(c: Consumer) {
    c.Ranging? || c.Awaiting? || c == Returned(None)
  }

  /** A fetch that has data has checked its chunk: the blob has the descriptor's size and decodes within the buffer. */
  predicate FetchVetted(job: Job, k: nat, f: Fetch)
    requires k < |job.parts|
  {
    && (f.WantOut? || f.Decoding? ==> job.Readable(k))
    && (f.Ready? ==> job.Readable(k) && job.Decodable(k))
  }

  ghost predicate Vetted(job: Job, s: State)
    requires |s.fetches| == |job.parts|
  {
    && (forall k :: 0 <= k < |s.fetches| ==> FetchVetted(job, k, s.fetches[k]))
    && (Delivered(s.consumer) ==> forall k :: 0 <= k < Finished(s) && k < |job.parts| ==> job.Readable(k) && job.Decodable(k))
  }

  lemma TouchedStaysVetted(job: Job, s: State, step: Step)
    requires job.RawIsPlain() && Shape(job, s) && Enabled(job, s, step) && Touched(s, step) < |s.fetches|
    requires FetchVetted(job, Touched(s, step), s.fetches[Touched(s, step)])
    ensures FetchVetted(job, Touched(s, step), Apply(job, s, step).fetches[Touched(s, step)])
  {
  }

  /** Only a write finishes with a chunk and goes on delivering, and it writes what the fetch has ready. */
  lemma DeliveryAdvances(job: Job, s: State, step: Step)
    requires Shape(job, s) && Enabled(job, s, step) && Delivered(Apply(job, s, step).consumer)
    ensures Delivered(s.consumer)
    ensures Finished(Apply(job, s, step)) == Finished(s) + if step.Write? then 1 else 0
    ensures step.Write? ==> 0 <= Finished(s) < |s.fetches| && s.fetches[Finished(s)].Ready?
  {
    hide FetchShape;
  }

  lemma StepKeepsVetted(job: Job, s: State, step: Step)
    requires job.RawIsPlain() && Shape(job, s) && Vetted(job, s) && Enabled(job, s, step)
    ensures Vetted(job, Apply(job, s, step))
  {
    hide FetchVetted, Apply, Enabled, Shape, Finished;
    StepTouchesOne(job, s, step);
    var r, k := Apply(job, s, step), Touched(s, step);
    if k < |s.fetches| {
      TouchedStaysVetted(job, s, step);
    }
    if Delivered(r.consumer) {
      DeliveryAdvances(job, s, step);
      if step.Write? {
        ReadyIsVetted(job, Finished(s), s.fetches[Finished(s)]);
      }
    }
  }

  lemma ReadyIsVetted(job: Job, k: nat, f: Fetch)
    requires k < |job.parts| && FetchVetted(job, k, f) && f.Ready?
    ensures job.Readable(k) && job.Decodable(k)
  {
  }

  lemma VettedAtFirst(job: Job, pools: Pools)
    ensures Vetted(job, Init(job, pools))
  {
  }

  /** In every run, every chunk written had exactly its descriptor's size and decoded within its buffer. */
  lemma {:induction false} OnlyVettedChunksAreWritten(job: Job, pools: Pools, steps: seq<Step>)
    requires job.Ok() && job.RawIsPlain() && FullPools(job, pools) && Exec(job, Init(job, pools), steps).Some?
    ensures
      var s := Exec(job, Init(job, pools), steps).value;
      && Vetted(job, s)
      && (s.consumer == Returned(None) ==> forall k :: 0 <= k < s.sent && k < |job.parts| ==> job.Readable(k) && job.Decodable(k))
  {
    hide Apply, Enabled, Vetted;
    if steps == [] {
      VettedAtFirst(job, pools);
    } else {
      var init := steps[..|steps| - 1];
      OnlyVettedChunksAreWritten(job, pools, init);
      RunKeepsInv(job, pools, init);
      StepKeepsVetted(job, Exec(job, Init(job, pools), init).value, steps[|steps| - 1]);
    }
    RunKeepsInv(job, pools, steps);
    ReturnedIsVetted(job, Exec(job, Init(job, pools), steps).value);
  }

  lemma ReturnedIsVetted(job: Job, s: State)
    requires Shape(job, s) && Endings(job, s) && Vetted(job, s)
    ensures s.consumer == Returned(None) ==> forall k :: 0 <= k < s.sent && k < |job.parts| ==> job.Readable(k) && job.Decodable(k)
  {
  }

  /** The same in numbers: sizes against descriptors, decoded bytes against the output buffers. */
  lemma WrittenChunksFit(job: Job, pools: Pools, steps: seq<Step>, k: nat)
    requires job.Ok() && job.RawIsPlain() && FullPools(job, pools) && Exec(job, Init(job, pools), steps).Some?
    requires k < |job.parts|
    ensures
      var s, part := Exec(job, Init(job, pools), steps).value, job.parts[k];
      && (s.fetches[k].Ready? ==> part.plain == Some(s.fetches[k].data) && |s.fetches[k].data| <= s.fetches[k].buf)
      && (s.fetches[k].Ready? || (s.consumer == Returned(None) && k < s.sent) ==>
           part.blob.Some? && |part.blob.value| == part.size && part.plain.Some? && |part.plain.value| <= job.outCap)
  {
    hide Apply, Enabled;
    OnlyVettedChunksAreWritten(job, pools, steps);
    RunKeepsInv(job, pools, steps);
    var s := Exec(job, Init(job, pools), steps).value;
    assert FetchVetted(job, k, s.fetches[k]) && FetchShape(job, s.fetches[k]) && FetchData(job, k, s.fetches[k]);
    if s.fetches[k].Ready? || (s.consumer == Returned(None) && k < s.sent) {
      assert job.Readable(k) && job.Decodable(k);
      assert !job.compressed ==> job.parts[k].plain == job.parts[k].blob;
    }
  }

  // ----- Failures are reported -----

  /** The consumer met a failed write or a failed fetch. */
  predicate MeetsFailure(step: Step) {
    step.WriteFails? || step.SeeFailure?
  }

  predicate HasFailed(c: Consumer) {
    c.Draining? || c.DrainAwaiting? || (c.Returned? && c.result.Some?)
  }

  lemma StepKeepsFailed(job: Job, s: State, step: Step)
    requires |s.fetches| == |job.parts| && Enabled(job, s, step) && (HasFailed(s.consumer) || MeetsFailure(step))
    ensures HasFailed(Apply(job, s, step).consumer)
  {
  }

  /** In every run: once a write or a fetch has failed before the consumer, WriteTo cannot return nil any more. */
  lemma {:induction false} FailuresAreReported(job: Job, pools: Pools, steps: seq<Step>, i: nat)
    requires Exec(job, Init(job, pools), steps).Some? && i < |steps| && MeetsFailure(steps[i])
    ensures HasFailed(Exec(job, Init(job, pools), steps).value.consumer)
    ensures Exec(job, Init(job, pools), steps).value.consumer != Returned(None)
  {
    hide Apply, Enabled, MeetsFailure;
    var last := |steps| - 1;
    if i < last {
      FailuresAreReported(job, pools, steps[..last], i);
    }
    StepKeepsFailed(job, Exec(job, Init(job, pools), steps[..last]).value, steps[last]);
  }
}
