/**
 * The prefetch protocol of one file as a step machine: a producer that sends a future per chunk and
 * then starts its fetch, the fetches, and a consumer that awaits the futures in order and writes.
 * A step is one channel operation, one pool operation or one call that leaves the process.
 */
module Prefetch {
  import opened Sequences
  import opened BufPools

  /** A chunk: its descriptor's size, the blob the registry holds for it, and what that blob decodes to. */
  datatype Part = Part(size: int, blob: Option<Bytes>, plain: Option<Bytes>)

  datatype Job = Job(parts: seq<Part>, compressed: bool, window: nat, inCap: nat, outCap: nat, inSize: nat, outSize: nat) {
    /** What newChunkPipeline and fileWindow establish before a file is prefetched. */
    predicate Ok() {
      && window >= 2
      && (compressed ==> window <= inSize)
      && window + 1 <= outSize
      && forall k :: 0 <= k < |parts| ==> 0 <= parts[k].size <= if compressed then inCap else outCap
    }

    /** Reading succeeds only on a blob of exactly the descriptor's size. */
    predicate Readable(k: nat)
      requires k < |parts|
    {
      parts[k].blob.Some? && |parts[k].blob.value| == parts[k].size
    }

    /** Decoding succeeds when the content fits the output buffer. */
    predicate Decodable(k: nat)
      requires k < |parts|
    {
      parts[k].plain.Some? && (compressed ==> |parts[k].plain.value| <= outCap)
    }

    function Plain(k: nat): Bytes
      requires k < |parts|
    {
      parts[k].plain.GetOr([])
    }

    /** The decoded chunks, in order. */
    function Plains(): (r: seq<Bytes>)
      ensures |r| == |parts|
    {
      seq(|parts|, k requires 0 <= k < |parts| => Plain(k))
    }

    predicate AllGood() {
      forall k :: 0 <= k < |parts| ==> Readable(k) && Decodable(k)
    }

    /** A raw chunk is its own content. */
    predicate RawIsPlain() {
      !compressed ==> forall k :: 0 <= k < |parts| ==> parts[k].plain == parts[k].blob
    }
  }

  datatype Fault = ReadFault | DecodeFault | WriteFault

  /** A fetch, with the buffers it holds. */
  datatype Fetch =
    | Idle
    | WantIn
    | ReadingIn(comp: nat)
    | WantOut(comp: nat, stored: Bytes)
    | Decoding(comp: nat, dst: nat, stored: Bytes)
    | WantRaw
    | ReadingRaw(buf: nat)
    | Ready(data: Bytes, buf: nat)
    | Failed(fault: Fault)
    | Taken

  datatype Producer = Sending | Spawning | Stopped

  datatype Consumer =
    | Ranging
    | Awaiting(k: nat)
    | Draining(err: Fault)
    | DrainAwaiting(k: nat, err: Fault)
    | Returned(result: Option<Fault>)

  /** Free buffers of the two pools; they outlive the file. */
  datatype Pools = Pools(input: seq<nat>, output: seq<nat>)

  datatype State = State(
    cancelled: bool,
    producer: Producer,
    sent: nat,
    received: nat,
    queue: seq<nat>,
    fetches: seq<Fetch>,
    consumer: Consumer,
    written: Bytes,
    pools: Pools)

  datatype Step =
    | Cancel
    | Send
    | Spawn
    | StopEarly
    | Finish
    | TakeIn(k: nat)
    | ReadIn(k: nat, ok: bool)
    | TakeOut(k: nat)
    | Decode(k: nat)
    | TakeRaw(k: nat)
    | ReadRaw(k: nat, ok: bool)
    | Pop
    | Write
    | WriteFails(n: nat)
    | SeeFailure
    | DrainOne
    | Return

  /** Steps of a run with no download failure, no write failure or short write, and no cancellation. */
  predicate Faultless(step: Step) {
    && !step.Cancel? && !step.WriteFails?
    && (step.ReadIn? || step.ReadRaw? ==> step.ok)
  }

  function Init(job: Job, pools: Pools): State {
    State(false, Sending, 0, 0, [], seq(|job.parts|, _ => Idle), Ranging, [], pools)
  }

  predicate At(s: State, k: nat) {
    k < |s.fetches|
  }

  predicate Enabled(job: Job, s: State, step: Step)
    requires |s.fetches| == |job.parts|
  {
    match step
    case Cancel => !s.cancelled && !s.consumer.Returned?
    case Send => s.producer.Sending? && s.sent < |job.parts| && |s.queue| < job.window - 1
    case Spawn => s.producer.Spawning? && 0 < s.sent <= |s.fetches|
    case StopEarly => s.producer.Sending? && s.sent < |job.parts| && s.cancelled
    case Finish => s.producer.Sending? && s.sent == |job.parts|
    case TakeIn(k) => At(s, k) && s.fetches[k].WantIn? && s.pools.input != []
    case ReadIn(k, ok) => At(s, k) && s.fetches[k].ReadingIn? && (ok ==> job.Readable(k))
    case TakeOut(k) => At(s, k) && s.fetches[k].WantOut? && s.pools.output != []
    case Decode(k) => At(s, k) && s.fetches[k].Decoding?
    case TakeRaw(k) => At(s, k) && s.fetches[k].WantRaw? && s.pools.output != []
    case ReadRaw(k, ok) => At(s, k) && s.fetches[k].ReadingRaw? && (ok ==> job.Readable(k))
    case Pop => (s.consumer.Ranging? || s.consumer.Draining?) && s.queue != []
    case Write => s.consumer.Awaiting? && At(s, s.consumer.k) && s.fetches[s.consumer.k].Ready?
    case WriteFails(n) =>
      s.consumer.Awaiting? && At(s, s.consumer.k) && s.fetches[s.consumer.k].Ready? && n <= |s.fetches[s.consumer.k].data|
    case SeeFailure => s.consumer.Awaiting? && At(s, s.consumer.k) && s.fetches[s.consumer.k].Failed?
    case DrainOne =>
      s.consumer.DrainAwaiting? && At(s, s.consumer.k) && (s.fetches[s.consumer.k].Ready? || s.fetches[s.consumer.k].Failed?)
    case Return => (s.consumer.Ranging? || s.consumer.Draining?) && s.queue == [] && s.producer.Stopped?
  }

  function Apply(job: Job, s: State, step: Step): (r: State)
    requires |s.fetches| == |job.parts| && Enabled(job, s, step)
    ensures |r.fetches| == |job.parts|
  {
    var pools := s.pools;
    match step
    case Cancel => s.(cancelled := true)
    case Send => s.(producer := Spawning, queue := s.queue + [s.sent], sent := s.sent + 1)
    case Spawn => s.(producer := Sending, fetches := s.fetches[s.sent - 1 := if job.compressed then WantIn else WantRaw])
    case StopEarly => s.(producer := Stopped)
    case Finish => s.(producer := Stopped)
    case TakeIn(k) =>
      s.(fetches := s.fetches[k := ReadingIn(TakeBuf(pools.input, job.inCap))], pools := pools.(input := pools.input[1..]))
    case ReadIn(k, ok) =>
      var comp := s.fetches[k].comp;
      if ok then s.(fetches := s.fetches[k := WantOut(comp, job.parts[k].blob.value)])
      else s.(fetches := s.fetches[k := Failed(ReadFault)], pools := pools.(input := PutBuf(pools.input, comp)))
    case TakeOut(k) =>
      var f := s.fetches[k];
      s.(fetches := s.fetches[k := Decoding(f.comp, TakeBuf(pools.output, job.outCap), f.stored)],
         pools := pools.(output := pools.output[1..]))
    case Decode(k) =>
      var f := s.fetches[k];
      var back := pools.(input := PutBuf(pools.input, f.comp));
      if job.Decodable(k) then s.(fetches := s.fetches[k := Ready(job.Plain(k), f.dst)], pools := back)
      else s.(fetches := s.fetches[k := Failed(DecodeFault)], pools := back.(output := PutBuf(pools.output, f.dst)))
    case TakeRaw(k) =>
      s.(fetches := s.fetches[k := ReadingRaw(TakeBuf(pools.output, job.outCap))], pools := pools.(output := pools.output[1..]))
    case ReadRaw(k, ok) =>
      var buf := s.fetches[k].buf;
      if ok then s.(fetches := s.fetches[k := Ready(job.parts[k].blob.value, buf)])
      else s.(fetches := s.fetches[k := Failed(ReadFault)], pools := pools.(output := PutBuf(pools.output, buf)))
    case Pop =>
      var k := s.queue[0];
      s.(queue := s.queue[1..], received := s.received + 1,
         consumer := if s.consumer.Ranging? then Awaiting(k) else DrainAwaiting(k, s.consumer.err))
    case Write =>
      var k := s.consumer.k;
      var f := s.fetches[k];
      s.(written := s.written + f.data, fetches := s.fetches[k := Taken],
         pools := pools.(output := PutBuf(pools.output, f.buf)), consumer := Ranging)
    case WriteFails(n) =>
      var k := s.consumer.k;
      var f := s.fetches[k];
      s.(written := s.written + f.data[..n], fetches := s.fetches[k := Taken],
         pools := pools.(output := PutBuf(pools.output, f.buf)), cancelled := true, consumer := Draining(WriteFault))
    case SeeFailure =>
      var k := s.consumer.k;
      s.(fetches := s.fetches[k := Taken], cancelled := true, consumer := Draining(s.fetches[k].fault))
    case DrainOne =>
      var k := s.consumer.k;
      var f := s.fetches[k];
      s.(fetches := s.fetches[k := Taken], consumer := Draining(s.consumer.err),
         pools := if f.Ready? then pools.(output := PutBuf(pools.output, f.buf)) else pools)
    case Return =>
      s.(cancelled := true, consumer := Returned(if s.consumer.Ranging? then None else Some(s.consumer.err)))
  }

  /** The state after a run, or None when some step of it was not enabled. */
  function Exec(job: Job, s: State, steps: seq<Step>): (r: Option<State>)
    requires |s.fetches| == |job.parts|
    ensures r.Some? ==> |r.value.fetches| == |job.parts|
  {
    if steps == [] then Some(s)
    else
      var before := Exec(job, s, steps[..|steps| - 1]);
      var step := steps[|steps| - 1];
      if before.None? || !Enabled(job, before.value, step) then None
      else Some(Apply(job, before.value, step))
  }

  // ----- What is counted -----

  function InHeld(f: Fetch): nat {
    if f.ReadingIn? || f.WantOut? || f.Decoding? then 1 else 0
  }

  function OutHeld(f: Fetch): nat {
    if f.Decoding? || f.ReadingRaw? || f.Ready? then 1 else 0
  }

  function InBytes(f: Fetch): nat {
    if f.ReadingIn? || f.WantOut? || f.Decoding? then f.comp else 0
  }

  function OutBytes(f: Fetch): nat {
    if f.Decoding? then f.dst else if f.ReadingRaw? || f.Ready? then f.buf else 0
  }

  /** Memory the two pools stand for, free and held. */
  function PoolMemory(s: State): nat {
    Total(s.pools.input, Same) + Total(s.fetches, InBytes) + Total(s.pools.output, Same) + Total(s.fetches, OutBytes)
  }

  /** In flight: started, and not yet delivered. */
  predicate InFlight(f: Fetch) {
    f.WantIn? || f.ReadingIn? || f.WantOut? || f.Decoding? || f.WantRaw? || f.ReadingRaw?
  }

  // ----- The invariant -----

  /** Futures the consumer has finished with. */
  function Finished(s: State): int {
    if s.consumer.Awaiting? || s.consumer.DrainAwaiting? then s.received - 1 else s.received
  }

  ghost predicate FetchShape(job: Job, f: Fetch) {
    && (f.WantIn? || f.ReadingIn? || f.WantOut? || f.Decoding? ==> job.compressed)
    && (f.WantRaw? || f.ReadingRaw? ==> !job.compressed)
    && (f.ReadingIn? || f.WantOut? || f.Decoding? ==> f.comp == job.inCap)
    && (f.Decoding? ==> f.dst == job.outCap)
    && (f.ReadingRaw? || f.Ready? ==> f.buf == job.outCap)
  }

  /** Positions: what is sent, queued, awaited and finished, and the buffers that go with it. */
  ghost predicate Shape(job: Job, s: State) {
    && |s.fetches| == |job.parts|
    && 0 <= Finished(s) <= s.received <= s.sent <= |job.parts|
    && |s.queue| == s.sent - s.received < job.window
    && (forall i :: 0 <= i < |s.queue| ==> s.queue[i] == s.received + i)
    && (s.consumer.Awaiting? || s.consumer.DrainAwaiting? ==> s.consumer.k == s.received - 1)
    && (s.producer.Spawning? ==> 0 < s.sent && Finished(s) < s.sent)
    && (forall k :: 0 <= k < |s.fetches| ==>
         && FetchShape(job, s.fetches[k])
         && (s.fetches[k].Taken? <==> k < Finished(s))
         && (s.fetches[k].Idle? <==> s.sent <= k || (s.producer.Spawning? && k == s.sent - 1)))
  }

  /** Endings: nobody stops early without a cancellation, and returning waits for the producer and the queue. */
  ghost predicate Endings(job: Job, s: State) {
    && (s.producer.Stopped? ==> s.sent == |job.parts| || s.cancelled)
    && (s.consumer.Draining? || s.consumer.DrainAwaiting? || s.consumer.Returned? ==> s.cancelled)
    && (s.consumer.Returned? ==> s.producer.Stopped? && s.received == s.sent)
  }

  /** Every buffer is either free or held by exactly one fetch. */
  ghost predicate Conserved(job: Job, s: State) {
    && Total(s.fetches, InHeld) + |s.pools.input| == job.inSize
    && Total(s.fetches, OutHeld) + |s.pools.output| == job.outSize
    && AllAtMost(s.pools.input, job.inCap)
    && AllAtMost(s.pools.output, job.outCap)
  }

  ghost predicate FetchData(job: Job, k: nat, f: Fetch)
    requires k < |job.parts|
  {
    && (f.WantOut? || f.Decoding? ==> job.parts[k].blob == Some(f.stored))
    && (f.Ready? ==> job.parts[k].plain == Some(f.data))
  }

  /** Bytes: what fetches carry, and what has been written. */
  ghost predicate Bytewise(job: Job, s: State)
    requires Shape(job, s)
  {
    && (forall k :: 0 <= k < |s.fetches| ==> FetchData(job, k, s.fetches[k]))
    && s.written <= Flatten(job.Plains())
    && (s.consumer.Ranging? || s.consumer.Awaiting? || s.consumer == Returned(None) ==>
         s.written == Flatten(job.Plains()[..Finished(s)]))
  }

  ghost predicate Inv(job: Job, s: State) {
    Shape(job, s) && Endings(job, s) && Conserved(job, s) && Bytewise(job, s)
  }
}
