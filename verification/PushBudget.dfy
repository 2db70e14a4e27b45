/** Solving the push memory budget for a worker count. */
module PushBudget {
  import opened Integers
  import opened Sequences
  import opened Chunking

  const DEFAULT_PUSH_MEMORY_BUDGET_MIB := 9216
  const DEFAULT_TRANSFER_CONCURRENCY := 8

  datatype PushOptions = PushOptions(zstdLevel: Int64, chunkSizeMiB: Int64, concurrency: Int64, memoryBudgetMiB: Int64)

  datatype Params = Rejected | Params(workers: int, chunkSize: ChunkSize)

  /** A MiB count shifted into bytes; large counts wrap. */
  function ShiftMiB(mib: Int64): Int64 {
    Wrap64(mib * MIB)
  }

  function RequestedWorkers(opts: PushOptions): int {
    if opts.concurrency <= 0 then DEFAULT_TRANSFER_CONCURRENCY else opts.concurrency
  }

  function Budget(opts: PushOptions): int {
    var shifted := ShiftMiB(opts.memoryBudgetMiB);
    if shifted <= 0 then DEFAULT_PUSH_MEMORY_BUDGET_MIB * MIB else shifted
  }

  function ChunkBytes(opts: PushOptions): int {
    Max(opts.chunkSizeMiB, 0) * MIB
  }

  /** Both pools hold workers + 1 chunk buffers. */
  function PoolBytes(workers: int, chunkSize: int): int {
    2 * (workers + 1) * chunkSize
  }

  /** What the solver promises, without its arithmetic. */
  ghost predicate Solves(opts: PushOptions, p: Params) {
    match p
    case Rejected =>
      opts.chunkSizeMiB > MAX_CHUNK_SIZE_MIB
      || (opts.chunkSizeMiB > 0 && PoolBytes(1, ChunkBytes(opts)) > Budget(opts))
    case Params(workers, chunkSize) =>
      && opts.chunkSizeMiB <= MAX_CHUNK_SIZE_MIB
      && chunkSize == ChunkBytes(opts)
      && 1 <= workers <= RequestedWorkers(opts)
      && (chunkSize == 0 ==> workers == RequestedWorkers(opts))
      && (chunkSize > 0 ==>
           && PoolBytes(workers, chunkSize) <= Budget(opts)
           && forall more: int :: workers < more <= RequestedWorkers(opts) ==> PoolBytes(more, chunkSize) > Budget(opts))
  }

  /** The largest worker count whose buffers fit, for a positive number of bytes per extra worker. */
  lemma LargestFit(budget: int, unit: int, w: int)
    requires unit > 0 && budget >= 0 && w >= 0
    ensures (w + 1) * unit <= budget <==> w <= budget / unit - 1
  {
    QuotientReaches(budget, unit, w + 1);
  }

  lemma PoolBytesGrow(w: int, more: int, chunkSize: int)
    requires 0 <= w <= more && chunkSize >= 0
    ensures PoolBytes(w, chunkSize) <= PoolBytes(more, chunkSize)
  {
    assert (w + 1) * chunkSize <= (more + 1) * chunkSize;
    assert 2 * (w + 1) * chunkSize == 2 * ((w + 1) * chunkSize);
    assert 2 * (more + 1) * chunkSize == 2 * ((more + 1) * chunkSize);
  }

  /** The floor check leaves room for one worker, and the quotient then gives the most that fit. */
  lemma LargestWorkersFit(requested: int, chunkSize: int, budget: int, solved: int)
    requires requested >= 1 && chunkSize > 0 && 4 * chunkSize <= budget
    requires solved == Min(requested, budget / (2 * chunkSize) - 1)
    ensures 1 <= solved <= requested
    ensures PoolBytes(solved, chunkSize) <= budget
    ensures forall more: int :: solved < more <= requested ==> PoolBytes(more, chunkSize) > budget
  {
    var unit := 2 * chunkSize;
    LargestFit(budget, unit, 1);
    LargestFit(budget, unit, solved);
    PoolBytesByUnit(solved, chunkSize);
    forall more: int | solved < more <= requested
      ensures PoolBytes(more, chunkSize) > budget
    {
      LargestFit(budget, unit, more);
      PoolBytesByUnit(more, chunkSize);
    }
  }

  lemma PoolBytesByUnit(workers: int, chunkSize: int)
    ensures PoolBytes(workers, chunkSize) == (workers + 1) * (2 * chunkSize)
  {
  }

  /** The intermediate values are Int64 variables, so each assignment shows that the code's arithmetic does not wrap. */
  method PipelineParams(opts: PushOptions) returns (p: Params)
    ensures Solves(opts, p)
  {
    var workers: Int64 := opts.concurrency;
    if workers <= 0 {
      workers := DEFAULT_TRANSFER_CONCURRENCY;
    }
    if opts.chunkSizeMiB > MAX_CHUNK_SIZE_MIB {
      return Rejected;
    }
    var chunkSize: Int64 := Max(opts.chunkSizeMiB, 0) * MIB;
    if chunkSize == 0 {
      return Params(workers, 0);
    }
    var budget: Int64 := ShiftMiB(opts.memoryBudgetMiB);
    if budget <= 0 {
      budget := DEFAULT_PUSH_MEMORY_BUDGET_MIB * MIB;
    }
    var floor: Int64 := 4 * chunkSize;
    if floor > budget {
      return Rejected;
    }
    var unit: Int64 := 2 * chunkSize;
    var fit: Int64 := budget / unit - 1;
    var solved: Int64 := Min(workers, fit);
    LargestWorkersFit(workers, chunkSize, budget, solved);
    p := Params(solved, chunkSize);
  }

  /** The promise determines the answer: accepting and rejecting exclude each other, and the worker count is unique. */
  lemma SolutionIsUnique(opts: PushOptions, p: Params, q: Params)
    requires Solves(opts, p) && Solves(opts, q)
    ensures p == q
  {
    if p.Params? && p.chunkSize > 0 {
      PoolBytesGrow(1, p.workers, p.chunkSize);
    }
    if q.Params? && q.chunkSize > 0 {
      PoolBytesGrow(1, q.workers, q.chunkSize);
    }
  }

  // ----- In terms of the caller's options -----

  /** A memory option in MiB stands for `budget` bytes: its int64 shift, or the default when that is not positive. */
  ghost predicate MeansBytes(mib: Int64, default: int, budget: int) {
    exists k: int :: ShiftedBy(mib, k, default, budget)
  }

  ghost predicate ShiftedBy(mib: Int64, k: int, default: int, budget: int) {
    var shifted := mib * 1048576 + k * 18446744073709551616;
    -9223372036854775808 <= shifted < 9223372036854775808 && budget == if shifted <= 0 then default else shifted
  }

  lemma ShiftIsMeant(mib: Int64, default: int, budget: int)
    requires MeansBytes(mib, default, budget)
    ensures budget == if ShiftMiB(mib) <= 0 then default else ShiftMiB(mib)
  {
    var k: int :| ShiftedBy(mib, k, default, budget);
    WrapIsTheShift(mib * MIB, k);
  }

  /** Ordinary options mean what they say: a positive one its MiB, none the default. */
  lemma OrdinaryOptions(mib: Int64, default: int)
    requires -0x800_0000_0000 <= mib < 0x800_0000_0000
    ensures MeansBytes(mib, default, if mib <= 0 then default else mib * 1048576)
  {
    assert ShiftedBy(mib, 0, default, if mib <= 0 then default else mib * 1048576);
  }

  /** The workers a caller asks for: 8 unless the option is positive. */
  ghost predicate Asks(concurrency: Int64, workers: int) {
    workers == if concurrency > 0 then concurrency else 8
  }

  /**
   * What the options lead to. A push is rejected exactly when a chunk is over 4096 MiB or four chunks are
   * over the budget. Otherwise chunks have the size asked for, at least one worker and no more than asked
   * for run, their two pools fit the budget, and one more worker's would not.
   */
  lemma OptionsDecide(opts: PushOptions, p: Params, budget: int, asked: int)
    requires Solves(opts, p) && MeansBytes(opts.memoryBudgetMiB, 9663676416, budget) && Asks(opts.concurrency, asked)
    ensures p.Rejected? <==> opts.chunkSizeMiB > 4096 || (opts.chunkSizeMiB > 0 && 4 * (opts.chunkSizeMiB * 1048576) > budget)
    ensures p.Params? ==> p.chunkSize == if opts.chunkSizeMiB <= 0 then 0 else opts.chunkSizeMiB * 1048576
    ensures p.Params? ==> 1 <= p.workers <= asked && (p.chunkSize == 0 ==> p.workers == asked)
    ensures p.Params? && p.chunkSize > 0 ==> 2 * (p.workers + 1) * p.chunkSize <= budget
    ensures p.Params? && p.chunkSize > 0 && p.workers < asked ==> 2 * (p.workers + 2) * p.chunkSize > budget
  {
    ShiftIsMeant(opts.memoryBudgetMiB, 9663676416, budget);
    assert Budget(opts) == budget && RequestedWorkers(opts) == asked;
    if p.Params? && p.chunkSize > 0 {
      PoolBytesGrow(1, p.workers, p.chunkSize);
      assert p.workers < asked ==> PoolBytes(p.workers + 1, p.chunkSize) > budget;
    }
  }
}
