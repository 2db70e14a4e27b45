/** The fixed-capacity buffer free-list both pipelines use; a buffer is represented by its capacity. */
module BufPools {
  import opened Sequences

  /** Taking from a non-empty free-list: the oldest buffer, reallocated when it is too small. */
  function TakeBuf(free: seq<nat>, capacity: nat): nat
    requires free != []
  {
    Max(free[0], capacity)
  }

  function PutBuf(free: seq<nat>, buf: nat): seq<nat> {
    free + [buf]
  }

  function FreshPool(size: nat): (free: seq<nat>)
    ensures |free| == size && forall i :: 0 <= i < size ==> free[i] == 0
  {
    seq(size, _ => 0)
  }

  predicate AllAtMost(free: seq<nat>, capacity: nat) {
    forall i :: 0 <= i < |free| ==> free[i] <= capacity
  }

  function Same(buf: nat): nat {
    buf
  }

  function One(buf: nat): nat {
    1
  }

  lemma {:induction false} TotalOfOnes(free: seq<nat>)
    ensures Total(free, One) == |free|
  {
    if free != [] {
      TotalOfOnes(free[..|free| - 1]);
    }
  }

  /** Free buffers of bounded capacity hold a bounded amount of memory. */
  lemma FreeBytes(free: seq<nat>, capacity: nat)
    requires AllAtMost(free, capacity)
    ensures Total(free, Same) <= capacity * |free|
  {
    TotalScaled(free, Same, One, capacity);
    TotalOfOnes(free);
  }

  class BufPool {
    const size: nat
    var ch: seq<nat>

    ghost predicate Valid()
      reads this
    {
      |ch| <= size
    }

    constructor (size: nat)
      ensures Valid() && this.size == size && ch == FreshPool(size)
    {
      this.size := size;
      new;
      ch := [];
      for i := 0 to size
        invariant ch == FreshPool(i) && this.size == size
      {
        ch := ch + [0];
      }
    }

    /** Enabled when a buffer is free; an empty pool makes the caller wait. */
    method Take(capacity: nat) returns (buf: nat)
      requires Valid() && ch != []
      modifies this
      ensures Valid() && buf == TakeBuf(old(ch), capacity) && ch == old(ch)[1..]
      ensures buf == if old(ch)[0] >= capacity then old(ch)[0] else capacity
    {
      buf := ch[0];
      ch := ch[1..];
      if buf < capacity {
        buf := capacity;
      }
    }

    /** Enabled when a buffer is out; a full channel would make the caller wait. */
    method Put(buf: nat)
      requires Valid() && |ch| < size
      modifies this
      ensures Valid() && ch == PutBuf(old(ch), buf)
    {
      ch := ch + [buf];
    }
  }
}
