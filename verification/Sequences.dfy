/** Bytes, and the few facts about sequences that the protocol proofs share. */
module Sequences {
  newtype Byte = b: int | 0 <= b < 256
  type Bytes = seq<Byte>

  datatype Option<+T> = None | Some(value: T) {
    function GetOr(default: T): T {
      if Some? then value else default
    }
  }

  function Max(a: int, b: int): int {
    if a < b then b else a
  }

  function Min(a: int, b: int): int {
    if a < b then a else b
  }

  /** The elements of all parts, in order. */
  function Flatten<T>(parts: seq<seq<T>>): seq<T> {
    if parts == [] then [] else parts[0] + Flatten(parts[1..])
  }

  lemma {:induction false} FlattenAppend<T>(a: seq<seq<T>>, b: seq<seq<T>>)
    ensures Flatten(a + b) == Flatten(a) + Flatten(b)
  {
    if a == [] {
      assert a + b == b;
    } else {
      assert (a + b)[1..] == a[1..] + b;
      FlattenAppend(a[1..], b);
    }
  }

  lemma FlattenSnoc<T>(parts: seq<seq<T>>, k: nat)
    requires k < |parts|
    ensures Flatten(parts[..k + 1]) == Flatten(parts[..k]) + parts[k]
  {
    assert parts[..k + 1] == parts[..k] + [parts[k]];
    FlattenAppend(parts[..k], [parts[k]]);
  }

  lemma FlattenPrefix<T>(parts: seq<seq<T>>, k: nat)
    requires k <= |parts|
    ensures Flatten(parts[..k]) <= Flatten(parts)
  {
    assert parts == parts[..k] + parts[k..];
    FlattenAppend(parts[..k], parts[k..]);
  }

  /** The sum of a weight over a sequence; the protocols count buffers and remaining work with it. */
  function Total<T>(xs: seq<T>, weight: T -> nat): nat {
    if xs == [] then 0 else Total(xs[..|xs| - 1], weight) + weight(xs[|xs| - 1])
  }

  lemma {:induction false} TotalUpdate<T>(xs: seq<T>, weight: T -> nat, i: nat, x: T)
    requires i < |xs|
    ensures Total(xs[i := x], weight) == Total(xs, weight) - weight(xs[i]) + weight(x)
  {
    var last := |xs| - 1;
    if i == last {
      assert xs[i := x][..last] == xs[..last];
    } else {
      assert xs[i := x][..last] == xs[..last][i := x];
      TotalUpdate(xs[..last], weight, i, x);
    }
  }

  lemma TotalSnoc<T>(xs: seq<T>, weight: T -> nat, x: T)
    ensures Total(xs + [x], weight) == Total(xs, weight) + weight(x)
  {
    assert (xs + [x])[..|xs|] == xs;
  }

  /** A weight of at most one that vanishes outside `lo..hi` counts at most `hi - lo`. */
  lemma {:induction false} TotalWithin<T>(xs: seq<T>, weight: T -> nat, lo: nat, hi: nat)
    requires lo <= hi
    requires forall i :: 0 <= i < |xs| ==> weight(xs[i]) <= if lo <= i < hi then 1 else 0
    ensures Total(xs, weight) <= hi - lo
    decreases |xs|
  {
    if xs != [] {
      var last := |xs| - 1;
      var init := xs[..last];
      assert forall i :: 0 <= i < |init| ==> init[i] == xs[i];
      if lo <= last < hi {
        TotalWithin(init, weight, lo, last);
      } else {
        TotalWithin(init, weight, lo, hi);
      }
    }
  }

  lemma Distribute(c: nat, x: nat, y: nat, z: nat)
    ensures c * x + c * y + c * z == (x + y + z) * c
  {
  }

  /** Pointwise domination, up to a constant factor, carries over to the totals. */
  lemma {:induction false} TotalScaled<T>(xs: seq<T>, small: T -> nat, big: T -> nat, factor: nat)
    requires forall i :: 0 <= i < |xs| ==> small(xs[i]) <= factor * big(xs[i])
    ensures Total(xs, small) <= factor * Total(xs, big)
  {
    if xs != [] {
      var last := |xs| - 1;
      var init := xs[..last];
      assert forall i :: 0 <= i < |init| ==> init[i] == xs[i];
      TotalScaled(init, small, big, factor);
      assert factor * (Total(init, big) + big(xs[last])) == factor * Total(init, big) + factor * big(xs[last]);
    }
  }

  /** One element of the sequence never outweighs the whole. */
  lemma {:induction false} TotalAtLeast<T>(xs: seq<T>, weight: T -> nat, i: nat)
    requires i < |xs|
    ensures weight(xs[i]) <= Total(xs, weight)
  {
    if i < |xs| - 1 {
      TotalAtLeast(xs[..|xs| - 1], weight, i);
    }
  }
}
