/**
 * Readers over an adversarial body. A body is a script of replies: each says how many bytes it
 * is willing to hand over at once and whether it ends there, cleanly or with a fault. A reply of
 * no bytes and no end is Go's (0, nil). Once a body has ended it keeps giving the same end.
 */
module SizedReader {
  import opened Sequences

  datatype End = More | Eof | Fault
  datatype Reply = Reply(bytes: Bytes, end: End)
  type Script = seq<Reply>

  /** What a whole reading loop gets: the bytes handed over, and whether it ended in EOF. */
  datatype Outcome = Outcome(bytes: Bytes, ok: bool)

  function ReadStep(script: Script, limit: nat): (Reply, Script) {
    if script == [] then (Reply([], Eof), [])
    else
      var head := script[0];
      if limit < |head.bytes| then
        (Reply(head.bytes[..limit], More), [Reply(head.bytes[limit..], head.end)] + script[1..])
      else if head.end.More? then (head, script[1..])
      else (head, [Reply([], head.end)])
  }

  class Body {
    var script: Script

    constructor (script: Script)
      ensures this.script == script
    {
      this.script := script;
    }

    method Read(limit: nat) returns (reply: Reply)
      modifies this
      ensures (reply, script) == ReadStep(old(script), limit)
    {
      if script == [] {
        return Reply([], Eof);
      }
      var head := script[0];
      if limit < |head.bytes| {
        script := [Reply(head.bytes[limit..], head.end)] + script[1..];
        return Reply(head.bytes[..limit], More);
      }
      script := if head.end.More? then script[1..] else [Reply([], head.end)];
      return head;
    }
  }

  /** All bytes of a body up to its end, and how it ends; a script that runs out ends cleanly. */
  function Content(script: Script): Reply {
    if script == [] then Reply([], Eof)
    else if script[0].end.More? then
      var rest := Content(script[1..]);
      Reply(script[0].bytes + rest.bytes, rest.end)
    else script[0]
  }

  /** Every body ends, cleanly or with a fault. */
  lemma {:induction false} ContentEnds(script: Script)
    ensures !Content(script).end.More?
  {
    if script != [] && script[0].end.More? {
      ContentEnds(script[1..]);
    }
  }

  /** The body never answers a non-empty read with (0, nil). */
  predicate NeverStalls(script: Script) {
    forall i :: 0 <= i < |script| ==> script[i].bytes == [] ==> !script[i].end.More?
  }

  /** The one-byte probe behind the last expected byte sees neither data nor a fault. */
  predicate ProbePasses(script: Script) {
    script == [] || (script[0].bytes == [] && !script[0].end.Fault?)
  }

  /** What reading a body through a checker for `n` bytes yields, however the reads are sized. */
  function Checked(script: Script, n: nat): Outcome {
    if n == 0 then Outcome([], ProbePasses(script))
    else if script == [] then Outcome([], false)
    else
      var head := script[0];
      if n < |head.bytes| then Outcome(head.bytes[..n], false)
      else
        match head.end
        case More =>
          var rest := Checked(script[1..], n - |head.bytes|);
          Outcome(head.bytes + rest.bytes, rest.ok)
        case Eof => Outcome(head.bytes, |head.bytes| == n)
        case Fault => Outcome(head.bytes, false)
  }

  /** Reading work a script can still cause. */
  function Work(script: Script): nat {
    if script == [] then 0 else |script[0].bytes| + 1 + Work(script[1..])
  }

  lemma ReadStepWork(script: Script, limit: nat)
    ensures Work(ReadStep(script, limit).1) <= Work(script)
    ensures limit > 0 && ReadStep(script, limit).0.end.More? ==> Work(ReadStep(script, limit).1) < Work(script)
  {
    if script != [] && limit < |script[0].bytes| {
      var rest := ReadStep(script, limit).1;
      assert rest[1..] == script[1..];
    }
  }

  /** One read of at most `limit` of the `n` bytes still expected leaves the rest of the outcome to come. */
  lemma CheckedAfterRead(script: Script, limit: nat, n: nat)
    requires 0 < n && limit <= n
    ensures
      var (reply, rest) := ReadStep(script, limit);
      && |reply.bytes| <= limit
      && match reply.end
         case More =>
           Checked(script, n) == Outcome(reply.bytes + Checked(rest, n - |reply.bytes|).bytes, Checked(rest, n - |reply.bytes|).ok)
         case Eof => Checked(script, n) == Outcome(reply.bytes, |reply.bytes| == n) && ProbePasses(rest)
         case Fault => Checked(script, n) == Outcome(reply.bytes, false)
  {
    var (reply, rest) := ReadStep(script, limit);
    if script != [] && limit < |script[0].bytes| {
      var head := script[0];
      assert rest[0] == Reply(head.bytes[limit..], head.end) && rest[1..] == script[1..];
      if n < |head.bytes| {
        assert head.bytes[..n] == head.bytes[..limit] + head.bytes[limit..][..n - limit];
      } else {
        assert head.bytes == head.bytes[..limit] + head.bytes[limit..];
      }
    }
  }

  /** A body that has ended has nothing more to give, and a fault stays one. */
  lemma EndedBodyStaysEnded(script: Script, limit: nat, n: int)
    requires 0 <= n
    ensures
      var (reply, rest) := ReadStep(script, limit);
      && (!reply.end.More? && n > 0 ==> !Checked(rest, n).ok)
      && (reply.end.Fault? ==> !Checked(rest, n).ok)
  {
  }

  /** Whatever the body does, a pass hands over exactly the expected number of its first bytes, and a failure a prefix of them. */
  lemma {:induction false} CheckedNeverPassesShort(script: Script, n: nat)
    ensures
      var all := Content(script).bytes;
      && Checked(script, n).bytes == all[..Min(n, |all|)]
      && (Checked(script, n).ok ==> n <= |all|)
  {
    if n > 0 && script != [] && |script[0].bytes| <= n && script[0].end.More? {
      CheckedNeverPassesShort(script[1..], n - |script[0].bytes|);
    }
  }

  /** The reply the probe meets, right behind the first `n` bytes, is a stall. */
  predicate StallsAt(script: Script, n: nat) {
    if script == [] || n < |script[0].bytes| || !script[0].end.More? then false
    else if n == 0 then true
    else StallsAt(script[1..], n - |script[0].bytes|)
  }

  /** Over every body: the check passes exactly when the size is right and the end is clean, or when the probe meets a stall. */
  lemma {:induction false} CheckedIsExactUnlessProbeStalls(script: Script, n: nat)
    ensures Checked(script, n).ok <==> StallsAt(script, n) || (|Content(script).bytes| == n && Content(script).end.Eof?)
  {
    if n > 0 && script != [] && |script[0].bytes| <= n && script[0].end.More? {
      CheckedIsExactUnlessProbeStalls(script[1..], n - |script[0].bytes|);
    }
  }

  lemma {:induction false} NoStallAnywhere(script: Script, n: nat)
    requires NeverStalls(script)
    ensures !StallsAt(script, n)
  {
    if script != [] {
      assert script[0].bytes == [] ==> !script[0].end.More?;
      if |script[0].bytes| <= n {
        NoStallAnywhere(script[1..], n - |script[0].bytes|);
      }
    }
  }

  /** A body that never stalls passes exactly when it has the expected size and ends cleanly. */
  lemma CheckedIsExact(script: Script, n: nat)
    requires NeverStalls(script)
    ensures Checked(script, n).ok <==> |Content(script).bytes| == n && Content(script).end.Eof?
  {
    CheckedIsExactUnlessProbeStalls(script, n);
    NoStallAnywhere(script, n);
  }

  /** Without that promise the check can be fooled: a (0, nil) answer to the probe hides trailing bytes. */
  lemma StallHidesTrailingBytes()
    ensures
      var script := [Reply([1], More), Reply([], More), Reply([2], Eof)];
      Content(script).bytes == [1, 2] && Checked(script, 1) == Outcome([1], true)
  {
    var script := [Reply([1], More), Reply([], More), Reply([2], Eof)];
    assert script[1..][1..] == [Reply([2], Eof)];
    assert Content(script[1..]).bytes == [] + [2];
    assert Checked(script[1..], 0) == Outcome([], true);
  }

  /** ociutil.BlobSizeChecker: exact size and no trailing data, over any body. */
  class BlobSizeChecker {
    const body: Body
    var missing: int
    var done: bool

    constructor (body: Body, size: int)
      ensures this.body == body && !done && missing == size
    {
      this.body := body;
      this.missing := size;
      this.done := false;
    }

    ghost function Ahead(): Outcome
      reads this, body
    {
      if done then Outcome([], true) else Checked(body.script, Max(missing, 0))
    }

    ghost function WorkLeft(): nat
      reads this, body
    {
      Work(body.script) + if done then 0 else 1
    }

    method Read(limit: nat) returns (reply: Reply)
      modifies this, body
      ensures |reply.bytes| <= limit
      ensures reply.end.More? ==> old(Ahead()) == Outcome(reply.bytes + Ahead().bytes, Ahead().ok)
      ensures reply.end.Eof? ==> reply.bytes == [] && old(Ahead()) == Outcome([], true) && done
      ensures reply.end.Fault? ==> old(Ahead()) == Outcome(reply.bytes, false)
      ensures reply.end.Fault? && reply.bytes != [] ==> !Ahead().ok
      ensures WorkLeft() <= old(WorkLeft())
      ensures limit > 0 && reply.end.More? ==> WorkLeft() < old(WorkLeft())
    {
      if done {
        return Reply([], Eof);
      }
      reply := Reply([], Eof);
      if missing > 0 {
        var capped := Min(limit, missing);
        CheckedAfterRead(body.script, capped, missing);
        ReadStepWork(body.script, capped);
        EndedBodyStaysEnded(body.script, capped, missing - |ReadStep(body.script, capped).0.bytes|);
        reply := body.Read(capped);
        missing := missing - |reply.bytes|;
      }
      if !reply.end.Eof? {
        return;
      }
      var exact := Finish();
      if !exact {
        return Reply(reply.bytes, Fault);
      }
      done := true;
      if reply.bytes != [] {
        return Reply(reply.bytes, More);
      }
    }

    method Finish() returns (exact: bool)
      modifies body
      ensures exact <==> missing <= 0 && ProbePasses(old(body.script))
      ensures missing > 0 ==> body.script == old(body.script)
      ensures Work(body.script) <= Work(old(body.script))
    {
      if missing > 0 {
        return false;
      }
      ReadStepWork(body.script, 1);
      var probe := body.Read(1);
      exact := probe.bytes == [] && !probe.end.Fault?;
    }
  }

  lemma Regroup(a: Bytes, b: Bytes, c: Bytes)
    ensures a + (b + c) == (a + b) + c
  {
  }

  /** CopyBlobSized: io.Copy through a checker, whatever the buffer size. */
  method CopyBlobSized(body: Body, size: int, buffer: nat) returns (copied: Bytes, ok: bool)
    requires buffer > 0
    modifies body
    ensures Outcome(copied, ok) == Checked(old(body.script), Max(size, 0))
  {
    hide Checked, Work, ProbePasses;
    var checker := new BlobSizeChecker(body, size);
    var end := More;
    copied := [];
    ghost var whole := Checked(body.script, Max(size, 0));
    ghost var ahead := whole;
    while end.More?
      invariant checker.body == body && fresh(checker)
      invariant end.More? ==> ahead == checker.Ahead()
      invariant !end.More? ==> ahead == Outcome([], end.Eof?)
      invariant whole == Outcome(copied + ahead.bytes, ahead.ok)
      decreases end.More?, checker.WorkLeft()
    {
      ghost var had := copied;
      var reply := checker.Read(buffer);
      copied := copied + reply.bytes;
      end := reply.end;
      ahead := if end.More? then checker.Ahead() else Outcome([], end.Eof?);
      assert had + (reply.bytes + ahead.bytes) == copied + ahead.bytes;
    }
    ok := end.Eof?;
  }

  /** io.ReadFull: it forgets a fault that comes with the last bytes it wants. */
  method ReadFull(checker: BlobSizeChecker, size: nat) returns (stored: Bytes, full: bool)
    modifies checker, checker.body
    ensures |stored| <= size && (full <==> |stored| == size)
    ensures full ==> old(checker.Ahead()).ok == checker.Ahead().ok
    ensures full && checker.Ahead().ok ==> old(checker.Ahead()).bytes == stored + checker.Ahead().bytes
    ensures !full && old(checker.Ahead()).ok ==> |old(checker.Ahead()).bytes| < size
  {
    hide Checked, Work, ProbePasses;
    stored := [];
    var end := More;
    ghost var whole := checker.Ahead();
    ghost var ahead := whole;
    while |stored| < size && end.More?
      invariant |stored| <= size
      invariant whole == Outcome(stored + ahead.bytes, ahead.ok)
      invariant end.More? ==> ahead == checker.Ahead()
      invariant end.Eof? ==> ahead == Outcome([], true) && |stored| < size
      invariant end.Fault? ==> ahead == Outcome([], false) && (|stored| < size || !checker.Ahead().ok)
      decreases end.More?, checker.WorkLeft()
    {
      ghost var had := stored;
      var reply := checker.Read(size - |stored|);
      stored := stored + reply.bytes;
      end := reply.end;
      ahead := if end.More? then checker.Ahead() else Outcome([], end.Eof?);
      assert had + (reply.bytes + ahead.bytes) == stored + ahead.bytes;
    }
    full := |stored| == size;
  }

  /** io.Copy to nowhere: reads on until the end or a fault. */
  method Discard(checker: BlobSizeChecker, buffer: nat) returns (ok: bool)
    requires buffer > 0
    modifies checker, checker.body
    ensures ok == old(checker.Ahead()).ok
  {
    hide Checked, Work, ProbePasses;
    var end := More;
    ghost var expected := checker.Ahead().ok;
    while end.More?
      invariant end.More? ==> checker.Ahead().ok == expected
      invariant !end.More? ==> end.Eof? == expected
      decreases end.More?, checker.WorkLeft()
    {
      var reply := checker.Read(buffer);
      end := reply.end;
    }
    ok := end.Eof?;
  }

  /** How a prefetching fetch reads a chunk: a full read into a buffer of its size, then on to the end. */
  method ReadChunk(body: Body, size: nat, buffer: nat) returns (stored: Bytes, ok: bool)
    requires buffer > 0
    modifies body
    ensures ok <==> Checked(old(body.script), size).ok
    ensures ok ==> stored == Checked(old(body.script), size).bytes
  {
    hide Checked, Work, ProbePasses;
    var checker := new BlobSizeChecker(body, size);
    CheckedNeverPassesShort(body.script, size);
    ghost var whole := checker.Ahead();
    var full: bool;
    stored, full := ReadFull(checker, size);
    if !full {
      return [], false;
    }
    ghost var rest := checker.Ahead();
    ok := Discard(checker, buffer);
    assert ok ==> |whole.bytes| == |stored| + |rest.bytes|;
  }

  /** One chunk of a file as the stream meets it: its descriptor's size, and what GetBlob answers for it. */
  datatype Part = Part(size: int, source: Option<Script>)

  /** What reading the parts one after the other yields. */
  function Streamed(parts: seq<Part>): Outcome
    decreases parts, 0
  {
    if parts == [] then Outcome([], true)
    else if parts[0].source.None? then Outcome([], false)
    else After(Checked(parts[0].source.value, Max(parts[0].size, 0)), parts[1..])
  }

  function After(first: Outcome, parts: seq<Part>): Outcome
    decreases parts, 1
  {
    if !first.ok then first
    else Outcome(first.bytes + Streamed(parts).bytes, Streamed(parts).ok)
  }

  /** Handing over the first bytes of the current blob hands over the first bytes of the stream. */
  lemma AfterSplits(whole: Outcome, reply: Reply, rest: Outcome, parts: seq<Part>)
    requires !reply.end.Eof?
    requires reply.end.More? ==> whole == Outcome(reply.bytes + rest.bytes, rest.ok)
    requires reply.end.Fault? ==> whole == Outcome(reply.bytes, false)
    ensures reply.end.More? ==>
      After(whole, parts) == Outcome(reply.bytes + After(rest, parts).bytes, After(rest, parts).ok)
    ensures reply.end.Fault? ==> After(whole, parts) == Outcome(reply.bytes, false)
  {
    assert (reply.bytes + rest.bytes) + Streamed(parts).bytes == reply.bytes + (rest.bytes + Streamed(parts).bytes);
  }

  function PartsWork(parts: seq<Part>): nat {
    if parts == [] then 0
    else (if parts[0].source.None? then 0 else Work(parts[0].source.value)) + 2 + PartsWork(parts[1..])
  }

  /** A blob served whole and cleanly, in any slicing that does not stall right behind its last byte. */
  predicate Serves(part: Part, blob: Bytes) {
    && part.source.Some?
    && !StallsAt(part.source.value, |blob|)
    && Content(part.source.value) == Reply(blob, Eof)
    && part.size == |blob|
  }

  /** Parts that serve their blobs stream as the concatenation of the blobs. */
  lemma {:induction false} StreamedConcatenates(parts: seq<Part>, blobs: seq<Bytes>)
    requires |parts| == |blobs|
    requires forall i :: 0 <= i < |parts| ==> Serves(parts[i], blobs[i])
    ensures Streamed(parts) == Outcome(Flatten(blobs), true)
  {
    if parts != [] {
      CheckedIsExactUnlessProbeStalls(parts[0].source.value, |blobs[0]|);
      CheckedNeverPassesShort(parts[0].source.value, |blobs[0]|);
      StreamedConcatenates(parts[1..], blobs[1..]);
    }
  }

  /** Conversely, a stream whose parts do not stall at their probes and that ends in EOF has read every blob whole, at its descriptor's size. */
  lemma {:induction false} StreamedIsExact(parts: seq<Part>, blobs: seq<Bytes>)
    requires |parts| == |blobs| && Streamed(parts).ok
    requires forall i :: 0 <= i < |parts| && parts[i].source.Some? ==>
      && !StallsAt(parts[i].source.value, Max(parts[i].size, 0))
      && blobs[i] == Content(parts[i].source.value).bytes
    ensures forall i :: 0 <= i < |parts| ==>
      parts[i].source.Some? && |blobs[i]| == Max(parts[i].size, 0) && Content(parts[i].source.value).end.Eof?
    ensures Streamed(parts).bytes == Flatten(blobs)
  {
    if parts != [] {
      var n := Max(parts[0].size, 0);
      CheckedIsExactUnlessProbeStalls(parts[0].source.value, n);
      CheckedNeverPassesShort(parts[0].source.value, n);
      StreamedIsExact(parts[1..], blobs[1..]);
      forall i | 0 <= i < |parts|
        ensures parts[i].source.Some? && |blobs[i]| == Max(parts[i].size, 0) && Content(parts[i].source.value).end.Eof?
      {
        if i > 0 {
          assert parts[i] == parts[1..][i - 1] && blobs[i] == blobs[1..][i - 1];
        }
      }
    }
  }

  /** chunkStream: the blobs of a file behind one reader, opened one at a time. */
  class ChunkStream {
    const parts: seq<Part>
    var i: nat
    var body: Body?
    var cur: BlobSizeChecker?
    /** Bodies opened and not yet closed. */
    var open: int

    ghost predicate Valid()
      reads this
    {
      && i <= |parts|
      && (cur == null <==> body == null)
      && (cur != null ==> cur.body == body && i < |parts|)
      && open == if body == null then 0 else 1
    }

    ghost function Ahead(): Outcome
      requires Valid()
      reads this, cur, body
    {
      if cur == null then Streamed(parts[i..]) else After(cur.Ahead(), parts[i + 1..])
    }

    ghost function WorkLeft(): nat
      requires Valid()
      reads this, cur, body
    {
      if cur == null then PartsWork(parts[i..]) else cur.WorkLeft() + PartsWork(parts[i + 1..])
    }

    constructor (parts: seq<Part>)
      ensures Valid() && this.parts == parts && cur == null && open == 0
      ensures Ahead() == Streamed(parts)
    {
      this.parts := parts;
      i := 0;
      body := null;
      cur := null;
      open := 0;
      new;
      assert parts[0..] == parts;
    }

    /** Fetches the next blob and wraps it in a checker. */
    method Open() returns (found: bool)
      requires Valid() && cur == null && i < |parts|
      modifies this
      ensures Valid() && i == old(i)
      ensures found ==> cur != null && fresh(cur) && fresh(body) && Ahead() == old(Ahead()) && WorkLeft() <= old(WorkLeft())
      ensures !found ==> cur == null && old(Ahead()) == Outcome([], false)
    {
      assert parts[i..][0] == parts[i] && parts[i..][1..] == parts[i + 1..];
      if parts[i].source.None? {
        return false;
      }
      body := new Body(parts[i].source.value);
      cur := new BlobSizeChecker(body, parts[i].size);
      open := open + 1;
      found := true;
    }

    /** One read of the current blob: its next bytes, a fault, or its end. */
    method ReadCurrent(limit: nat) returns (reply: Reply)
      requires Valid() && cur != null
      modifies cur, body
      ensures Valid()
      ensures |reply.bytes| <= limit
      ensures reply.end.More? ==> old(Ahead()) == Outcome(reply.bytes + Ahead().bytes, Ahead().ok)
      ensures reply.end.Eof? ==> reply.bytes == [] && Ahead() == old(Ahead()) && cur.Ahead() == Outcome([], true)
      ensures reply.end.Fault? ==> old(Ahead()) == Outcome(reply.bytes, false)
      ensures WorkLeft() <= old(WorkLeft())
      ensures limit > 0 && reply.end.More? ==> WorkLeft() < old(WorkLeft())
    {
      ghost var ahead := cur.Ahead();
      reply := cur.Read(limit);
      if !reply.end.Eof? {
        AfterSplits(ahead, reply, cur.Ahead(), parts[i + 1..]);
      }
    }

    /** Closes a blob that was read to its end. */
    method Advance()
      requires Valid() && cur != null && cur.Ahead() == Outcome([], true)
      modifies this
      ensures Valid() && cur == null && i == old(i) + 1
      ensures Ahead() == old(Ahead()) && WorkLeft() <= old(WorkLeft())
    {
      open := open - 1;
      body, cur := null, null;
      i := i + 1;
      assert [] + Streamed(parts[i..]).bytes == Streamed(parts[i..]).bytes;
    }

    method Read(limit: nat) returns (reply: Reply)
      requires Valid()
      modifies this, cur, body
      ensures Valid()
      ensures cur == null || cur == old(cur) || fresh(cur)
      ensures body == null || body == old(body) || fresh(body)
      ensures |reply.bytes| <= limit
      ensures reply.end.More? ==> old(Ahead()) == Outcome(reply.bytes + Ahead().bytes, Ahead().ok)
      ensures reply.end.Eof? ==> reply.bytes == [] && old(Ahead()) == Outcome([], true)
      ensures reply.end.Fault? ==> old(Ahead()) == Outcome(reply.bytes, false)
      ensures limit > 0 && reply.end.More? ==> WorkLeft() < old(WorkLeft())
    {
      while true
        invariant Valid()
        invariant cur == null || cur == old(cur) || fresh(cur)
        invariant body == null || body == old(body) || fresh(body)
        invariant Ahead() == old(Ahead())
        invariant WorkLeft() <= old(WorkLeft())
        decreases |parts| - i
      {
        if cur == null {
          if i >= |parts| {
            return Reply([], Eof);
          }
          var found := Open();
          if !found {
            return Reply([], Fault);
          }
        }
        reply := ReadCurrent(limit);
        if !reply.end.Eof? {
          return;
        }
        Advance();
      }
    }

    method Close()
      requires Valid()
      modifies this
      ensures Valid() && open == 0 && cur == null
    {
      if body != null {
        open := open - 1;
        body, cur := null, null;
      }
    }
  }

  /** io.Copy from a chunk stream: it ends, hands over what the parts stream, and leaves no body open. */
  method DrainStream(parts: seq<Part>, buffer: nat) returns (copied: Bytes, ok: bool, leftOpen: int)
    requires buffer > 0
    ensures Outcome(copied, ok) == Streamed(parts)
    ensures leftOpen == 0
  {
    hide Streamed, PartsWork, After, Checked, Work;
    var stream := new ChunkStream(parts);
    var end := More;
    copied := [];
    ghost var ahead := Streamed(parts);
    while end.More?
      invariant fresh(stream) && stream.Valid()
      invariant stream.cur != null ==> fresh(stream.cur)
      invariant stream.body != null ==> fresh(stream.body)
      invariant end.More? ==> ahead == stream.Ahead()
      invariant Streamed(parts) == Outcome(copied + ahead.bytes, ahead.ok)
      invariant !end.More? ==> ahead == Outcome([], end.Eof?)
      decreases end.More?, stream.WorkLeft()
    {
      ghost var had := copied;
      var reply := stream.Read(buffer);
      copied := copied + reply.bytes;
      end := reply.end;
      ahead := if end.More? then stream.Ahead() else Outcome([], end.Eof?);
      Regroup(had, reply.bytes, ahead.bytes);
    }
    ok := end.Eof?;
    stream.Close();
    leftOpen := stream.open;
  }
}
