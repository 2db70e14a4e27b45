/** What has to have gone right for an entry, and for a whole pull, to count as written. */
module PullOutcome {
  import opened Sequences
  import opened Manifest
  import opened World
  import opened Plan
  import opened PullBudget
  import opened SizedReader
  import opened Pull
  import opened PullProofs
  import Prefetch
  import PrefetchProofs

  /** The machine's run of a prefetched entry ended in a nil return. */
  ghost predicate ReturnedNil(req: Request, pipe: Pipeline, pools: Prefetch.Pools, e: LayerPlan, steps: seq<Prefetch.Step>) {
    var end := Prefetch.Exec(JobFor(req, pipe, e), Prefetch.Init(JobFor(req, pipe, e), pools), steps);
    end.Some? && end.value.consumer == Prefetch.Returned(None)
  }

  /** A download that worked: there was a body, it ended cleanly, and it had the descriptor's size. */
  ghost predicate Arrived(store: Store, desc: Descriptor, source: Option<Script>) {
    && source.Some? && Content(source.value).end.Eof?
    && desc.digest in store && Content(source.value).bytes == store[desc.digest]
    && |store[desc.digest]| == Max(desc.size, 0)
  }

  lemma CopyArrived(req: Request, e: LayerPlan, source: Option<Script>, wrote: bool)
    requires Honest(req.store, e.layer, source) && CopyOut(e.layer, e.meta, source, wrote).Some?
    ensures wrote && Arrived(req.store, e.layer, source)
    ensures
      var entry := CopyOut(e.layer, e.meta, source, wrote).value;
      entry.body == req.store[e.layer.digest] && |entry.body| == Max(e.layer.size, 0)
  {
    hide LayerHeader;
    var n := Max(e.layer.size, 0);
    CheckedIsExactUnlessProbeStalls(source.value, n);
    CheckedNeverPassesShort(source.value, n);
    var all := Content(source.value).bytes;
    assert all[..|all|] == all;
  }

  lemma SequentialArrived(req: Request, e: LayerPlan, sources: seq<Option<Script>>)
    requires |sources| == |e.Chunks()| && SequentialBytes(req, e, sources).Some?
    requires forall c :: 0 <= c < |sources| ==> Honest(req.store, e.Chunks()[c], sources[c])
    ensures forall c :: 0 <= c < |sources| ==> Arrived(req.store, e.Chunks()[c], sources[c])
  {
    hide IsZstdMediaType;
    var parts := Parts(e, sources);
    var blobs := seq(|sources|, c requires 0 <= c < |sources| => if sources[c].Some? then Content(sources[c].value).bytes else []);
    StreamedIsExact(parts, blobs);
    forall c | 0 <= c < |sources|
      ensures Arrived(req.store, e.Chunks()[c], sources[c])
    {
      assert parts[c].source == sources[c] && parts[c].size == e.Chunks()[c].size;
    }
  }

  /** Everything an entry needs: its header, every write, every download at its size, and as many bytes as announced. */
  ghost predicate WentThrough(req: Request, pipe: Pipeline, pools: Prefetch.Pools, e: LayerPlan, trace: Trace, entry: TarEntry) {
    && trace.wrote
    && EntryHeader(e) == Some(entry.header)
    && (if !e.Encoded() then trace.Copied? && Arrived(req.store, e.layer, trace.source)
        else if FileWindow(pipe, e) >= 2 then trace.Prefetched? && ReturnedNil(req, pipe, pools, e, trace.steps)
        else
          && trace.Sequential? && |trace.sources| == |e.Chunks()|
          && forall c :: 0 <= c < |e.Chunks()| ==> Arrived(req.store, e.Chunks()[c], trace.sources[c]))
    && |entry.body| == entry.header.size
  }

  /** Whatever the manifest: no entry counts as written unless all of that went through. */
  lemma WrittenWentThrough(req: Request, pipe: Pipeline, pools: Prefetch.Pools, e: LayerPlan, trace: Trace)
    requires Sane(e)
    ensures
      var run := WriteEntry(req, pipe, pools, e, trace);
      run.Wrote? ==> WentThrough(req, pipe, pools, e, trace, run.entry)
  {
    hide CopyOut, SequentialBytes, FileWindow, Honest, Arrived, JobFor, LayerHeader;
    if WriteEntry(req, pipe, pools, e, trace).Wrote? {
      if !e.Encoded() {
        CopyArrived(req, e, trace.source, trace.wrote);
        CopyHasHeader(e, trace.source, trace.wrote);
      } else if FileWindow(pipe, e) < 2 {
        SequentialArrived(req, e, trace.sources);
      }
    }
  }

  lemma CopyHasHeader(e: LayerPlan, source: Option<Script>, wrote: bool)
    requires Sane(e) && !e.Encoded() && CopyOut(e.layer, e.meta, source, wrote).Some?
    ensures EntryHeader(e) == Some(CopyOut(e.layer, e.meta, source, wrote).value.header)
    ensures EntryHeader(e).Some? ==> EntryHeader(e).value.size == e.layer.size >= 0
  {
  }

  /** Entry `t` of the plan was reached and went through, and gave its entry of the tar, behind the envelope. */
  ghost predicate EntryWentThrough(req: Request, cfg: SnapshotConfig, entries: seq<LayerPlan>, traces: seq<Trace>, t: nat, tar: seq<TarEntry>)
    requires t < |entries| == |traces| && t + 1 < |tar|
  {
    var before := TarUpTo(req, cfg, entries, traces, t);
    before.Going? && WentThrough(req, PipeOf(req, entries), before.pools, entries[t], traces[t], tar[t + 1])
  }

  lemma LastWentThrough(req: Request, cfg: SnapshotConfig, entries: seq<LayerPlan>, traces: seq<Trace>, n: nat)
    requires AllSane(entries) && 0 < n <= |entries| == |traces| && TarUpTo(req, cfg, entries, traces, n).Going?
    ensures TarUpTo(req, cfg, entries, traces, n - 1).Going?
    ensures TarUpTo(req, cfg, entries, traces, n).tar[..|TarUpTo(req, cfg, entries, traces, n - 1).tar|]
         == TarUpTo(req, cfg, entries, traces, n - 1).tar
    ensures |TarUpTo(req, cfg, entries, traces, n).tar| == |TarUpTo(req, cfg, entries, traces, n - 1).tar| + 1
    ensures |TarUpTo(req, cfg, entries, traces, n).tar| == n + 1 ==>
      EntryWentThrough(req, cfg, entries, traces, n - 1, TarUpTo(req, cfg, entries, traces, n).tar)
  {
    hide WriteEntry, PipeOf, WentThrough, Sane, Envelope;
    WrittenWentThrough(req, PipeOf(req, entries), TarUpTo(req, cfg, entries, traces, n - 1).pools, entries[n - 1], traces[n - 1]);
  }

  lemma LongerTar(req: Request, cfg: SnapshotConfig, entries: seq<LayerPlan>, traces: seq<Trace>, t: nat, before: seq<TarEntry>, tar: seq<TarEntry>)
    requires t < |entries| == |traces| && t + 1 < |before| <= |tar| && tar[..|before|] == before
    requires EntryWentThrough(req, cfg, entries, traces, t, before)
    ensures EntryWentThrough(req, cfg, entries, traces, t, tar)
  {
    hide WentThrough, TarUpTo, PipeOf;
    assert tar[t + 1] == tar[..|before|][t + 1];
  }

  /** A pull that is still going has written all its entries so far. */
  lemma {:induction false} GoingWentThrough(req: Request, cfg: SnapshotConfig, entries: seq<LayerPlan>, traces: seq<Trace>, n: nat)
    requires AllSane(entries) && n <= |entries| == |traces| && TarUpTo(req, cfg, entries, traces, n).Going?
    ensures |TarUpTo(req, cfg, entries, traces, n).tar| == n + 1
    ensures forall t :: 0 <= t < n ==> EntryWentThrough(req, cfg, entries, traces, t, TarUpTo(req, cfg, entries, traces, n).tar)
  {
    hide AllSane, EntryWentThrough, WriteEntry, PipeOf, Envelope;
    if n > 0 {
      LastWentThrough(req, cfg, entries, traces, n);
      GoingWentThrough(req, cfg, entries, traces, n - 1);
      var tar, before := TarUpTo(req, cfg, entries, traces, n).tar, TarUpTo(req, cfg, entries, traces, n - 1).tar;
      forall t | 0 <= t < n
        ensures EntryWentThrough(req, cfg, entries, traces, t, tar)
      {
        if t < n - 1 {
          assert EntryWentThrough(req, cfg, entries, traces, t, before);
          LongerTar(req, cfg, entries, traces, t, before, tar);
        }
      }
    }
  }

  /**
   * A pull that reports success, of any manifest: envelope, close and flush went through, and so did the
   * header, the downloads and the writes of every planned entry, each with as many bytes as announced.
   */
  lemma DoneWentThrough(req: Request, m: OCIManifest, config: Option<Script>, traces: seq<Trace>, framed: bool)
    requires PullParsed(req, m, config, traces, framed).Done?
    ensures framed && FetchConfig(req, m.config, config).Some?
    ensures
      var cfg, tar := FetchConfig(req, m.config, config).value, PullParsed(req, m, config, traces, framed).tar;
      && PlanOf(m, cfg).Some?
      && var entries := PlanOf(m, cfg).value;
      && |traces| == |entries| && |tar| == |entries| + 1
      && forall t :: 0 <= t < |entries| ==> EntryWentThrough(req, cfg, entries, traces, t, tar)
  {
    hide FetchConfig, Validates, PlanOf, TarUpTo, EntryWentThrough, Honest, PipeOf, ClassifyParsed;
    var cfg := FetchConfig(req, m.config, config).value;
    ValidatedPlansAreSane(m, cfg);
    GoingWentThrough(req, cfg, PlanOf(m, cfg).value, traces, |traces|);
  }

  lemma WentThroughWrote(req: Request, cfg: SnapshotConfig, entries: seq<LayerPlan>, traces: seq<Trace>, t: nat, tar: seq<TarEntry>)
    requires t < |entries| == |traces| && t + 1 < |tar| && EntryWentThrough(req, cfg, entries, traces, t, tar)
    ensures traces[t].wrote && |tar[t + 1].body| == tar[t + 1].header.size
  {
    hide PipeOf, TarUpTo;
  }

  /** So a pull with a single failed write does not report success. */
  lemma DoneMeansAllWrote(req: Request, m: OCIManifest, config: Option<Script>, traces: seq<Trace>, framed: bool)
    requires PullParsed(req, m, config, traces, framed).Done?
    ensures framed && forall t :: 0 <= t < |traces| ==> traces[t].wrote
    ensures
      var tar := PullParsed(req, m, config, traces, framed).tar;
      |tar| == |traces| + 1 && forall t :: 0 < t < |tar| ==> |tar[t].body| == tar[t].header.size
  {
    hide PullParsed, FetchConfig, PlanOf, TarUpTo, PipeOf, EntryWentThrough;
    DoneWentThrough(req, m, config, traces, framed);
    var cfg, tar := FetchConfig(req, m.config, config).value, PullParsed(req, m, config, traces, framed).tar;
    forall t | 0 <= t < |traces|
      ensures traces[t].wrote && |tar[t + 1].body| == tar[t + 1].header.size
    {
      WentThroughWrote(req, cfg, PlanOf(m, cfg).value, traces, t, tar);
    }
    forall t | 0 < t < |tar|
      ensures |tar[t].body| == tar[t].header.size
    {
      assert tar[(t - 1) + 1] == tar[t];
      WentThroughWrote(req, cfg, PlanOf(m, cfg).value, traces, t - 1, tar);
    }
  }
}
