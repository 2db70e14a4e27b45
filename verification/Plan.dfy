/** Fail-closed checks on a manifest, and the plan of which layers rebuild which file. */
module Plan {
  import opened Sequences
  import opened Manifest

  /** A raw layer has no chunk list; an encoded file has a non-empty one. */
  datatype LayerPlan = LayerPlan(title: string, meta: SnapshotFile, layer: Descriptor, chunks: Option<seq<Descriptor>>) {
    predicate Encoded() {
      chunks.Some?
    }
    predicate Zstd() {
      IsZstdMediaType(layer.mediaType)
    }
    function Chunks(): seq<Descriptor> {
      chunks.GetOr([])
    }
  }

  predicate IsV2(m: OCIManifest) {
    m.artifactType == ARTIFACT_TYPE_SNAPSHOT_V2
  }

  predicate LayerReadable(layer: Descriptor, v2: bool) {
    && layer.size >= 0
    && IsSnapshotLayerMediaType(layer.mediaType)
    && layer.Title() != ""
    && (v2 || !IsZstdMediaType(layer.mediaType))
  }

  /** Every layer is readable, and only a v2 manifest may carry compressed layers or chunked files. */
  predicate Validates(m: OCIManifest, cfg: SnapshotConfig) {
    && (forall i :: 0 <= i < |m.layers| ==> LayerReadable(m.layers[i], IsV2(m)))
    && (!IsV2(m) ==> forall name :: name in cfg.files ==> cfg.files[name].chunks == [])
  }

  method ValidateSnapshotLayers(m: OCIManifest, cfg: SnapshotConfig) returns (ok: bool)
    ensures ok <==> Validates(m, cfg)
  {
    hide IsSnapshotLayerMediaType, IsZstdMediaType, IsV2;
    var encoded := IsV2(m);
    for i := 0 to |m.layers|
      invariant forall j :: 0 <= j < i ==> LayerReadable(m.layers[j], IsV2(m))
    {
      var layer := m.layers[i];
      if layer.size < 0 || !IsSnapshotLayerMediaType(layer.mediaType) || layer.Title() == ""
         || (!encoded && IsZstdMediaType(layer.mediaType)) {
        return false;
      }
    }
    if !encoded {
      var names := cfg.files.Keys;
      while names != {}
        invariant names <= cfg.files.Keys
        invariant forall name :: name in cfg.files && name !in names ==> cfg.files[name].chunks == []
        decreases |names|
      {
        var name :| name in names;
        if cfg.files[name].chunks != [] {
          return false;
        }
        names := names - {name};
      }
    }
    ok := true;
  }

  predicate EncodedLayer(cfg: SnapshotConfig, layer: Descriptor) {
    cfg.File(layer.Title()).chunks != [] || IsZstdMediaType(layer.mediaType)
  }

  /** The digest index of the first `n` layers; a later layer replaces an earlier one. */
  function ByDigest(layers: seq<Descriptor>, n: nat): map<string, Descriptor>
    requires n <= |layers|
  {
    if n == 0 then map[] else ByDigest(layers, n - 1)[layers[n - 1].digest := layers[n - 1]]
  }

  lemma {:induction false} ByDigestIndexesLayers(layers: seq<Descriptor>, n: nat, digest: string)
    requires n <= |layers|
    ensures digest in ByDigest(layers, n) <==> exists j :: 0 <= j < n && layers[j].digest == digest
    ensures digest in ByDigest(layers, n) ==>
      ByDigest(layers, n)[digest] in layers && ByDigest(layers, n)[digest].digest == digest
  {
    if n > 0 {
      ByDigestIndexesLayers(layers, n - 1, digest);
      assert layers[n - 1] in layers;
    }
  }

  /** Layer `j` is the last with this digest. */
  ghost predicate LastWith(layers: seq<Descriptor>, digest: string, j: nat)
    requires j < |layers|
  {
    layers[j].digest == digest && forall k :: j < k < |layers| ==> layers[k].digest != digest
  }

  /** Among layers with one digest the index has the last. */
  lemma {:induction false} ByDigestHasTheLast(layers: seq<Descriptor>, n: nat, digest: string) returns (j: nat)
    requires n <= |layers| && digest in ByDigest(layers, n)
    ensures j < n && ByDigest(layers, n)[digest] == layers[j] && layers[j].digest == digest
    ensures forall k :: j < k < n ==> layers[k].digest != digest
  {
    if layers[n - 1].digest == digest {
      j := n - 1;
    } else {
      j := ByDigestHasTheLast(layers, n - 1, digest);
    }
  }

  function Resolve(layer: Descriptor, meta: SnapshotFile, byDigest: map<string, Descriptor>): Option<seq<Descriptor>> {
    if meta.size <= 0 then None
    else if meta.chunks == [] then Some([layer])
    else if exists i :: 0 <= i < |meta.chunks| && meta.chunks[i] !in byDigest then None
    else Some(seq(|meta.chunks|, i requires 0 <= i < |meta.chunks| => byDigest[meta.chunks[i]]))
  }

  method ResolveEncodedFile(layer: Descriptor, meta: SnapshotFile, byDigest: map<string, Descriptor>)
    returns (descs: Option<seq<Descriptor>>)
    ensures descs == Resolve(layer, meta, byDigest)
  {
    if meta.size <= 0 {
      return None;
    }
    if |meta.chunks| == 0 {
      return Some([layer]);
    }
    var found: seq<Descriptor> := [];
    for i := 0 to |meta.chunks|
      invariant |found| == i
      invariant forall j :: 0 <= j < i ==> meta.chunks[j] in byDigest && found[j] == byDigest[meta.chunks[j]]
    {
      if meta.chunks[i] !in byDigest {
        return None;
      }
      found := found + [byDigest[meta.chunks[i]]];
    }
    descs := Some(found);
    assert found == Resolve(layer, meta, byDigest).value;
  }

  datatype PlanState = PlanState(entries: seq<LayerPlan>, emitted: set<string>)

  /** The plan after the first `n` layers, or None once one of them cannot be resolved. */
  function PlanUpTo(cfg: SnapshotConfig, layers: seq<Descriptor>, n: nat): Option<PlanState>
    requires n <= |layers|
  {
    if n == 0 then Some(PlanState([], {}))
    else
      var before := PlanUpTo(cfg, layers, n - 1);
      if before.None? then None else PlanStep(cfg, layers, before.value, layers[n - 1])
  }

  function PlanStep(cfg: SnapshotConfig, layers: seq<Descriptor>, st: PlanState, layer: Descriptor): Option<PlanState> {
    var title := layer.Title();
    var meta := cfg.File(title);
    if !EncodedLayer(cfg, layer) then
      Some(PlanState(st.entries + [LayerPlan(title, meta, layer, None)], st.emitted))
    else if title in st.emitted then Some(st)
    else
      var descs := Resolve(layer, meta, ByDigest(layers, |layers|));
      if descs.None? then None
      else Some(PlanState(st.entries + [LayerPlan(title, meta, layer, descs)], st.emitted + {title}))
  }

  method PlanLayers(cfg: SnapshotConfig, layers: seq<Descriptor>) returns (plan: Option<seq<LayerPlan>>)
    ensures plan == match PlanUpTo(cfg, layers, |layers|) case None => None case Some(st) => Some(st.entries)
  {
    var byDigest := map[];
    for i := 0 to |layers|
      invariant byDigest == ByDigest(layers, i)
    {
      byDigest := byDigest[layers[i].digest := layers[i]];
    }
    var entries: seq<LayerPlan> := [];
    var emitted: set<string> := {};
    for n := 0 to |layers|
      invariant PlanUpTo(cfg, layers, n) == Some(PlanState(entries, emitted))
    {
      var layer := layers[n];
      var title := layer.Title();
      var meta := cfg.File(title);
      if |meta.chunks| == 0 && !IsZstdMediaType(layer.mediaType) {
        entries := entries + [LayerPlan(title, meta, layer, None)];
      } else if title !in emitted {
        var descs := ResolveEncodedFile(layer, meta, byDigest);
        if descs.None? {
          PlanStaysNone(cfg, layers, n + 1);
          return None;
        }
        emitted := emitted + {title};
        entries := entries + [LayerPlan(title, meta, layer, descs)];
      }
    }
    plan := Some(entries);
  }

  lemma {:induction false} PlanStaysNone(cfg: SnapshotConfig, layers: seq<Descriptor>, n: nat)
    requires n <= |layers| && PlanUpTo(cfg, layers, n).None?
    ensures PlanUpTo(cfg, layers, |layers|).None?
    decreases |layers| - n
  {
    if n < |layers| {
      PlanStaysNone(cfg, layers, n + 1);
    }
  }

  // ----- The plan described without its loop -----

  /** Layer `i` is the first encoded layer of its title. */
  ghost predicate FirstEncoded(cfg: SnapshotConfig, layers: seq<Descriptor>, i: nat)
    requires i < |layers|
  {
    && EncodedLayer(cfg, layers[i])
    && forall j :: 0 <= j < i && EncodedLayer(cfg, layers[j]) ==> layers[j].Title() != layers[i].Title()
  }

  /** The layers that become entries, in manifest order. */
  ghost function Kept(cfg: SnapshotConfig, layers: seq<Descriptor>, n: nat): (kept: seq<nat>)
    requires n <= |layers|
    ensures forall t :: 0 <= t < |kept| ==> kept[t] < n
  {
    if n == 0 then []
    else Kept(cfg, layers, n - 1) +
         if !EncodedLayer(cfg, layers[n - 1]) || FirstEncoded(cfg, layers, n - 1) then [n - 1] else []
  }

  /** A chunk the config lists is the last manifest layer with that digest. */
  ghost predicate Carries(layers: seq<Descriptor>, digest: string, chunk: Descriptor) {
    chunk.digest == digest && exists j :: 0 <= j < |layers| && chunk == layers[j] && LastWith(layers, digest, j)
  }

  /** Entry `e` rebuilds layer `i`: raw as it is, encoded from the manifest layers whose digests the config lists. */
  ghost predicate Rebuilds(cfg: SnapshotConfig, layers: seq<Descriptor>, i: nat, e: LayerPlan)
    requires i < |layers|
  {
    && e.title == layers[i].Title()
    && e.meta == cfg.File(e.title)
    && e.layer == layers[i]
    && (e.Encoded() <==> EncodedLayer(cfg, layers[i]))
    && (e.Encoded() ==>
         && e.meta.size > 0
         && (e.meta.chunks == [] ==> e.Chunks() == [e.layer])
         && (e.meta.chunks != [] ==>
              && |e.Chunks()| == |e.meta.chunks|
              && forall c :: 0 <= c < |e.Chunks()| ==> Carries(layers, e.meta.chunks[c], e.Chunks()[c])))
  }

  /** An encoded title the config describes badly: no size, or a chunk that no layer carries. */
  ghost predicate Unresolvable(cfg: SnapshotConfig, layers: seq<Descriptor>, i: nat)
    requires i < |layers|
  {
    var meta := cfg.File(layers[i].Title());
    && EncodedLayer(cfg, layers[i])
    && (meta.size <= 0 || exists c :: 0 <= c < |meta.chunks| && forall j :: 0 <= j < |layers| ==> layers[j].digest != meta.chunks[c])
  }

  lemma ResolveIsExact(cfg: SnapshotConfig, layers: seq<Descriptor>, i: nat)
    requires i < |layers| && EncodedLayer(cfg, layers[i])
    ensures
      var meta := cfg.File(layers[i].Title());
      var descs := Resolve(layers[i], meta, ByDigest(layers, |layers|));
      && (descs.None? <==> Unresolvable(cfg, layers, i))
      && (descs.Some? ==> Rebuilds(cfg, layers, i, LayerPlan(layers[i].Title(), meta, layers[i], descs)))
  {
    var meta := cfg.File(layers[i].Title());
    var byDigest := ByDigest(layers, |layers|);
    forall c | 0 <= c < |meta.chunks|
      ensures meta.chunks[c] in byDigest <==> exists j :: 0 <= j < |layers| && layers[j].digest == meta.chunks[c]
      ensures meta.chunks[c] in byDigest ==> Carries(layers, meta.chunks[c], byDigest[meta.chunks[c]])
    {
      ByDigestIndexesLayers(layers, |layers|, meta.chunks[c]);
      if meta.chunks[c] in byDigest {
        var j := ByDigestHasTheLast(layers, |layers|, meta.chunks[c]);
        assert LastWith(layers, meta.chunks[c], j);
      }
    }
  }

  lemma RawLayerRebuilds(cfg: SnapshotConfig, layers: seq<Descriptor>, i: nat)
    requires i < |layers| && !EncodedLayer(cfg, layers[i])
    ensures Rebuilds(cfg, layers, i, LayerPlan(layers[i].Title(), cfg.File(layers[i].Title()), layers[i], None))
  {
    hide EncodedLayer;
  }

  /** Planning keeps the raw layers and the first encoded layer of each title, and rebuilds each of them. */
  lemma {:induction false} PlanShape(cfg: SnapshotConfig, layers: seq<Descriptor>, n: nat)
    requires n <= |layers| && PlanUpTo(cfg, layers, n).Some?
    ensures
      var st := PlanUpTo(cfg, layers, n).value;
      var kept := Kept(cfg, layers, n);
      && |st.entries| == |kept|
      && (forall t :: 0 <= t < |kept| ==> Rebuilds(cfg, layers, kept[t], st.entries[t]))
      && (forall title :: title in st.emitted <==> exists j :: 0 <= j < n && EncodedLayer(cfg, layers[j]) && layers[j].Title() == title)
  {
    hide EncodedLayer, Resolve, ByDigest, Rebuilds, Unresolvable;
    if n > 0 {
      PlanShape(cfg, layers, n - 1);
      if EncodedLayer(cfg, layers[n - 1]) {
        ResolveIsExact(cfg, layers, n - 1);
      } else {
        RawLayerRebuilds(cfg, layers, n - 1);
      }
    }
  }

  /** Planning fails exactly when some encoded title is described badly. */
  lemma {:induction false} PlanFailsIff(cfg: SnapshotConfig, layers: seq<Descriptor>, n: nat)
    requires n <= |layers|
    ensures PlanUpTo(cfg, layers, n).None? <==>
      exists i :: 0 <= i < n && FirstEncoded(cfg, layers, i) && Unresolvable(cfg, layers, i)
  {
    if n > 0 {
      PlanFailsIff(cfg, layers, n - 1);
      if PlanUpTo(cfg, layers, n - 1).Some? {
        PlanShape(cfg, layers, n - 1);
        if EncodedLayer(cfg, layers[n - 1]) {
          ResolveIsExact(cfg, layers, n - 1);
        }
      }
    }
  }

  lemma {:induction false} KeptIncreases(cfg: SnapshotConfig, layers: seq<Descriptor>, n: nat, s: nat, t: nat)
    requires n <= |layers| && s < t < |Kept(cfg, layers, n)|
    ensures Kept(cfg, layers, n)[s] < Kept(cfg, layers, n)[t]
  {
    if t < |Kept(cfg, layers, n - 1)| {
      KeptIncreases(cfg, layers, n - 1, s, t);
    }
  }

  /** Exactly the raw layers and the first encoded layers are kept. */
  lemma {:induction false} KeptMembers(cfg: SnapshotConfig, layers: seq<Descriptor>, n: nat, i: nat)
    requires n <= |layers|
    ensures i in Kept(cfg, layers, n) <==> i < n && (!EncodedLayer(cfg, layers[i]) || FirstEncoded(cfg, layers, i))
  {
    if n > 0 {
      KeptMembers(cfg, layers, n - 1, i);
    }
  }

  /** No title is planned as an encoded file twice. */
  lemma EncodedTitlesAppearOnce(cfg: SnapshotConfig, layers: seq<Descriptor>, s: nat, t: nat)
    requires PlanUpTo(cfg, layers, |layers|).Some?
    requires s < t < |PlanUpTo(cfg, layers, |layers|).value.entries|
    ensures
      var entries := PlanUpTo(cfg, layers, |layers|).value.entries;
      entries[s].Encoded() && entries[t].Encoded() ==> entries[s].title != entries[t].title
  {
    PlanShape(cfg, layers, |layers|);
    var kept := Kept(cfg, layers, |layers|);
    KeptIncreases(cfg, layers, |layers|, s, t);
    KeptMembers(cfg, layers, |layers|, kept[t]);
    assert kept[t] in kept;
    var entries := PlanUpTo(cfg, layers, |layers|).value.entries;
    assert Rebuilds(cfg, layers, kept[s], entries[s]) && Rebuilds(cfg, layers, kept[t], entries[t]);
  }

  /** Some layer is the first of an encoded layer's title. */
  lemma {:induction false} FirstOfTitle(cfg: SnapshotConfig, layers: seq<Descriptor>, i: nat) returns (first: nat)
    requires i < |layers| && EncodedLayer(cfg, layers[i])
    ensures first <= i && FirstEncoded(cfg, layers, first) && layers[first].Title() == layers[i].Title()
  {
    if FirstEncoded(cfg, layers, i) {
      first := i;
    } else {
      var j :| 0 <= j < i && EncodedLayer(cfg, layers[j]) && layers[j].Title() == layers[i].Title();
      first := FirstOfTitle(cfg, layers, j);
    }
  }

  /** Every encoded layer's title has its entry. */
  lemma EveryEncodedTitleIsPlanned(cfg: SnapshotConfig, layers: seq<Descriptor>, i: nat)
    requires i < |layers| && EncodedLayer(cfg, layers[i])
    requires PlanUpTo(cfg, layers, |layers|).Some?
    ensures
      var entries := PlanUpTo(cfg, layers, |layers|).value.entries;
      exists t :: 0 <= t < |entries| && entries[t].Encoded() && entries[t].title == layers[i].Title()
  {
    PlanShape(cfg, layers, |layers|);
    var first := FirstOfTitle(cfg, layers, i);
    KeptMembers(cfg, layers, |layers|, first);
    var entries := PlanUpTo(cfg, layers, |layers|).value.entries;
    var kept := Kept(cfg, layers, |layers|);
    var t :| 0 <= t < |kept| && kept[t] == first;
    assert Rebuilds(cfg, layers, kept[t], entries[t]);
  }

  /** A validated v1 manifest plans to its layers, unchanged and in order. */
  lemma {:induction false} V1PlansToItsLayers(m: OCIManifest, cfg: SnapshotConfig, n: nat)
    requires n <= |m.layers| && Validates(m, cfg) && !IsV2(m)
    ensures
      var st := PlanUpTo(cfg, m.layers, n);
      && st.Some?
      && st.value.emitted == {}
      && |st.value.entries| == n
      && forall i :: 0 <= i < n ==>
           var title := m.layers[i].Title();
           st.value.entries[i] == LayerPlan(title, cfg.File(title), m.layers[i], None)
  {
    hide IsSnapshotLayerMediaType, IsZstdMediaType;
    if n > 0 {
      V1PlansToItsLayers(m, cfg, n - 1);
      assert LayerReadable(m.layers[n - 1], false);
    }
  }
}
