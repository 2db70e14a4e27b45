/** Which snapshots a pull refuses before it writes the first byte: exactly those that fail one of these checks. */
module PullRefusal {
  import opened Sequences
  import opened Manifest
  import opened World
  import opened Plan
  import opened SizedReader
  import opened Pull
  import opened PullProofs

  const SNAPSHOT_V1 := "application/vnd.cocoonstack.snapshot.v1+json"
  const SNAPSHOT_V2 := "application/vnd.cocoonstack.snapshot.v2+json"
  const SNAPSHOT_CONFIG := "application/vnd.cocoonstack.snapshot.config.v1+json"
  const TITLE := "org.opencontainers.image.title"

  ghost predicate Compressed(layer: Descriptor) {
    exists raw: string :: layer.mediaType == raw + "+zstd"
  }

  /** The type of some file a push could have written, as it is or compressed. */
  ghost predicate KnownType(layer: Descriptor) {
    exists name: string ::
      layer.mediaType == MediaTypeForCocoonFile(name) || layer.mediaType == MediaTypeForCocoonFile(name) + "+zstd"
  }

  ghost predicate LayerPasses(m: OCIManifest, layer: Descriptor) {
    && layer.size >= 0
    && KnownType(layer)
    && TITLE in layer.annotations && layer.annotations[TITLE] != ""
    && (Compressed(layer) ==> m.artifactType == SNAPSHOT_V2)
  }

  function Record(cfg: SnapshotConfig, layer: Descriptor): SnapshotFile {
    var title := if TITLE in layer.annotations then layer.annotations[TITLE] else "";
    if title in cfg.files then cfg.files[title] else SnapshotFile(0, "", 0, 0, [])
  }

  /** The config says how to rebuild an encoded layer's file: a size, and chunks that the manifest has. */
  ghost predicate Rebuildable(m: OCIManifest, cfg: SnapshotConfig, layer: Descriptor) {
    Compressed(layer) || Record(cfg, layer).chunks != [] ==>
      && Record(cfg, layer).size > 0
      && forall c :: 0 <= c < |Record(cfg, layer).chunks| ==>
           exists j :: 0 <= j < |m.layers| && m.layers[j].digest == Record(cfg, layer).chunks[c]
  }

  /** The config blob is one: of the right type, at most 64 MiB by its descriptor and in fact, and parses. */
  ghost predicate ConfigPasses(req: Request, m: OCIManifest, config: Option<Script>, cfg: SnapshotConfig) {
    && m.config.mediaType == SNAPSHOT_CONFIG && m.config.size <= 67108864
    && config.Some? && Content(config.value).end.Eof? && |Content(config.value).bytes| <= 67108864
    && req.w.parseConfig(Content(config.value).bytes) == Some(cfg)
  }

  /** All that a pull checks before the first byte. */
  ghost predicate Passes(req: Request, m: OCIManifest, config: Option<Script>, cfg: SnapshotConfig) {
    && req.opts.name != ""
    && (m.artifactType == SNAPSHOT_V1 || m.artifactType == SNAPSHOT_V2)
    && ConfigPasses(req, m, config, cfg)
    && (forall i :: 0 <= i < |m.layers| ==> LayerPasses(m, m.layers[i]) && Rebuildable(m, cfg, m.layers[i]))
    && (m.artifactType == SNAPSHOT_V1 ==> forall name :: name in cfg.files ==> cfg.files[name].chunks == [])
  }

  // ----- The checks in the code's own terms -----

  lemma KnownTypesAreAllowed(layer: Descriptor)
    ensures KnownType(layer) <==> IsSnapshotLayerMediaType(layer.mediaType)
    ensures Compressed(layer) <==> IsZstdMediaType(layer.mediaType)
  {
    hide MediaTypeForCocoonFile, IsSnapshotLayerMediaType, IsZstdMediaType;
    AllowlistIsWhatPushWrites(layer.mediaType);
    ZstdTypes(layer.mediaType);
  }

  lemma LayerPassesIfReadable(m: OCIManifest, layer: Descriptor)
    requires m.artifactType == SNAPSHOT_V1 || m.artifactType == SNAPSHOT_V2
    ensures LayerPasses(m, layer) <==> LayerReadable(layer, IsV2(m))
  {
    hide KnownType, Compressed, IsSnapshotLayerMediaType, IsZstdMediaType;
    KnownTypesAreAllowed(layer);
    TitleIsTheAnnotation(layer);
  }

  lemma RecordIsTheFile(cfg: SnapshotConfig, layer: Descriptor)
    ensures Record(cfg, layer) == cfg.File(layer.Title())
  {
  }

  lemma RebuildableIfResolvable(m: OCIManifest, cfg: SnapshotConfig, i: nat)
    requires i < |m.layers|
    ensures Rebuildable(m, cfg, m.layers[i]) <==> !Unresolvable(cfg, m.layers, i)
  {
    hide KnownType, Compressed, IsSnapshotLayerMediaType, IsZstdMediaType, Record;
    KnownTypesAreAllowed(m.layers[i]);
    RecordIsTheFile(cfg, m.layers[i]);
  }

  lemma ConfigPassesIfFetched(req: Request, m: OCIManifest, config: Option<Script>, cfg: SnapshotConfig)
    ensures ConfigPasses(req, m, config, cfg) <==> FetchConfig(req, m.config, config) == Some(cfg)
  {
    if config.Some? {
      ContentEnds(config.value);
    }
  }

  lemma LayersPassIfValid(m: OCIManifest, cfg: SnapshotConfig)
    requires m.artifactType == SNAPSHOT_V1 || m.artifactType == SNAPSHOT_V2
    ensures Validates(m, cfg) <==>
      && (forall i :: 0 <= i < |m.layers| ==> LayerPasses(m, m.layers[i]))
      && (m.artifactType == SNAPSHOT_V1 ==> forall name :: name in cfg.files ==> cfg.files[name].chunks == [])
  {
    hide LayerPasses, LayerReadable;
    assert SNAPSHOT_V1[38] != SNAPSHOT_V2[38];
    forall i | 0 <= i < |m.layers|
      ensures LayerPasses(m, m.layers[i]) <==> LayerReadable(m.layers[i], IsV2(m))
    {
      LayerPassesIfReadable(m, m.layers[i]);
    }
  }

  /** The plan exists exactly when every layer's file can be rebuilt; all layers of a title share its record. */
  lemma PlanExistsIf(m: OCIManifest, cfg: SnapshotConfig)
    ensures PlanOf(m, cfg).Some? <==> forall i :: 0 <= i < |m.layers| ==> Rebuildable(m, cfg, m.layers[i])
  {
    hide Rebuildable, EncodedLayer, FirstEncoded;
    PlanFailsIff(cfg, m.layers, |m.layers|);
    forall i | 0 <= i < |m.layers|
      ensures Rebuildable(m, cfg, m.layers[i]) <==> !Unresolvable(cfg, m.layers, i)
    {
      RebuildableIfResolvable(m, cfg, i);
    }
    forall i | 0 <= i < |m.layers| && Unresolvable(cfg, m.layers, i)
      ensures exists j :: 0 <= j < |m.layers| && FirstEncoded(cfg, m.layers, j) && Unresolvable(cfg, m.layers, j)
    {
      var j := FirstOfTitle(cfg, m.layers, i);
      FirstIsEncoded(cfg, m.layers, j);
    }
  }

  lemma FirstIsEncoded(cfg: SnapshotConfig, layers: seq<Descriptor>, i: nat)
    requires i < |layers| && FirstEncoded(cfg, layers, i)
    ensures EncodedLayer(cfg, layers[i])
  {
  }

  // ----- The theorem -----

  /**
   * Over every manifest and every honest config body: the pull goes on to write exactly when all checks
   * pass, and is refused before the first byte otherwise, whatever its layers' downloads would have done.
   */
  lemma RefusedUnlessAllPasses(req: Request, m: OCIManifest, config: Option<Script>, traces: seq<Trace>, framed: bool)
    requires Honest(req.store, m.config, config)
    ensures PullParsed(req, m, config, traces, framed).Refused? <==> !exists cfg :: Passes(req, m, config, cfg)
  {
    hide Validates, PlanOf, FetchConfig, TarUpTo, Honest, ClassifyParsed, ConfigPasses, LayerPasses, Rebuildable;
    SnapshotsByArtifactType(m);
    forall cfg: SnapshotConfig
      ensures ConfigPasses(req, m, config, cfg) <==> FetchConfig(req, m.config, config) == Some(cfg)
    {
      ConfigPassesIfFetched(req, m, config, cfg);
    }
    if FetchConfig(req, m.config, config).Some? && ClassifyParsed(m) == KindSnapshot {
      var cfg := FetchConfig(req, m.config, config).value;
      LayersPassIfValid(m, cfg);
      PlanExistsIf(m, cfg);
      assert Passes(req, m, config, cfg) <==> req.opts.name != "" && Validates(m, cfg) && PlanOf(m, cfg).Some?;
    }
  }

  /** Nothing is written, or even downloaded but the config, unless everything passes: whatever the config body is. */
  lemma NothingIsWrittenUnlessAllPasses(req: Request, m: OCIManifest, config: Option<Script>, traces: seq<Trace>, framed: bool)
    requires PullParsed(req, m, config, traces, framed).Done? || PullParsed(req, m, config, traces, framed).Broken?
    ensures exists cfg :: Passes(req, m, config, cfg)
  {
    hide Validates, PlanOf, FetchConfig, TarUpTo, ClassifyParsed, Passes, Honest;
    RefusedUnlessAllPasses(req, m, config, traces, framed);
  }

  /** One layer of an unknown type is enough, whatever the rest. */
  lemma UnknownTypeIsRefused(req: Request, m: OCIManifest, config: Option<Script>, traces: seq<Trace>, framed: bool, i: nat)
    requires Honest(req.store, m.config, config) && i < |m.layers| && !KnownType(m.layers[i])
    ensures PullParsed(req, m, config, traces, framed).Refused?
  {
    hide PullParsed, KnownType, Rebuildable, ConfigPasses;
    RefusedUnlessAllPasses(req, m, config, traces, framed);
  }
}
