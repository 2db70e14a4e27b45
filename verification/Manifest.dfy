/** Manifest types, the layer media-type vocabulary and artifact classification. */
module Manifest {
  import opened Sequences

  const MEDIA_TYPE_OCI_INDEX := "application/vnd.oci.image.index.v1+json"
  const MEDIA_TYPE_DOCKER_INDEX := "application/vnd.docker.distribution.manifest.list.v2+json"
  const MEDIA_TYPE_OCI_MANIFEST := "application/vnd.oci.image.manifest.v1+json"
  const MEDIA_TYPE_OCI_IMAGE_CONFIG := "application/vnd.oci.image.config.v1+json"
  const MEDIA_TYPE_DOCKER_CONFIG := "application/vnd.docker.container.image.v1+json"
  const ARTIFACT_TYPE_OS_IMAGE := "application/vnd.cocoonstack.os-image.v1+json"
  const ARTIFACT_TYPE_WINDOWS_IMAGE := "application/vnd.cocoonstack.windows-image.v1+json"
  const ARTIFACT_TYPE_SNAPSHOT := "application/vnd.cocoonstack.snapshot.v1+json"
  const ARTIFACT_TYPE_SNAPSHOT_V2 := "application/vnd.cocoonstack.snapshot.v2+json"
  const MEDIA_TYPE_SNAPSHOT_CONFIG := "application/vnd.cocoonstack.snapshot.config.v1+json"
  const MEDIA_TYPE_DISK_QCOW2 := "application/vnd.cocoonstack.disk.qcow2"
  const MEDIA_TYPE_DISK_RAW := "application/vnd.cocoonstack.disk.raw"
  const MEDIA_TYPE_VM_CONFIG := "application/vnd.cocoonstack.vm.config+json"
  const MEDIA_TYPE_VM_STATE := "application/vnd.cocoonstack.vm.state+json"
  const MEDIA_TYPE_VM_MEMORY := "application/vnd.cocoonstack.vm.memory"
  const MEDIA_TYPE_VM_CIDATA := "application/vnd.cocoonstack.vm.cidata"
  const MEDIA_TYPE_GENERIC := "application/octet-stream"
  const ANNOTATION_TITLE := "org.opencontainers.image.title"
  const ANNOTATION_CHUNK_INDEX := "cocoonstack.chunk.index"
  const ANNOTATION_CHUNK_COUNT := "cocoonstack.chunk.count"
  const ZSTD_SUFFIX := "+zstd"

  datatype Kind = KindUnknown | KindContainerImage | KindCloudImage | KindSnapshot | KindImageIndex

  datatype Descriptor = Descriptor(mediaType: string, digest: string, size: int, annotations: map<string, string>) {
    function Title(): string {
      if ANNOTATION_TITLE in annotations then annotations[ANNOTATION_TITLE] else ""
    }
  }

  datatype SnapshotFile = SnapshotFile(mode: int, sparseMap: string, sparseSize: int, size: int, chunks: seq<string>)

  /** What a Go map lookup yields for an absent key. */
  const NO_FILE := SnapshotFile(0, "", 0, 0, [])

  /** `engine` is the export's own config object, carried as opaque text. */
  datatype SnapshotConfig = SnapshotConfig(schemaVersion: string, engine: Bytes, files: map<string, SnapshotFile>) {
    function File(title: string): SnapshotFile {
      if title in files then files[title] else NO_FILE
    }
  }

  datatype OCIManifest = OCIManifest(mediaType: string, artifactType: string, config: Descriptor, layers: seq<Descriptor>)

  predicate HasSuffix(s: string, suffix: string) {
    |suffix| <= |s| && s[|s| - |suffix|..] == suffix
  }

  function ZstdMediaType(mt: string): string {
    mt + ZSTD_SUFFIX
  }

  predicate IsZstdMediaType(mt: string) {
    HasSuffix(mt, ZSTD_SUFFIX)
  }

  function StripZstd(mt: string): string {
    if HasSuffix(mt, ZSTD_SUFFIX) then mt[..|mt| - |ZSTD_SUFFIX|] else mt
  }

  /** The raw types a snapshot layer may have. */
  const RAW_LAYER_TYPES := {
    MEDIA_TYPE_VM_CONFIG, MEDIA_TYPE_VM_STATE, MEDIA_TYPE_VM_MEMORY, MEDIA_TYPE_VM_CIDATA,
    MEDIA_TYPE_DISK_QCOW2, MEDIA_TYPE_DISK_RAW, MEDIA_TYPE_GENERIC
  }

  predicate IsRawLayerMediaType(mt: string) {
    mt in RAW_LAYER_TYPES
  }

  predicate IsSnapshotLayerMediaType(mt: string) {
    IsRawLayerMediaType(StripZstd(mt))
  }

  function MediaTypeForCocoonFile(name: string): string {
    if name == "config.json" then MEDIA_TYPE_VM_CONFIG
    else if name == "state.json" then MEDIA_TYPE_VM_STATE
    else if name == "memory-ranges" then MEDIA_TYPE_VM_MEMORY
    else if name == "cidata.img" then MEDIA_TYPE_VM_CIDATA
    else if name == "overlay.qcow2" then MEDIA_TYPE_DISK_QCOW2
    else if HasSuffix(name, ".qcow2") then MEDIA_TYPE_DISK_QCOW2
    else if HasSuffix(name, ".raw") then MEDIA_TYPE_DISK_RAW
    else MEDIA_TYPE_GENERIC
  }

  function ClassifyFields(artifactType: string, configMediaType: string, topMediaType: string): Kind {
    if artifactType == ARTIFACT_TYPE_OS_IMAGE || artifactType == ARTIFACT_TYPE_WINDOWS_IMAGE then KindCloudImage
    else if artifactType == ARTIFACT_TYPE_SNAPSHOT || artifactType == ARTIFACT_TYPE_SNAPSHOT_V2 then KindSnapshot
    else if configMediaType == MEDIA_TYPE_OCI_IMAGE_CONFIG || configMediaType == MEDIA_TYPE_DOCKER_CONFIG then KindContainerImage
    else if topMediaType == MEDIA_TYPE_OCI_INDEX || topMediaType == MEDIA_TYPE_DOCKER_INDEX then KindImageIndex
    else KindUnknown
  }

  function ClassifyParsed(m: OCIManifest): Kind {
    ClassifyFields(m.artifactType, m.config.mediaType, m.mediaType)
  }

  lemma StripZstdUndoesZstdMediaType(mt: string)
    ensures IsZstdMediaType(ZstdMediaType(mt)) && StripZstd(ZstdMediaType(mt)) == mt
  {
    assert ZstdMediaType(mt)[|mt|..] == ZSTD_SUFFIX;
    assert ZstdMediaType(mt)[..|mt|] == mt;
  }

  lemma ZstdSuffixOfStrip(mt: string)
    requires IsZstdMediaType(mt)
    ensures mt == ZstdMediaType(StripZstd(mt))
  {
  }

  /** No raw layer type ends in the zstd suffix: its last character is never 'd'. */
  lemma RawLayerTypesAreNotZstd(mt: string)
    requires IsRawLayerMediaType(mt)
    ensures !IsZstdMediaType(mt)
  {
    assert MEDIA_TYPE_VM_CONFIG[|MEDIA_TYPE_VM_CONFIG| - 1] != 'd';
    assert MEDIA_TYPE_VM_STATE[|MEDIA_TYPE_VM_STATE| - 1] != 'd';
    assert MEDIA_TYPE_VM_MEMORY[|MEDIA_TYPE_VM_MEMORY| - 1] != 'd';
    assert MEDIA_TYPE_VM_CIDATA[|MEDIA_TYPE_VM_CIDATA| - 1] != 'd';
    assert MEDIA_TYPE_DISK_QCOW2[|MEDIA_TYPE_DISK_QCOW2| - 1] != 'd';
    assert MEDIA_TYPE_DISK_RAW[|MEDIA_TYPE_DISK_RAW| - 1] != 'd';
    assert MEDIA_TYPE_GENERIC[|MEDIA_TYPE_GENERIC| - 1] != 'd';
  }

  /** A file whose media type is any wanted raw layer type. */
  function FileNameFor(mt: string): string {
    if mt == MEDIA_TYPE_VM_CONFIG then "config.json"
    else if mt == MEDIA_TYPE_VM_STATE then "state.json"
    else if mt == MEDIA_TYPE_VM_MEMORY then "memory-ranges"
    else if mt == MEDIA_TYPE_VM_CIDATA then "cidata.img"
    else if mt == MEDIA_TYPE_DISK_QCOW2 then "overlay.qcow2"
    else if mt == MEDIA_TYPE_DISK_RAW then ".raw"
    else "x"
  }

  lemma FileNameForIsRight(mt: string)
    requires IsRawLayerMediaType(mt)
    ensures MediaTypeForCocoonFile(FileNameFor(mt)) == mt
  {
  }

  /** The reader's allowlist is exactly what the writer can produce: a file's own type, or its zstd variant. */
  lemma AllowlistIsWhatPushWrites(mt: string)
    ensures IsSnapshotLayerMediaType(mt) <==>
      exists name: string ::
        mt == MediaTypeForCocoonFile(name) || mt == ZstdMediaType(MediaTypeForCocoonFile(name))
  {
    if IsSnapshotLayerMediaType(mt) {
      var raw := StripZstd(mt);
      FileNameForIsRight(raw);
      if IsZstdMediaType(mt) {
        ZstdSuffixOfStrip(mt);
      }
      assert mt == MediaTypeForCocoonFile(FileNameFor(raw)) || mt == ZstdMediaType(MediaTypeForCocoonFile(FileNameFor(raw)));
    }
    forall name: string | mt == MediaTypeForCocoonFile(name) || mt == ZstdMediaType(MediaTypeForCocoonFile(name))
      ensures IsSnapshotLayerMediaType(mt)
    {
      WrittenTypesAreAccepted(name);
    }
  }

  /** What push writes for a file is accepted, and the suffix alone tells whether it was compressed. */
  lemma WrittenTypesAreAccepted(name: string)
    ensures
      var mt := MediaTypeForCocoonFile(name);
      && IsSnapshotLayerMediaType(mt) && !IsZstdMediaType(mt)
      && IsSnapshotLayerMediaType(ZstdMediaType(mt)) && IsZstdMediaType(ZstdMediaType(mt))
  {
    var mt := MediaTypeForCocoonFile(name);
    RawLayerTypesAreNotZstd(mt);
    StripZstdUndoesZstdMediaType(mt);
  }

  // ----- The vocabulary, spelt out -----

  /** Which media type goes with which of the known file names. */
  lemma MediaTypesOfKnownNames()
    ensures MediaTypeForCocoonFile("config.json") == "application/vnd.cocoonstack.vm.config+json"
    ensures MediaTypeForCocoonFile("state.json") == "application/vnd.cocoonstack.vm.state+json"
    ensures MediaTypeForCocoonFile("memory-ranges") == "application/vnd.cocoonstack.vm.memory"
    ensures MediaTypeForCocoonFile("cidata.img") == "application/vnd.cocoonstack.vm.cidata"
  {
    assert "state.json"[0] != "config.json"[0] && "memory-ranges"[0] != "config.json"[0] && "cidata.img"[1] != "config.json"[1];
    assert "memory-ranges"[0] != "state.json"[0] && "cidata.img"[0] != "state.json"[0] && "cidata.img"[0] != "memory-ranges"[0];
  }

  lemma MediaTypeOfDiskImages(stem: string)
    ensures MediaTypeForCocoonFile(stem + ".qcow2") == "application/vnd.cocoonstack.disk.qcow2"
  {
    var name := stem + ".qcow2";
    assert name[|stem|..] == ".qcow2" && name[|name| - 1] == '2';
  }

  lemma MediaTypeOfRawDisks(stem: string)
    ensures MediaTypeForCocoonFile(stem + ".raw") == "application/vnd.cocoonstack.disk.raw"
  {
    var name := stem + ".raw";
    assert name[|stem|..] == ".raw" && name[|name| - 1] == 'w';
    assert ".qcow2"[5] == '2';
  }

  lemma SuffixSplits(s: string, suffix: string)
    ensures HasSuffix(s, suffix) <==> exists stem: string :: s == stem + suffix
  {
    if HasSuffix(s, suffix) {
      assert s == s[..|s| - |suffix|] + suffix;
    }
    if stem: string :| s == stem + suffix {
      assert s[|stem|..] == suffix;
    }
  }

  /** Every other file is a byte stream. */
  lemma MediaTypeOfOthers(name: string)
    requires name != "config.json" && name != "state.json" && name != "memory-ranges" && name != "cidata.img"
    requires forall stem: string :: name != stem + ".qcow2" && name != stem + ".raw"
    ensures MediaTypeForCocoonFile(name) == "application/octet-stream"
  {
    SuffixSplits(name, ".qcow2");
    SuffixSplits(name, ".raw");
    assert "overlay.qcow2" == "overlay" + ".qcow2";
  }

  /** A type is compressed exactly when it ends in "+zstd". */
  lemma ZstdTypes(mt: string)
    ensures IsZstdMediaType(mt) <==> exists raw: string :: mt == raw + "+zstd"
    ensures ZstdMediaType(mt) == mt + "+zstd"
    ensures !IsZstdMediaType(mt) ==> StripZstd(mt) == mt
  {
    SuffixSplits(mt, "+zstd");
  }

  /** What makes a manifest a snapshot is its artifact type alone. */
  lemma SnapshotsByArtifactType(m: OCIManifest)
    ensures ClassifyParsed(m) == KindSnapshot <==>
      || m.artifactType == "application/vnd.cocoonstack.snapshot.v1+json"
      || m.artifactType == "application/vnd.cocoonstack.snapshot.v2+json"
  {
    assert ARTIFACT_TYPE_SNAPSHOT[28] != ARTIFACT_TYPE_OS_IMAGE[28] && ARTIFACT_TYPE_SNAPSHOT[28] != ARTIFACT_TYPE_WINDOWS_IMAGE[28];
    assert ARTIFACT_TYPE_SNAPSHOT_V2[28] != ARTIFACT_TYPE_OS_IMAGE[28] && ARTIFACT_TYPE_SNAPSHOT_V2[28] != ARTIFACT_TYPE_WINDOWS_IMAGE[28];
  }

  /** The other kinds: by artifact type, then by config type, then by the manifest's own type. */
  lemma OtherKinds(artifact: string, config: string, top: string)
    ensures ClassifyFields(artifact, config, top) == KindCloudImage <==>
      || artifact == "application/vnd.cocoonstack.os-image.v1+json"
      || artifact == "application/vnd.cocoonstack.windows-image.v1+json"
    ensures
      var kind := ClassifyFields(artifact, config, top);
      kind != KindCloudImage && kind != KindSnapshot ==>
        && (kind == KindContainerImage <==>
             || config == "application/vnd.oci.image.config.v1+json"
             || config == "application/vnd.docker.container.image.v1+json")
        && (kind == KindImageIndex ==>
             || top == "application/vnd.oci.image.index.v1+json"
             || top == "application/vnd.docker.distribution.manifest.list.v2+json")
        && (kind == KindUnknown ==>
             && top != "application/vnd.oci.image.index.v1+json"
             && top != "application/vnd.docker.distribution.manifest.list.v2+json")
  {
  }

  /** The title of a descriptor is its title annotation, empty if there is none. */
  lemma TitleIsTheAnnotation(d: Descriptor)
    ensures d.Title() != "" <==>
      "org.opencontainers.image.title" in d.annotations && d.annotations["org.opencontainers.image.title"] != ""
    ensures d.Title() != "" ==> d.Title() == d.annotations["org.opencontainers.image.title"]
  {
  }
}
