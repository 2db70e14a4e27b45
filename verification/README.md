# Snapshot transfer, verified

A Dafny model of the engine that moves VM snapshots between an export tar, an OCI registry and an
import tar: the push pipeline, the pull with its prefetching, the readers and the budget arithmetic
they rest on, and two small parser/printer pairs (agent VM names and registry-relative references).

The central results are about all runs of two concurrent protocols:

* **Round trip** (`RoundTrip`, `EndToEnd`). Whatever the options, the number and order of workers and
  fetches, the failures and the cancellations on either side, a pull that completes yields exactly the
  files that were exported, in order, with their bytes, sizes, modes and sparse data. A pull that meets
  no failure completes exactly when every file has a name, every non-empty sparse map has a positive
  size and the config text is at most 64 MiB; and such a push and such a pull always exist.
  `ExportContract` states both sides once more in terms of the export's own entries, header fields and
  records, without any of the functions that the machines accumulate with.
* **Refusals and reports** (`PullRefusal`, `PullOutcome`, `PushFailure`, `PushVerdict`). A pull refuses
  exactly the snapshots that fail one of the listed checks, before the first byte; it reports success only
  if every header, download and write went through; a push that failed or was cancelled publishes nothing.
* **Prefetching** (`Prefetch`, `PrefetchProofs`, `PullProofs`). A step machine of producer, fetches,
  consumer, drain, cancellation and two buffer pools. No take blocks, every run ends, every buffer comes
  back, memory stays inside the budget, and the result refines the sequential form.
* **Pushing** (`PushMachine`, `PushInvariant`, `PushReader`, `PushTheorems`, `PushLiveness`,
  `PushMemory`, `Publication`). A step machine of tar reader, error group, workers, pools, registry and
  publication. No take blocks, every run ends, nothing is published before everything it names is in the
  registry, the published manifest depends on the tar and the options only, and a push that meets no
  failure publishes, aborts or panics as the tar alone decides.

## How to read it

| file | contents |
|---|---|
| `Sequences`, `Integers`, `Decimal` | bytes, concatenation, sums over sequences; int64 with wrap-around; decimal text as strconv prints and parses it |
| `Manifest`, `World` | descriptors, configs, manifests, media types; digest, codec and JSON as an arbitrary record of functions |
| `Chunking`, `PushBudget`, `PullBudget` | cutting a file; worker count and prefetch window from the memory budgets |
| `SizedReader` | exact-length reader and chunk stream as classes over an adversarial body |
| `Plan` | validation of a manifest and the layer-to-file plan |
| `BufPools`, `Prefetch`, `PrefetchProofs` | the buffer free-list; the prefetch machine and its invariant; its theorems |
| `PushSpec`, `PushMachine` | what a push makes of a tar, without concurrency; the machine that does it |
| `PushInvariant`, `PushReader` | the invariant of the push machine, and its preservation by every step |
| `PushTheorems`, `PushLiveness`, `PushVerdict`, `PushFailure`, `PushMemory`, `Publication` | what the invariant means |
| `Artifact`, `PushPlan` | properties of the published artifact, and the plan a reader makes of it |
| `Pull`, `PullProofs` | the pull as a function of what its downloads did; exactness, success, refinement |
| `PullRefusal`, `PullOutcome`, `PullOptions` | what a pull refuses, what its success means, and its memory in terms of the caller's options |
| `RoundTrip`, `EndToEnd`, `Namesakes` | both sides together; tars in which files share a name |
| `ExportContract` | what is published and what comes back, in terms of the export's entries alone |
| `VMName`, `References` | the two parser/printer pairs |

A machine is a datatype of steps with `Enabled` and `Apply`; `Exec` folds them over an arbitrary
sequence of steps, so a statement about `Exec` is about every interleaving. Faults are steps like any
other: a failing download, upload, write or registry check, an upload that fails after the registry has
already stored the blob, a cancellation, another client's upload. A lemma that assumes `Inv` holds in
every reachable state, by `RunKeepsInv`.

On the pull side, everything the environment did while an entry was written is a trace: the body that
GetBlob returned, or the steps of the prefetch machine, and whether the writes to the tar went through.
`Incomplete` marks traces that are no finished execution, so they are excluded rather than counted as
failures.

## Hypotheses

They appear as `World.Lawful`, `Honest`, `PullsFrom`, `TarOk` and named predicates, nowhere else.

* The digest is injective.
* `decode(encode(x)) == x` for both encoders, and concatenated frames decode to the concatenation of
  their contents (section 3.1 of RFC 8878).
* The JSON text of a config parses back to that config, and that of a manifest to that manifest: the pull
  starts from the manifest as published.
* The registry the pull reads has lost nothing the push left there.
* A GetBlob body is digest-verified (a clean end means it was the blob of that digest), does not answer
  (0, nil) to the one-byte probe behind its expected size (`SizedReader.CheckedIsExactUnlessProbeStalls`
  shows that this is just what the size check needs), and ends once its context is cancelled
  (snapshot/snapshot.go:41), so that every started read finishes with a result.
* A tar reader delivers as many bytes as the header announces, or fails.
* For the round trip file names are distinct: `files` is keyed by name, and the last entry of a name is
  recorded for all of them. When nothing is encoded the names need not be distinct, and
  `Namesakes.UnencodedPullIsExactIff` says exactly when the tar still comes back.
* Sizes, chunk sizes and budgets are int64 values. `PushBudget.PipelineParams` and
  `PullBudget.NewChunkPipeline` show that the sums and products of the two budget solvers stay in int64;
  the MiB shift of a budget is modelled with its wrap-around.
* The encoder may return a slice larger than the buffer it was given; that growth belongs to the library
  and is a parameter of the `Encode` step.

One sum of the push does leave int64: the chunk count of an entry whose announced size is within a chunk
of the int64 limit wraps to a negative number, passes the cap on chunks, and the allocation of that many
slots panics. The model computes the count with wrap-around (`Chunking.CountInt64`) and gives the push
machine this outcome (`Crashed`); `Chunking.CountIsExactUnlessItWraps` and `PushSpec.CrashesIff` say
exactly when it happens. Uploads already under way at that moment may still take effect.

Not hypotheses but results: mode 0 comes back as 0640 and an empty sparse map is dropped
(`RoundTrip.Restored`), a sparse map without positive size stops the pull, and so does a config text
above 64 MiB, which the writer's cap of 2^20 chunks per file does not exclude.

## Model

| member | source | states |
|---|---|---|
| RoundTrip.PullIsNeverWrong | snapshot/pull.go:68-84 | any push run that published, any pull with any failures and cancellations: if the pull completes, its tar is the envelope and the exported files, exactly and in order |
| RoundTrip.FaultlessPullCompletesIff | snapshot/pull.go:68-111 | without download or write failures and cancellation, a finished pull succeeds if and only if every file is named, every sparse record is usable and the config is at most 64 MiB |
| RoundTrip.SparseRecordSurvives | snapshot/pull.go:285-302 | the sparse map and size read from a restored entry are those of the exported one, and its mode is the exported one or 0640 |
| RoundTrip.PieceFitsBuffers | snapshot/pullencoded.go:35-44 | every piece push cut decodes within the output capacity the pipeline derives from the config alone |
| RoundTrip.PlannedFits | snapshot/pullencoded.go:178-193 | every blob of a planned file is stored at its descriptor's size and decodes to its piece, within the buffers |
| RoundTrip.PlannedHeader | snapshot/pull.go:285-302 | the header exists exactly when the sparse record is usable, and is the exported one with mode 0 replaced |
| RoundTrip.ConfigComesBack | snapshot/pull.go:87-111 | an honest config body yields the pushed config or an error; a clean one yields it exactly up to 64 MiB |
| EndToEnd.PullCompletes | snapshot/pull.go:195-249 | from every published snapshot of a restorable tar there is a pull run that completes and restores it |
| EndToEnd.RoundTripHappens | snapshot/push.go:48-92 | for an acceptable and restorable tar some push run publishes and some pull run restores the tar |
| ExportContract.PulledTarInFull | snapshot/pull.go:195-249 | any push run that published, any pull that completed: the first entry is the last envelope's config object under the local name, then come exactly the exported files, in order, each with its name, size, bytes and mode (0640 for 0), and as sparse records the map as it was and the number its size text denotes |
| ExportContract.PlainSparseRecordsComeBack | snapshot/pull.go:292-300 | sparse records come back unchanged when the size was in plain decimal |
| ExportContract.OnlyWellFormedExportsArePublished | snapshot/pushpipeline.go:172-222 | in every run, what is published has an envelope and only well-formed entries: an envelope that parses; files with a size, a sparse size that denotes an int64 if there is a sparse map, and at most 2^20 chunks counted without wrap-around |
| ExportContract.ExactlyWellFormedExportsArePublished | snapshot/push.go:48-92 | a finished push without failures published if and only if the export is such a one |
| ExportContract.UnreadableSparseSizeIsRefused | snapshot/push.go:222-239 | a file with a sparse map whose size record is absent or denotes no int64 is never published |
| ExportContract.PublishedManifestInFull | snapshot/push.go:77-86 | media types, artifact type and schema version (v2 exactly when some file is compressed or split), and a stored config with the last envelope's config object and a record for exactly the exported names |
| ExportContract.ConfigRecordsTheExport | snapshot/pushpipeline.go:204-210 | a name's record has the mode, size and sparse record of its last file |
| ExportContract.PublishedLayerInFull | snapshot/pushpipeline.go:86-114 | file by file and piece by piece, each layer's type, digest, size and annotations, with the piece given by its offsets in the file and its stored form by level and chunking |
| PullRefusal.RefusedUnlessAllPasses | snapshot/pull.go:68-183 | over every manifest and honest config body, a pull goes on to write if and only if name, artifact type, config type, config size, config text, every layer's size, type, title and version, and every encoded file's record pass; otherwise it is refused |
| PullRefusal.NothingIsWrittenUnlessAllPasses | snapshot/pull.go:158-183 | whatever the config body was, nothing is written unless all of that passes |
| PullRefusal.UnknownTypeIsRefused | snapshot/pull.go:165-167 | one layer of a type push never writes makes the pull refuse, whatever the rest |
| PullOutcome.WrittenWentThrough | snapshot/pullencoded.go:114-150 | in all three forms an entry counts as written only if its header and writes went through, its downloads arrived whole at their descriptors' sizes or the prefetcher returned nil, and its bytes are as many as announced |
| PullOutcome.DoneWentThrough | snapshot/pull.go:195-249 | a pull of any manifest reports success only if that holds of every planned entry, and of envelope, close and flush |
| PullOutcome.DoneMeansAllWrote | snapshot/pullencoded.go:141-149 | so one failed write is reported, and every entry has the size its header announces |
| PullOptions.WindowByOptions | snapshot/pull.go:196-204 | in terms of concurrency and memory option, the window is the largest up to the concurrency (8 if not positive) that fits the MiB asked for (4096 if not positive) |
| PullOptions.PullMemoryByOptions | snapshot/pull.go:201-204 | in every state of every prefetched file of a pull the buffers stay within the memory the caller allowed |
| PullOptions.CapsAreTheLeastThatSuffice | snapshot/pullencoded.go:63-78 | the shared capacities are the least bounds on compressed chunks as stored, and on chunks as decoded, over all files of two or more chunks |
| PullOptions.FileWindowIsTheSmaller | snapshot/pullencoded.go:107-112 | a file of two or more chunks is prefetched with the smaller of window and chunk count |
| PullProofs.PrefetchRefinesSequential | snapshot/pullencoded.go:114-150 | if the decoded chunks total the recorded size: a successful prefetched run writes what the sequential form writes, any other run has written a prefix of it |
| PullProofs.EntryIsExact | snapshot/pullencoded.go:114-150 | an entry that is written, in any of the three forms and despite any faults, carries exactly its file |
| PullProofs.EntrySucceeds | snapshot/pull.go:227-243 | without faults an entry is written exactly when it has a header |
| PullProofs.TarIsExact | snapshot/pull.go:195-249 | any validated manifest whose files decode to their recorded sizes: a completed tar holds exactly those files in plan order |
| PullProofs.TarSucceeds | snapshot/pull.go:195-249 | without faults the tar completes exactly when every planned entry has a header |
| PullProofs.CopyIsExact | snapshot/pull.go:304-318 | a raw layer that is copied without error is its blob |
| PullProofs.SequentialIsExact | snapshot/pullencoded.go:129-142 | one decoder over all chunks of a file yields the concatenation of their contents |
| PullProofs.ReadDeliversTheBlob | snapshot/pullencoded.go:178-193 | reading a chunk through the checker succeeds only on the stored blob at the descriptor's size and yields it, and does succeed on a clean body: what the machine's read steps assume |
| PullProofs.PrefetchedIsExact | snapshot/pullencoded.go:123-149 | a prefetched run that passes streamFile's checks wrote the whole file |
| PullProofs.TarKeepsPools | snapshot/pullencoded.go:63-99 | every file of a pull starts with all buffers back in both pools |
| PullProofs.JobIsOk | snapshot/pullencoded.go:63-112 | in the pipeline sized for a plan every chunk of every prefetched file fits its buffer and the pools are as large as the window needs |
| PullProofs.ValidatedPlansAreSane | snapshot/pull.go:159-183 | the plan of a validated manifest has no negative sizes and no empty chunk list |
| PullProofs.PullMemoryWithinBudget | snapshot/pullencoded.go:75-98 | in every state of every prefetched run all pool buffers together are within the memory budget |
| Pull.StreamLayerToTar | snapshot/pull.go:304-318 | the copy through the checker computes the specified raw entry, for any buffer size |
| Pull.StreamFile | snapshot/pullencoded.go:114-150 | header, choice of form, stream and size check compute the specified result |
| Pull.WriteImportTar | snapshot/pull.go:195-249 | pipeline sizing and the entry loop compute the specified tar, stopping at the first failed download, size check or write |
| PrefetchProofs.RunKeepsInv | snapshot/pullencoded.go:152-251 | every reachable state of every interleaving satisfies the invariant on positions, endings, buffers and bytes |
| PrefetchProofs.OutstandingWithinWindow | snapshot/pullencoded.go:201-212 | at most `window` futures are sent and not finished with |
| PrefetchProofs.NoTakeBlocks | snapshot/pullencoded.go:152-176 | a fetch that wants a buffer finds one |
| PrefetchProofs.NoPutBlocks | snapshot/pushpipeline.go:356-358 | whoever holds a buffer leaves room for it in its pool |
| PrefetchProofs.ReadsStayInBounds | snapshot/pullencoded.go:184 | the slice of a chunk's stored size lies within the buffer |
| PrefetchProofs.MemoryIsBounded | snapshot/pullencoded.go:87-97 | free and held buffers together never exceed the pools at full capacity |
| PrefetchProofs.SomeStepIsEnabled | snapshot/pullencoded.go:201-251 | no deadlock: until WriteTo returns some step is enabled, and no fault is needed if all chunks are good |
| PrefetchProofs.StepDecreases | snapshot/pullencoded.go:201-251 | every step lowers the measure, also under failure and cancellation |
| PrefetchProofs.RunsEnd | snapshot/pullencoded.go:201-251 | no run is longer than twelve steps per chunk and four |
| PrefetchProofs.ReturnLeavesNothingBehind | snapshot/pullencoded.go:221-251 | when WriteTo returns for any reason, no fetch is in flight, all buffers are back and no step is left |
| PrefetchProofs.NilMeansAllThatWasSent | snapshot/pullencoded.go:221-242 | a nil result means that every chunk sent was written whole and in order |
| PrefetchProofs.NilIsCompleteUnlessCancelled | snapshot/pullencoded.go:221-242 | in every run the caller does not cancel, whatever reads, decodings and writes fail, a nil result means that the whole file was written |
| PrefetchProofs.NilIsCompleteIff | snapshot/pullencoded.go:201-212 | in every run a nil result has sent every chunk if and only if the producer never left its loop early |
| PrefetchProofs.FailuresAreReported | snapshot/pullencoded.go:224-240 | in every run, once a write or a fetch has failed before the consumer, WriteTo does not return nil |
| PrefetchProofs.OnlyVettedChunksAreWritten | snapshot/pullencoded.go:152-193 | in every run, every chunk written was read and decoded as its checks demand |
| PrefetchProofs.WrittenChunksFit | snapshot/pullencoded.go:152-193 | in every run, every chunk ready or written had a blob of exactly its descriptor's size, and its content fits the output buffer |
| PrefetchProofs.OnlyCompleteFilesPass | snapshot/pullencoded.go:146-148 | what is written is always a prefix, and passing the size check means the whole file was written |
| PrefetchProofs.CancelledWriteToReturnsNil | snapshot/pullencoded.go:206-212 | WriteTo alone returns nil on truncated output after a cancellation |
| PrefetchProofs.FaultlessRunSucceeds | snapshot/pullencoded.go:201-242 | a finished run without faults returned nil and wrote every chunk |
| PrefetchProofs.FaultlessRunCompletes | snapshot/pullencoded.go:201-242 | every run without faults can be completed without faults |
| PullBudget.ComputeBufferCaps | snapshot/pullencoded.go:35-44 | the loop computes a file's buffer needs in int64 |
| PullBudget.NewChunkPipeline | snapshot/pullencoded.go:63-99 | the sizing loop and the window arithmetic, with no int64 overflow on the way |
| PullBudget.CapsDominate | snapshot/pullencoded.go:66-74 | the shared capacities cover every prefetchable file of the plan |
| PullBudget.CapsAttained | snapshot/pullencoded.go:66-74 | and are no larger than some file needs |
| PullBudget.WindowIsLargestFit | snapshot/pullencoded.go:75-86 | the window's buffers fit the budget and no larger window up to the limit would; 0 when fewer than two fit |
| PullBudget.StrideBoundsTheCut | snapshot/pullencoded.go:318-323 | a chunk size cuts a file into at least n pieces if and only if it is below the stride recovered from size and n |
| Plan.ValidateSnapshotLayers | snapshot/pull.go:159-183 | accepts exactly the manifests whose layers are all readable and which are v2 if anything is encoded |
| Plan.ResolveEncodedFile | snapshot/pullencoded.go:299-316 | the resolution loop computes the specified descriptors or fails |
| Plan.PlanLayers | snapshot/pull.go:251-283 | the planning loop computes the specified plan |
| Plan.PlanShape | snapshot/pull.go:251-283 | the plan keeps the raw layers and the first encoded layer of each title, and each entry's chunk i is the last manifest layer with the digest the config lists at i |
| Plan.ByDigestHasTheLast | snapshot/pull.go:252-255 | among layers with one digest the index has the last |
| Plan.PlanFailsIff | snapshot/pullencoded.go:299-316 | planning fails exactly when some encoded title has no size or lists a chunk no layer carries |
| Plan.KeptMembers | snapshot/pull.go:259-281 | a layer becomes an entry exactly when it is raw or the first encoded layer of its title |
| Plan.KeptIncreases | snapshot/pull.go:259-281 | entries come in manifest order |
| Plan.EncodedTitlesAppearOnce | snapshot/pull.go:267-270 | no title is planned as an encoded file twice |
| Plan.EveryEncodedTitleIsPlanned | snapshot/pull.go:251-283 | the title of every encoded layer has its entry |
| Plan.V1PlansToItsLayers | snapshot/pull.go:251-283 | a validated v1 manifest plans to exactly its layers in order |
| SizedReader.BlobSizeChecker.Read | ociutil/ociutil.go:34-50 | each read hands over the next bytes of the specified outcome, or ends as it ends |
| SizedReader.BlobSizeChecker.Finish | ociutil/ociutil.go:52-65 | the final check passes exactly when nothing is missing and the probe sees neither data nor a fault |
| SizedReader.CopyBlobSized | ociutil/ociutil.go:73-77 | copying ends and yields the specified outcome whatever the buffer size |
| SizedReader.CheckedNeverPassesShort | ociutil/ociutil.go:34-65 | over any body the bytes are a prefix of its first `size` bytes, all of them on success |
| SizedReader.CheckedIsExactUnlessProbeStalls | ociutil/ociutil.go:34-65 | over every body: success if and only if the body has exactly `size` bytes and a clean end, or the probe meets a stall |
| SizedReader.CheckedIsExact | ociutil/ociutil.go:34-65 | hence over a body that never stalls, success means exactly `size` bytes and a clean end, and conversely |
| SizedReader.ReadFull | snapshot/pullencoded.go:184-188 | a full read takes the first bytes of the outcome and leaves the verdict to the reads after it, even when it forgets a fault |
| SizedReader.ReadChunk | snapshot/pullencoded.go:178-193 | a full read and a copy to nowhere succeed exactly when the checker's outcome does, with its bytes |
| SizedReader.StallHidesTrailingBytes | ociutil/ociutil.go:56-64 | without that promise a (0, nil) answer to the probe hides trailing data |
| SizedReader.ChunkStream.Read | snapshot/pullencoded.go:263-289 | each read hands over the next bytes of the concatenation, with at most one open body; its loop ends |
| SizedReader.ChunkStream.Close | snapshot/pullencoded.go:291-297 | no body stays open |
| SizedReader.DrainStream | snapshot/pullencoded.go:253-297 | copying a whole stream ends, yields the specified outcome and leaves nothing open |
| SizedReader.StreamedConcatenates | snapshot/pullencoded.go:263-289 | blobs that are served whole stream as their concatenation |
| SizedReader.StreamedIsExact | snapshot/pullencoded.go:263-289 | a stream that ends in EOF has read every blob whole, at its descriptor's size |
| BufPools.BufPool.constructor | snapshot/pushpipeline.go:340-346 | a new pool is full of unallocated buffers |
| BufPools.BufPool.Take | snapshot/pushpipeline.go:348-354 | the oldest free buffer, kept when large enough and reallocated at the wanted capacity otherwise |
| BufPools.BufPool.Put | snapshot/pushpipeline.go:356-358 | the buffer goes to the end of the free-list |
| PushReader.StepKeepsInv | snapshot/pushpipeline.go:123-270 | every step of reader, workers, registry, publication and environment keeps the invariant |
| PushReader.RunKeepsInv | snapshot/push.go:48-92 | every reachable state of every push run satisfies the invariant |
| PushInvariant.WorkerKeepsInv | snapshot/pushpipeline.go:87-114 | every step of an upload, failing ones included, keeps the invariant |
| PushReader.SuccessfulWaitIsComplete | snapshot/pushpipeline.go:241-254 | a wait without error means that the tar was read to its end and every task is done |
| PushReader.CollectedIsFinal | snapshot/pushpipeline.go:58-83 | the descriptor slots filled by the workers in any order are the specified ones |
| PushTheorems.HeldWithinLimit | snapshot/pushpipeline.go:142-151 | raw buffers held never exceed workers + 1, nor output buffers the running tasks |
| PushTheorems.NoTakeBlocks | snapshot/pushpipeline.go:67-68 | neither the reader nor a worker ever waits for a buffer |
| PushTheorems.WaitReturnsEveryBuffer | snapshot/pushpipeline.go:241 | after the wait both pools are full, whichever uploads failed |
| PushTheorems.SomeStepIsEnabled | snapshot/pushpipeline.go:172-241 | no deadlock: until published or aborted a step that is no fault is enabled |
| PushTheorems.StepDecreases | snapshot/pushpipeline.go:172-241 | every own step lowers the measure |
| PushTheorems.RunsEnd | snapshot/push.go:48-92 | the number of a push's own steps is bounded by its tar, whatever fails |
| PushTheorems.NothingTruncated | snapshot/pushpipeline.go:241-269 | success of the read phase means that the whole tar was read and every queued blob is in the registry |
| PushTheorems.FinalErrorIsExact | snapshot/pushpipeline.go:241-254 | the verdict is success exactly when neither read, worker nor caller failed, and a worker's failure wins over the cancellation it caused |
| PushTheorems.CrashMeansOversized | snapshot/pushpipeline.go:47-59 | in every run a panic happens only at an entry whose size is within a chunk of the int64 limit, with nothing published |
| PushTheorems.OversizedFirstEntryCrashes | snapshot/pushpipeline.go:47-59 | and a first entry of such a size makes the push panic |
| PushVerdict.RunKeepsVerdict | snapshot/pushpipeline.go:241-254 | over every run: after the wait nothing runs any more, success means that no worker failed, and an abort after a worker's failure reports it unless the reader failed by itself |
| PushVerdict.WorkerFailureIsReported | snapshot/pushpipeline.go:241-254 | a finished push in which a worker failed and the reader met no failure of its own aborts with the worker's error, even if the caller cancelled as well |
| PushFailure.FailedPushPublishesNothing | snapshot/push.go:63-86 | in every run, once a read, an upload, a registry check, the export or the config has failed, no manifest is published |
| PushFailure.CancelledPushPublishesNothing | snapshot/pushpipeline.go:249-254 | nor is one after a cancellation that came before the wait was over |
| PushFailure.CancelledPushStartsNothingMore | snapshot/pushpipeline.go:174-178 | once a worker has failed or the caller has cancelled, the reader starts at most one more task |
| PushFailure.NothingIsUploadedAgain | snapshot/push.go:135-150 | in every run, what is uploaded was in the registry neither before the push nor when it was checked |
| PushTheorems.PublicationIsDeterministic | snapshot/push.go:48-92 | two runs over one tar with the same level and chunk size publish the same manifest, timestamps and caller annotations aside |
| PushLiveness.UndisturbedPushEndsAsTheTarDecides | snapshot/push.go:48-92 | a finished push without failures published if and only if every entry is acceptable and the envelope was there, panicked if and only if its first bad entry makes the chunk count wrap, and aborted otherwise |
| PushLiveness.OneOfThree | snapshot/pushpipeline.go:172-239 | every tar is acceptable, refused or fatal, and only one of them |
| PushLiveness.UndisturbedPushCompletes | snapshot/push.go:48-92 | every run without failures can be completed without failures |
| PushMemory.PushMemoryWithinBudget | snapshot/pushpipeline.go:291-316 | in every state of every run the raw buffers take at most half the solved budget, and both pools fit it unless an encoding outgrew its buffer |
| PushMemory.PushMemoryByOptions | snapshot/pushpipeline.go:291-316 | the same bound in the MiB the caller asked for, 9216 if not positive |
| PushBudget.OptionsDecide | snapshot/pushpipeline.go:291-316 | what chunk size, memory and concurrency options lead to: when they are rejected, the chunk size in bytes, and the worker count |
| PushBudget.OrdinaryOptions | snapshot/pushpipeline.go:304-307 | a memory option within 2^43 MiB stands for its MiB, and for the default when not positive |
| PushBudget.PipelineParams | snapshot/pushpipeline.go:291-316 | accepts and rejects as specified, with no int64 overflow on the way |
| PushBudget.LargestWorkersFit | snapshot/pushpipeline.go:308-315 | at least one worker, buffers within the budget, and no larger count up to the request would fit |
| PushBudget.SolutionIsUnique | snapshot/pushpipeline.go:291-316 | the promise determines the answer |
| PushSpec.AssembleGroups | snapshot/pushpipeline.go:256-269 | the assembly loop computes the specified layers and chunk lists |
| Chunking.CutEntry | snapshot/pushpipeline.go:48-82 | an entry panics exactly when its count wraps, is refused exactly when it needs too many chunks, and else is cut into the specified pieces, in int64 arithmetic |
| Chunking.CountIsExactUnlessItWraps | snapshot/pushpipeline.go:48 | for the chunk sizes push accepts, the computed count is the number of chunks if and only if the size is at most the int64 limit less a chunk plus one, and negative otherwise |
| Chunking.LargestSizeWraps | snapshot/pushpipeline.go:48 | a size at which the count is wrong |
| PushSpec.CrashesIff | snapshot/pushpipeline.go:212-219 | a header panics exactly when chunking is on, its size is that large and its sparse record is sane |
| Chunking.CutAt | snapshot/pushpipeline.go:60-72 | piece i holds the bytes from i chunk sizes on |
| Chunking.CutLosesNothing | snapshot/pushpipeline.go:60-72 | the pieces concatenate to the file |
| Chunking.CutIsUniform | snapshot/pushpipeline.go:65-66 | no piece is empty, and every piece but the last has the chunk size |
| Publication.PublishedBlobsArePresent | snapshot/push.go:48-92 | in every reachable state a published manifest has its config and every layer in the registry with matching digest and size |
| Publication.ChunkListIsTheFile | snapshot/pushpipeline.go:256-269 | the chunk list of a split file lists, from the wait on, in order the stored forms of consecutive pieces that make up the file, and the registry has them |
| Artifact.LayersAreTasks | snapshot/pushpipeline.go:256-258 | one layer per blob, in tar order and chunk order |
| Artifact.ConfigRecordsFile | snapshot/pushpipeline.go:259-267 | the config records every file under its name, with its digests when there are several |
| Artifact.LastOfNameIsRecorded | snapshot/pushpipeline.go:204-210 | of several entries with one name the last is recorded |
| Namesakes.UnencodedPullIsExactIff | snapshot/pull.go:251-302 | for any push with nothing encoded, names shared or not, a completed pull yields exactly the exported files if and only if the files of each name agree on restored mode and sparse record |
| Namesakes.DisagreeingNamesakesCollide | snapshot/pushpipeline.go:204-210 | and without that agreement some pull completes with another tar |
| Artifact.MarkerAgrees | snapshot/push.go:215-220 | the v2 marker is set exactly when some layer is zstd or some file has a chunk list |
| Artifact.PublishedManifestIsSnapshot | manifest/types.go:108-127 | every published manifest classifies as a snapshot |
| Artifact.PublishedManifestValidates | snapshot/pull.go:159-183 | a published manifest passes validation exactly when every file has a name |
| PushPlan.PushPlans | snapshot/pull.go:251-283 | a published manifest plans to the files of the tar in order, each with its own blobs as chunks |
| Manifest.MediaTypesOfKnownNames | manifest/media.go:55-61 | the types of the four known file names |
| Manifest.MediaTypeOfDiskImages | manifest/media.go:95-96 | qcow2 files, overlay.qcow2 included |
| Manifest.MediaTypeOfRawDisks | manifest/media.go:97-98 | raw files |
| Manifest.MediaTypeOfOthers | manifest/media.go:89-101 | every other name is a byte stream |
| Manifest.ZstdTypes | manifest/media.go:63-71 | compressed types are exactly those that end in "+zstd" |
| Manifest.OtherKinds | manifest/types.go:108-127 | what makes a manifest a cloud image, a container image, an image index or unknown |
| Manifest.SnapshotsByArtifactType | manifest/types.go:108-127 | a manifest is a snapshot exactly by its two artifact types |
| Manifest.StripZstdUndoesZstdMediaType | manifest/media.go:63-76 | stripping undoes the suffix |
| Manifest.WrittenTypesAreAccepted | manifest/media.go:89-101 | what push writes is accepted, and the suffix tells whether it was compressed |
| Manifest.AllowlistIsWhatPushWrites | manifest/media.go:78-87 | the reader's allowlist is exactly the types push can write |
| VMName.PrintedSlotIsReadBack | meta/vmname.go:36-48 | the slot of a printed agent name is read back, dotted sets included |
| VMName.SlotOfNameIsExact | meta/vmname.go:36-48 | for every name and hash: the answer is a slot exactly when that slot prints the name, and never below -1 |
| VMName.NameText | meta/vmname.go:25-29 | the text of a name: prefix, namespace, pod with its dots as dashes, hash of the pod as given |
| VMName.NamesHaveNoDots | meta/vmname.go:25-29 | names are dot-free |
| VMName.PrefixText | meta/vmname.go:31-34 | the text of the prefix |
| VMName.SlotText | meta/vmname.go:15-18 | a slot's name is its pod's, and starts with the prefix |
| VMName.SlotNamesAreDistinct | meta/vmname.go:15-29 | two slots of a set never share a name, even when hashes collide |
| References.RepoIsJoinedWords | ociutil/ociutil.go:15 | the repository pattern accepts exactly words of lower-case letters and digits joined by '/', '.', '_', '__' or dashes |
| References.AcceptedForms | ociutil/ociutil.go:90-97 | exactly repo, repo:tag and repo@digest are accepted |
| References.WordsAre | ociutil/ociutil.go:15 | the alphabet of repository words |
| References.TagsAre | ociutil/ociutil.go:16 | the alphabet, length and first character of tags |
| References.DigestsAre | ociutil/ociutil.go:17 | the two digest forms |
| References.ParseRefCuts | ociutil/ociutil.go:79-88 | on every text: a cut at the first '@' comes first, then one at the first ':', and what cannot be cut is a name tagged latest |
| References.JoinUndoesParse | oci/oci.go:147-158 | joining what ParseRef split gives the reference back, up to the default tag |
| References.ColonTellsDigestFromTag | oci/oci.go:147-152 | a digest has a colon and a tag has none |
| Decimal.ParseAcceptsExactly | snapshot/push.go:233-237 | a text parses to n exactly when n is an int64 and the text is its decimal notation, leading zeros and a sign allowed |
| Decimal.DecimalNotation | snapshot/pull.go:298 | what decimal notation is, digit by digit |
| Decimal.ParseOfFormat | snapshot/push.go:233-237 | parsing undoes printing on all of int64 |

## Left out

- The zstd codec, SHA-256, JSON and the tar byte format: third-party or standard-library code, taken as functions with the laws above; a tar is a sequence of entries, and a header field the tar writer cannot represent is not modelled.
- The decoder's window-size limit: a frame is assumed to decode whenever its content fits the output buffer.
- The registry client, HTTP transport, authentication and upload sessions: the registry is a map from digest to bytes with fallible operations, and nothing is deleted from it.
- Image indexes: the pull starts from the manifest that `pickIndexChild` would select, since choosing the first linux/amd64 child adds only an easy member.
- The envelope's fields: the exported config object is opaque text whose name is replaced when it is restored, and configs written before that object was kept, or with an object that does not parse, are not modelled.
- Manifest annotations, creation timestamps, progress callbacks, error texts and modification times: no effect on the restored bytes.
- Temporary files of the spooled uploads: a spool either holds the whole entry or the upload fails.
- Pull.StreamFile: the prefetched form takes the recorded steps of the machine as an input, since goroutines have no sequential form; the tar writer's own refusal of surplus bytes is left to the size check, which fails the file as well.
- Namesakes.UnencodedPullIsExactIff: says nothing of shared names when some file is compressed or chunked, where an encoded title is planned only once and the round trip assumes distinct names.
- PushMemory.PushMemoryWithinBudget: does not bound an output buffer that EncodeAll itself has reallocated, because that allocation is the library's.
- Channels, goroutines and pools of both protocols are state machines over values rather than shared objects; the free-list is also given as a class, `BufPools.BufPool`.
- The parts of the repository for Kubernetes, HTTP serving, logging, API types and cloud images: bootstrap code and field-by-field copies.
