# Verified model of the paper-break edge service

A Dafny model of the parts of the edge service whose correctness depends on long runs, failures in the
middle of an operation, or several threads, together with proofs of what these parts promise.

**Configuration.** A configuration is stored under a revision that every change has to name. A change is
checked, offered to the components that run with it, written to disk and committed; each step can fail
and is then undone. Some sections take effect at once, others wait for a restart, so the program keeps
two values: what is stored and what is in effect. `JsonTree`, `ConfigModel`, `ConfigParser`,
`ConfigPrinter` and `ConfigMigration` model the file format with its migrations from schema 2 on;
`ConfigPaths` and `ConfigMemory` the comparison of two configurations and the two values in memory;
`ConfigEffective` whether what is in effect is itself valid; `HistoryNames` and `ConfigDisk` the
directory of superseded configurations; `ConfigAppliers` the components; `ConfigCodec`,
`ConfigTransaction`, `ConfigRepository` and `ConfigHistory` the store itself, with its behaviour when
the process stops between any two file operations.

**Frames.** `FrameQueue` is the ring that drops its oldest frame, refined from a sequence to slots;
`FramePool` the fixed pool of buffers; `FramePath` the ownership of a buffer from pool to consumer;
`CaptureWorker` the capture loop with its numbering, gap counting and end conditions; `CaptureEnds` why
it ends, told from the events alone.

**Sessions.** `Reconnect` is the bounded retry schedule with its cancellable wait; `SessionControl` the
eight camera states; `CameraSession` the session thread racing with stop requests, step by step, and
`CameraSessionEnd` the states such a session can end in.

**Console and service edges.** `AlarmRefresh` and `LineMerge` keep what the console shows in step with
pushes and replies that overtake each other; `LineMailbox` is the mailbox that feeds the latter;
`DetectorHosting` replaces a running detector; `Csv` writes the metric export; `CameraSlots` matches
cameras with slots.

How the model reads the program:

- A part of the source that holds a lock is one step; what lies between two locked parts can be
  interleaved with anything. A wait is two steps, before and after.
- Files, the camera, plugins, the network and other threads are parameters: a call of theirs may fail
  or answer anything. The disk is a map from path to document in which replacing a file is one step;
  a ghost trace lists every state the disk goes through, so that "wherever the process stops" is a
  statement about the trace.
- Objects whose methods change fields are classes; their methods are proved against functions on
  values, and the properties of whole runs are proved about these functions.
- A JSON document is a tree. Its keys are an enumeration of the names of the schema plus any foreign
  name, and only the foreign names are searched for forbidden words. `double` values are exact reals. Path normalisation is a parameter with the properties the parser relies on.
- The 64-bit revision counter wraps as in the program. Frame, attempt, generation and sequence
  counters are unbounded.

Where the program and its documents disagree, the model follows the program:

- `docs/config-schema.md` calls schema 7 current and refuses 8; the program writes 8 and migrates 2 to 7.
- Rolling back to an older revision is documented to create a new one. The text of a history file
  carries its own revision, which the update rules compare with the stored one, so it is always refused
  (`ConfigRepository.Repository.RollbackTo`, `ConfigHistory.NoWayBack`).
- `/timeSync` is reported as waiting for a restart but is not held back
  (`ConfigMemory.TimeSyncIsPendingForOneUpdate`).
- The event component rebuilds its pipeline for `/event`, `/algorithm` and `/plantIo` only, but builds
  it from the frame rates of the cameras and the preview switch as well; an update of those alone is in
  effect at once and not followed (`ConfigAppliers.NewFrameRateIsNotFollowed`; exactly when:
  `ConfigRepository.CommittedUpdateIsFollowedIff`).
- A refused commit undoes the components in reverse order, but logging and event components that have
  committed have forgotten their previous value (`ConfigTransaction.NewLogLevelIsNotUndone`; exactly
  when it is undone: `ConfigTransaction.RefusedCommitIsUndoneIff`). The three components of the service
  never refuse.
- What is in effect is not checked as a whole: an update that changes the camera topology and enlarges
  the algorithm window leaves a window that exceeds the old cameras
  (`ConfigEffective.WindowRunsAheadOfCameras`; exactly when: `ConfigEffective.EffectiveIsValidIff`).
- A main file that cannot be read for a moment counts as unusable and leads to recovery from the
  history (`ConfigRepository.Repository.Load`).
- A stop request served before the session thread has taken its first transition is overwritten by it
  (`CameraSession.StopHoldsIffServedAfterStart`).
- A camera call that throws is handled as a failure worth a retry, but the thread that would retry has
  ended: the session stays `Recovering` (`CameraSessionEnd.ExceptionEndsSession`).
- An exception of the clock model makes the worker report one frame more than it counted
  (`CaptureWorker.AcquisitionWorker.RunLoop`).
- After a reconnect to a service that numbers its line inputs anew, pushes stay unheard until the next
  list (`LineMerge.PushIsTakenIffHigher`).

## Model

| member | source | states |
|---|---|---|
| ConfigParser.ParseConfig | src/config/src/basic_config.cpp:1327-1421 | whatever document is accepted, the result satisfies every section domain and every cross-section constraint of version 8 at once; which documents of the older versions are accepted, and as what, is `ConfigMigration.OlderDocumentIsRead` |
| ConfigParser.ReadCameras | src/config/src/basic_config.cpp:473-677 | the loop with its two sets of taken names accepts exactly what the recursive reading accepts, in order, and stops at the first bad or repeated camera |
| ConfigParser.ParsedCamerasAreDistinct | src/config/src/basic_config.cpp:594-612 | accepted cameras have pairwise distinct ids and, where given, distinct serial numbers, none of them taken before |
| ConfigParser.ConfirmationFromFramesIsLeast | src/config/src/basic_config.cpp:859-864 | the two roundings of the migration give the least multiple of 10 ms not below the duration of the frames at 60 per second; for 1 to 1000 frames it lies in [20, 16670] |
| ConfigPrinter.SerializeThenParse | src/config/src/basic_config.cpp:1423-1549 | a configuration is read back unchanged from its printed form if and only if it is valid |
| ConfigPrinter.ParseSerializeParse | src/config/src/basic_config.cpp:1327-1549 | for every accepted document, old schema or new, printing what was read and reading it again gives the same configuration |
| ConfigPrinter.MigrationEndsInCurrentSchema | src/config/src/basic_config.cpp:1337-1421 | only documents of schema 2 to 8 are accepted, and what is printed of them declares schema 8 |
| ConfigMigration.OlderDocumentIsRead | src/config/src/basic_config.cpp:1327-1421 | every valid configuration, written as a document of version 2 to 8 without any of the members that the version may lack, is accepted and read with the values of that migration, named as numbers; refused is only a count of frames longer than the longest event |
| ConfigMigration.OtherVersionsAreRefused | src/config/src/basic_config.cpp:1346-1354 | written as a document of any other version it is refused, as unsupported if the version fits 32 bits |
| ConfigMigration.CameraIsMigrated | src/config/src/basic_config.cpp:488-502 | filling in what an older camera lacks gives the printed form of the camera with mirror flags off, automatic exposure off and neither line input nor strobe enabled |
| ConfigMigration.AcquisitionIsRead | src/config/src/basic_config.cpp:679-691 | an acquisition section without start-up members starts by hand, with an interval of 1000 ms and 3 retries |
| ConfigMigration.OlderAlgorithmIsRead | src/config/src/basic_config.cpp:774-872 | the algorithm sections of versions 2 to 4, 5 and 6 to 8 are read with rearming after 500 ms, full resolution, 60 frames per second and the converted confirmation where these are missing |
| ConfigPrinter.CameraRoundTrip | src/config/src/basic_config.cpp:473-677 | a printed camera is read back unchanged, with its imaging, trigger and line settings |
| ConfigPrinter.AlgorithmRoundTrip | src/config/src/basic_config.cpp:774-941 | a printed algorithm section is read back unchanged against the cameras its region has to fit |
| ConfigPrinter.StorageRoundTrip | src/config/src/basic_config.cpp:1006-1075 | a printed storage section is read back unchanged, paths and ordered water marks included |
| ConfigPaths.ChangedConfigPaths | src/config/src/basic_config.cpp:1590-1649 | appending, sorting and removing duplicates gives the sorted list of exactly the paths whose part of the configuration differs |
| ConfigPaths.OneSectionIsReported | src/config/src/basic_config.cpp:1590-1649 | a change of one section, or of one group of its members, is reported under its path alone; one of the logging files also as live |
| ConfigPaths.UnreportedIsUnchanged | src/config/src/basic_config.cpp:1590-1649 | nothing is reported exactly when nothing differs but version, revision and time |
| ConfigPaths.SortUnique | src/config/src/basic_config.cpp:1645-1649 | the sorted list without duplicates has the same members |
| ConfigPaths.SortedPathsAreUnique | src/config/src/basic_config.cpp:1590-1649 | there is only one sorted list without duplicates of given members |
| ConfigPaths.PendingPaths | src/config/src/basic_config.cpp:1651-1658 | a path is pending exactly when it changed and needs a restart |
| ConfigPaths.RestoringPendingSections | src/config/src/config_repository.cpp:30-63 | restoring the pending sections one by one, in their order, gives the same configuration as choosing section by section between what is in effect and the candidate |
| ConfigPaths.CollectPending | src/config/src/config_repository.cpp:453-458 | the loop collects exactly the pending paths |
| ConfigPaths.RestorePending | src/config/src/config_repository.cpp:459-461 | the loop puts the given sections back one by one, and for the pending paths arrives at that section-by-section choice |
| ConfigMemory.CommitKeepsCoherent | src/config/src/config_repository.cpp:540-544 | a commit keeps the long-run invariant: restart-only sections as booted, live sections as stored, pending paths exact, revisions in step |
| ConfigMemory.RunKeepsCoherent | src/config/src/config_repository.cpp:404-546 | any sequence of accepted and refused calls keeps the invariant and raises the stored revision by one for each accepted one |
| ConfigMemory.EffectiveAfterRun | src/config/src/config_repository.cpp:404-546 | after any run what is in effect depends only on the booted and the stored configuration and the last cameras of the booted topology; intermediate updates leave no trace |
| ConfigMemory.SectionsAfterRun | src/config/src/config_repository.cpp:30-63 | the invariant section by section: which still have their booted value and which have the stored one |
| ConfigMemory.EffectiveIsStored | src/config/src/config_repository.cpp:540-544 | what is in effect equals what is stored exactly when nothing but `/timeSync` is pending; equal revisions imply it |
| ConfigMemory.TimeSyncIsPendingForOneUpdate | src/config/src/basic_config.cpp:1651-1658 | `/timeSync` is reported as waiting for a restart exactly by the update that changed it, although it takes effect at once |
| ConfigEffective.MixtureHasValidSections | src/config/src/config_repository.cpp:30-63 | what results from an effective configuration and a candidate has every section in its domain, also the sections that are mixed |
| ConfigEffective.RunKeepsValidSections | src/config/src/config_repository.cpp:404-546 | no run of updates brings a section in effect out of its domain |
| ConfigEffective.EffectiveIsValidIff | src/config/src/config_repository.cpp:404-546 | after any run since boot what is in effect is a valid configuration if and only if the stored algorithm window fits the last enabled cameras of the booted topology, and whenever no change of the cameras is pending |
| ConfigEffective.WindowRunsAheadOfCameras | src/config/src/config_repository.cpp:459-461 | one valid update that exchanges a camera and widens pictures and window makes what is in effect invalid until the restart |
| HistoryNames.HistoryNameRevision | src/config/src/config_repository.cpp:65-75 | the revision read from a history file name is the one the name was made from |
| HistoryNames.LegacyNameIsNotNumbered | src/config/src/config_repository.cpp:197-203 | the name under which an old text is kept is never read as a revision |
| ConfigDisk.SortedNumbered | src/config/src/config_repository.cpp:315-330 | the listing without other names, lowest revision first |
| ConfigDisk.PruneHistory | src/config/src/config_repository.cpp:315-335 | removes nothing but numbered files, lowest revisions first, down to below the limit, and never touches the main file; also when it fails half way |
| ConfigCodec.TheCodecIsLawful | src/config/src/basic_config.cpp:1327-1549 | parser and printer satisfy the laws the repository relies on: printed valid configurations are read back, what is read is valid, and a new revision and time stamp keep it valid |
| ConfigAppliers.IrrelevantPartStays | src/service/main.cpp:888-999 | a part that a change does not concern has the same value under the old and the new effective configuration; the one exception is the event pipeline, which has it if and only if the frame rates of the enabled cameras and the preview stay as they are |
| ConfigAppliers.LanesStay | src/service/core/src/event_runtime.cpp:246-266 | which change leaves them as they are can be seen beforehand: the preview switch stays, and new cameras of the booted topology have the lanes in effect |
| ConfigAppliers.NewFrameRateIsNotFollowed | src/service/core/src/event_runtime.cpp:249-265 | a new frame rate of an enabled camera is a valid update, waits for no restart and is in effect at once; the event component is not concerned, yet the pipeline of the new configuration is another one |
| ConfigAppliers.ConfigApplier.Prepare | src/service/main.cpp:982-999 | prepares without touching the live setting and remembers both settings and which parts are concerned |
| ConfigAppliers.ConfigApplier.ApplyAndReadback | src/service/main.cpp:1001-1024 | parts not concerned stay; on success all concerned parts have the new value; on failure any of them may |
| ConfigAppliers.ConfigApplier.Commit | src/service/main.cpp:931-935 | forgets the remembered settings; the three components of the service cannot refuse |
| ConfigAppliers.ConfigApplier.Rollback | src/service/main.cpp:937-949 | puts back the remembered value of every concerned part, or that of the given configuration, unless setting it fails, which is counted |
| ConfigTransaction.CandidateIsReadable | src/config/src/config_repository.cpp:448-450 | the stamped candidate can be read back from disk if and only if the revision counter did not wrap |
| ConfigTransaction.UpdateGoesOnIff | src/config/src/config_repository.cpp:404-446 | an update goes on if and only if changes are accepted, a configuration is loaded, caller, store and text name one revision and the text differs in content; what goes on is what the parser reads from the text |
| ConfigTransaction.Persist | src/config/src/config_repository.cpp:337-356 | on success the superseded configuration is in the pruned history and the candidate is the main file; until the last step, and on failure, the main file is the old one |
| ConfigTransaction.PrepareAll | src/config/src/config_repository.cpp:475-487 | prepares in order up to the first refusal; no live setting changes |
| ConfigTransaction.ApplyAll | src/config/src/config_repository.cpp:489-504 | applies in order up to the first failure; those not reached are untouched |
| ConfigTransaction.RollbackFirst | src/config/src/config_repository.cpp:495-496 | undoes in reverse order; each component undone has its remembered setting back unless restoring it failed |
| ConfigTransaction.CommitAll | src/config/src/config_repository.cpp:514-519 | commits in order up to the first refusal, which can only come from a component from outside the service |
| ConfigTransaction.PrepareAndApply | src/config/src/config_repository.cpp:475-504 | after a failed prepare or apply every part of every component, the half-applied one included, is untouched or as the old effective configuration wants it, unless restoring it failed |
| ConfigTransaction.CommitOrUndo | src/config/src/config_repository.cpp:514-538 | only a component from outside the service can refuse; then the main file is restored or the failure is reported, and each part is left as the refusing index, the kind of its component and the change determine |
| ConfigTransaction.Transact | src/config/src/config_repository.cpp:475-538 | the whole transaction: at every file operation the main file is the old one or the candidate, and at the end file and components are those of the outcome, part by part |
| ConfigTransaction.FailedUpdateKeepsFollowing | src/config/src/config_repository.cpp:475-504 | a component that followed the effective configuration follows it after every update that failed before its commits |
| ConfigTransaction.RefusedCommitIsUndoneIff | src/config/src/config_repository.cpp:518-537 | whoever refuses, every component has its old live setting back if and only if no component that may refuse is registered behind a logging or event component whose concerned parts change; this is known before the call |
| ConfigTransaction.UndoneRefusalKeepsFollowing | src/config/src/config_repository.cpp:518-537 | and then a component that had fallen behind is no further behind |
| ConfigTransaction.NewLogLevelIsNotUndone | src/service/main.cpp:931-949 | a new log level is a change that cannot be undone when a component behind logging refuses |
| ConfigRepository.InterruptedMainIsOldOrNew | src/config/src/config_repository.cpp:506-530 | wherever a transaction stops, the main file reads as the old configuration or as exactly the candidate |
| ConfigRepository.FinalMain | src/config/src/config_repository.cpp:506-530 | at the end the main file reads as the candidate exactly when it was committed or its restoration failed |
| ConfigRepository.NewestIsFound | src/config/src/config_repository.cpp:264-313 | the first usable file from the top is the one of the greatest revision among those that read, parse and carry their own number |
| ConfigRepository.CommittedUpdateIsFollowedIff | src/service/main.cpp:982-1024 | after a committed update a component that followed follows the new effective configuration if and only if it is not the event component, or one of `/event`, `/algorithm`, `/plantIo` changed, or frame rates and preview did not; it falls behind in nothing else |
| ConfigRepository.Repository.LeftIsKeptUp | src/config/src/config_repository.cpp:404-546 | the same for all registered components and all outcomes of an update |
| ConfigRepository.Repository.RegisterApplier | src/config/src/config_repository.cpp:559-574 | a component joins at the end of the list once, unless changes are no longer accepted |
| ConfigRepository.Repository.UpdateLocked | src/config/src/config_repository.cpp:404-546 | the text decides: refused exactly when it is not admitted, without change exactly when it says what is stored, and once committed it is what is stored, under the next revision and with the time of the change |
| ConfigRepository.Repository.Update | src/config/src/config_repository.cpp:358-364 | the text decides as in `UpdateLocked`; crash atomicity, memory invariant, history on commit, and components that keep up with the effective configuration except for an event pipeline that a committed change passes over; for every update and every failure inside it, and also after a refused commit if the registered components let it be undone |
| ConfigRepository.Repository.TakeOver | src/config/src/config_repository.cpp:374-379 | the update inside a reload: in between the main file is the text from outside, the stored configuration or the candidate |
| ConfigRepository.Repository.Reload | src/config/src/config_repository.cpp:366-391 | memory and main file are in step afterwards, whatever someone else wrote into the file, unless a read or the write-back failed; in between the file is that text, the candidate or the stored one; components and history are as after an update |
| ConfigRepository.Repository.RollbackTo | src/config/src/config_repository.cpp:393-402 | refused if and only if changes are not accepted or history file, caller and store do not name one revision; otherwise all that holds of an update holds of it |
| ConfigRepository.Repository.Migrate | src/config/src/config_repository.cpp:229-256 | the old text is kept under its legacy name and the main file reads as the same configuration at every step |
| ConfigRepository.Repository.RecoverFromHistory | src/config/src/config_repository.cpp:264-313 | recovers the greatest usable revision, or finds that there is none |
| ConfigRepository.Repository.Load | src/config/src/config_repository.cpp:215-313 | a usable main file that was read is loaded and never passed over; otherwise the history is used; an interrupted migration changes nothing a later load can see; exactly a version 7 file is replaced by its printed version 8 form and its text kept under the legacy name |
| ConfigRepository.Restart | src/config/src/config_repository.cpp:215-262 | a start on any disk state an interrupted update passes through, once it has read the main file, loads a configuration of the old content and revision or exactly the candidate |
| ConfigHistory.PersistKeepsLimit | src/config/src/config_repository.cpp:315-356 | in every run a persisted update leaves at most the limit of numbered files and removed none that is newer than one it kept |
| ConfigHistory.PersistMovesWindow | src/config/src/config_repository.cpp:315-356 | a persisted update moves the window of kept revisions on by one |
| ConfigHistory.HistoryAfterUpdates | src/config/src/config_repository.cpp:315-356 | starting without history, after n updates the history holds exactly the last min(n, limit) superseded configurations under their revisions |
| ConfigHistory.RecoveryAfterUpdates | src/config/src/config_repository.cpp:264-313 | if the main file is lost then, recovery finds the last superseded configuration |
| ConfigHistory.NoWayBack | src/config/src/config_repository.cpp:393-402 | after any number of successful updates every history file carries a superseded revision, so no rollback to one can commit, whatever revision it expects |
| FrameQueue.StepOnlyExtends | src/camera/src/acquisition.cpp:121-216 | frames leave in the order they came, a closed ring takes none, and a frame is dropped only by a push into a full ring, one at a time |
| FrameQueue.PopsAreCounted | src/camera/src/acquisition.cpp:165-207 | which answer a pop gets, and that exactly one counter notes it |
| FrameQueue.RunConserves | src/camera/src/acquisition.cpp:121-216 | after any interleaving every accepted frame was delivered, dropped or is held, and depth <= high watermark <= capacity |
| FrameQueue.RunAcceptsUntilClosed | src/camera/src/acquisition.cpp:121-131 | the accepted frames are the pushed ones up to the close; all later ones are counted as rejected |
| FrameQueue.RunDeliversInOrder | src/camera/src/acquisition.cpp:151-207 | what consumers receive is what was accepted, in order, without the dropped frames |
| FrameQueue.DrainAfterClose | src/camera/src/acquisition.cpp:173-184 | frames held when the ring closed can still be taken, in order |
| FrameQueue.AcquisitionQueue.RemoveHead | src/camera/src/acquisition.cpp:132-139 | taking the head slot leaves the rest of the sequence in the slots |
| FrameQueue.AcquisitionQueue.Append | src/camera/src/acquisition.cpp:140-142 | the next free slot takes the frame as the last of the sequence |
| FrameQueue.AcquisitionQueue.Push | src/camera/src/acquisition.cpp:121-149 | circular slots and counters refine the sequence: drop of the oldest, status and high watermark |
| FrameQueue.AcquisitionQueue.PopFrame | src/camera/src/acquisition.cpp:155-163 | takes the first frame held |
| FrameQueue.AcquisitionQueue.TryPop | src/camera/src/acquisition.cpp:165-184 | the answers before a wait, in the order of the checks |
| FrameQueue.AcquisitionQueue.ResumePop | src/camera/src/acquisition.cpp:186-207 | the answers after a wait |
| FramePool.AcquiredIsEmpty | src/camera/src/frame_pool.cpp:70-128 | a request succeeds exactly when there is a buffer, no stop and no close; what it hands out is an empty buffer that the pool no longer holds |
| FramePool.RequestsAreCounted | src/camera/src/frame_pool.cpp:82-128 | every request that ended was counted once, as what it was answered |
| FramePool.DistinctFit | src/camera/src/frame_pool.cpp:16-24 | a pool never holds more buffers than its capacity |
| FramePool.FrameBufferPool.TakeAvailable | src/camera/src/frame_pool.cpp:70-80 | the buffer that came back last is handed out and the high watermark follows |
| FramePool.FrameBufferPool.Acquire | src/camera/src/frame_pool.cpp:82-99 | the answers before a wait, in the order of the checks |
| FramePool.FrameBufferPool.ResumeAcquire | src/camera/src/frame_pool.cpp:101-128 | the answers after a wait |
| FramePool.FrameBufferPool.Release | src/camera/src/frame_pool.cpp:26-34 | the buffer is emptied and comes back, also into a closed pool |
| FramePath.StartIsOwned | src/camera/src/frame_pool.cpp:16-24 | at the start every buffer is in the pool and empty |
| FramePath.AcquiringKeepsOwned | src/camera/src/frame_pool.cpp:70-80 | what a worker gets is a buffer nobody refers to, and it is empty |
| FramePath.PushMovesReference | src/camera/src/acquisition.cpp:121-143 | a push moves one reference into the ring and takes at most one away: of the dropped frame, or of the pushed one when the ring is closed |
| FramePath.PushingKeepsOwned | src/camera/src/acquisition.cpp:121-143 | buffers of dropped and of refused frames go back to the pool when nobody else holds them |
| FramePath.PoppingKeepsOwned | src/camera/src/acquisition.cpp:151-207 | a delivered frame takes its reference to the consumer |
| FramePath.LettingGoKeepsOwned | src/camera/src/acquisition.cpp:423-450 | a reference let go, after a failed capture or a consumed frame, empties and returns the buffer when it was the last |
| FramePath.FinishingReleaseKeepsOwned | src/camera/src/frame_pool.cpp:26-34 | a returning buffer fits into the pool |
| FramePath.RunKeepsOwned | src/camera/src/frame_pool.cpp:14-128 | in every run with any number of workers and consumers each buffer is in exactly one place; in use <= high watermark <= capacity, also after close |
| FramePath.BuffersAddUp | src/camera/src/frame_pool.cpp:140-153 | available, returning and referenced buffers add up to the capacity |
| FramePath.EverythingComesBack | src/camera/src/frame_pool.cpp:26-34 | when all references are gone the pool holds all its buffers again, empty |
| CaptureWorker.FramesAreNumbered | src/camera/src/acquisition.cpp:494-494 | pushed packets carry 1, 2, 3 and so on |
| CaptureWorker.CountedFramesShareFormat | src/camera/src/acquisition.cpp:495-520 | all counted frames have the geometry and pixel format of the first, whichever way the run ended |
| CaptureWorker.TimeoutsStayBelowLimit | src/camera/src/acquisition.cpp:430-446 | while the loop goes on there were fewer timeouts in a row than the limit |
| CaptureWorker.GivesUpAtLimit | src/camera/src/acquisition.cpp:430-446 | the run gives up on timeouts exactly when the last captures, as many as the limit, all timed out |
| CaptureWorker.GapsAreMissingFrames | src/camera/src/acquisition.cpp:543-551 | if the camera numbers its frames upwards from a positive number, frames + gaps = last - first + 1 |
| CaptureWorker.EveryFrameIsAccounted | src/camera/src/acquisition.cpp:566-602 | in any interleaving the ring accepted a prefix of the counted frames, and counted = delivered + dropped + held + rejected |
| CaptureWorker.ConsumerMissesOnlyDropped | src/camera/src/acquisition.cpp:121-207 | the consumer sees strictly increasing numbers, and every number missing before or between deliveries is of a dropped frame |
| CaptureWorker.DeliveredIncrease | src/camera/src/acquisition.cpp:151-163 | the delivered ones among numbered frames are in increasing order |
| CaptureWorker.AcquisitionWorker.Handle | src/camera/src/acquisition.cpp:402-428 | one pass of the loop ends or goes on as the events so far demand, and the counters agree with them |
| CaptureWorker.AcquisitionWorker.HandleCapture | src/camera/src/acquisition.cpp:412-492 | timeouts in a row, capture errors and the start-up probe of the first eight buffers |
| CaptureWorker.AcquisitionWorker.Admit | src/camera/src/acquisition.cpp:494-541 | a frame of another format or without a representable time ends the run without being counted |
| CaptureWorker.AcquisitionWorker.Count | src/camera/src/acquisition.cpp:543-565 | frame, gap, byte and incomplete counters after one more frame |
| CaptureWorker.AcquisitionWorker.Deliver | src/camera/src/acquisition.cpp:566-602 | the counted frame is pushed with its number; a closed ring ends the run |
| CaptureWorker.AcquisitionWorker.RunLoop | src/camera/src/acquisition.cpp:363-622 | the run ends at the first event that ends it; the reported sequence number is the number of frames, and one more exactly when the clock model threw |
| CaptureWorker.InspectStartupBuffer | src/camera/src/acquisition.cpp:46-93 | the classification of a probed buffer in terms of its bytes |
| CaptureEnds.RunEndsForCause | src/camera/src/acquisition.cpp:395-622 | a run ends at an event whose own fields show the cause of that ending, and passes no event that shows one; in particular it goes on after a capture that got no buffer in time |
| CaptureEnds.GivesUpOnRow | src/camera/src/acquisition.cpp:430-446 | it gives up on timeouts exactly when as many captures as the limit timed out since the last filled buffer |
| CaptureEnds.CountersCount | src/camera/src/acquisition.cpp:430-565 | the timeouts and the incomplete frames shown are the numbers of such events in the script |
| Reconnect.EffectFits | src/camera/src/state.cpp:122-198 | every operation on the schedule does to the state what its history entry says |
| Reconnect.StepIsFaithful | src/camera/src/state.cpp:122-198 | with any number of waiters each step keeps state, tickets and history in agreement |
| Reconnect.ArmedBetweenUses | src/camera/src/state.cpp:144-180 | between two waits that were ready a delay was armed, so each is used at most once |
| Reconnect.NothingChangedSinceTicket | src/camera/src/state.cpp:144-180 | and nothing was armed, cancelled or reset since the waiter took its snapshot, nor was the waiter stopped |
| Reconnect.WaitsAreGuarded | src/camera/src/state.cpp:122-198 | all of it for every run, and attempts = delays armed since the last reset <= maximum; the armed delay is the entry of the list that the attempt counts, or the last one |
| Reconnect.ReconnectController.ScheduleNext | src/camera/src/state.cpp:122-142 | arms the delay of the list that the attempt counts, or the last one, unless one is armed or the attempts are used up; gives none exactly then |
| Reconnect.ReconnectController.BeginWait | src/camera/src/state.cpp:147-158 | the snapshot of a waiter, or none when nothing is armed |
| Reconnect.ReconnectController.CompleteWait | src/camera/src/state.cpp:172-179 | ready exactly when generation, armed delay, source and elapsed time agree |
| SessionControl.CallsMoveAlongTheRelation | src/camera/src/state.cpp:58-92 | whatever is called, the state moves only along the relation, and a refused call changes nothing but the sequence number |
| SessionControl.EnteredOnlyFrom | src/camera/src/state.cpp:58-92 | from which states each state can be entered; a fault and the disabled state are left for `Disconnected` or `Disabled` only |
| SessionControl.FailureLeadsTo | src/camera/src/state.cpp:249-285 | a failure leads to a retry exactly when it is worth one, no stop was requested and one is left; otherwise to a fault that keeps the error |
| SessionControl.StopEndsWaiting | src/camera/src/state.cpp:310-327 | after a stop request no waiter gets its retry and none is armed |
| SessionControl.FreshRetries | src/camera/src/state.cpp:385-404 | entering the stream or resetting a fault gives all retries back; nothing else is reset |
| SessionControl.CameraSessionController.ApplyTransition | src/camera/src/state.cpp:360-419 | the transition with its effect on error, stop request and reconnect schedule |
| SessionControl.CameraSessionController.TransitionTo | src/camera/src/state.cpp:237-247 | the same as one locked call |
| SessionControl.CameraSessionController.HandleFailure | src/camera/src/state.cpp:249-285 | a retryable error arms the next retry while there is one left, anything else is a fault |
| SessionControl.CameraSessionController.RetryTransition | src/camera/src/state.cpp:296-308 | connects again only if no stop was requested and the session still recovers |
| SessionControl.CameraSessionController.RequestStop | src/camera/src/state.cpp:310-327 | cancels the schedule and leaves for the stopped state |
| SessionControl.CameraSessionController.ResetFault | src/camera/src/state.cpp:329-347 | leaves a fault, and nothing else |
| CameraSession.StopWins | src/camera/src/acquisition.cpp:775-903 | once a stop was served after the first transition, no later step of the session in any interleaving leaves `Disconnected` |
| CameraSession.EarlyStopIsOverwritten | src/camera/src/state.cpp:405-408 | a stop served before the first transition is overwritten by it |
| CameraSession.StopHoldsIffServedAfterStart | src/camera/src/acquisition.cpp:699-724 | a stop holds to the end of the session if and only if the first transition was taken before it was served |
| CameraSession.RunStepIsSound | src/camera/src/acquisition.cpp:775-903 | each step of the session keeps the account of connections, streams and retries |
| CameraSession.StopStepIsSound | src/camera/src/acquisition.cpp:699-724 | so does each step of a stop |
| CameraSession.RunStaysInBudget | src/camera/src/acquisition.cpp:784-891 | in every run connections tried <= 1 + maximum * (streaming entries + 1) |
| CameraSession.ThreadStepsAreBounded | src/camera/src/acquisition.cpp:775-903 | each step uses up budget, so the loop terminates |
| CameraSession.SessionTerminates | src/camera/src/acquisition.cpp:775-903 | the number of steps of the session is bounded by its budget |
| CameraSession.NeverComingBackEndsFaulted | src/camera/src/acquisition.cpp:758-773 | a session whose camera never comes back ends faulted after exactly maximum + 1 connections, waiting the k-th delay, or the last, before the k-th retry |
| CameraSessionEnd.RunIsPlaced | src/camera/src/acquisition.cpp:775-903 | in every interleaving the controller is where the step of the thread needs it, or stopped |
| CameraSessionEnd.EndStates | src/camera/src/acquisition.cpp:775-907 | a finished session is `Disconnected` by a stop, or in the one state that belongs to what ended it; after an exception that is `Recovering` with a retry armed, or `Faulted` without one left |
| CameraSessionEnd.LeftAloneEndsFaulted | src/camera/src/acquisition.cpp:758-773 | a session nobody stops ends faulted, or by an exception with a retry armed |
| CameraSessionEnd.ExceptionEndsSession | src/camera/src/acquisition.cpp:892-907 | a camera call that throws ends the thread within three steps and leaves the session `Recovering` if and only if a retry was left, although nobody will wait for it |
| CameraSessionEnd.TokenEndsThread | src/camera/src/acquisition.cpp:784-903 | once the stop token is set no further connection is tried and the thread ends within 15 of its own steps |
| AlarmRefresh.NextKeepsConsistent | src/console/src/client_state_store.cpp:322-407 | every event keeps request, pending mark and staleness in agreement with the pushes |
| AlarmRefresh.NoRefreshIsLost | src/console/src/client_state_store.cpp:375-407 | connected, waiting for nothing and not stale means the list was requested after the last alarm push of this connection |
| AlarmRefresh.PushIsAnswered | src/console/src/client_state_store.cpp:394-406 | a push leads to a request, to one that will follow, or to a stale mark |
| AlarmRefresh.CurrentReplyIsShown | src/console/src/client_state_store.cpp:644-653 | the reply that is waited for is shown, and followed by another request if a push came meanwhile |
| AlarmRefresh.AsksWhenIdle | src/console/src/client_state_store.cpp:322-407 | an idle store asks at a push, at a refresh and on a new connection, and of these only the new connection makes the list stale |
| AlarmRefresh.TwoRepliesSettle | src/console/src/client_state_store.cpp:615-654 | answered with lists, the store is idle with a fresh list after one reply, or after two if a push came in between |
| AlarmRefresh.OldRepliesChangeNothing | src/console/src/client_state_store.cpp:252-259 | a reply to a superseded or abandoned request changes nothing |
| AlarmRefresh.ClientStateStore.SynchronizeAlarms | src/console/src/client_state_store.cpp:482-504 | one request at a time; a refused one marks the list stale |
| AlarmRefresh.ClientStateStore.ConnectionChanged | src/console/src/client_state_store.cpp:322-373 | a lost connection forgets the request, a new one asks again |
| AlarmRefresh.ClientStateStore.AlarmPushReceived | src/console/src/client_state_store.cpp:375-407 | asks at once or remembers to ask |
| AlarmRefresh.ClientStateStore.AlarmsCompleted | src/console/src/client_state_store.cpp:615-654 | takes over the reply that is waited for, then asks again if a push came meanwhile |
| LineMailbox.DeliveredRevisionsRise | src/camera/src/control.cpp:84-149 | in every interleaving the revisions delivered for a slot strictly increase |
| LineMailbox.DeliveriesAreNewest | src/camera/src/control.cpp:98-149 | a round hands over only the newest input of a slot, in slot order |
| LineMailbox.NothingIsPassedOver | src/camera/src/control.cpp:117-148 | and no slot that holds an input of a connected camera is passed over |
| LineMailbox.NextIsSound | src/camera/src/control.cpp:84-149 | what lies in a slot is its newest input, and an empty slot has given its newest input away |
| LineMailbox.DeliveredAreInputs | src/camera/src/control.cpp:84-149 | in every interleaving a delivery has the level and the time of the input that its revision counts, and a filled slot holds the last one |
| LineMailbox.LineInputMailbox.EnqueueLineInput | src/camera/src/control.cpp:84-96 | the new input replaces the old one under the next revision; a slot that does not exist is ignored |
| LineMailbox.LineInputMailbox.TakeAll | src/camera/src/control.cpp:104-116 | takes everything out at once |
| LineMailbox.LineInputMailbox.DispatchLineInputs | src/camera/src/control.cpp:98-149 | one round of the dispatcher |
| LineMerge.ShownIsNeverOlder | src/console/src/camera_client.cpp:385-560 | while a camera stays listed its (connection generation, revision) never decreases, in any order of pushes, lists, reconnects and refreshes |
| LineMerge.ListIsNoOlder | src/console/src/camera_client.cpp:523-549 | a list that was overtaken by a push of its connection does not undo the push |
| LineMerge.ListIsTakenUnlessOvertaken | src/console/src/camera_client.cpp:506-549 | a list is taken over for a camera exactly when no higher revision of its connection is shown; a camera listed without line input keeps what is shown, marked stale |
| LineMerge.UnreadableListIsStale | src/console/src/camera_client.cpp:433-523 | a reply that cannot be read as a whole changes no camera |
| LineMerge.PushIsTakenIffHigher | src/console/src/camera_client.cpp:401-414 | a push is taken over exactly when nothing or a lower revision is shown, whatever connection that is of |
| LineMerge.CameraClient.MarkStale | src/console/src/camera_client.cpp:358-364 | every line input shown is marked stale, nothing else changes |
| LineMerge.CameraClient.FindCamera | src/console/src/camera_client.cpp:401-404 | the first camera of that id |
| LineMerge.CameraClient.ConnectionHasChanged | src/console/src/camera_client.cpp:358-383 | marks everything stale and asks for the list when connected |
| LineMerge.CameraClient.ReceivePush | src/console/src/camera_client.cpp:385-415 | takes over a higher revision of a listed camera of this connection |
| LineMerge.CameraClient.RefreshList | src/console/src/camera_client.cpp:417-431 | one request at a time |
| LineMerge.CameraClient.MergeLine | src/console/src/camera_client.cpp:506-549 | what a listed camera shows, given what was shown before |
| LineMerge.CameraClient.CompleteList | src/console/src/camera_client.cpp:433-556 | a list is taken over as a whole or not at all |
| DetectorHosting.ValidateConfig | src/algorithm/src/detector_host.cpp:49-100 | the loop with the names met so far accepts exactly the valid configurations |
| DetectorHosting.NextIsSound | src/algorithm/src/detector_host.cpp:287-469 | a failed load or update changes nothing, and an update keeps plugin and camera and raises the revision |
| DetectorHosting.RunIsSound | src/algorithm/src/detector_host.cpp:269-469 | over any calls: instance, valid config and own info together; calls = successes + failures, timeouts <= failures; between loads revisions only rise |
| DetectorHosting.DetectorHost.Load | src/algorithm/src/detector_host.cpp:287-312 | all or nothing; succeeds exactly when config and plugin are as asked |
| DetectorHosting.DetectorHost.UpdateConfig | src/algorithm/src/detector_host.cpp:314-359 | all or nothing, the counter included; needs a loaded plugin of the same identity and a higher revision |
| DetectorHosting.DetectorHost.Process | src/algorithm/src/detector_host.cpp:361-437 | what is returned is the plugin's own answer about this frame, with the host's time, and with the plugin's versions where it names none; it came within the budget, and the counters follow the answer |
| Csv.CsvField | src/console/src/algorithm_metrics.cpp:221-233 | the field in quotes with its quotes doubled |
| Csv.AppendCsvRow | src/console/src/algorithm_metrics.cpp:235-244 | the row behind what was there |
| Csv.FieldIsRead | src/console/src/algorithm_metrics.cpp:221-233 | a reader after section 2 of RFC 4180 takes a written field back, whatever it contains |
| Csv.RowIsRead | src/console/src/algorithm_metrics.cpp:235-244 | and a written row; one without fields is read as one empty field |
| Csv.RoundTrip | src/console/src/algorithm_metrics.cpp:221-244 | the written document is read back as the rows it was made of if and only if every row has a field |
| CameraSlots.ValidateDeviceInventory | src/camera/src/camera.cpp:300-324 | accepts exactly inventories of valid devices with distinct serial numbers |
| CameraSlots.ValidateBindings | src/camera/src/camera.cpp:342-364 | accepts exactly bindings of distinct canonical ids and distinct valid serial numbers |
| CameraSlots.MatchSlots | src/camera/src/camera.cpp:366-383 | each binding gets the device of its serial number, or is missing |
| CameraSlots.CollectUnexpected | src/camera/src/camera.cpp:384-390 | the devices no binding names, in order |
| CameraSlots.ReconcileCameraSlots | src/camera/src/camera.cpp:326-392 | succeeds exactly for at most six valid bindings and a valid inventory, with these slots and these unexpected devices |
| CameraSlots.SlotGetsItsDevice | src/camera/src/camera.cpp:366-383 | a slot gets the one device of its serial number, ready or occupied, and is missing exactly when there is none |
| CameraSlots.EveryDeviceHasOnePlace | src/camera/src/camera.cpp:366-390 | every device is in exactly one place, so devices = slots not missing + unexpected devices |

## Left out

- JSON text: lexing, number formatting, the size limit of one mebibyte and the byte length of non-ASCII text; lengths are in characters.
- Error texts, details and severities; an error is its business code or a number, and in the parser `Invalid` or `SchemaUnsupported`.
- JsonTree.SensitiveKey: searches foreign names only; that none of the listed schema names contains one of the words is read off the list and not a theorem.
- The audit record of a configuration change: whether it can be written is a choice, its redacted content is not modelled.
- The temporary file of an atomic replacement, and a disk that loses a write it has reported as done.
- A clock: the time stamp of an update is a parameter that has the format the parser asks for.
- ConfigAppliers.ConfigApplier.Prepare: the three components of the service are one class with a kind and parts; of the event pipeline the live setting is what it is built from, without the revision it is labelled with and without the frames, results and events in it.
- ConfigAppliers.ConfigApplier.Rollback: which value a component is left with when restoring it fails is not stated; such failures are counted, and the claims about live settings are for components without them.
- Allocation failures, in particular between counting a frame and pushing it.
- Frame rates, bandwidth, times of arrival and the mapping of camera clocks in the capture loop.
- The software trigger interval of the capture loop: when the next trigger is due is part of what the script decides.
- CaptureWorker.AcquisitionWorker.RunLoop: the local variables of the loop are fields of the worker, and an endless run is modelled by its finite beginnings.
- FramePath.RunKeepsOwned: states which buffers are free and referenced; of a packet in the ring only its buffer matters there, and its content is the subject of `CaptureWorker`.
- Spurious wake-ups and fairness: a waiter may be woken at any time, and that it will be woken is not claimed.
- CameraSessionEnd.EndStates: a stop request that comes after the thread has ended is one of the interleavings; calls that stop or close the device are not steps of their own, that one of them throws is.
- CameraSession.RunStepIsSound: the session thread is a machine over its steps and not a method with a loop, because a stop may come between any two steps; its controller and its reconnect schedule are classes.
- The observers of state transitions and of console snapshots, which are taken not to call back.
- AlarmRefresh.NoRefreshIsLost: of the five kinds of requests of the store the alarm list is modelled; the others follow the same pattern without pushes and appear only as sends that may lose the connection.
- The content of the alarm list, and the parsing of status, versions, metrics and locations.
- LineMerge.CameraClient.CompleteList: the members of a list item besides its id and line input are read or not readable as a whole; operations, capabilities and parameters of the camera client are left out.
- DetectorHosting.DetectorHost.Load: which error is reported for a failed plugin call is coarser than in the program, where each call adds its own details.
- The metric history and the file the CSV text is written to.
- The user interface, the service shell with its other lifecycle components, the IPC transport, the scheduler, the database, preview and event clients, which would add further members of the kinds shown here.
