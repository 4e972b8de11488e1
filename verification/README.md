# Verified models of VeriGym's campaign, build and audit protocols

These Dafny 4.11 modules model the parts of VeriGym where a mistake costs a campaign or a
release: resumable collection, publication of training data, reproducible builds, the
gate-driven and fail-closed collectors, and bounded handling of downloads and archives.
`dafny verify dfyconfig.toml` checks everything.

How to read them:

- A script that changes files or lists step by step is a class or a method with a loop. Its
  contract ties it to a function of the old state (`Launch`, `Publish`, `Loop`, `Invocation`),
  and lemmas prove what that function promises over every input, run or life.
- Episodes, provider accounting, gates, streams, backends and every hash are arbitrary
  functions. Nothing is assumed of a hash except that equal inputs give equal outputs.
- A crash is either a number of durable operations a process survives, or a prefix of the
  history of durable states. Racing writers are a step system with a directory whose
  committed state lags behind and file contents that are certain only once synced.
- Fixed constants of the scripts (targets, restart limit, schedule, byte limits) are parameters.

Modules: `publication` (racing writers), `jsonl_files`, `json_lines` and `json_round_trip`
(printing and reading records), `trajectories`, `handoff`, `restarts` and `restart_ledger`,
`teacher_campaign` and `teacher_resume`; `tree_hash`, `archives`, `build_scopes`; `gated_collection`,
`gated_properties`, `gated_records`, `collection_gate`, `gate_driven_runs`, `sampler`, `sampler_manifest`;
`sealed_reports`, `provider_canary`, `canary_properties`; `bounded_stream`, `release_checks`,
`posix_paths`, `member_scan`; and `wrappers`, `ordering`, `decimal` underneath.

## Where a plain promise does not hold

Each of these is stated exactly, with the condition under which the promise does hold.

- A JSON Lines file need not read back as written: two separate surrogate halves in one
  string are read as one code point (`JsonRoundTrip.RoundTrip`, `SplitPairLost`).
- The existence checks before publication are not exclusive: a second writer that passed them
  earlier replaces the published file (`Publication.PublishedStaysIffNoneClear`,
  `OvertakingHappens`).
- A crash inside the first write of a publication leaves a temporary that refuses every later
  call; only a crash after it is completed by repeating (`Trajectories.RepublishingCompletes`,
  `TemporaryLeft`).
- A handoff that was started and cut short is never completed, and repeating a finished one is
  refused when a document exceeds the reader's 64 MiB (`Handoff.CompletedIffNothingStarted`,
  `CutShort`, `FinishedCallRepeats`).
- A teacher campaign is resumed only if its progress is saved and no run is untracked: a kill
  inside an episode, or between the directory and the first save, ends it for good
  (`TeacherResume.ResumedEqualsUninterrupted`, `KilledBeyondResuming`).
- A restart ledger loads back in every case only if the distinct attempt ids times the restart
  limit do not exceed the loader's bound of 22 records, which 11 tasks with 2 restarts just
  meet (`RestartLedger.EveryLedgerLoadsIffRoom`, `FillFills`).
- An episode failure is reported closed only if the gate answers on the attempts with the
  invalid one added and all three writes of the stop succeed (`GatedProperties.EpisodeFailure`,
  `FailureUnreported`); the real gate always answers (`GateDrivenRuns.RealGateNeverRaises`).
- The build path is restored only if the backend leaves a directory there or nothing
  (`BuildScopes.WorkTree.InScopes`).

## Model

| member | source | states |
|---|---|---|
| `Publication.TargetAlwaysWhole` | `scripts/collect_cva6_hwe_codex.py:1032-1047` | For any number of writers racing on one path, at every moment of every run with failures, kills and power losses anywhere: the target, both as processes read it and as the disk would give it back, is absent, the initial content, or one writer's whole text; and at most one live writer is past its exclusive open |
| `Publication.OnlyOwnerRemovesTemp` | `scripts/collect_cva6_hwe_codex.py:1036-1047` | The temporary file disappears only by its owner's rename or cleanup (or a power loss): a writer that lost the exclusive open never removes the winner's |
| `Publication.ReturnPublishes` | `scripts/collect_cva6_hwe_codex.py:1036-1047` | At the step by which a call returns, the target holds exactly that call's text and no temporary is left |
| `Publication.ExistingTargetStays` | `scripts/collect_cva6_hwe_codex.py:1034-1035` | A target that is there before any call starts is never replaced |
| `Publication.PublishedStaysIffNoneClear` | `scripts/collect_cva6_hwe_codex.py:1034-1044` | The checks do not make publication exclusive: once a target is there with no temporary, it survives everything short of a power loss if and only if no other writer had already passed its two checks |
| `Publication.OvertakeReplaces` | `scripts/collect_cva6_hwe_codex.py:1034-1044` | The overtaking run itself: a writer past its checks replaces the published target in four steps |
| `Publication.OvertakingHappens` | `scripts/collect_cva6_hwe_codex.py:1034-1044` | Such a state is reached from every start with a free target and two writers: the first has published, the second stands past its checks, and its next four steps replace the file |
| `Publication.InvRun` | `scripts/collect_cva6_hwe_codex.py:1032-1047` | The inductive invariant behind these, kept by every step of every run: whoever is inside the `try` owns the temporary, and anything the target names has been written whole and synced |
| `JsonlFiles.JsonlFile.AtomicDump` | `scripts/collect_cva6_hwe_codex.py:1032-1047` | The write loop, with a crash or an I/O error before any chosen operation, leaves exactly the temporary and target the specification gives |
| `JsonlFiles.DumpAllOrNothing` | `scripts/collect_cva6_hwe_codex.py:1032-1047` | A dump returns exactly when both names were free and nothing struck before the rename; then the target holds every line, otherwise the target is as before, and only a kill can leave a temporary |
| `JsonRoundTrip.RoundTrip` | `scripts/collect_cva6_hwe_codex.py:888-893` | Reading a written JSON Lines file back always succeeds, and gives the written objects if and only if no string in them (keys included) holds a high surrogate directly followed by a low one |
| `JsonRoundTrip.SplitPairLost` | `scripts/collect_cva6_hwe_codex.py:1038-1041` | The family of records that do not survive: a value holding two separate surrogate halves comes back as one code point |
| `JsonRoundTrip.SplitDump` | `scripts/collect_cva6_hwe_codex.py:889-889` | Splitting the file on all of Python's line boundaries gives back exactly the printed records, because no printed record contains a boundary |
| `JsonRoundTrip.PrintPrintable` | `scripts/collect_cva6_hwe_codex.py:1040-1041` | Every printed value consists of printable ASCII characters only |
| `JsonRoundTrip.ParsePrint` | `scripts/collect_cva6_hwe_codex.py:890-890` | The parser, run on a printed value followed by any text that cannot extend it, consumes exactly the printed value and yields its reading |
| `JsonRoundTrip.ReadingFaithful` | `scripts/collect_cva6_hwe_codex.py:890-890` | A value reads back as itself if and only if no string in it splits a surrogate pair |
| `JsonRoundTrip.ParseEscape` | `scripts/collect_cva6_hwe_codex.py:1040-1040` | An escaped string is read back with adjacent halves of a pair joined, and nothing else changed |
| `Trajectories.TrajectoryDir.WriteRecords` | `scripts/collect_cva6_hwe_codex.py:817-870` | The record file and its sealed manifest after a publication, with a fault at any operation, are those of the specification |
| `Trajectories.TrajectoryDir.LoadRecords` | `scripts/collect_cva6_hwe_codex.py:873-906` | Loading checks the manifest, reads the file line by line and accepts exactly what the specification accepts, with the kind of failure |
| `Trajectories.PublishedThenLoaded` | `scripts/collect_cva6_hwe_codex.py:817-906` | After a publication that returned, loading yields exactly the examples written if and only if the file is within the size bound, no string splits a surrogate pair, every record meets the contract, and the caller passed the hash of the record hashes |
| `Trajectories.MaxTokensIs` | `scripts/collect_cva6_hwe_codex.py:856-856` | The manifest's token figure bounds every record's and is reached by one |
| `Trajectories.FilesNeverChange` | `scripts/collect_cva6_hwe_codex.py:835-843` | Whatever calls and faults follow, a records file or manifest that is there stays as it is, and a crash inside the first write refuses every later call |
| `Trajectories.RecordsFromOneCall` | `scripts/collect_cva6_hwe_codex.py:831-843` | Over any life of calls the records file holds the whole examples of one of them |
| `Trajectories.LoadsOnePublication` | `scripts/collect_cva6_hwe_codex.py:873-906` | Over any life of crashing calls, whatever loads is the example list of one of the calls |
| `Trajectories.OtherExamplesRefused` | `scripts/collect_cva6_hwe_codex.py:835-841` | Once one list of examples is in place, a different list is refused and nothing changes |
| `Trajectories.DumpInjective` | `scripts/collect_cva6_hwe_codex.py:832-834` | Two lists of records without split pairs print alike only if they are equal |
| `Trajectories.RepublishingCompletes` | `scripts/collect_cva6_hwe_codex.py:835-870` | Repeating an interrupted publication ends with exactly the files of an undisturbed one if and only if no crash left a temporary behind |
| `Trajectories.TemporaryLeft` | `scripts/collect_cva6_hwe_codex.py:1034-1047` | The crash that is not repaired: a publication killed right after it opened its temporary refuses every repetition |
| `Handoff.SingleOrigin` | `scripts/collect_cva6_hwe_codex.py:951-973` | Over any calls with any inputs and faults, all outputs present come from one and the same call, and appeared in order |
| `Handoff.OutputsNeverChange` | `scripts/collect_cva6_hwe_codex.py:1016-1029` | Once any output, or an abandoned temporary of the dataset, exists, no later call changes anything |
| `Handoff.ReturnMeansAllFour` | `scripts/collect_cva6_hwe_codex.py:1016-1029` | A call that returns leaves exactly the four files it meant |
| `Handoff.FinishedCallRepeats` | `scripts/collect_cva6_hwe_codex.py:1016-1025` | Repeating a finished call changes nothing, and is accepted if and only if its three documents are within the reader's size bound |
| `Handoff.CompletedIffNothingStarted` | `scripts/collect_cva6_hwe_codex.py:1016-1029` | After any calls and faults, a call that meets no fault itself succeeds if and only if nothing was started before, neither an output nor the temporary of the dataset, or all four files are already its own and within the reader's bound; otherwise it is refused and changes nothing |
| `Handoff.CutShort` | `scripts/collect_cva6_hwe_codex.py:1016-1029` | Both ways of being cut short happen: a fault after the dataset leaves outputs that match no call, and a crash inside the dataset's write leaves its temporary |
| `Restarts.Load` | `scripts/collect_cva6_hwe_codex.py:566-596` | The ledger loader accepts exactly a sealed ledger of the right format, profile and limit, within the record bound, all of whose records are sealed and claim no model call |
| `Restarts.Collector.Restart` | `scripts/collect_cva6_hwe_codex.py:566-596` | A new process holds exactly what the ledger file loads as, or does not start |
| `Restarts.Collector.CollectTask` | `scripts/collect_cva6_hwe_codex.py:218-240` | The launch loop ends, and the list in memory, the ledger file, the run directories and the saved attempts agree with the specification wherever the process is killed and whatever raises after the launch |
| `RestartLedger.LedgerNumbered` | `scripts/collect_cva6_hwe_codex.py:218-240` | Over all launches, kills, restarts of the process and stopped campaigns, each task's records are numbered 1, 2, ... up to at most the restart limit, every record is sealed, and a running process holds exactly the list in the file |
| `RestartLedger.LedgerEarned` | `scripts/collect_cva6_hwe_codex.py:227-239` | Every record in every ledger of every life is of a launch that was eligible for a restart (no model call, no change, cleaned up), and says of it exactly what it was |
| `RestartLedger.NeverOverLimit` | `scripts/collect_cva6_hwe_codex.py:218-220` | The check that a task is over its restart limit never fires, in any life |
| `RestartLedger.LaunchesBounded` | `src/verigym/core/artifacts.py:51-54` | No run directory is ever made twice, so no attempt is launched more often than the limit and one over all processes and kills: a launch killed before its restart is recorded is not repeated |
| `RestartLedger.LedgerBounded` | `scripts/collect_cva6_hwe_codex.py:218-240` | The ledger never holds more records than the restart limit times the attempt ids the taken tasks have |
| `RestartLedger.LoadsBack` | `scripts/collect_cva6_hwe_codex.py:566-607` | A written ledger loads back unchanged if and only if it is within the record bound and all its records are sealed and claim no model call |
| `RestartLedger.EveryLedgerLoadsIffRoom` | `scripts/collect_cva6_hwe_codex.py:581-581` | Every ledger a campaign over given tasks can ever write loads back, if and only if the number of their distinct attempt ids times the limit does not exceed the loader's record bound |
| `RestartLedger.FillFills` | `scripts/collect_cva6_hwe_codex.py:218-240` | The bound is reached by one process that is never stopped: tasks of distinct attempt ids that fail at startup as often as is tolerated and then run validly fill the ledger to exactly tasks times limit |
| `RestartLedger.LaunchIdInjective` | `scripts/collect_cva6_hwe_codex.py:223-223` | Launch ids tell attempts and launch counts apart, so run directories may be named by both |
| `TeacherCampaign.JudgeMeaning` | `scripts/collect_cva6_codex_teachers.py:226-361` | When each verdict on an episode falls: success exactly when nothing about it is invalid, it is resolved and its transcript fits; the campaign stops exactly on an invalid attempt; and a success repeats its attempt's fields |
| `TeacherCampaign.Campaign.Collect` | `scripts/collect_cva6_codex_teachers.py:168-384` | The whole loop, with in-memory sets and lists, does what the specification over the disk says, for a kill after any number of durable operations |
| `TeacherResume.ResumedEqualsUninterrupted` | `scripts/collect_cva6_codex_teachers.py:60-384` | However often and by whomever a campaign was launched and cut short, one more launch that nothing kills ends with exactly the disk of the uninterrupted pass over the pool if and only if nothing is there yet, or progress of the same identity is saved and every run directory belongs to a recorded attempt; every other launch is refused, for the stated reason (no progress, another identity, a stopped campaign, an untracked run), and changes nothing |
| `TeacherResume.KilledBeyondResuming` | `scripts/collect_cva6_codex_teachers.py:90-114` | Both ways to be beyond resuming happen: a kill between the directory and the first save, and a kill inside the first episode |
| `TeacherResume.Undisturbed` | `scripts/collect_cva6_codex_teachers.py:168-384` | A single launch left alone ends as the uninterrupted pass does |
| `TeacherResume.ReturnIsPassEnd` | `scripts/collect_cva6_codex_teachers.py:365-384` | A launch that returns normally, at whatever point of whatever life, has left exactly the disk of the uninterrupted pass, bindings included, also after a crash between the final status and the bindings |
| `TeacherResume.AtMostOnce` | `scripts/collect_cva6_codex_teachers.py:205-210` | No episode is started twice over the whole life of a campaign, provided a run creates its directory first |
| `TeacherResume.SavedStateOk` | `scripts/collect_cva6_codex_teachers.py:226-384` | At every save of every life: successes are the in-order projection of the eligible attempts, of distinct tasks, within token limit and target; an invalid attempt stands only last, exactly when the campaign is stopped; bindings exist only when completed, and hold the successes |
| `TeacherResume.PassStateOk` | `scripts/collect_cva6_codex_teachers.py:181-363` | The same invariant for every prefix of the uninterrupted pass |
| `TeacherResume.BehindIsSkipped` | `scripts/collect_cva6_codex_teachers.py:190-207` | Every pool entry a resumed campaign has behind it is skipped: its task succeeded, or it is unchanged and already attempted |
| `TeacherResume.IdsOfEarlier` | `scripts/collect_cva6_codex_teachers.py:205-205` | Attempt ids belong to earlier pool positions, each once, whatever the campaign name |
| `TeacherResume.LifeTracks` | `scripts/collect_cva6_codex_teachers.py:60-384` | Every disk any life can reach is untouched, abandoned before the first save, or the pass over some prefix of the pool, at most one started episode ahead of what is saved |
| `Decimal.Pad2Injective` | `scripts/collect_cva6_codex_teachers.py:205-205` | Zero-padding to two digits never maps two pool positions to one text, also beyond 99 |
| `TreeHash.SourcePaths` | `build_backend/verigym_build_backend.py:95-114` | The hashed paths are the ascending list of exactly the non-empty, non-excluded listed paths |
| `TreeHash.ListingOrderIrrelevant` | `build_backend/verigym_build_backend.py:107-114` | Two listings give the same path list if and only if they name the same set of hashed paths: order and repetition do not matter |
| `TreeHash.SourceTreeHash` | `build_backend/verigym_build_backend.py:117-143` | The loop feeds the digest exactly the encoded entries of the tree in order, or fails for the first path that has none |
| `TreeHash.FeedEntry` | `build_backend/verigym_build_backend.py:119-142` | One path adds exactly the tagged, length-prefixed encoding of what is found there, or fails with the stated reason |
| `TreeHash.DecodeStream` | `build_backend/verigym_build_backend.py:117-143` | The byte stream is uniquely decodable: the decoder recovers the exact entry list, for all lists with lengths below 2^64 |
| `TreeHash.BigRoundTrip` | `build_backend/verigym_build_backend.py:121-121` | Big-endian bytes of a given width give back every number that fits, and nothing else fits |
| `TreeHash.SameStreamSameTree` | `build_backend/verigym_build_backend.py:117-143` | Two trees feed the digest the same bytes if and only if they list the same paths and agree at each on presence, kind, execute bits and payload |
| `Archives.DistinctCount` | `build_backend/verigym_build_backend.py:250-250` | A name list has as many distinct names as entries exactly when no name repeats |
| `Archives.NormalizeWheel` | `build_backend/verigym_build_backend.py:245-274` | A wheel is rejected exactly when two members share a name (or the epoch is negative); otherwise the result is the canonical list of its payloads and attributes, a zero attribute replaced as the ZIP writer does |
| `Archives.NormalizeSdist` | `build_backend/verigym_build_backend.py:277-312` | An sdist is rejected exactly when two members share a name, or one is a link, device or fifo; otherwise the result is the canonical list of its contents |
| `Archives.ReadWheel` | `build_backend/verigym_build_backend.py:252-253` | The two dictionaries together hold exactly what is kept of every member, by name |
| `Archives.ReadSdist` | `build_backend/verigym_build_backend.py:283-288` | The loop rejects exactly the unsupported member types, and keeps exactly the payloads of regular files |
| `Archives.NormalFormCanonical` | `build_backend/verigym_build_backend.py:245-312` | Normalisation keeps every name with what is kept of its member, repeating it changes nothing, and two archives normalise alike if and only if their contents are the same |
| `Archives.WheelsAlike` | `build_backend/verigym_build_backend.py:245-274` | For wheels, as the ZIP writer stores them: two wheels of distinct names are normalised alike if and only if each has the other's names with the same payload and stored attribute; normalising twice changes nothing; every payload survives |
| `Archives.SameContents` | `build_backend/verigym_build_backend.py:245-312` | Contents are equal exactly when each archive holds every (name, kept part) of the other: order and overwritten attributes play no role |
| `Archives.CanonicalHolds` | `build_backend/verigym_build_backend.py:257-272` | The canonical list holds exactly the contents, under distinct names |
| `BuildScopes.WorkTree.GeneratedProvenance` | `build_backend/verigym_build_backend.py:208-219` | The provenance file is back to its earlier state, absence included, however the body ends |
| `BuildScopes.WorkTree.InScopes` | `build_backend/verigym_build_backend.py:222-238` | The body starts with no build tree and the generated provenance. Whatever it does and however it ends, the provenance file is back to its earlier state; build path and backups are too, if and only if the body leaves a directory there or nothing. A plain file left there makes the cleanup raise, and the earlier tree stays in the backup |
| `BuildScopes.WorkTree.BuildWheel` | `build_backend/verigym_build_backend.py:315-323` | Unless the backend leaves a plain file at the build path, a wheel build leaves the work tree as it was; it returns a normalised wheel that depends on nothing the tree held before |
| `BuildScopes.BuildsReproduce` | `build_backend/verigym_build_backend.py:315-323` | A wheel that one backend builds is reproduced by another if and only if that one leaves a removable build path, distinct names, and under each name the same payload and stored attribute, in any order and with any timestamps |
| `GatedCollection.Collect` | `scripts/collect_cva6_hwe_openhands_v17.py:179-369` | The collector's loop over lists in memory and files on disk computes what the specification says, on every exit, with every write from the first loop head on free to raise, those of a stop and of the conclusion included |
| `GatedCollection.RunEpisode` | `scripts/collect_cva6_hwe_openhands_v17.py:262-301` | The guarded part of the loop body names the stage that failed, or yields the new attempt with the files written so far |
| `GatedProperties.CollectionExits` | `scripts/collect_cva6_hwe_openhands_v17.py:179-369` | For every gate, episode and write behaviour, on every exit: records and dry runs of each role number what that role's attempts claim, imports included; the executed episodes are a duplicate-free subsequence of the schedule, each in the role the gate asked for at that moment; and the persisted files fit how the collection ended, also when a write of the stop or of the conclusion raised |
| `GatedProperties.TakeKeeps` | `scripts/collect_cva6_hwe_openhands_v17.py:253-314` | Every turn of the loop keeps: persisted attempts equal those in memory, conservation per role, order, and roles as asked |
| `GatedProperties.StopMeaning` | `scripts/collect_cva6_hwe_openhands_v17.py:775-793` | A stop, whatever it is called for, ends closed with everything denied exactly when the gate answers once more and all three writes succeed; no prefix of the three writes allows anything |
| `GatedProperties.EpisodeFailure` | `scripts/collect_cva6_hwe_openhands_v17.py:302-310` | An episode that fails at a stage leaves a persisted gate and two reports that deny submission with its invalid attempt last, exactly when the gate answers on those attempts and all three writes of the stop succeed; otherwise no report is left and nothing that is left allows submission |
| `GatedProperties.FailureUnreported` | `scripts/collect_cva6_hwe_openhands_v17.py:302-310` | Both ways to lose a report happen to a whole collection: the gate raises on the invalid attempt, or it answers and one of the three writes raises |
| `GatedProperties.AllowedIffCompleted` | `scripts/collect_cva6_hwe_openhands_v17.py:316-369` | The persisted report allows GPU submission if and only if the collection completed, and then the gate holds on the reported attempts; the progress file allows it besides only when the write of the report right after it raised |
| `GatedProperties.ImportKeeps` | `scripts/collect_cva6_hwe_openhands_v17.py:182-196` | The imports alone are conserved, sound, and as many as planned |
| `GatedRecords.DatasetsAreTheFiles` | `scripts/collect_cva6_hwe_openhands_v17.py:179-196` | On every exit of every collection over distinct tasks: the records held for each role, from which its dataset is written, are exactly the record files of that role's attempts in order; the dry runs are those of the records one by one; and no record is overlength |
| `GatedRecords.AttemptedKeeps` | `scripts/collect_cva6_hwe_openhands_v17.py:262-314` | One episode, however it ends and whatever write fails, keeps records, files and dry runs in step |
| `GatedRecords.PlannedAreDistinct` | `integrations/verigym-openhands/src/verigym_openhands/hwe_v17_collection.py:54-57` | The inputs of a collection that follows its plan are distinct, so the above applies to it |
| `CollectionGate.Evaluate` | `integrations/verigym-openhands/src/verigym_openhands/hwe_v17_collection.py:417-496` | The gate's walk over the attempts, with its five sets, raises, denies or answers exactly as specified |
| `GateDrivenRuns.RealGateNeverRaises` | `integrations/verigym-openhands/src/verigym_openhands/hwe_v17_collection.py:417-496` | Driven by the real gate over its own schedule, no collection ever makes the gate raise: it completes, stops closed, fails writing datasets, rejects an import, or is cut short by a write of its stop or conclusion that raised; and a completed one has reached both targets with distinct eligible tasks and overshot neither (except by imports alone) |
| `GateDrivenRuns.WalkedPasses` | `integrations/verigym-openhands/src/verigym_openhands/hwe_v17_collection.py:465-473` | The sets the gate counts are exactly the tasks of each role with an eligible attempt |
| `GateDrivenRuns.AskedIsOrderly` | `scripts/collect_cva6_hwe_openhands_v17.py:253-261` | Whatever attempt the collector makes when the gate asks for a role is the very next one the gate will accept in order |
| `GateDrivenRuns.SkippedIsTraining` | `scripts/collect_cva6_hwe_openhands_v17.py:260-261` | A schedule position the gate passes over belongs to training, whose target is then reached |
| `GatedProperties.LoopRule` | `scripts/collect_cva6_hwe_openhands_v17.py:253-314` | The proof rule of the collection loop: what every turn keeps and every exit satisfies holds of the whole loop |
| `Sampler.GroupRows` | `integrations/verigym-training-reference/src/verigym_training_reference/hwe_decision_sft_64k.py:147-169` | Rows are grouped without loss, and rejected exactly when one is malformed or two of one trajectory disagree on its length or share a decision |
| `Sampler.OrderGroup` | `integrations/verigym-training-reference/src/verigym_training_reference/hwe_decision_sft_64k.py:170-178` | A trajectory's decisions are sorted, and rejected exactly when one lies outside its declared length |
| `Sampler.Schedule` | `integrations/verigym-training-reference/src/verigym_training_reference/hwe_decision_sft_64k.py:134-187` | The scheduler fails exactly on invalid rows; otherwise it returns one lap over all trajectories for each slot, as many slots as the longest trajectory has decisions |
| `SamplerManifest.LapsBalanced` | `integrations/verigym-training-reference/src/verigym_training_reference/hwe_decision_sft_64k.py:180-187` | Over any number of slots every trajectory is sampled that many times, and nothing else is |
| `SamplerManifest.RankTaken` | `integrations/verigym-training-reference/src/verigym_training_reference/hwe_decision_sft_64k.py:184-186` | Every decision of a trajectory is taken by some slot |
| `SamplerManifest.EveryRecordScheduled` | `integrations/verigym-training-reference/src/verigym_training_reference/hwe_decision_sft_64k.py:180-187` | No record is left out of the schedule |
| `SamplerManifest.CountSchedule` | `scripts/collect_cva6_hwe_openhands_v17.py:567-588` | The counting loop, over any schedule, passes exactly when something is scheduled and every scheduled transcript equally often; then each occurs `samples_per_trajectory` times and the epoch has trajectories times samples entries |
| `SamplerManifest.EqualMultiplicities` | `scripts/collect_cva6_hwe_openhands_v17.py:567-581` | Equal multiplicities: as many entries as distinct ones times the multiplicity |
| `SamplerManifest.WriteSamplerManifest` | `scripts/collect_cva6_hwe_openhands_v17.py:553-588` | Scheduler and counter together raise exactly on invalid rows and never because the weights drifted; every record is scheduled, and every trajectory as often as the longest one has records |
| `SealedReports.ValidIffSealed` | `scripts/collect_cva6_hwe_openhands_v37_provider_canary.py:1365-1370` | Validation accepts exactly the reports that sealing leaves as they are, and returns them whole |
| `SealedReports.SealValidates` | `scripts/collect_cva6_hwe_openhands_v37_provider_canary.py:1396-1399` | A sealed report validates, sealing it again changes nothing, and no other field is touched |
| `SealedReports.TamperingCollides` | `scripts/collect_cva6_hwe_openhands_v37_provider_canary.py:1365-1370` | A sealed report changed elsewhere and still accepted exhibits two contents with one hash |
| `ProviderCanary.Collect` | `scripts/collect_cva6_hwe_openhands_v37_provider_canary.py:230-373` | The canary's loop passes through exactly the specified sequence of durable states and ends as specified |
| `ProviderCanary.CountReceipts` | `scripts/collect_cva6_hwe_openhands_v37_provider_canary.py:1420-1425` | The receipt counts of a report are those of its attempts |
| `CanaryProperties.InvocationGood` | `scripts/collect_cva6_hwe_openhands_v37_provider_canary.py:287-373` | Every durable state of an invocation, so whatever a kill leaves: the executed episodes are a prefix of the schedule, all attempts but the last are clean, every report file verifies under the seal and only a clean run is ever allowed; on a reported exit the two reports are equal, list the filed attempts with the status they deserve, and allow collection (without a failure reason) if and only if the whole required schedule ran clean |
| `CanaryProperties.OneInvocationRuns` | `scripts/collect_cva6_hwe_openhands_v37_provider_canary.py:1373-1377` | Over any invocations on one path, one after another and each killed anywhere, at most one gets as far as creating the directory; it leaves a sound state, and every later one is refused and changes nothing |
| `CanaryProperties.FinalTells` | `scripts/collect_cva6_hwe_openhands_v37_provider_canary.py:352-371` | A closing report lists the filed attempts, their receipt counts and the status, and gives a reason exactly when it denies |
| `CanaryProperties.LoopGood` | `scripts/collect_cva6_hwe_openhands_v37_provider_canary.py:300-349` | From any loop head, every exit of the loop leaves sound states and a report that is closed |
| `CanaryProperties.FiledSound` | `scripts/collect_cva6_hwe_openhands_v37_provider_canary.py:328-331` | Filing an attempt and saving progress keeps every state sound, and restores the loop invariant exactly when the attempt is clean |
| `BoundedStream.CopyMeaning` | `scripts/fetch_pinned_crane_release.py:91-106` | The bounded copy ends properly exactly on streams that hold at most the limit, and has then written all of it; it writes only a prefix, never more than the limit, in at most limit + 1 reads |
| `BoundedStream.EndlessStops` | `scripts/fetch_pinned_crane_release.py:91-106` | On a stream without end the copy still stops, unfinished, within the same number of reads |
| `BoundedStream.OutputFile.Download` | `scripts/fetch_pinned_crane_release.py:78-108` | A download succeeds exactly when the path is free, the URL checks and the connection hold, the size is in bound, and the stream holds exactly that many bytes with that digest; the file then is the stream. An existing file is never touched, and at most the registered size is ever written |
| `BoundedStream.FindCrane` | `scripts/fetch_pinned_crane_release.py:174-187` | The archive is accepted exactly when its members are few, safe and regular and exactly one bounded one is the binary |
| `BoundedStream.OneCandidate` | `scripts/fetch_pinned_crane_release.py:185-187` | One candidate means exactly one position of that name |
| `BoundedStream.OutputFile.CopyInto` | `scripts/fetch_pinned_crane_release.py:191-208` | The extraction copy succeeds exactly when the member's stream holds its declared size, and fails as oversized or truncated accordingly |
| `BoundedStream.OutputFile.ExtractCrane` | `scripts/fetch_pinned_crane_release.py:170-212` | Extraction succeeds exactly when all its rules hold; the file then is the member's content and its digest is returned |
| `ReleaseChecks.ValidateChecksums` | `scripts/fetch_pinned_crane_release.py:119-126` | The checksum list is accepted exactly when one line, and no other, binds the asset's name, and binds it to this digest |
| `ReleaseChecks.AcceptedIffBound` | `scripts/fetch_pinned_crane_release.py:120-126` | The digests found by splitting are the expected one alone exactly when that one line exists |
| `ReleaseChecks.EntryIsSplit` | `scripts/fetch_pinned_crane_release.py:122-122` | A line joined from digest, two spaces and name is split where it was joined |
| `ReleaseChecks.UniqueObject` | `scripts/fetch_pinned_crane_release.py:129-135` | An object is accepted exactly when its keys are distinct, and then maps each key to its value and nothing more |
| `MemberScan.CheckName` | `scripts/audit_codex_cli_distribution.py:35-46` | A name is accepted exactly when all name rules hold, and then normalised |
| `MemberScan.ScanMembers` | `scripts/audit_codex_cli_distribution.py:49-73` | The scan accepts exactly when all count, name and size rules hold and the normalised names are distinct, returning them in order; before it stops it reads at most total limit + member limit + 1 bytes |
| `MemberScan.AcceptedNamesDistinct` | `scripts/audit_codex_cli_distribution.py:55-60` | Accepted names are distinct as text and as paths, and none climbs out of the archive |
| `PosixPaths.NormalForm` | `scripts/audit_codex_cli_distribution.py:36-46` | The normal form of a path has the same components and is its own normal form |
| `PosixPaths.SameNormalForm` | `scripts/audit_codex_cli_distribution.py:56-58` | Two relative paths have one normal form exactly when they have the same components |

## Left out

- Docker, provider and model calls, git subprocesses, network redirects, argument parsing, environment checks and printing: plumbing around the modelled loops; what they return is a parameter.
- Identity checklists and pinned hash constants: each is settled by reading one branch. A resumed campaign's identity is compared as one value.
- The ZIP and TAR byte formats, and gzip: archives are member lists. A ZIP member's flag bits are no part of it, since the writer derives them from the name.
- Secret-pattern and content scans, and the `issues` list they fill: regular expressions over payloads.
- I/O failures inside the build backend's own setup and cleanup, and an interrupt after a rename has completed.
- `build_sdist` and `build_editable`: they use the same two scopes as `build_wheel`; the sdist normalisation is modelled by itself.
- The rest of `HweCampaignState`: which task is next, the pilot gate and completion. Tasks are taken up in any order here, until an invalid attempt stops the campaign.
- The assembly of handoff documents and the choice of eligible examples: inputs of the handoff here.
- `_stop_for_campaign_limit` in the teacher campaign: taken not to fire. A campaign it stopped would not be refused on resume, since only the infrastructure-invalid status is.
- `TeacherResume.AtMostOnce`: rests on a run creating its directory as its first step, which is the run service's behaviour and not part of this model.
- Saved progress that is malformed JSON or was edited by hand: progress on disk is always one the campaign wrote.
- `JsonRoundTrip.RoundTrip`: leaves out NaN and the infinities, Python's limit on integer digits and on recursion depth, and takes every float by its printed text.
- UTF-8 decoding of git's listing: paths are byte strings, whose order agrees with that of the decoded strings.
- `Trajectories.PublishedThenLoaded`: takes the manifest itself to be within the 64 MiB its reader accepts, and the record contract to return the record unchanged.
- `Restarts.Collector.CollectTask`: a launch's first durable operation is its run directory, so a preparation that raises before it is not modelled, nor is a ledger write that raises apart from a kill before it; the failure category copied into a record is left out of the record's body.
- The verdict on the last launch of a restart loop (model action rejections, sample statuses): expression-style code after the loop.
- `GatedCollection.Collect`: writing the two datasets and scanning them is one step that succeeds or raises; the sampler manifest inside it has its own model. Preregistration and image receipts and a write that raises before the first loop head are left out. A process killed in the middle has no steps of its own: its files are those of a run whose next write raises and whose stop writes nothing; the exception type inside a stop reason is a parameter.
- `GatedRecords.DatasetsAreTheFiles`: record files are named by task here, by role and task in the source.
- `CanaryProperties.OneInvocationRuns`: invocations that race are not modelled; the directory is created exclusively.
- The seal on the v17 reports: the same construction as the canary's, modelled there.
- The canary's receipts, token counts and six planes are given with each attempt; usage totals come from an arbitrary accounting function that may raise.
- `ProviderCanary.Collect`: writing the agent version and the contract receipt, and the subdirectories, are left out between the creation of the output directory and the first progress file.
- `BoundedStream.OutputFile.Download`: a connection that raises in the middle of the stream is not modelled; a timeout is a connection failure.
- `PosixPaths.Suffix` follows Python before 3.14, where a final dot gives no suffix.
- `_validate_provenance` beyond its duplicate-free objects: base64 and nested checks that one reading settles.
- The other canary runners, the v17 continuation runner and the `authorize_*` scripts: they repeat the modelled state machines or are checklists.
