# Copy export and archive deletion: a verified model

MailArchive copies messages out of a mailbox or an archive into a folder and finishes that folder so that it
can be checked later; it also deletes archives from a terminal, where a signal may arrive at any moment. This
project models those engines and proves what their comments promise.

- **Seal and finish** (`Ledger`, `SealEngine`, `SealConvergence`, `SealChain`, `SealStages`, `LedgerCut`). The last
  step of an export appends to three logs (run record, fingerprint ledger, journal) and rewrites a marker, and may be cut
  off after any write. Parts of a retry chain share a running SHA-256 whose state is resumed from the ledger.
  `Ledger` gives the disk and the step as one durable effect at a time; `SealEngine` is the code over it.
- **The run record** (`RunRecord`, `Presence`, `Sums`, `ExportCheck`, `FinishedFolder`, `DroppedFiles`,
  `SumsCap`). Independent passes over one
  amended log give the counts, the manifest's lists, the final status and SHA256SUMS.txt; the presence check amends the
  log; the later check of a folder parses the sums again.
- **The delete verb's signal watch** (`DeleteWatch`, `DeleteSignals`). Two threads, a mutex, phases, and a file
  that may still be in creation.
- **Names** (`FreeNumber`, `UniqueNames`, `Namer`, `NamerApart`, `NamerClash`, `NamerEngine`),
  **the archive tree** (`Folders`, `FolderOrder`, `ArchiveTree`, `ArchiveListing`, `ArchiveBuild`), **zips** (`ZipBounds`, `ZipSpace`), **message writes**
  (`MessageFiles`), **the no-progress breaker** (`Breaker`) and **scheduled jobs** (`Flags`, `Jobs`,
  `JobForms`, `JobExamples`).

Conventions. A SHA-256 state is the text absorbed so far (saving and resuming are inverses) and a digest is an
injective constructor over it (`Ledger.Digest`); where a digest is a string of 64 digits, a lemma that needs it
says which two texts do not collide. A character of SHA256SUMS.txt, of a run id or of an archive's folder path
and token (`Folders.MAX_NAME`, `ArchiveTree.MAX_ID_BYTES`) is one byte; a character of a name given in an export or of
an argument is a Unicode one. Case folding, name candidates, deflate and the platform's paths are
parameters; what is assumed of them is a named predicate (`UniqueNames.Numbered`, `UniqueNames.Congruent`,
`Namer.Told`, `NamerApart.AllHashesTell`, `NamerEngine.LongestLast`, `ZipSpace.Bounded`, `ZipBounds.Sane`,
`Jobs.EnvOk`, `Jobs.Rooted`).
A crash is a prefix of the durable effects that a reader sees; an append happens whole or not at all, and a
ledger line past 4,096 bytes is cut, so that no reader sees it. A method whose source
changes fields in place is a class method proved equal to a function of the old state, and the theorems are
about that function.

Where the code and its words differ, the model follows the code, and a lemma shows the case:

- `SealChain.GoneTakesTheLine`: the ledger's `gone` line is meant for runs that never sealed, but a run sealed
  whose ledger line is still missing can be given one, which then takes its place; `SealedLineLands` says
  exactly when the sealed line lands.
- `DeleteSignals.UnremovableProbeIsNotNamed`: an exit while reading names no file it could not remove.
- `LedgerCut.CutShows`: a chain's ledger line names every part, and after 190 or 191 parts it is past the cut that
  no line is said to reach: two parts are then owed their lines at once, the second's set state leaves the first
  out, and every run of the last step writes one more line nobody can read. `SealChain.AtMostOneOwed`,
  `SealChain.SealedLineLands`, `SealConvergence.FinishedExactlyOnce` and `LedgerCut.SealHolds` say what holds on
  either side of the cut.
- `UniqueNames.MemoryShows`: the counter kept per fold key skips free numbers where folding is not congruent, as
  the byte limit makes it for two letters of different length that fold alike (U+1C80 and U+0432);
  `MemoryIsHarmless` says exactly when it does not.
- `NamerClash.FoldersMerge`: folders do merge, and a directory passes 1,000 files, where siblings are named as a
  folder would be with each of its five hashes: the last rung is not looked at again. `NamerApart.ApartExactly`
  says that directories keep apart exactly when every folder made found a free name, and `HashesSuffice` that the
  hashes see to it unless a name spells one out.
- `DroppedFiles.DroppedShows`: a run's own folder checks red where its finish dropped a file from the record that is
  still there (a damaged readable copy, or any file of a message that lost an original): nothing takes it away, so it
  is not listed, and the red is not laid to derived copies. `FinishedFolder.GreenUnlessDropped` says that this, damage
  unseen because nothing was hashed, and sums too long to be read are the only reasons;
  `FinishedFolder.FinishedIsGreen` is the same whatever else is in the folder.
- `SumsCap.CapShows`: "Check this export" reads at most 64 MiB of sums and calls a larger export unreadable, which
  the check that completes a seal passes; `ExportCheck.ChecksAgree` holds exactly up to it.
- `MessageFiles.BoundIsPassed`: a message's parts may pass their bound after using it up to the last byte;
  `BoundHolds` says exactly when.
- `Breaker.SignInStopIsLost`: a stop for a changed sign-in gives way to the breaker's own when it comes during
  the probe; `StopReplaced` and `StopDuringProbe` say exactly when.
- `JobExamples.ExamplesDiffer`: a path with a comma, or with white space of Unicode at an edge, is split or trimmed
  when a job's command is read again, and in the flat form, which also drops `-log`;
  `Jobs.CommandReparsesExactly` and `JobForms.FlatIsTheSame` say exactly when the job is another.

## Model

| member | source | states |
|---|---|---|
| Ledger.FirstOwed | internal/app/copyexport_final.go:1101-1120 | the part found is owed a ledger line that can be read, and none before it in the chain's index is |
| Ledger.SealOf | internal/app/copyexport_record.go:477-565 | a record has a seal exactly when one of its lines is a sealed line, and it is one of them |
| SealEngine.ExportEnv.ReadSealed | internal/app/copyexport_record.go:477-565 | the loop over a record finds the last sealed line |
| SealEngine.ExportEnv.HasLedgerLine | internal/app/copyexport_record.go:968-976 | true exactly when some ledger line, of any kind, names the run |
| SealEngine.ExportEnv.HasEnd | internal/app/copyexport_record.go:924-933 | true exactly when the journal holds the run's end |
| SealEngine.ExportEnv.LatestState | internal/app/copyexport_final.go:1071-1085 | the backward scan resumes from the newest line of the chain whose set state decodes |
| SealEngine.ExportEnv.BuildSealedLine | internal/app/copyexport_final.go:1063-1095 | the sealed line: the resumed state with this part's sums absorbed, and its parts with this one last |
| SealEngine.ExportEnv.RecordSeal | internal/app/copyexport_final.go:1024-1026 | the sealed line is appended to the run's record and nothing else changes |
| SealEngine.ExportEnv.AppendLine | internal/app/copyexport_record.go:878-908 | a ledger line up to the cut is appended; one past it changes nothing a reader sees |
| SealEngine.ExportEnv.AppendMissingLedger | internal/app/copyexport_final.go:1101-1120 | every other sealed part of the chain gets its missing ledger line, in index order, where it can be read |
| SealEngine.ExportEnv.Seal | internal/app/copyexport_final.go:1020-1027 | the seal comes when no other part is owed its line |
| SealEngine.ExportEnv.EnsureSealed | internal/app/copyexport_final.go:1010-1029 | the run is sealed afterwards, or the effects ran out |
| SealEngine.ExportEnv.EnsureLedgerLine | internal/app/copyexport_final.go:1122-1135 | the ledger line copied from the sealed line, once per run; a line past the cut is written again each time |
| SealEngine.ExportEnv.MarkerAction | internal/app/copyexport_final.go:1140-1168 | the marker action of the sealed status, and of nothing else |
| SealEngine.ExportEnv.EndJournal | internal/app/copyexport_final.go:1040-1047 | the journal end once, from the sealed line |
| SealEngine.ExportEnv.SealAndFinish | internal/app/copyexport_final.go:1005-1050 | the whole step says that it is done exactly when nothing is left, and leaves the disk of the first so many effects, for every number of them, and one more unreadable line whenever the sealed run's own is past the cut |
| SealConvergence.FinishIsDone | internal/app/copyexport_final.go:991-1003 | the step always ends, with nothing left to do |
| SealConvergence.UnsealedAttemptIsNeutral | internal/app/copyexport_final.go:991-1050 | an attempt cut off before its sealed line leaves nothing that depends on what it proposed |
| SealConvergence.ProposalForgotten | internal/app/copyexport_final.go:1014-1047 | once sealed, what later attempts propose makes no difference and the seal stays |
| SealConvergence.ConvergesAfterCrash | internal/app/copyexport_final.go:991-1050 | a crash after any effect and a second run reach an uninterrupted run's state |
| SealConvergence.Converges | internal/app/copyexport_final.go:991-1050 | the same over any history of interrupted attempts with any proposals |
| SealConvergence.LaterImpliesEarlier | internal/app/copyexport_final.go:1005-1050 | in any history of the run's own attempts a later effect is durable only with all earlier ones, all from one sealed line, none twice |
| SealConvergence.FinishedExactlyOnce | internal/app/copyexport_final.go:991-1050 | the end state has exactly one sealed line, one journal end, the marker action and, exactly where it is within the cut, one ledger line |
| SealConvergence.FinishedSays | internal/app/copyexport_final.go:1005-1168 | whatever attempts were cut off, the winning proposal's status, counts, stop and sums digest are sealed in the end; a complete or partial run has no marker unless it met another run's, any other has its own with the sealed counts, CANCELLED exactly for cancelled; the one journal end and the ledger line say the same, field by field |
| SealConvergence.ForeignMarkerKept | internal/app/copyexport_final.go:1137-1148 | a complete or partial seal never removes a marker that carries another run's id |
| SealConvergence.SealedAsProposed | internal/app/copyexport_final.go:1063-1095 | the sealed line has the proposal's status, counts, stop and the digest of its sums |
| SealChain.ReachableInv | internal/app/copyexport_final.go:1005-1135 | the chain invariant holds after every interleaving of creations, refusals, seal steps of all parts, backfills, gone answers and deletions |
| SealChain.SetStatesAreExact | internal/app/copyexport_final.go:1059-1095 | every set state is the hash state of the sums of exactly its duplicate-free parts in seal order, and later ones extend earlier ones |
| SealChain.AtMostOneDue | internal/app/copyexport_final.go:1097-1120 | at most one sealed part of a chain lacks a ledger line it can have |
| SealChain.AtMostOneOwed | internal/app/copyexport_final.go:1097-1120 | two sealed parts of a chain lack their ledger lines only where one of the lines is past the cut |
| SealChain.ResumeIsWhole | internal/app/copyexport_final.go:1071-1085 | what the backward scan resumes is the whole of the chain's lines, past lines that carry no state |
| SealChain.ChainSet | internal/app/copyexport_history.go:520-541 | the retry set shown is the newest line of the chain with a set state |
| SealChain.ChainSetIsWhole | internal/app/copyexport_history.go:520-541 | its fingerprint is the digest of all the chain's sealed sums in order |
| SealChain.SealedLineLands | internal/app/copyexport_final.go:1122-1135 | finishing leaves a sealed ledger line exactly where it is within the cut and no line of another kind is there already |
| SealChain.GoneTakesTheLine | internal/app/copyexport_reconcile.go:498-534 | a reachable disk on which a `gone` line has taken a sealed run's place |
| SealStages.EventMoves | internal/app/copyexport_final.go:1005-1135 | whatever happens to any run of the chain, another run only moves on by one of its own steps |
| SealStages.StagesReachable | internal/app/copyexport_final.go:1005-1135 | over every interleaving a run's seal, ledger line and journal end are durable in this order, once each and of one sealed line, unless a bare line took the ledger line's place or it is past the cut |
| SealStages.LaterImpliesEarlierInChain | internal/app/copyexport_final.go:1005-1168 | the same with the marker action, and nothing taken back, over every interleaving that leaves the run's marker alone |
| SealStages.FinishedOnceInChain | internal/app/copyexport_final.go:991-1050 | finishing from any reachable disk ends with one seal, one journal end, the marker action, each field by field, and the line that was there, or else the seal's exactly where it is within the cut |
| LedgerCut.ResumeHolds | internal/app/copyexport_final.go:1071-1085 | once nothing is due for a sealed part, what its chain resumes holds it exactly where its line is within the cut and no bare one took its place |
| LedgerCut.SealHolds | internal/app/copyexport_final.go:1059-1095 | so a seal holds exactly those of its chain's earlier parts |
| LedgerCut.CutNeverLands | internal/app/copyexport_record.go:890-892 | a sealed part whose line is past the cut never has a sealed ledger line |
| LedgerCut.SealedBytes | internal/app/copyexport_record.go:940-951 | a sealed line is 430 bytes, its status word, its time and 19 bytes a part, so a complete one is within the cut exactly up to so many parts |
| LedgerCut.BareBytes | internal/app/copyexport_record.go:940-951 | a gone or refused line is 77 bytes, its word and its time: always within the cut |
| LedgerCut.CutShows | internal/app/copyexport_record.go:890-892 | a reachable chain past the cut: two parts owed at once, the second's set state without the first, neither ever finished with a line |
| RunRecord.ReadAmendments | internal/app/copyexport_record.go:625-639 | the last amendment of each message |
| RunRecord.CountRecord | internal/app/copyexport_final.go:30-58 | the counting loop gives the counts of the effective lines, unattempted messages included |
| RunRecord.MergeLines | internal/app/copyexport_record.go:645-735 | the two-cursor merge pairs every planned message, in order, with its effective line |
| RunRecord.WalkMessages | internal/app/copyexport_record.go:645-735 | the same for a whole record |
| RunRecord.ManifestPass | internal/app/copyexport_final.go:833-897 | one pass of the manifest lists exactly the messages its list takes |
| RunRecord.ListAgainstCount | internal/app/copyexport_final.go:833-897 | a list over the plan has the counted entries and those of messages with no line |
| RunRecord.PassesAgree | internal/app/copyexport_final.go:30-58 | Selected = Exported + Failed + NotAttempted, Exported counts the messages whose files are listed, and the manifest's three lists have exactly Selected, Failed and NotAttempted entries |
| RunRecord.CompleteMeansAll | internal/app/copyexport_final.go:60-67 | a proposed complete stays complete exactly when every planned message was exported with what was asked of it, and is partial otherwise; any other proposal stands |
| Presence.CheckDerived | internal/app/copyexport_final.go:253-284 | the look at a message's derived files: which are kept, why a readable copy is lost, the notes on lost attachments, or that the volume does not answer |
| Presence.CheckOriginals | internal/app/copyexport_final.go:285-326 | the look at its originals, up to the first not backed |
| Presence.DroppedAreTold | internal/app/copyexport_final.go:258-284 | derived files are dropped exactly when a reason or a note is given |
| Presence.CheckMessage | internal/app/copyexport_final.go:249-328 | the amendments owed to one message, with their reasons and notes, the one for an original last |
| Presence.CheckPresence | internal/app/copyexport_final.go:238-328 | nothing is appended unless every message was answered for; then the amendments, in order, as far as appends succeed |
| Presence.EffectiveAfter | internal/app/copyexport_final.go:238-328 | after the check each message's effective line is its last amendment, or its own line, and the record is well formed |
| Presence.PresenceIsSound | internal/app/copyexport_final.go:231-328 | afterwards every listed file is there with its recorded bytes, a message stays exported exactly when its originals do, and a second check appends nothing |
| Presence.SilenceIsExact | internal/app/copyexport_final.go:289-312 | no amendment is made at all exactly when the volume gives no answer, to a look or a hash it needs, about a derived file of an exported message or about the first of its originals that is not backed |
| Presence.LostOriginalIs | internal/app/copyexport_final.go:294-318 | a message that lost an original is not attempted where Finish as partial finds the file gone, else failed and retryable, as gone or damaged; it lists no file |
| Presence.LostCopiesAre | internal/app/copyexport_final.go:253-284 | one that lost derived files only lists those backed, is left original only exactly where a readable copy is lost, told first, and has a note for each lost attachment and no other |
| Sums.BuildSums | internal/app/copyexport_final.go:956-985 | the text built by the loops is the printed lines of README, manifest and every exported message's files, sorted |
| Sums.SlashedAt | internal/app/copyexport_names.go:247 | a path in the sums has slashes where the recorded one has backslashes, and is the same else |
| Sums.SealedLinesSorted | internal/app/copyexport_final.go:975 | the lines are in path order |
| Sums.ParseRender | internal/app/copyexport_history.go:884-896 | reading back what was printed gives exactly the lines printed |
| Sums.ParseLineIs | internal/app/copyexport_history.go:884-892 | a line is a file's exactly when it is 64 characters, the first two spaces of it, and a path; empty ones are passed over and any other is malformed |
| Text.SplitJoin | internal/app/copyexport_history.go:884 | splitting a joined list at its separator gives the list back |
| ExportCheck.CheckLines | internal/app/copyexport_history.go:883-904 | the loop over the sums sorts every line into intact, changed, missing or malformed |
| ExportCheck.WalkFolder | internal/app/copyexport_history.go:905-914 | exactly the files neither listed nor the sums nor the marker are unlisted |
| ExportCheck.DerivedPaths | internal/app/copyexport_history.go:962-984 | the readable copies and attachments the record lists, by their path in the sums |
| ExportCheck.CheckExport | internal/app/copyexport_history.go:827-960 | the verdict as a function of what the folder shows and the record lists; sums past 64 MiB are not read |
| ExportCheck.UnreadMeans | internal/app/copyexport_history.go:858-874 | a check that cannot read the sums finds that and nothing else |
| ExportCheck.GreenMeansIntact | internal/app/copyexport_history.go:788-812 | green exactly when the sums are the sealed ones and within 64 MiB, every listed file has its hash and nothing else is there |
| ExportCheck.FindingsAre | internal/app/copyexport_history.go:883-914 | of the sealed sums each listed file that opens with another hash is changed, each that does not open missing, each file nothing lists unlisted; one problem a finding |
| ExportCheck.DerivedOnlyMeansOriginalsIntact | internal/app/copyexport_history.go:803-811 | a red for derived copies only, exactly when the sums are the sealed ones and read, nothing is unlisted, every original is as it was and some file recorded as a derived one is not |
| FinishedFolder.KeptIsListed | internal/app/copyexport_final.go:238-328 | after the presence check the record lists exactly the files that are backed and of messages that were exported and whose originals all are |
| FinishedFolder.FinishedIsGreen | internal/app/copyexport_final.go:155-214 | a folder left as its run finished it, whatever else is in it, checks green exactly when its sums are within 64 MiB, no listed file is damaged and nothing is there but its own files and listed ones; one re-hashed has no damage, and a red for derived copies only never covers a dropped file |
| FinishedFolder.GreenUnlessDropped | internal/app/copyexport_history.go:905-914 | where it holds its own files and the recorded ones still there, green exactly when the sums are read, nothing listed is damaged, and every recorded file still there is backed and of an exported message whose originals all are |
| DroppedFiles.DroppedShows | internal/app/copyexport_final.go:253-326 | one message with a damaged readable copy, or a lost original beside a readable copy: finished as partial and left alone, it checks red, and not as derived copies only |
| ExportCheck.CheckSums | internal/app/copyexport_reconcile.go:463-493 | no fault exactly when the sums are the sealed ones and every line checks; else which fault: no sums, unreadable, other sums, or that of the first line that has one |
| ExportCheck.ChecksAgree | internal/app/copyexport_reconcile.go:461-493 | the two checks agree on a sealed folder, unlisted files aside, exactly up to 64 MiB of sums |
| SumsCap.CapShows | internal/app/copyexport_history.go:825-881 | above it, with 200,000 messages or more of five files each, one check passes and the other cannot read the sums |
| DeleteWatch.VerbWatch.Set | cmd/mailarchive/archivedelete.go:816-820 | the phase and nothing else |
| DeleteWatch.VerbWatch.BeginChanges | cmd/mailarchive/archivedelete.go:835-845 | refused with the held signal, else the phase is changing |
| DeleteWatch.VerbWatch.Over | cmd/mailarchive/archivedelete.go:847-853 | the phase is done and the held signal returned |
| DeleteWatch.VerbWatch.SavingTo | cmd/mailarchive/archivedelete.go:855-867 | phase and path together |
| DeleteWatch.VerbWatch.CreatorStart | cmd/mailarchive/archivedelete.go:876-879 | the file in creation and its channel |
| DeleteWatch.VerbWatch.CreatorEnd | cmd/mailarchive/archivedelete.go:881-891 | the file owned when made, its channel closed, the acting signal to wait for |
| DeleteWatch.VerbWatch.Disown | cmd/mailarchive/archivedelete.go:896-901 | nothing owned, and the next phase |
| DeleteWatch.VerbWatch.SignalEnter | cmd/mailarchive/archivedelete.go:932-963 | a signal waits for a file in creation in the phases that exit at once, and acts otherwise |
| DeleteWatch.VerbWatch.SignalAct | cmd/mailarchive/archivedelete.go:953-963 | a signal is held exactly in the phases that hold one, the first only |
| DeleteSignals.HeldOrBegun | cmd/mailarchive/archivedelete.go:835-845 | in every interleaving a held signal and begun changes exclude each other, and beginChanges refuses exactly when a signal was seen while holding |
| DeleteSignals.ExitTellsTheTruth | cmd/mailarchive/archivedelete.go:949-1014 | an exit that says nothing was changed or deleted comes before any change, one that says the delete is unfinished after it, one that shows the record when that is being saved |
| DeleteSignals.ExitNamesWhatItLeaves | cmd/mailarchive/archivedelete.go:965-991 | an exit while reading or saving the plan names each file it leaves exactly unless the phase is reading and removal failed |
| DeleteSignals.ExitLeavesOnlyTheUnmade | cmd/mailarchive/archivedelete.go:869-991 | where removal works an exit leaves only a file still in creation, and names it |
| DeleteSignals.ExitSaysWhatIsThere | cmd/mailarchive/archivedelete.go:965-1001 | each of the lines an exit has while reading or saving the plan, exactly by the file in creation, the file owned and its removal; nothing is left where it says so |
| DeleteSignals.SignalComesTo | cmd/mailarchive/archivedelete.go:932-1014 | a signal while changing or saving ends the process at its next step with the line that says so, one while reading or saving the plan within two more steps, three where it waits; in the other phases it does not |
| DeleteSignals.HandshakeEnds | cmd/mailarchive/archivedelete.go:886-891 | a verb waiting for a signal to act never waits for good |
| DeleteSignals.NeverStuck | cmd/mailarchive/archivedelete.go:869-1014 | until the verb returned or the process exited, some step can be taken |
| DeleteSignals.QuestionRound | cmd/mailarchive/archivedelete.go:400-426 | a question asked and answered leaves the verb where it was |
| DeleteSignals.DeleteRound | cmd/mailarchive/archivedelete.go:464-505 | a delete no signal meets holds, changes, ends, saves its record and returns, each in its phase |
| DeleteSignals.ProbeRound | cmd/mailarchive/archivedelete.go:709-718 | a probe file leaves the verb where it was and nothing behind, unless it cannot be removed |
| DeleteSignals.PlanRound | cmd/mailarchive/archivedelete.go:384-396 | a plan is saved under its path and kept, or its file removed; the verb returns |
| DeleteSignals.UnremovableProbeIsNotNamed | cmd/mailarchive/archivedelete.go:970-978 | a reachable exit that leaves a probe file without a word |
| UniqueNames.NameSet.UniqueNameFrom | internal/app/copyexport_names.go:191-216 | the call gives what the specification gives, memory and taken keys included |
| FreeNumber.Search | internal/app/copyexport_names.go:207-215 | the loop over candidates, and over a month's parts, ends within as many steps as there are keys, at the first free number |
| UniqueNames.GivenIsFresh | internal/app/copyexport_names.go:191-216 | the name's key was free and the keys grow by exactly it |
| UniqueNames.AllGivenAreFresh | internal/app/copyexport_names.go:181-216 | over any calls the names given fold apart from each other and from those before |
| UniqueNames.MemoryIsHarmless | internal/app/copyexport_names.go:191-216 | the remembered start gives the scan's name exactly when every number it skips is taken |
| UniqueNames.MemoryRefinesScan | internal/app/copyexport_names.go:187-195 | with congruent folding the remembering form and the scan from 2 give the same names over any calls |
| UniqueNames.TriesAreLinear | internal/app/copyexport_names.go:191-195 | all calls for one key together try at most as many candidates as there are keys |
| UniqueNames.MemoryShows | internal/app/copyexport_names.go:193-215 | with names cut to 255 bytes the two forms differ on three names of letters that fold alike, though different numbers give different names |
| Namer.FolderNameFree | internal/app/copyexport_names.go:80-90 | a new folder's name is free exactly when its own segment or one of the five rungs is |
| Namer.RunKeeps | internal/app/copyexport_names.go:69-140 | as long as every folder made found a free name, every placement is in a month directory of its folder, and the counts are the files placed |
| Namer.NoDirectoryOverflows | internal/app/copyexport_names.go:98-126 | and no directory is ever given more than 1,000 files |
| Namer.RoomIsUsed | internal/app/copyexport_names.go:98-126 | of two messages of a folder and month in a row the second goes where the first did exactly when its files fit there |
| Namer.FoldersNeverMerge | internal/app/copyexport_names.go:65-96 | and messages of different source folders are in directories whose paths differ in a folded segment |
| Namer.MonthIsNoFolder | internal/app/copyexport_names.go:113-125 | no month directory is a folder's where names fold |
| NamerApart.ApartExactly | internal/app/copyexport_names.go:65-126 | all directories, folders' and months', have paths that differ in a folded segment exactly when every folder made found a free name |
| NamerApart.HashesSuffice | internal/app/copyexport_names.go:84-90 | every folder finds one where no other folder's name and no month spells out its hash of 40 digits |
| NamerClash.FoldersMerge | internal/app/copyexport_names.go:84-90 | seven folders of which two are one directory, which is given 1,200 files |
| NamerEngine.Placer.PickName | internal/app/copyexport_names.go:80-89 | the ladder of hash lengths picks the specified name |
| NamerEngine.Placer.FolderDir | internal/app/copyexport_names.go:69-96 | the walk over a message's folders makes exactly the missing directories |
| NamerEngine.Placer.MonthDir | internal/app/copyexport_names.go:98-126 | the month directory with room, or the next part |
| NamerEngine.Placer.Stem | internal/app/copyexport_names.go:143-179 | the stem by shrinking slugs and lengthening digests |
| NamerEngine.Placer.Place | internal/app/copyexport_names.go:128-140 | where a message goes, and every field after it |
| NamerEngine.StemFits | internal/app/copyexport_names.go:143-179 | the subject kept is the longest of 60, 24 and 0 that fits, with the first digits that make the name new; one that keeps any fits 255 bytes with any digest length, and it is new exactly when a rung is |
| Folders.CanonFolder | internal/app/copyexport_archive.go:433-472 | the two scanning loops give the canonical folder, or the first fault of its shape |
| Folders.CanonSpells | internal/app/copyexport_archive.go:433-436 | accepted exactly within the limits, spelling the filled segments, and idempotent |
| FolderOrder.PathLess | internal/app/copyexport_archive.go:602-619 | the loop is the segment-wise order |
| FolderOrder.PathBeforeOrders | internal/app/copyexport_archive.go:602-619 | it is a strict total order on paths |
| FolderOrder.SortedIsDepthFirst | internal/app/copyexport_archive.go:600-603 | sorting a prefix-closed set by it puts each parent before its children and keeps each subtree together |
| ArchiveTree.IdsTell | internal/app/copyexport_archive.go:474-480 | node ids are injective in token and folder |
| ArchiveTree.Builder.Add | internal/app/copyexport_archive.go:507-520 | one more place, counted, and refused exactly when the places so far pass a limit of another archive |
| ArchiveTree.Builder.AddChain | internal/app/copyexport_archive.go:547-564 | longest first with the early break, a path's whole chain of prefixes is added |
| ArchiveTree.Builder.AddRecord | internal/app/copyexport_archive.go:529-565 | a record adds its store, its key and its folder's chain, or is refused |
| ArchiveTree.MadeMeans | internal/app/copyexport_archive.go:482-565 | the places are, in whatever order, those at or above a safe record's folder |
| ArchiveListing.FolderNode | internal/app/copyexport_archive.go:587-594 | a folder's node has its parent's id, its last segment and its count |
| ArchiveListing.ListTree | internal/app/copyexport_archive.go:573-595 | every place is listed, in the order of the trees |
| ArchiveBuild.Build | internal/app/copyexport_archive.go:482-600 | refused exactly when a safe record's folder is out of shape or another archive's whole tree is over a limit; else every place in tree order |
| ArchiveBuild.TreeIsDepthFirst | internal/app/copyexport_archive.go:482-600 | the listing is depth first |
| ArchiveBuild.NodesAreExact | internal/app/copyexport_archive.go:482-600 | one node a place, no id twice, every parent id a node's |
| ArchiveBuild.CountsAddUp | internal/app/copyexport_archive.go:578-594 | the nodes' counts add up to the records of safe stores |
| ArchiveBuild.RefMemo.Refs | internal/app/copyexport_archive.go:621-651 | the memoised chain is the unmemoised recursion |
| ZipBounds.BreachIsExact | internal/app/copyexport_attach.go:543-561 | the division in 64 bits judges the true product, the sum does not overflow, and a refusal names the first bound broken |
| ZipBounds.ProductWraps | internal/app/copyexport_attach.go:554 | judging by the product itself would be wrong |
| ZipBounds.Expand | internal/app/copyexport_attach.go:633-661 | one entry read through never passes its claim by more than a byte nor the zip's whole bound, what is counted is what was read unless a panic ended it, and it passes exactly when it is what it says and expands within the bounds |
| ZipBounds.Extractor.ExtractOne | internal/app/copyexport_attach.go:602-631 | one entry is placed exactly when its claims are within the bounds, it reads well and can be put, or left out for the first reason it gives; the bounds kept |
| ZipBounds.Extractor.ZipEntries | internal/app/copyexport_attach.go:585-632 | over every zip: bytes counted within ratio times its size and the total plus one, all bytes read counted where no entry panics, bytes placed within them, every file entry placed or left out |
| ZipBounds.FineIsWhole | internal/app/copyexport_attach.go:585-632 | a zip whose entries are all within the bounds is extracted whole |
| ZipSpace.AdmissionIsExact | internal/app/copyexport_attachzip.go:165-175 | an admitted part fits with deflate's overhead, and a refused one could only have filled the space exactly |
| ZipSpace.RoomFor | internal/app/copyexport_attachzip.go:172-175 | no step of the room overflows 64 bits, whatever the budget |
| ZipSpace.SpaceWriter.WriteAll | internal/app/copyexport_attach.go:192-214 | none of a stream's writes is refused exactly when the stream fits |
| ZipSpace.PartsFit | internal/app/copyexport_attachzip.go:149-216 | once a part is admitted the entries and the zip's end fit the budget, and every part is an entry or has a note |
| ZipSpace.ZipMaker.ZipParts | internal/app/copyexport_attachzip.go:140-256 | a zip is made exactly when a part is kept and no stop or fault comes first, whole, of exactly the parts that fit and never refused its space; else none, with the one note that says whether space, a stop or the destination ended it, or a note for every part |
| ZipSpace.UndisturbedGoes | internal/app/copyexport_attachzip.go:140-256 | where nothing stops or fails, a zip is made exactly when a part can be kept |
| MessageFiles.WriteFiles | internal/app/copyexport_files.go:179-240 | every part under the first of its names free for it, recorded with hash and size, exactly when none fails, the bound admits each and each has a free name; or only names already given to take back |
| MessageFiles.ExportFiles | internal/app/copyexport_files.go:139-176 | a message is written exactly then, adding exactly its recorded files; else the folder is left as it was |
| MessageFiles.BoundHolds | internal/app/copyexport_files.go:202-226 | the total passes the bound exactly when some parts used it to the last byte before others came |
| MessageFiles.BoundIsPassed | internal/app/copyexport_archive.go:1366 | it does happen |
| Breaker.Watch.Turn | internal/app/copyexport_classify.go:303-336 | one tick of the loop |
| Breaker.Watch.Trip | internal/app/copyexport_classify.go:337-383 | what each answer of the probe does, up to the cancellation it takes |
| Breaker.Watch.AfterRefresh | internal/app/copyexport_classify.go:369-376 | what the end of a sign-in refresh does |
| Breaker.Watch.MakeCancel | internal/app/copyexport_classify.go:387-394 | the cancellation made, after the mutex, of what was taken under it |
| Breaker.Watch.FatalStop | internal/app/copyexport_classify.go:387-391 | the stop, and the message's own cancellation taken |
| Breaker.Watch.SignInChanged | internal/app/copyexport_run.go:154-169 | the stop for a changed sign-in, which takes what is in flight |
| Breaker.TimesAreExact | internal/app/copyexport_classify.go:291-335 | awake time is the sum of the ticks neither suspends nor paused, idle time the counted time since the last reset |
| Breaker.ProbeNeedsWindow | internal/app/copyexport_classify.go:320-333 | a probe is sent exactly when a window was counted since the last reset and no stop stands |
| Breaker.NoProbeAfterStop | internal/app/copyexport_classify.go:328 | no probe starts after a stop |
| Breaker.LoopStopsOnce | internal/app/copyexport_classify.go:337-383 | the loop itself decides at most one stop |
| Breaker.StopDuringProbe | internal/app/copyexport_run.go:154-169 | during a probe a stop stands exactly when the sign-in changed meanwhile |
| Breaker.StopReplaced | internal/app/copyexport_run.go:154-169 | a stop is decided again only by a sign-in change, or by the loop when one came during its probe |
| Breaker.StopStays | internal/app/copyexport_classify.go:384-395 | without a sign-in change the first stop stays |
| Breaker.StopIsTheLast | internal/app/copyexport_classify.go:337-395 | the stop that stands is the one decided last: by an answer that ends a run, a refused refresh or a changed sign-in |
| Breaker.SignInStopIsLost | internal/app/copyexport_run.go:154-169 | a run in which the stop for a changed sign-in is replaced |
| Breaker.OnlyTheMessage | internal/app/copyexport_classify.go:384-395 | however late a cancellation is made, those made and still to be made are exactly those taken, each from the message in flight when the stop or good answer came, and the walk's is the user's alone |
| Flags.ScanEmit | cmd/mailarchive/job.go:236-240 | settings printed as arguments are scanned back exactly |
| Flags.DashesAreOne | cmd/mailarchive/job.go:236-240 | a flag with two dashes is the flag with one |
| Jobs.BoolWords | cmd/mailarchive/job.go:236-240 | a bool flag takes the twelve words of the flag package, and what each means is told by its first character |
| JobForms.VerbFlagsAre | cmd/mailarchive/job.go:434-480 | the flags of each verb, of which the folder and the log take a value |
| Flags.SetList | cmd/mailarchive/main.go:156-163 | one use of a list flag adds its trimmed, filled pieces |
| Jobs.CommandReparses | cmd/mailarchive/job.go:234-322 | an accepted export's command parses to the same job where its absolute paths are one piece each |
| Jobs.CommandReparsesExactly | cmd/mailarchive/job.go:234-322 | and only there |
| Jobs.AcceptedWhen | cmd/mailarchive/job.go:212-278 | an export that parses is a job exactly when nothing in it waits for a person, the platform has what it asks for, folder, mode and time are read, no value has a control character, followed inputs are inputs and a profile comes with the pre-sync |
| Jobs.CommandMeans | cmd/mailarchive/job.go:279-321 | the job's command, read by the export it starts, asks for what was asked for, switch by switch, with absolute paths and unattended |
| JobForms.JobArgs | cmd/mailarchive/job.go:279-321 | the appended arguments are the job's settings printed |
| JobForms.ExportJob | cmd/mailarchive/job.go:212-322 | the job of an export, or a refusal |
| JobForms.FlatJobArgs | cmd/mailarchive/main.go:1526-1578 | the flat form's arguments are its settings printed |
| JobForms.FlatIsTheSame | cmd/mailarchive/main.go:1526-1578 | the flat form parses to the "--" form's job exactly when no log is asked for and every input is the same path when it is split and trimmed again |
| JobForms.FlatOfPlain | cmd/mailarchive/main.go:1526-1578 | with plain positionals exactly when no log is asked for |
| JobExamples.PlainEnvOk | cmd/mailarchive/main.go:1580-1588 | what is assumed of a platform can be met |
| JobExamples.ReadAgain | cmd/mailarchive/job.go:234-322 | there, an export of one path from the root is a fixed point exactly when the path is one piece, and its command is accepted in any case |
| JobExamples.FlatAgain | cmd/mailarchive/main.go:1526-1578 | and its flat form is its job exactly then, and never with a log |
| JobExamples.ExamplesDiffer | cmd/mailarchive/job.go:234-322 | a comma, a no-break space and a log: accepted, and another job |
| JobForms.VerbReparses | cmd/mailarchive/job.go:434-480 | reindex and verify jobs are a fixed point of parsing |
| JobForms.VerbMeans | cmd/mailarchive/job.go:434-480 | a reindex or verify is a job exactly when it has a folder, no control character and no full verification, and its command asks for what was asked for, unattended |
| JobForms.JobReparses | cmd/mailarchive/job.go:184-482 | every accepted export, reindex or verify job is a fixed point of parsing its command |

## Left out

- Times on lines and in markers, the marker's wording beyond run id, word, counts and reason id, every printed text beyond what an exit claims, and exit codes.
- LedgerCut.SealedBytes: takes a time on a line at one length for a whole history, whatever it is; times of 20 to 35 bytes move the cut by at most a part. Journal lines, which name no parts, are far below it.
- Unreadable run records, which the backfill skips (internal/app/copyexport_final.go:1110-1113); the reconciler's own journal lines, which are written outside the ledger's mutex.
- A marker that cannot be read counts as one without a run id, as in the code.
- The delete verb's phase order is that of its own run; the remove-from-list verb (phaseFinishing) has its guarded section but no run of its own. A timed-out close or remove is a removal that failed.
- ExportCheck.CheckExport: models neither the confirmation of the folder's identity, nor where the sealed fingerprint is looked up, nor the remedy's words.
- Presence.CheckMessage: does not model how an attachment's name is spelled in its note.
- Sorting is by a function with the standard library's promise, not the library's algorithm.
- Folder names: sanitising, reserved names and 8.3 aliases are inside the naming parameters.
- NamerEngine.StemFits: the path budget is judged with the shortest digest, as in the code, so a longer digest may pass it.
- ArchiveBuild.Build: leaves out mailbox labels, the stripping of control characters from names, and which of several faults is met first, which depends on the manifest's order.
- Deflate, the zip writer and the zip reader are parameters; an entry's stream yields the same data each time it is read.
- Derived files of a message (readable copies, extracted attachments) and their notes are not part of MessageFiles; an append or removal that the volume leaves half done is not modelled.
- Breaker: the probe's HTTP answers are reduced to the seven cases the code tells apart; header stalls, which only word a reason, are left out, and so is the stop asked for before a run has its watch.
- The graph job, which reads secrets and token caches; the refusal texts of jobs; `-rebuild` of a reindex and arguments after the flags of a reindex or verify, which the code parses and drops, are not in their jobs here either.
- Jobs.CommandReparsesExactly: assumes Unix paths for its second half, and a working directory without control characters.
